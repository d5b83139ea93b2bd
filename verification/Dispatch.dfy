/** Inbound routing: one consumer, one task per message, and a bounded queue per session through which
    later messages reach the turn that is already running.

    The protocol is a transition system whose steps are the stretches of code between two suspension
    points. Any interleaving of the steps is a run. */
module Dispatch {
  import opened Messages
  import Injections

  type Key = string

  /** What the consumer does with a message on its own, before any session is involved. */
  datatype Kind = Control | Priority | Dispatchable | Chat

  /** `serial` identifies a message; `agentId` and `override` are "" when absent. */
  datatype Inbound = Inbound(serial: nat, channel: string, chatId: string, agentId: string, override: string, kind: Kind)

  /** `gate` is None when concurrency is unlimited. */
  datatype Config = Config(unified: bool, gate: Option<nat>, busCap: nat)

  const PENDING_CAP: nat := 20
  const INJECTIONS_PER_CYCLE: nat := Injections.LIMIT
  const INJECTION_CYCLES: nat := Injections.CYCLES
  const UNIFIED_SESSION_KEY: Key := "unified:default"

  // ----- Session keys -----

  function SessionKey(m: Inbound): Key {
    if m.override != "" then m.override else m.channel + ":" + m.chatId
  }

  function EffectiveKey(c: Config, m: Inbound): Key {
    if m.override != "" then m.override
    else if m.agentId != "" then m.channel + ":" + m.chatId + "#" + m.agentId
    else if c.unified then UNIFIED_SESSION_KEY
    else SessionKey(m)
  }

  /** The message as a pending queue or a task holds it. */
  function Pinned(c: Config, m: Inbound): Inbound {
    if EffectiveKey(c, m) != SessionKey(m) then m.(override := EffectiveKey(c, m)) else m
  }

  /** A message keeps its session however often it is put back on the bus. */
  lemma {:induction false} PinningKeepsTheKey(c: Config, m: Inbound)
    ensures EffectiveKey(c, Pinned(c, m)) == EffectiveKey(c, m)
    ensures Pinned(c, Pinned(c, m)) == Pinned(c, m)
    ensures Pinned(c, m).serial == m.serial
  {
    assert |m.channel + ":" + m.chatId| > 0;
  }

  // ----- State -----

  datatype Stage =
    | Created    // the task exists, its body has not begun
    | Waiting    // for the session lock
    | AtGate     // holds the session lock, waits for the gate
    | Turn       // inside both, its queue is published
    | Draining   // inside both, putting leftovers back on the bus
    | Done

  /** `routed`, `injected`, `republished` and `lost` record what happened to messages put into `queue`. */
  datatype Task = Task(
    msg: Inbound, key: Key, stage: Stage, lock: nat,
    queue: seq<Inbound>, routed: seq<Inbound>, injected: seq<Inbound>, republished: seq<Inbound>, lost: seq<Inbound>,
    cycles: nat, cancelling: bool, stopped: bool)

  /** `locks` is the weak dictionary, `holders` says which task holds which lock, `queues` which task
      published the queue of a session, `active` which tasks /stop knows; `permits` is the gate's
      counter. `arrived` records what channels published, `handled` what the consumer answered itself, and
      `served` the messages that turns received, in that order. */
  datatype State = State(
    bus: seq<Inbound>, hand: Option<Inbound>, tasks: seq<Task>,
    locks: map<Key, nat>, nextLock: nat, holders: map<nat, nat>, permits: nat,
    queues: map<Key, nat>, active: map<Key, seq<nat>>,
    handled: seq<Inbound>, arrived: seq<Inbound>, served: seq<Inbound>)

  datatype Label =
    | Publish(msg: Inbound)
    | Take
    | Route
    | Start(t: nat)
    | Acquire(t: nat)
    | PassGate(t: nat)
    | Inject(t: nat)
    | Leave(t: nat)
    | Resume(t: nat)
    | Finish(t: nat)
    | Stop(key: Key)
    | Cancel(t: nat)       // any other cancellation: a timed-out wait, shutdown
    | Deliver(t: nat)      // the task sees its cancellation
    | Reap(t: nat)         // done callback
    | Collect(key: Key)    // the weak dictionary drops an entry nobody refers to

  function Initial(c: Config): State {
    State([], None, [], map[], 0, map[], if c.gate.Some? then c.gate.value else 0, map[], map[], [], [], [])
  }

  /** The task waits for its turn and is going to get it. */
  predicate Queued(t: Task) {
    (t.stage.Created? || t.stage.Waiting? || t.stage.AtGate?) && !t.cancelling
  }

  /** The body has begun and is not over: the task refers to its lock. */
  predicate Begun(g: Stage) { g.Waiting? || g.AtGate? || g.Turn? || g.Draining? }

  predicate Locked(g: Stage) { g.AtGate? || g.Turn? || g.Draining? }

  predicate Inside(g: Stage) { g.Turn? || g.Draining? }

  function Put(s: State, t: nat, task: Task): State
    requires t < |s.tasks|
  {
    s.(tasks := s.tasks[t := task])
  }

  function ActiveOf(s: State, key: Key): seq<nat> {
    if key in s.active then s.active[key] else []
  }

  // ----- Steps -----

  function NewTask(c: Config, s: State, m: Inbound): State {
    var key := EffectiveKey(c, m);
    s.(hand := None,
       tasks := s.tasks + [Task(m, key, Created, 0, [], [], [], [], [], 0, false, false)],
       active := s.active[key := ActiveOf(s, key) + [|s.tasks|]])
  }

  function Enqueue(s: State, t: nat, m: Inbound): State
    requires t < |s.tasks|
  {
    var task := s.tasks[t];
    Put(s, t, task.(queue := task.queue + [m], routed := task.routed + [m])).(hand := None)
  }

  /** The consumer answers the message itself. */
  predicate Handles(c: Config, s: State, m: Inbound) {
    m.kind.Control? || m.kind.Priority? || (m.kind.Dispatchable? && EffectiveKey(c, m) in s.queues)
  }

  /** A message for the model, or a command that may wait for one. */
  predicate Conversational(m: Inbound) { m.kind.Dispatchable? || m.kind.Chat? }

  /** The message joins the turn that its session is in. */
  predicate Joins(c: Config, s: State, m: Inbound) {
    var key := EffectiveKey(c, m);
    && !Handles(c, s, m)
    && key in s.queues && s.queues[key] < |s.tasks| && |s.tasks[s.queues[key]].queue| < PENDING_CAP
  }

  function Routed(c: Config, s: State, m: Inbound): State {
    if Handles(c, s, m) then s.(hand := None, handled := s.handled + [m])
    else if Joins(c, s, m) then Enqueue(s, s.queues[EffectiveKey(c, m)], Pinned(c, m))
    else NewTask(c, s, m)
  }

  /** The task looks its lock up, or makes one if the dictionary has none. */
  function Started(c: Config, s: State, t: nat): State
    requires t < |s.tasks|
  {
    var task := s.tasks[t];
    var key := EffectiveKey(c, task.msg);
    var lock := if key in s.locks then s.locks[key] else s.nextLock;
    Put(s, t, task.(msg := Pinned(c, task.msg), stage := Waiting, lock := lock)).(
      locks := s.locks[key := lock],
      nextLock := if key in s.locks then s.nextLock else s.nextLock + 1)
  }

  /** Leftovers go back to the bus until one does not fit. */
  function Republish(c: Config, s: State, t: nat): State
    requires t < |s.tasks| && |s.bus| <= c.busCap
  {
    var task := s.tasks[t];
    var n := Injections.Min(|task.queue|, c.busCap - |s.bus|);
    Put(s, t, task.(queue := task.queue[n..], republished := task.republished + task.queue[..n])).(
      bus := s.bus + task.queue[..n])
  }

  /** The end of a turn: the queue is withdrawn if it is the published one, then drained. */
  function Left(c: Config, s: State, t: nat): State
    requires t < |s.tasks| && |s.bus| <= c.busCap
  {
    var task := s.tasks[t];
    var own := task.key in s.queues && s.queues[task.key] == t;
    var withdrawn := Put(s, t, task.(stage := Draining, cancelling := false)).(
      queues := if own then s.queues - {task.key} else s.queues);
    Republish(c, withdrawn, t)
  }

  function Released(c: Config, s: State, t: nat): State
    requires t < |s.tasks|
  {
    var task := s.tasks[t];
    var open := Put(s, t, task.(stage := Done)).(holders := if Locked(task.stage) then s.holders - {task.lock} else s.holders);
    if Inside(task.stage) && c.gate.Some? then open.(permits := s.permits + 1) else open
  }

  /** A cancellation ends a task that is not in its turn; leftovers that it still held are gone. */
  function Cancelled(c: Config, s: State, t: nat): State
    requires t < |s.tasks| && |s.bus| <= c.busCap
  {
    var task := s.tasks[t];
    if task.stage.Turn? then Left(c, s, t)
    else Released(c, Put(s, t, task.(cancelling := false, lost := task.lost + task.queue, queue := [])), t)
  }

  function Without(ids: seq<nat>, t: nat): seq<nat> {
    if ids == [] then [] else if ids[0] == t then ids[1..] else [ids[0]] + Without(ids[1..], t)
  }

  /** A task that is over cannot be cancelled. */
  function Asked(task: Task): Task {
    if task.stage.Done? then task else task.(cancelling := true, stopped := true)
  }

  function AskedAll(tasks: seq<Task>, ids: seq<nat>): seq<Task> {
    seq(|tasks|, i requires 0 <= i < |tasks| => if i in ids then Asked(tasks[i]) else tasks[i])
  }

  /** /stop asks every task that the session's list names. */
  function Stopped(s: State, key: Key): State {
    s.(active := s.active - {key}, tasks := AskedAll(s.tasks, ActiveOf(s, key)))
  }

  predicate At(s: State, t: nat, g: Stage) {
    t < |s.tasks| && s.tasks[t].stage == g
  }

  predicate Enabled(c: Config, s: State, l: Label) {
    match l
    case Publish(m) => |s.bus| < c.busCap
    case Take => s.hand.None? && s.bus != []
    case Route => s.hand.Some?
    case Start(t) => At(s, t, Created)
    case Acquire(t) => At(s, t, Waiting) && s.tasks[t].lock !in s.holders
    case PassGate(t) => At(s, t, AtGate) && (c.gate.None? || s.permits > 0)
    case Inject(t) => At(s, t, Turn) && s.tasks[t].queue != [] && s.tasks[t].cycles < INJECTION_CYCLES
    case Leave(t) => At(s, t, Turn) && |s.bus| <= c.busCap
    case Resume(t) => At(s, t, Draining) && s.tasks[t].queue != [] && |s.bus| < c.busCap
    case Finish(t) => At(s, t, Draining) && s.tasks[t].queue == []
    case Stop(_) => true
    case Cancel(t) => t < |s.tasks| && !s.tasks[t].stage.Done?
    case Deliver(t) => t < |s.tasks| && !s.tasks[t].stage.Done? && s.tasks[t].cancelling && |s.bus| <= c.busCap
    case Reap(t) => At(s, t, Done)
    case Collect(key) =>
      key in s.locks && forall t | 0 <= t < |s.tasks| :: Begun(s.tasks[t].stage) ==> s.tasks[t].lock != s.locks[key]
  }

  function Apply(c: Config, s: State, l: Label): State
    requires Enabled(c, s, l)
  {
    match l
    case Publish(m) => s.(bus := s.bus + [m], arrived := s.arrived + [m])
    case Take => s.(bus := s.bus[1..], hand := Some(s.bus[0]))
    case Route => Routed(c, s, s.hand.value)
    case Start(t) => Started(c, s, t)
    case Acquire(t) => Put(s, t, s.tasks[t].(stage := AtGate)).(holders := s.holders[s.tasks[t].lock := t])
    case PassGate(t) =>
      Put(s, t, s.tasks[t].(stage := Turn, queue := [])).(
        queues := s.queues[s.tasks[t].key := t],
        served := s.served + [s.tasks[t].msg],
        permits := if c.gate.Some? then s.permits - 1 else s.permits)
    case Inject(t) =>
      var task := s.tasks[t];
      var n := Injections.Min(INJECTIONS_PER_CYCLE, |task.queue|);
      Put(s, t, task.(queue := task.queue[n..], injected := task.injected + task.queue[..n], cycles := task.cycles + 1)).(
        served := s.served + task.queue[..n])
    case Leave(t) => Left(c, s, t)
    case Resume(t) => Republish(c, s, t)
    case Finish(t) => Released(c, s, t)
    case Stop(key) => Stopped(s, key)
    case Cancel(t) => Put(s, t, s.tasks[t].(cancelling := true))
    case Deliver(t) => Cancelled(c, s, t)
    case Reap(t) =>
      var key := s.tasks[t].key;
      if key in s.active then s.(active := s.active[key := Without(s.active[key], t)]) else s
    case Collect(key) => s.(locks := s.locks - {key})
  }

  /** `states` is a run from the initial state along `labels`. */
  predicate Run(c: Config, states: seq<State>, labels: seq<Label>) {
    && |states| == |labels| + 1
    && states[0] == Initial(c)
    && forall k | 0 <= k < |labels| :: Enabled(c, states[k], labels[k]) && states[k + 1] == Apply(c, states[k], labels[k])
  }

  // ----- Fairness -----

  /** No task of the session made before `t` still waits for its turn. */
  predicate First(s: State, t: nat)
    requires t < |s.tasks|
  {
    forall u | 0 <= u < t :: s.tasks[u].key == s.tasks[t].key ==> !Queued(s.tasks[u])
  }

  /** What the event loop adds: a lock goes to the tasks that ask for it in the order in which they were made,
      and a task that was cancelled gets neither lock nor gate. `serial` is the place in the order of arrival. */
  predicate Fair(s: State, l: Label) {
    match l
    case Publish(m) => m.serial == |s.arrived|
    case Acquire(t) => t < |s.tasks| && First(s, t) && !s.tasks[t].cancelling
    case PassGate(t) => t < |s.tasks| && !s.tasks[t].cancelling
    case _ => true
  }

  predicate FairRun(c: Config, states: seq<State>, labels: seq<Label>) {
    Run(c, states, labels) && forall k | 0 <= k < |labels| :: Fair(states[k], labels[k])
  }

  // ----- Locks -----

  /** Every task that has begun and is not over refers to the lock that its session's entry holds, and
      the holder table agrees with the tasks. */
  ghost predicate LockInv(c: Config, s: State) {
    && (forall t | 0 <= t < |s.tasks| :: s.tasks[t].key == EffectiveKey(c, s.tasks[t].msg))
    && (forall t | 0 <= t < |s.tasks| :: Begun(s.tasks[t].stage) ==>
          s.tasks[t].key in s.locks && s.locks[s.tasks[t].key] == s.tasks[t].lock)
    && (forall t | 0 <= t < |s.tasks| :: Locked(s.tasks[t].stage) ==>
          s.tasks[t].lock in s.holders && s.holders[s.tasks[t].lock] == t)
    && (forall l | l in s.holders :: s.holders[l] < |s.tasks|
          && Locked(s.tasks[s.holders[l]].stage) && s.tasks[s.holders[l]].lock == l)
  }

  /** Nothing that the lock invariant speaks of differs. */
  ghost predicate SameLocking(s: State, t: State) {
    && |s.tasks| == |t.tasks| && s.locks == t.locks && s.holders == t.holders
    && forall i | 0 <= i < |s.tasks| ::
         && t.tasks[i].key == s.tasks[i].key && t.tasks[i].msg == s.tasks[i].msg && t.tasks[i].lock == s.tasks[i].lock
         && Begun(t.tasks[i].stage) == Begun(s.tasks[i].stage) && Locked(t.tasks[i].stage) == Locked(s.tasks[i].stage)
  }

  lemma {:induction false} LockFrame(c: Config, s: State, t: State)
    requires LockInv(c, s) && SameLocking(s, t)
    ensures LockInv(c, t)
  {
    forall l | l in t.holders
      ensures t.holders[l] < |t.tasks| && Locked(t.tasks[t.holders[l]].stage) && t.tasks[t.holders[l]].lock == l
    {
    }
  }

  lemma {:induction false} LockStart(c: Config, s: State, t: nat)
    requires LockInv(c, s) && At(s, t, Created)
    ensures LockInv(c, Started(c, s, t))
  {
    PinningKeepsTheKey(c, s.tasks[t].msg);
  }

  lemma {:induction false} LockAcquire(c: Config, s: State, t: nat)
    requires LockInv(c, s) && Enabled(c, s, Acquire(t))
    ensures LockInv(c, Apply(c, s, Acquire(t)))
  {
  }

  lemma {:induction false} LockRelease(c: Config, s: State, t: nat)
    requires LockInv(c, s) && t < |s.tasks|
    ensures LockInv(c, Released(c, s, t))
  {
  }

  lemma {:induction false} LockNewTask(c: Config, s: State, m: Inbound)
    requires LockInv(c, s)
    ensures LockInv(c, NewTask(c, s, m))
  {
  }

  lemma {:induction false} LockCollect(c: Config, s: State, key: Key)
    requires LockInv(c, s) && Enabled(c, s, Collect(key))
    ensures LockInv(c, Apply(c, s, Collect(key)))
  {
  }

  lemma {:induction false} LockRoute(c: Config, s: State)
    requires LockInv(c, s) && s.hand.Some?
    ensures LockInv(c, Routed(c, s, s.hand.value))
  {
    var m := s.hand.value;
    if Handles(c, s, m) || Joins(c, s, m) { LockFrame(c, s, Routed(c, s, m)); } else { LockNewTask(c, s, m); }
  }

  lemma {:induction false} LockDeliver(c: Config, s: State, t: nat)
    requires LockInv(c, s) && Enabled(c, s, Deliver(t))
    ensures LockInv(c, Cancelled(c, s, t))
  {
    if s.tasks[t].stage.Turn? {
      LockFrame(c, s, Left(c, s, t));
    } else {
      var put := Put(s, t, s.tasks[t].(cancelling := false, lost := s.tasks[t].lost + s.tasks[t].queue, queue := []));
      LockFrame(c, s, put);
      LockRelease(c, put, t);
    }
  }

  lemma {:induction false} QuietTurnSteps(c: Config, s: State, l: Label)
    requires Enabled(c, s, l) && (l.PassGate? || l.Inject? || l.Leave? || l.Resume?)
    ensures SameLocking(s, Apply(c, s, l))
  {
  }

  lemma {:induction false} QuietSteps(c: Config, s: State, l: Label)
    requires Enabled(c, s, l) && (l.Publish? || l.Take? || l.Stop? || l.Cancel? || l.Reap?)
    ensures SameLocking(s, Apply(c, s, l))
  {
  }

  lemma {:induction false} LockStep(c: Config, s: State, l: Label)
    requires LockInv(c, s) && Enabled(c, s, l)
    ensures LockInv(c, Apply(c, s, l))
  {
    match l
    case Route => LockRoute(c, s);
    case Start(t) => LockStart(c, s, t);
    case Acquire(t) => LockAcquire(c, s, t);
    case Finish(t) => LockRelease(c, s, t);
    case Collect(key) => LockCollect(c, s, key);
    case Deliver(t) => LockDeliver(c, s, t);
    case _ =>
      if l.PassGate? || l.Inject? || l.Leave? || l.Resume? { QuietTurnSteps(c, s, l); } else { QuietSteps(c, s, l); }
      LockFrame(c, s, Apply(c, s, l));
  }

  // ----- Published queues -----

  /** A session's published queue belongs to the task that is in its turn, and to no other. */
  ghost predicate QueueInv(s: State) {
    && (forall t | 0 <= t < |s.tasks| :: s.tasks[t].stage.Turn? ==>
          s.tasks[t].key in s.queues && s.queues[s.tasks[t].key] == t)
    && (forall k | k in s.queues :: s.queues[k] < |s.tasks|
          && s.tasks[s.queues[k]].stage.Turn? && s.tasks[s.queues[k]].key == k)
  }

  ghost predicate SamePublishing(s: State, t: State) {
    && |s.tasks| == |t.tasks| && s.queues == t.queues
    && forall i | 0 <= i < |s.tasks| ::
         t.tasks[i].key == s.tasks[i].key && t.tasks[i].stage.Turn? == s.tasks[i].stage.Turn?
  }

  lemma {:induction false} QueueFrame(s: State, t: State)
    requires QueueInv(s) && SamePublishing(s, t)
    ensures QueueInv(t)
  {
    forall k | k in t.queues
      ensures t.queues[k] < |t.tasks| && t.tasks[t.queues[k]].stage.Turn? && t.tasks[t.queues[k]].key == k
    {
    }
  }

  lemma {:induction false} QueuePublish(c: Config, s: State, t: nat)
    requires LockInv(c, s) && QueueInv(s) && Enabled(c, s, PassGate(t))
    ensures QueueInv(Apply(c, s, PassGate(t)))
  {
  }

  lemma {:induction false} QueueWithdraw(c: Config, s: State, t: nat)
    requires QueueInv(s) && Enabled(c, s, Leave(t))
    ensures QueueInv(Left(c, s, t))
  {
  }

  lemma {:induction false} QueueRoute(c: Config, s: State)
    requires QueueInv(s) && s.hand.Some?
    ensures QueueInv(Routed(c, s, s.hand.value))
  {
    var m := s.hand.value;
    if Handles(c, s, m) || Joins(c, s, m) { QueueFrame(s, Routed(c, s, m)); }
  }

  lemma {:induction false} QuietQueues(c: Config, s: State, l: Label)
    requires Enabled(c, s, l) && (l.Start? || l.Acquire? || l.Inject? || l.Resume? || l.Finish?)
    ensures SamePublishing(s, Apply(c, s, l))
  {
  }

  lemma {:induction false} QuietQueuesToo(c: Config, s: State, l: Label)
    requires Enabled(c, s, l) && (l.Publish? || l.Take? || l.Stop? || l.Cancel? || l.Reap? || l.Collect?)
    ensures SamePublishing(s, Apply(c, s, l))
  {
  }

  lemma {:induction false} QueueDeliver(c: Config, s: State, t: nat)
    requires QueueInv(s) && Enabled(c, s, Deliver(t))
    ensures QueueInv(Cancelled(c, s, t))
  {
    if s.tasks[t].stage.Turn? { QueueWithdraw(c, s, t); } else { QueueFrame(s, Cancelled(c, s, t)); }
  }

  lemma {:induction false} QueueStep(c: Config, s: State, l: Label)
    requires LockInv(c, s) && QueueInv(s) && Enabled(c, s, l)
    ensures QueueInv(Apply(c, s, l))
  {
    match l
    case Route => QueueRoute(c, s);
    case PassGate(t) => QueuePublish(c, s, t);
    case Leave(t) => QueueWithdraw(c, s, t);
    case Deliver(t) => QueueDeliver(c, s, t);
    case _ =>
      if l.Start? || l.Acquire? || l.Inject? || l.Resume? || l.Finish? { QuietQueues(c, s, l); } else { QuietQueuesToo(c, s, l); }
      QueueFrame(s, Apply(c, s, l));
  }

  // ----- What becomes of queued messages -----

  /** Messages leave a queue only at its front: first into the turn, three at a time and at most five
      times, then back to the bus; only a cancelled drain loses any. */
  ghost predicate Accounted(c: Config, task: Task) {
    && |task.queue| <= PENDING_CAP
    && task.cycles <= INJECTION_CYCLES && |task.injected| <= INJECTIONS_PER_CYCLE * task.cycles
    && task.routed == task.injected + task.republished + task.lost + task.queue
    && (task.stage.Created? || task.stage.Waiting? || task.stage.AtGate? ==> task.routed == [])
    && (!task.stage.Draining? && !task.stage.Done? ==> task.republished == [])
    && (!task.stage.Done? ==> task.lost == [])
    && (task.stage.Done? ==> task.queue == [])
    && forall i | 0 <= i < |task.routed| :: EffectiveKey(c, task.routed[i]) == task.key && Conversational(task.routed[i])
  }

  ghost predicate AccountInv(c: Config, s: State) {
    forall t | 0 <= t < |s.tasks| :: Accounted(c, s.tasks[t])
  }

  lemma {:induction false} AccountPut(c: Config, s: State, r: State, t: nat, task: Task)
    requires AccountInv(c, s) && t < |s.tasks| && Accounted(c, task) && r.tasks == s.tasks[t := task]
    ensures AccountInv(c, r)
  {
  }

  lemma {:induction false} AccountRestage(c: Config, task: Task, to: Stage)
    requires Accounted(c, task) && !task.stage.Done? && !to.Created? && !to.Waiting?
    requires to.AtGate? ==> task.stage.Waiting?
    requires to.Turn? ==> task.stage.AtGate?
    requires to.Done? ==> task.queue == []
    ensures Accounted(c, task.(stage := to))
  {
  }

  lemma {:induction false} AccountRepublish(c: Config, task: Task, n: nat)
    requires Accounted(c, task) && task.stage.Draining? && n <= |task.queue|
    ensures Accounted(c, task.(queue := task.queue[n..], republished := task.republished + task.queue[..n]))
  {
    assert task.queue == task.queue[..n] + task.queue[n..];
    assert task.routed == task.injected + (task.republished + task.queue[..n]) + task.lost + task.queue[n..];
  }

  lemma {:induction false} AccountInject(c: Config, task: Task, n: nat)
    requires Accounted(c, task) && task.stage.Turn? && n <= |task.queue| && n <= INJECTIONS_PER_CYCLE && task.cycles < INJECTION_CYCLES
    ensures Accounted(c, task.(queue := task.queue[n..], injected := task.injected + task.queue[..n], cycles := task.cycles + 1))
  {
    assert task.queue == task.queue[..n] + task.queue[n..];
    assert task.routed == (task.injected + task.queue[..n]) + task.republished + task.lost + task.queue[n..];
  }

  lemma {:induction false} AccountEnqueue(c: Config, task: Task, m: Inbound)
    requires Accounted(c, task) && task.stage.Turn? && |task.queue| < PENDING_CAP && EffectiveKey(c, m) == task.key && Conversational(m)
    ensures Accounted(c, task.(queue := task.queue + [m], routed := task.routed + [m]))
  {
    assert task.routed + [m] == task.injected + task.republished + task.lost + (task.queue + [m]);
  }

  lemma {:induction false} AccountLose(c: Config, task: Task)
    requires Accounted(c, task) && !task.stage.Turn? && !task.stage.Done?
    ensures Accounted(c, task.(cancelling := false, lost := task.lost + task.queue, queue := [], stage := Done))
  {
    assert task.routed == task.injected + task.republished + (task.lost + task.queue) + [];
  }

  lemma {:induction false} AccountLeft(c: Config, s: State, t: nat)
    requires AccountInv(c, s) && At(s, t, Turn) && |s.bus| <= c.busCap
    ensures AccountInv(c, Left(c, s, t))
  {
    var task := s.tasks[t].(stage := Draining, cancelling := false);
    var n := Injections.Min(|task.queue|, c.busCap - |s.bus|);
    assert Accounted(c, s.tasks[t]);
    AccountRestage(c, s.tasks[t], Draining);
    AccountRepublish(c, task, n);
    AccountPut(c, s, Left(c, s, t), t, task.(queue := task.queue[n..], republished := task.republished + task.queue[..n]));
  }

  lemma {:induction false} AccountDeliver(c: Config, s: State, t: nat)
    requires AccountInv(c, s) && Enabled(c, s, Deliver(t))
    ensures AccountInv(c, Cancelled(c, s, t))
  {
    if s.tasks[t].stage.Turn? {
      AccountLeft(c, s, t);
    } else {
      AccountLose(c, s.tasks[t]);
      AccountPut(c, s, Cancelled(c, s, t), t, s.tasks[t].(cancelling := false, lost := s.tasks[t].lost + s.tasks[t].queue, queue := [], stage := Done));
    }
  }

  lemma {:induction false} AccountRoute(c: Config, s: State)
    requires LockInv(c, s) && QueueInv(s) && AccountInv(c, s) && s.hand.Some?
    ensures AccountInv(c, Routed(c, s, s.hand.value))
  {
    var m := s.hand.value;
    if Joins(c, s, m) {
      var t := s.queues[EffectiveKey(c, m)];
      var task := s.tasks[t];
      assert Accounted(c, task);
      PinningKeepsTheKey(c, m);
      AccountEnqueue(c, task, Pinned(c, m));
      AccountPut(c, s, Routed(c, s, m), t, task.(queue := task.queue + [Pinned(c, m)], routed := task.routed + [Pinned(c, m)]));
    }
  }

  lemma {:induction false} AccountTurnSteps(c: Config, s: State, l: Label)
    requires AccountInv(c, s) && Enabled(c, s, l) && (l.Inject? || l.Resume?)
    ensures AccountInv(c, Apply(c, s, l))
  {
    assert Accounted(c, s.tasks[l.t]);
    match l
    case Inject(t) => AccountInject(c, s.tasks[t], Injections.Min(INJECTIONS_PER_CYCLE, |s.tasks[t].queue|));
    case Resume(t) => AccountRepublish(c, s.tasks[t], Injections.Min(|s.tasks[t].queue|, c.busCap - |s.bus|));
  }

  lemma {:induction false} AccountStageSteps(c: Config, s: State, l: Label)
    requires AccountInv(c, s) && Enabled(c, s, l) && (l.PassGate? || l.Acquire? || l.Finish?)
    ensures AccountInv(c, Apply(c, s, l))
  {
    assert Accounted(c, s.tasks[l.t]);
    AccountRestage(c, s.tasks[l.t], if l.PassGate? then Turn else if l.Acquire? then AtGate else Done);
  }

  lemma {:induction false} AccountQuiet(c: Config, s: State, l: Label)
    requires AccountInv(c, s) && Enabled(c, s, l)
    requires l.Publish? || l.Take? || l.Start? || l.Stop? || l.Cancel? || l.Reap? || l.Collect?
    ensures AccountInv(c, Apply(c, s, l))
  {
  }

  lemma {:induction false} AccountStep(c: Config, s: State, l: Label)
    requires LockInv(c, s) && QueueInv(s) && AccountInv(c, s) && Enabled(c, s, l)
    ensures AccountInv(c, Apply(c, s, l))
  {
    match l
    case Route => AccountRoute(c, s);
    case Leave(t) => AccountLeft(c, s, t);
    case Deliver(t) => AccountDeliver(c, s, t);
    case _ =>
      if l.Inject? || l.Resume? { AccountTurnSteps(c, s, l); }
      else if l.PassGate? || l.Acquire? || l.Finish? { AccountStageSteps(c, s, l); }
      else { AccountQuiet(c, s, l); }
  }

  // ----- The gate and the bus -----

  function InsideCount(tasks: seq<Task>): nat {
    if tasks == [] then 0
    else InsideCount(tasks[..|tasks| - 1]) + (if Inside(tasks[|tasks| - 1].stage) then 1 else 0)
  }

  lemma {:induction false} InsidePut(tasks: seq<Task>, t: nat, task: Task)
    requires t < |tasks|
    ensures InsideCount(tasks[t := task]) + (if Inside(tasks[t].stage) then 1 else 0)
            == InsideCount(tasks) + (if Inside(task.stage) then 1 else 0)
  {
    var n := |tasks| - 1;
    if t == n {
      assert tasks[t := task][..n] == tasks[..n];
    } else {
      assert tasks[t := task][..n] == tasks[..n][t := task];
      InsidePut(tasks[..n], t, task);
    }
  }

  lemma {:induction false} InsideSame(a: seq<Task>, b: seq<Task>)
    requires |a| == |b| && forall i | 0 <= i < |a| :: b[i].stage == a[i].stage
    ensures InsideCount(a) == InsideCount(b)
  {
    if a != [] { InsideSame(a[..|a| - 1], b[..|b| - 1]); }
  }

  lemma {:induction false} SomeInside(tasks: seq<Task>) returns (t: nat)
    requires InsideCount(tasks) > 0
    ensures t < |tasks| && Inside(tasks[t].stage)
  {
    t := |tasks| - 1;
    if !Inside(tasks[t].stage) { t := SomeInside(tasks[..t]); }
  }

  /** The gate's counter is what the tasks inside it leave over. */
  predicate GateInv(c: Config, s: State) {
    && |s.bus| <= c.busCap
    && (c.gate.Some? ==> s.permits + InsideCount(s.tasks) == c.gate.value)
  }

  lemma {:induction false} GatePut(c: Config, s: State, t: nat, task: Task, r: State)
    requires GateInv(c, s) && t < |s.tasks| && r.tasks == s.tasks[t := task] && |r.bus| <= c.busCap
    requires c.gate.Some? ==>
      r.permits + (if Inside(task.stage) then 1 else 0) == s.permits + (if Inside(s.tasks[t].stage) then 1 else 0)
    ensures GateInv(c, r)
  {
    InsidePut(s.tasks, t, task);
  }

  lemma {:induction false} GateTaskSteps(c: Config, s: State, l: Label)
    requires GateInv(c, s) && Enabled(c, s, l)
    requires l.Start? || l.Acquire? || l.PassGate? || l.Inject? || l.Cancel?
    ensures GateInv(c, Apply(c, s, l))
  {
    var r := Apply(c, s, l);
    GatePut(c, s, l.t, r.tasks[l.t], r);
  }

  lemma {:induction false} GateDrains(c: Config, s: State, l: Label)
    requires GateInv(c, s) && Enabled(c, s, l) && (l.Leave? || l.Resume?)
    ensures GateInv(c, Apply(c, s, l))
  {
    var r := Apply(c, s, l);
    GatePut(c, s, l.t, r.tasks[l.t], r);
  }

  lemma {:induction false} GateEnds(c: Config, s: State, l: Label)
    requires GateInv(c, s) && Enabled(c, s, l) && (l.Finish? || l.Deliver?)
    ensures GateInv(c, Apply(c, s, l))
  {
    var r := Apply(c, s, l);
    GatePut(c, s, l.t, r.tasks[l.t], r);
  }

  lemma {:induction false} GateRoute(c: Config, s: State)
    requires GateInv(c, s) && s.hand.Some?
    ensures GateInv(c, Routed(c, s, s.hand.value))
  {
    var m := s.hand.value;
    if Joins(c, s, m) {
      var t := s.queues[EffectiveKey(c, m)];
      InsidePut(s.tasks, t, Enqueue(s, t, Pinned(c, m)).tasks[t]);
    } else if !Handles(c, s, m) {
      assert NewTask(c, s, m).tasks[..|s.tasks|] == s.tasks;
    }
  }

  lemma {:induction false} GateStep(c: Config, s: State, l: Label)
    requires GateInv(c, s) && Enabled(c, s, l)
    ensures GateInv(c, Apply(c, s, l))
  {
    match l
    case Route => GateRoute(c, s);
    case Stop(key) => InsideSame(s.tasks, Stopped(s, key).tasks);
    case Publish(_) =>
    case Take =>
    case Reap(_) =>
    case Collect(_) =>
    case _ =>
      if l.Leave? || l.Resume? { GateDrains(c, s, l); }
      else if l.Finish? || l.Deliver? { GateEnds(c, s, l); }
      else { GateTaskSteps(c, s, l); }
  }

  // ----- What /stop reaches -----

  predicate Listed(s: State, t: nat)
    requires t < |s.tasks|
  {
    s.tasks[t].stage.Done? || s.tasks[t].stopped || t in ActiveOf(s, s.tasks[t].key)
  }

  predicate Below(ids: seq<nat>, n: nat) {
    forall i | 0 <= i < |ids| :: ids[i] < n
  }

  /** A task that is not over and was not reached by a /stop before is in its session's list, and the lists
      name tasks that exist. */
  ghost predicate ActiveInv(s: State) {
    && (forall t | 0 <= t < |s.tasks| :: Listed(s, t))
    && (forall k | k in s.active :: Below(s.active[k], |s.tasks|))
  }

  lemma {:induction false} WithoutIsBelow(ids: seq<nat>, t: nat, n: nat)
    requires Below(ids, n)
    ensures Below(Without(ids, t), n)
  {
    if ids != [] { WithoutIsBelow(ids[1..], t, n); }
  }

  lemma {:induction false} WithoutKeepsOthers(ids: seq<nat>, t: nat, u: nat)
    requires u in ids && u != t
    ensures u in Without(ids, t)
  {
    if ids[0] != u { WithoutKeepsOthers(ids[1..], t, u); }
  }

  lemma {:induction false} ActiveFrame(s: State, r: State)
    requires ActiveInv(s) && r.active == s.active && |r.tasks| == |s.tasks|
    requires forall i | 0 <= i < |s.tasks| :: r.tasks[i].key == s.tasks[i].key
               && (r.tasks[i].stage.Done? || !s.tasks[i].stage.Done?) && (r.tasks[i].stopped || !s.tasks[i].stopped)
    ensures ActiveInv(r)
  {
    forall t | 0 <= t < |r.tasks| ensures Listed(r, t) { assert Listed(s, t); }
  }

  lemma {:induction false} ActivePut(s: State, r: State, t: nat, task: Task)
    requires ActiveInv(s) && t < |s.tasks| && r.active == s.active && r.tasks == s.tasks[t := task]
    requires task.key == s.tasks[t].key && (task.stage.Done? || !s.tasks[t].stage.Done?) && task.stopped == s.tasks[t].stopped
    ensures ActiveInv(r)
  {
    ActiveFrame(s, r);
  }

  lemma {:induction false} ActiveNewTask(c: Config, s: State, m: Inbound)
    requires ActiveInv(s)
    ensures ActiveInv(NewTask(c, s, m))
  {
    var r := NewTask(c, s, m);
    forall t | 0 <= t < |r.tasks| ensures Listed(r, t) {
      if t < |s.tasks| { assert Listed(s, t); }
    }
    assert Below(ActiveOf(s, EffectiveKey(c, m)), |s.tasks|);
  }

  /** /stop asks every unfinished task of its session to stop. */
  lemma {:induction false} StopReachesEveryTask(s: State, key: Key)
    requires ActiveInv(s)
    ensures ActiveInv(Stopped(s, key))
    ensures forall t | 0 <= t < |s.tasks| && s.tasks[t].key == key && !s.tasks[t].stage.Done? :: Stopped(s, key).tasks[t].stopped
  {
    var r := Stopped(s, key);
    forall t | 0 <= t < |s.tasks|
      ensures Listed(r, t)
      ensures s.tasks[t].key == key && !s.tasks[t].stage.Done? ==> r.tasks[t].stopped
    {
      assert Listed(s, t);
    }
  }

  lemma {:induction false} ActiveReap(c: Config, s: State, t: nat)
    requires ActiveInv(s) && At(s, t, Done)
    ensures ActiveInv(Apply(c, s, Reap(t)))
  {
    var r := Apply(c, s, Reap(t));
    forall u | 0 <= u < |r.tasks| ensures Listed(r, u) {
      assert Listed(s, u);
      if u != t && u in ActiveOf(s, s.tasks[t].key) { WithoutKeepsOthers(ActiveOf(s, s.tasks[t].key), t, u); }
    }
    WithoutIsBelow(ActiveOf(s, s.tasks[t].key), t, |s.tasks|);
  }

  lemma {:induction false} ActiveTaskSteps(c: Config, s: State, l: Label)
    requires ActiveInv(s) && Enabled(c, s, l)
    requires l.Start? || l.Acquire? || l.PassGate? || l.Inject? || l.Cancel? || l.Leave? || l.Resume?
    ensures ActiveInv(Apply(c, s, l))
  {
    var r := Apply(c, s, l);
    ActivePut(s, r, l.t, r.tasks[l.t]);
  }

  lemma {:induction false} ActiveReleased(c: Config, s: State, t: nat)
    requires ActiveInv(s) && t < |s.tasks|
    ensures ActiveInv(Released(c, s, t))
  {
    ActivePut(s, Released(c, s, t), t, s.tasks[t].(stage := Done));
  }

  lemma {:induction false} ActiveDeliver(c: Config, s: State, t: nat)
    requires ActiveInv(s) && Enabled(c, s, Deliver(t))
    ensures ActiveInv(Cancelled(c, s, t))
  {
    var task := s.tasks[t];
    if task.stage.Turn? {
      ActivePut(s, Left(c, s, t), t, Left(c, s, t).tasks[t]);
    } else {
      var after := task.(cancelling := false, lost := task.lost + task.queue, queue := []);
      ActivePut(s, Put(s, t, after), t, after);
      ActiveReleased(c, Put(s, t, after), t);
    }
  }

  lemma {:induction false} ActiveConsumer(c: Config, s: State, l: Label)
    requires ActiveInv(s) && Enabled(c, s, l)
    requires l.Publish? || l.Take? || l.Collect? || l.Route?
    ensures ActiveInv(Apply(c, s, l))
  {
    if l.Route? && !Handles(c, s, s.hand.value) && !Joins(c, s, s.hand.value) {
      ActiveNewTask(c, s, s.hand.value);
    } else {
      ActiveFrame(s, Apply(c, s, l));
    }
  }

  lemma {:induction false} ActiveStep(c: Config, s: State, l: Label)
    requires ActiveInv(s) && Enabled(c, s, l)
    ensures ActiveInv(Apply(c, s, l))
  {
    match l
    case Stop(key) => StopReachesEveryTask(s, key);
    case Reap(t) => ActiveReap(c, s, t);
    case Finish(t) => ActiveReleased(c, s, t);
    case Deliver(t) => ActiveDeliver(c, s, t);
    case _ =>
      if l.Publish? || l.Take? || l.Collect? || l.Route? { ActiveConsumer(c, s, l); }
      else { ActiveTaskSteps(c, s, l); }
  }

  // ----- Conservation -----

  /** What must not change about a message: which one it is, and whose session it belongs to. */
  function Tag(c: Config, m: Inbound): (nat, Key) {
    (m.serial, EffectiveKey(c, m))
  }

  function One(c: Config, m: Inbound, p: (nat, Key)): nat {
    if Tag(c, m) == p then 1 else 0
  }

  /** How often a message is in a list. */
  function Tags(c: Config, ms: seq<Inbound>, p: (nat, Key)): nat {
    if ms == [] then 0 else Tags(c, ms[..|ms| - 1], p) + One(c, ms[|ms| - 1], p)
  }

  lemma {:induction false} TagsAppend(c: Config, a: seq<Inbound>, b: seq<Inbound>, p: (nat, Key))
    ensures Tags(c, a + b, p) == Tags(c, a, p) + Tags(c, b, p)
  {
    if b == [] {
      assert a + b == a;
    } else {
      assert (a + b)[..|a + b| - 1] == a + b[..|b| - 1];
      TagsAppend(c, a, b[..|b| - 1], p);
    }
  }

  lemma {:induction false} TagsSplit(c: Config, ms: seq<Inbound>, n: nat, p: (nat, Key))
    requires n <= |ms|
    ensures Tags(c, ms, p) == Tags(c, ms[..n], p) + Tags(c, ms[n..], p)
  {
    assert ms == ms[..n] + ms[n..];
    TagsAppend(c, ms[..n], ms[n..], p);
  }

  /** Everything a task accounts for: its own message, its queue, what its turn received, what it lost. */
  function Own(c: Config, task: Task, p: (nat, Key)): nat {
    One(c, task.msg, p) + Tags(c, task.queue, p) + Tags(c, task.injected, p) + Tags(c, task.lost, p)
  }

  function HeldBy(c: Config, tasks: seq<Task>, p: (nat, Key)): nat {
    if tasks == [] then 0 else HeldBy(c, tasks[..|tasks| - 1], p) + Own(c, tasks[|tasks| - 1], p)
  }

  function InHand(c: Config, s: State, p: (nat, Key)): nat {
    if s.hand.Some? then One(c, s.hand.value, p) else 0
  }

  function Places(c: Config, s: State, p: (nat, Key)): nat {
    Tags(c, s.bus, p) + InHand(c, s, p) + HeldBy(c, s.tasks, p) + Tags(c, s.handled, p)
  }

  predicate Conserved(c: Config, s: State, p: (nat, Key)) {
    Tags(c, s.arrived, p) == Places(c, s, p)
  }

  lemma {:induction false} HeldPut(c: Config, tasks: seq<Task>, t: nat, task: Task, p: (nat, Key))
    requires t < |tasks|
    ensures HeldBy(c, tasks[t := task], p) + Own(c, tasks[t], p) == HeldBy(c, tasks, p) + Own(c, task, p)
  {
    var n := |tasks| - 1;
    if t == n {
      assert tasks[t := task][..n] == tasks[..n];
    } else {
      assert tasks[t := task][..n] == tasks[..n][t := task];
      HeldPut(c, tasks[..n], t, task, p);
    }
  }

  lemma {:induction false} HeldSame(c: Config, a: seq<Task>, b: seq<Task>, p: (nat, Key))
    requires |a| == |b| && forall i | 0 <= i < |a| :: Own(c, b[i], p) == Own(c, a[i], p)
    ensures HeldBy(c, a, p) == HeldBy(c, b, p)
  {
    if a != [] { HeldSame(c, a[..|a| - 1], b[..|b| - 1], p); }
  }

  /** A step that moves nothing between tasks and the rest. */
  lemma {:induction false} PlacesPut(c: Config, s: State, r: State, t: nat, task: Task, p: (nat, Key))
    requires Conserved(c, s, p) && t < |s.tasks| && r.tasks == s.tasks[t := task]
    requires Own(c, task, p) == Own(c, s.tasks[t], p)
    requires r.bus == s.bus && r.hand == s.hand && r.handled == s.handled && r.arrived == s.arrived
    ensures Conserved(c, r, p)
  {
    HeldPut(c, s.tasks, t, task, p);
  }

  lemma {:induction false} PlacesRepublish(c: Config, s: State, t: nat, p: (nat, Key))
    requires Conserved(c, s, p) && t < |s.tasks| && |s.bus| <= c.busCap
    ensures Conserved(c, Republish(c, s, t), p)
  {
    var task := s.tasks[t];
    var n := Injections.Min(|task.queue|, c.busCap - |s.bus|);
    var after := task.(queue := task.queue[n..], republished := task.republished + task.queue[..n]);
    TagsSplit(c, task.queue, n, p);
    assert Own(c, task, p) == Own(c, after, p) + Tags(c, task.queue[..n], p);
    TagsAppend(c, s.bus, task.queue[..n], p);
    HeldPut(c, s.tasks, t, after, p);
  }

  lemma {:induction false} PlacesLeft(c: Config, s: State, t: nat, p: (nat, Key))
    requires Conserved(c, s, p) && t < |s.tasks| && |s.bus| <= c.busCap
    ensures Conserved(c, Left(c, s, t), p)
  {
    var task := s.tasks[t];
    var own := task.key in s.queues && s.queues[task.key] == t;
    var withdrawn := Put(s, t, task.(stage := Draining, cancelling := false)).(
      queues := if own then s.queues - {task.key} else s.queues);
    PlacesPut(c, s, withdrawn, t, withdrawn.tasks[t], p);
    PlacesRepublish(c, withdrawn, t, p);
  }

  lemma {:induction false} PlacesInject(c: Config, s: State, t: nat, p: (nat, Key))
    requires Conserved(c, s, p) && Enabled(c, s, Inject(t))
    ensures Conserved(c, Apply(c, s, Inject(t)), p)
  {
    var task, r := s.tasks[t], Apply(c, s, Inject(t));
    var n := Injections.Min(INJECTIONS_PER_CYCLE, |task.queue|);
    TagsSplit(c, task.queue, n, p);
    TagsAppend(c, task.injected, task.queue[..n], p);
    PlacesPut(c, s, r, t, r.tasks[t], p);
  }

  lemma {:induction false} PlacesDeliver(c: Config, s: State, t: nat, p: (nat, Key))
    requires Conserved(c, s, p) && Enabled(c, s, Deliver(t))
    ensures Conserved(c, Cancelled(c, s, t), p)
  {
    var task := s.tasks[t];
    if task.stage.Turn? {
      PlacesLeft(c, s, t, p);
    } else {
      var after := task.(cancelling := false, lost := task.lost + task.queue, queue := []);
      TagsAppend(c, task.lost, task.queue, p);
      assert Own(c, after, p) == Own(c, task, p);
      PlacesPut(c, s, Put(s, t, after), t, after, p);
      PlacesReleased(c, Put(s, t, after), t, p);
    }
  }

  lemma {:induction false} PlacesReleased(c: Config, s: State, t: nat, p: (nat, Key))
    requires Conserved(c, s, p) && t < |s.tasks|
    ensures Conserved(c, Released(c, s, t), p)
  {
    PlacesPut(c, s, Released(c, s, t), t, s.tasks[t].(stage := Done), p);
  }

  lemma {:induction false} PlacesJoin(c: Config, s: State, p: (nat, Key))
    requires Conserved(c, s, p) && s.hand.Some? && !Handles(c, s, s.hand.value) && Joins(c, s, s.hand.value)
    ensures Conserved(c, Routed(c, s, s.hand.value), p)
  {
    var m := s.hand.value;
    var t := s.queues[EffectiveKey(c, m)];
    PinningKeepsTheKey(c, m);
    assert (s.tasks[t].queue + [Pinned(c, m)])[..|s.tasks[t].queue|] == s.tasks[t].queue;
    HeldPut(c, s.tasks, t, Enqueue(s, t, Pinned(c, m)).tasks[t], p);
  }

  lemma {:induction false} PlacesRoute(c: Config, s: State, p: (nat, Key))
    requires Conserved(c, s, p) && s.hand.Some?
    ensures Conserved(c, Routed(c, s, s.hand.value), p)
  {
    var m := s.hand.value;
    if Handles(c, s, m) {
      assert (s.handled + [m])[..|s.handled|] == s.handled;
    } else if Joins(c, s, m) {
      PlacesJoin(c, s, p);
    } else {
      var r := NewTask(c, s, m);
      assert r.tasks[..|s.tasks|] == s.tasks;
    }
  }

  lemma {:induction false} PlacesBus(c: Config, s: State, l: Label, p: (nat, Key))
    requires Conserved(c, s, p) && Enabled(c, s, l) && (l.Publish? || l.Take?)
    ensures Conserved(c, Apply(c, s, l), p)
  {
    match l
    case Publish(m) =>
      assert (s.bus + [m])[..|s.bus|] == s.bus;
      assert (s.arrived + [m])[..|s.arrived|] == s.arrived;
    case Take =>
      TagsSplit(c, s.bus, 1, p);
      assert s.bus[..1] == [] + [s.bus[0]];
      assert [s.bus[0]][..0] == [];
  }

  lemma {:induction false} PlacesQuiet(c: Config, s: State, l: Label, p: (nat, Key))
    requires Conserved(c, s, p) && Enabled(c, s, l)
    requires l.Start? || l.Acquire? || l.PassGate? || l.Cancel?
    requires l.PassGate? ==> s.tasks[l.t].queue == []
    ensures Conserved(c, Apply(c, s, l), p)
  {
    var r := Apply(c, s, l);
    if l.Start? { PinningKeepsTheKey(c, s.tasks[l.t].msg); }
    PlacesPut(c, s, r, l.t, r.tasks[l.t], p);
  }

  lemma {:induction false} PlacesStop(c: Config, s: State, key: Key, p: (nat, Key))
    requires Conserved(c, s, p)
    ensures Conserved(c, Stopped(s, key), p)
  {
    HeldSame(c, s.tasks, Stopped(s, key).tasks, p);
  }

  lemma {:induction false} ConservedStep(c: Config, s: State, l: Label, p: (nat, Key))
    requires AccountInv(c, s) && Conserved(c, s, p) && Enabled(c, s, l)
    ensures Conserved(c, Apply(c, s, l), p)
  {
    match l
    case Publish(_) => PlacesBus(c, s, l, p);
    case Take => PlacesBus(c, s, l, p);
    case Route => PlacesRoute(c, s, p);
    case Inject(t) => PlacesInject(c, s, t, p);
    case Leave(t) => PlacesLeft(c, s, t, p);
    case Resume(t) => PlacesRepublish(c, s, t, p);
    case Deliver(t) => PlacesDeliver(c, s, t, p);
    case Finish(t) => PlacesReleased(c, s, t, p);
    case Stop(key) => PlacesStop(c, s, key, p);
    case Reap(_) =>
    case Collect(_) =>
    case PassGate(t) =>
      assert Accounted(c, s.tasks[t]);
      PlacesQuiet(c, s, l, p);
    case _ => PlacesQuiet(c, s, l, p);
  }

  // ----- Every run -----

  ghost predicate Invariant(c: Config, s: State) {
    LockInv(c, s) && QueueInv(s) && AccountInv(c, s) && GateInv(c, s) && ActiveInv(s)
  }

  lemma {:induction false} RunKeepsInvariant(c: Config, states: seq<State>, labels: seq<Label>, k: nat)
    requires Run(c, states, labels) && k < |states|
    ensures Invariant(c, states[k])
  {
    if k > 0 {
      var s, l := states[k - 1], labels[k - 1];
      RunKeepsInvariant(c, states, labels, k - 1);
      LockStep(c, s, l);
      QueueStep(c, s, l);
      AccountStep(c, s, l);
      GateStep(c, s, l);
      ActiveStep(c, s, l);
    }
  }

  /** No message appears or disappears: at every moment of every run each published message is, as
      often as it was published, in exactly one of the bus, the consumer's hand, a task (as the message
      it was made for, in its queue, injected into its turn, or lost by a cancelled drain) and what the
      consumer answered; and it belongs to the same session as when it was published. */
  lemma {:induction false} MessagesAreConserved(c: Config, states: seq<State>, labels: seq<Label>, k: nat, p: (nat, Key))
    requires Run(c, states, labels) && k < |states|
    ensures Tags(c, states[k].arrived, p) == Places(c, states[k], p)
  {
    if k > 0 {
      MessagesAreConserved(c, states, labels, k - 1, p);
      RunKeepsInvariant(c, states, labels, k - 1);
      ConservedStep(c, states[k - 1], labels[k - 1], p);
    }
  }

  /** A session's tasks that have begun share one lock although the dictionary forgets idle locks, at
      most one of them is behind it, and a published queue belongs to exactly that one: the branch that
      drains a queue which is not the published one is never taken. No more tasks are past the gate
      than it admits. */
  lemma {:induction false} SessionsAreExclusive(c: Config, states: seq<State>, labels: seq<Label>, k: nat)
    requires Run(c, states, labels) && k < |states|
    ensures var s := states[k];
      && (forall t, u | 0 <= t < |s.tasks| && 0 <= u < |s.tasks| && s.tasks[t].key == s.tasks[u].key
            && Begun(s.tasks[t].stage) && Begun(s.tasks[u].stage) ::
            s.tasks[t].lock == s.tasks[u].lock && (Locked(s.tasks[t].stage) && Locked(s.tasks[u].stage) ==> t == u))
      && (forall t | 0 <= t < |s.tasks| ::
            s.tasks[t].stage.Turn? <==> s.tasks[t].key in s.queues && s.queues[s.tasks[t].key] == t)
      && (c.gate.Some? ==> InsideCount(s.tasks) <= c.gate.value)
  {
    RunKeepsInvariant(c, states, labels, k);
  }

  /** Follow-ups leave a session's queue in the order they came: up to fifteen into the turn, the rest
      back to the bus for the same session; none is lost unless its task is over. */
  lemma {:induction false} QueuesAreFifo(c: Config, states: seq<State>, labels: seq<Label>, k: nat, t: nat)
    requires Run(c, states, labels) && k < |states| && t < |states[k].tasks|
    ensures var task := states[k].tasks[t];
      && task.routed == task.injected + task.republished + task.lost + task.queue
      && |task.injected| <= 15 && |task.queue| <= 20
      && (forall i | 0 <= i < |task.routed| :: EffectiveKey(c, task.routed[i]) == task.key)
      && (task.stage.Done? ==> task.queue == [])
      && (!task.stage.Done? ==> task.lost == [])
  {
    RunKeepsInvariant(c, states, labels, k);
    assert Accounted(c, states[k].tasks[t]);
  }

  /** A step loses messages if and only if it cancels a task while leftovers of its queue wait for room
      on the bus. */
  lemma {:induction false} OnlyACancelledDrainLoses(c: Config, s: State, l: Label, r: State, t: nat)
    requires Invariant(c, s) && Enabled(c, s, l) && r == Apply(c, s, l) && t < |s.tasks|
    ensures t < |r.tasks|
    ensures r.tasks[t].lost != s.tasks[t].lost
            <==> l == Deliver(t) && s.tasks[t].stage.Draining? && s.tasks[t].queue != []
  {
    assert Accounted(c, s.tasks[t]);
    if l.Deliver? && l.t == t {
      DeliveryLoses(c, s, t);
    } else if l.Deliver? {
      DeliverySparesOthers(c, s, l.t, t);
    } else if l.Finish? {
      ReleaseLosesNothing(c, s, l.t, t);
    } else if l.Route? {
      RouteLosesNothing(c, s, t);
    } else if l.Leave? || l.Resume? {
      DrainsLoseNothing(c, s, l, t);
    } else {
      OthersLoseNothing(c, s, l, t);
    }
  }

  lemma {:induction false} DeliveryLoses(c: Config, s: State, t: nat)
    requires Enabled(c, s, Deliver(t)) && Accounted(c, s.tasks[t])
    ensures t < |Cancelled(c, s, t).tasks|
    ensures Cancelled(c, s, t).tasks[t].lost == if s.tasks[t].stage.Turn? then s.tasks[t].lost else s.tasks[t].lost + s.tasks[t].queue
    ensures s.tasks[t].queue != [] && !s.tasks[t].stage.Turn? ==> s.tasks[t].stage.Draining?
  {
  }

  lemma {:induction false} DeliverySparesOthers(c: Config, s: State, t: nat, u: nat)
    requires Enabled(c, s, Deliver(t)) && t != u && u < |s.tasks|
    ensures u < |Cancelled(c, s, t).tasks| && Cancelled(c, s, t).tasks[u] == s.tasks[u]
  {
  }

  lemma {:induction false} ReleaseLosesNothing(c: Config, s: State, t: nat, u: nat)
    requires t < |s.tasks| && u < |s.tasks|
    ensures u < |Released(c, s, t).tasks| && Released(c, s, t).tasks[u].lost == s.tasks[u].lost
  {
  }

  lemma {:induction false} RouteLosesNothing(c: Config, s: State, t: nat)
    requires s.hand.Some? && t < |s.tasks|
    ensures t < |Routed(c, s, s.hand.value).tasks| && Routed(c, s, s.hand.value).tasks[t].lost == s.tasks[t].lost
  {
  }

  lemma {:induction false} DrainsLoseNothing(c: Config, s: State, l: Label, t: nat)
    requires Enabled(c, s, l) && t < |s.tasks| && (l.Leave? || l.Resume?)
    ensures t < |Apply(c, s, l).tasks| && Apply(c, s, l).tasks[t].lost == s.tasks[t].lost
  {
  }

  lemma {:induction false} OthersLoseNothing(c: Config, s: State, l: Label, t: nat)
    requires Enabled(c, s, l) && t < |s.tasks|
    requires !l.Finish? && !l.Leave? && !l.Resume? && !l.Deliver? && !l.Route?
    ensures t < |Apply(c, s, l).tasks| && Apply(c, s, l).tasks[t].lost == s.tasks[t].lost
  {
  }

  /** The protocol never blocks: while a task is unfinished, some step of a task or of the consumer can
      be taken, without a new message and without a cancellation. */
  lemma {:induction false} NeverStuck(c: Config, states: seq<State>, labels: seq<Label>, k: nat, t: nat) returns (l: Label)
    requires Run(c, states, labels) && k < |states|
    requires c.busCap > 0 && (c.gate.Some? ==> c.gate.value > 0)
    requires t < |states[k].tasks| && !states[k].tasks[t].stage.Done?
    ensures Enabled(c, states[k], l)
    ensures l.Take? || l.Route? || l.Start? || l.Acquire? || l.PassGate? || l.Leave? || l.Resume? || l.Finish?
  {
    var s := states[k];
    RunKeepsInvariant(c, states, labels, k);
    match s.tasks[t].stage
    case Created => l := Start(t);
    case Waiting =>
      if s.tasks[t].lock !in s.holders { l := Acquire(t); } else { l := HolderMoves(c, s, s.holders[s.tasks[t].lock]); }
    case _ => l := HolderMoves(c, s, t);
  }

  lemma {:induction false} HolderMoves(c: Config, s: State, t: nat) returns (l: Label)
    requires Invariant(c, s) && t < |s.tasks| && Locked(s.tasks[t].stage)
    requires c.busCap > 0 && (c.gate.Some? ==> c.gate.value > 0)
    ensures Enabled(c, s, l)
    ensures l.Take? || l.Route? || l.PassGate? || l.Leave? || l.Resume? || l.Finish?
  {
    if s.tasks[t].stage.AtGate? && c.gate.Some? && s.permits == 0 {
      var u := SomeInside(s.tasks);
      l := InsiderMoves(c, s, u);
    } else if s.tasks[t].stage.AtGate? {
      l := PassGate(t);
    } else {
      l := InsiderMoves(c, s, t);
    }
  }

  lemma {:induction false} InsiderMoves(c: Config, s: State, t: nat) returns (l: Label)
    requires Invariant(c, s) && t < |s.tasks| && Inside(s.tasks[t].stage) && c.busCap > 0
    ensures Enabled(c, s, l)
    ensures l.Take? || l.Route? || l.Leave? || l.Resume? || l.Finish?
  {
    if s.tasks[t].stage.Turn? { l := Leave(t); }
    else if s.tasks[t].queue == [] { l := Finish(t); }
    else if |s.bus| < c.busCap { l := Resume(t); }
    else if s.hand.Some? { l := Route; }
    else { l := Take; }
  }

  // ----- What the protocol does not promise -----

  lemma {:induction false} Extend(c: Config, states: seq<State>, labels: seq<Label>, l: Label) returns (more: seq<State>)
    requires FairRun(c, states, labels) && Enabled(c, states[|labels|], l) && Fair(states[|labels|], l)
    ensures FairRun(c, more, labels + [l]) && more[|labels| + 1] == Apply(c, states[|labels|], l)
  {
    more := states + [Apply(c, states[|labels|], l)];
    forall k | 0 <= k < |labels + [l]|
      ensures Enabled(c, more[k], (labels + [l])[k]) && more[k + 1] == Apply(c, more[k], (labels + [l])[k]) && Fair(more[k], (labels + [l])[k])
    {
      if k < |labels| { assert (labels + [l])[k] == labels[k] && more[k] == states[k] && more[k + 1] == states[k + 1]; }
    }
  }

  /** A message comes in and the consumer takes it. */
  lemma {:induction false} Arrive(c: Config, before: seq<State>, done: seq<Label>, m: Inbound) returns (states: seq<State>, labels: seq<Label>)
    requires FairRun(c, before, done) && c.busCap > 0
    requires var s := before[|done|]; s.bus == [] && s.hand.None? && m.serial == |s.arrived|
    ensures FairRun(c, states, labels)
    ensures var s := before[|done|]; states[|labels|] == s.(hand := Some(m), arrived := s.arrived + [m])
  {
    states := Extend(c, before, done, Publish(m));
    labels := done + [Publish(m)];
    assert states[|labels|].bus == [m];
    states := Extend(c, states, labels, Take);
    labels := labels + [Take];
    assert states[|labels|].bus == [];
  }

  /** What is left when task `t` has gone from its creation to its turn with this lock. */
  function TurnBegun(c: Config, s: State, t: nat, lock: nat): State
    requires t < |s.tasks| && (c.gate.None? || s.permits > 0)
  {
    var task, key := s.tasks[t], EffectiveKey(c, s.tasks[t].msg);
    s.(tasks := s.tasks[t := task.(msg := Pinned(c, task.msg), stage := Turn, lock := lock, queue := [])],
       locks := s.locks[key := lock], nextLock := if key in s.locks then s.nextLock else s.nextLock + 1,
       holders := s.holders[lock := t], queues := s.queues[task.key := t],
       served := s.served + [Pinned(c, task.msg)], permits := if c.gate.Some? then s.permits - 1 else s.permits)
  }

  /** A task whose lock is free starts, gets the lock, and passes the gate. */
  lemma {:induction false} BeginTurn(c: Config, before: seq<State>, done: seq<Label>, t: nat, lock: nat) returns (states: seq<State>, labels: seq<Label>)
    requires FairRun(c, before, done)
    requires var s := before[|done|];
             && At(s, t, Created) && First(s, t) && !s.tasks[t].cancelling && (c.gate.None? || s.permits > 0)
             && (var key := EffectiveKey(c, s.tasks[t].msg); lock == if key in s.locks then s.locks[key] else s.nextLock)
             && lock !in s.holders
    ensures FairRun(c, states, labels) && states[|labels|] == TurnBegun(c, before[|done|], t, lock)
  {
    states := Extend(c, before, done, Start(t));
    labels := done + [Start(t)];
    assert First(states[|labels|], t) by { assert forall u | 0 <= u < t :: states[|labels|].tasks[u] == before[|done|].tasks[u]; }
    states := Extend(c, states, labels, Acquire(t));
    labels := labels + [Acquire(t)];
    states := Extend(c, states, labels, PassGate(t));
    labels := labels + [PassGate(t)];
    assert states[|labels|].tasks == TurnBegun(c, before[|done|], t, lock).tasks;
  }

  const FIRST := Inbound(0, "cli", "a", "", "", Chat)
  const SECOND := Inbound(1, "cli", "a", "", "", Chat)
  const THIRD := Inbound(2, "cli", "a", "", "", Chat)

  /** Some task can pass the gate. */
  predicate Passable(c: Config) { c.gate.None? || c.gate.value > 0 }

  /** The turn for the first message, with these follow-ups in its queue. */
  function Answering(c: Config, queue: seq<Inbound>): Task {
    Task(Pinned(c, FIRST), EffectiveKey(c, FIRST), Turn, 0, queue, queue, [], [], [], 0, false, false)
  }

  /** That turn runs, and nothing else is going on. */
  function Midway(c: Config, queue: seq<Inbound>, arrived: seq<Inbound>): State {
    var key := EffectiveKey(c, FIRST);
    State([], None, [Answering(c, queue)], map[key := 0], 1, map[0 := 0], if c.gate.Some? then Positive(c.gate.value - 1) else 0,
          map[key := 0], map[key := [0]], [], arrived, [Pinned(c, FIRST)])
  }

  function Positive(n: int): nat { if n < 0 then 0 else n }

  lemma {:induction false} ReachTask(c: Config) returns (states: seq<State>, labels: seq<Label>)
    requires c.busCap > 0
    ensures FairRun(c, states, labels)
    ensures var key := EffectiveKey(c, FIRST);
            states[|states| - 1] == Initial(c).(arrived := [FIRST], active := map[key := [0]],
              tasks := [Task(FIRST, key, Created, 0, [], [], [], [], [], 0, false, false)])
  {
    states, labels := Arrive(c, [Initial(c)], [], FIRST);
    states := Extend(c, states, labels, Route);
    labels := labels + [Route];
    var s, key := states[|states| - 1], EffectiveKey(c, FIRST);
    assert s.bus == [] && s.arrived == [FIRST] && s.active[key] == [0];
    assert s.tasks == [Task(FIRST, key, Created, 0, [], [], [], [], [], 0, false, false)];
  }

  lemma {:induction false} ReachTurn(c: Config) returns (states: seq<State>, labels: seq<Label>)
    requires Passable(c) && c.busCap > 0
    ensures FairRun(c, states, labels) && states[|states| - 1] == Midway(c, [], [FIRST])
  {
    states, labels := ReachTask(c);
    states, labels := BeginTurn(c, states, labels, 0, 0);
    var s := states[|states| - 1];
    assert s.served == [Pinned(c, FIRST)] && s.tasks == [Answering(c, [])];
  }

  /** A message of the session that runs joins its turn. */
  lemma {:induction false} JoinsAnswering(c: Config, s: State, m: Inbound)
    requires s.hand == Some(m) && m.kind.Chat? && EffectiveKey(c, m) == EffectiveKey(c, FIRST)
    requires |s.tasks| > 0 && s.tasks[0] == Answering(c, []) && EffectiveKey(c, m) in s.queues && s.queues[EffectiveKey(c, m)] == 0
    ensures Routed(c, s, m) == s.(hand := None, tasks := s.tasks[0 := Answering(c, [Pinned(c, m)])])
  {
    assert Joins(c, s, m);
    assert Routed(c, s, m).tasks[0].queue == [Pinned(c, m)] && Routed(c, s, m).tasks[0].routed == [Pinned(c, m)];
  }

  lemma {:induction false} ReachMidway(c: Config) returns (states: seq<State>, labels: seq<Label>)
    requires Passable(c) && c.busCap > 0
    ensures FairRun(c, states, labels) && states[|states| - 1] == Midway(c, [Pinned(c, SECOND)], [FIRST, SECOND])
  {
    states, labels := ReachTurn(c);
    states, labels := Arrive(c, states, labels, SECOND);
    assert states[|labels|].arrived == [FIRST, SECOND];
    JoinsAnswering(c, states[|labels|], SECOND);
    states := Extend(c, states, labels, Route);
    labels := labels + [Route];
  }

  /** Channels can fill the bus while nothing else happens. */
  lemma {:induction false} FillBus(c: Config, before: seq<State>, done: seq<Label>, n: nat) returns (states: seq<State>, labels: seq<Label>)
    requires FairRun(c, before, done) && |before[|done|].bus| + n <= c.busCap
    ensures FairRun(c, states, labels)
    ensures var s, t := before[|done|], states[|labels|];
            t == s.(bus := t.bus, arrived := t.arrived) && |t.bus| == |s.bus| + n && s.arrived <= t.arrived
  {
    states, labels := before, done;
    if n > 0 {
      states, labels := FillBus(c, before, done, n - 1);
      var m := Inbound(|states[|labels|].arrived|, "cli", "b", "", "", Chat);
      states := Extend(c, states, labels, Publish(m));
      labels := labels + [Publish(m)];
    }
  }

  lemma {:induction false} ReachBlockedDrain(c: Config) returns (states: seq<State>, labels: seq<Label>)
    requires Passable(c) && c.busCap > 0
    ensures FairRun(c, states, labels)
    ensures var s := states[|labels|];
            && s.tasks == [Answering(c, [Pinned(c, SECOND)]).(stage := Draining)] && |s.bus| == c.busCap && SECOND in s.arrived
  {
    states, labels := ReachMidway(c);
    states, labels := FillBus(c, states, labels, c.busCap);
    assert states[|labels|].arrived[1] == SECOND;
    LeaveBlocked(c, states[|labels|]);
    states := Extend(c, states, labels, Leave(0));
    labels := labels + [Leave(0)];
  }

  /** With the bus full, a cancellation during the drain loses the follow-up for good, however many places
      the bus has. */
  lemma {:induction false} ACancelledDrainLoses(c: Config) returns (states: seq<State>, labels: seq<Label>)
    requires Passable(c) && c.busCap > 0
    ensures FairRun(c, states, labels)
    ensures var s := states[|labels|];
            |s.tasks| == 1 && s.tasks[0].stage.Done? && s.tasks[0].lost == [Pinned(c, SECOND)] && SECOND in s.arrived
  {
    states, labels := ReachBlockedDrain(c);
    states := Extend(c, states, labels, Cancel(0));
    labels := labels + [Cancel(0)];
    CutDrain(c, states[|labels|]);
    states := Extend(c, states, labels, Deliver(0));
    labels := labels + [Deliver(0)];
  }

  lemma {:induction false} LeaveBlocked(c: Config, s: State)
    requires s.tasks == [Answering(c, [Pinned(c, SECOND)])] && |s.bus| == c.busCap
    ensures var t := Left(c, s, 0);
            && t.tasks == [s.tasks[0].(stage := Draining)] && t.bus == s.bus && t.arrived == s.arrived
  {
    var task, after := s.tasks[0], Left(c, s, 0).tasks[0];
    assert after.queue == task.queue && after.republished == task.republished;
    assert Left(c, s, 0).bus == s.bus;
  }

  lemma {:induction false} CutDrain(c: Config, s: State)
    requires s.tasks == [Answering(c, [Pinned(c, SECOND)]).(stage := Draining, cancelling := true)] && |s.bus| <= c.busCap
    ensures Enabled(c, s, Deliver(0))
    ensures var t := Cancelled(c, s, 0);
            |t.tasks| == 1 && t.tasks[0].stage.Done? && t.tasks[0].lost == [Pinned(c, SECOND)] && t.arrived == s.arrived
  {
  }
}
