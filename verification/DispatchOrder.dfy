/** In which order a session's messages reach the model: what keeps the order of arrival, and exactly which
    steps break it. */
module DispatchOrder {
  import opened Messages
  import opened Dispatch
  import opened Sublists
  import Injections

  // ----- Increasing lists -----

  predicate Sorted(s: seq<nat>) {
    forall i, j | 0 <= i < j < |s| :: s[i] < s[j]
  }

  predicate AllBelow(s: seq<nat>, n: nat) {
    forall i | 0 <= i < |s| :: s[i] < n
  }

  lemma {:induction false} SubSorted(a: seq<nat>, b: seq<nat>, n: nat)
    requires Sublist(a, b)
    ensures Sorted(b) ==> Sorted(a)
    ensures AllBelow(b, n) ==> AllBelow(a, n)
  {
    SublistMembers(a, b);
    if a != [] {
      var front := b[..|b| - 1];
      assert forall i | 0 <= i < |front| :: front[i] == b[i];
      if a[|a| - 1] == b[|b| - 1] && Sublist(a[..|a| - 1], front) {
        SubSorted(a[..|a| - 1], front, n);
        SublistMembers(a[..|a| - 1], front);
        if Sorted(b) {
          forall i | 0 <= i < |a| - 1 ensures a[i] < a[|a| - 1] { assert a[..|a| - 1][i] in front; }
          assert forall i | 0 <= i < |a| - 1 :: a[..|a| - 1][i] == a[i];
        }
      } else {
        SubSorted(a, front, n);
      }
    }
  }

  // ----- Where a session's messages wait -----

  function Serials(ms: seq<Inbound>): seq<nat> {
    seq(|ms|, i requires 0 <= i < |ms| => ms[i].serial)
  }

  /** The messages of a session, by their place in the order of arrival. */
  function Of(c: Config, ms: seq<Inbound>, key: Key): seq<nat> {
    if ms == [] then []
    else Of(c, ms[..|ms| - 1], key) + if EffectiveKey(c, ms[|ms| - 1]) == key then [ms[|ms| - 1].serial] else []
  }

  /** The same, without the commands that no turn ever answers. */
  function Talk(c: Config, ms: seq<Inbound>, key: Key): seq<nat> {
    if ms == [] then []
    else
      var last := ms[|ms| - 1];
      Talk(c, ms[..|ms| - 1], key) + if EffectiveKey(c, last) == key && Conversational(last) then [last.serial] else []
  }

  datatype View = Waits | Turns | Drains

  /** What a task holds of the session: its message while it waits, its queue in its turn, its leftovers. */
  function Part(v: View, key: Key, t: Task): seq<nat> {
    if t.key != key then []
    else
      match v
      case Waits => if Queued(t) then [t.msg.serial] else []
      case Turns => if t.stage.Turn? then Serials(t.queue) else []
      case Drains => if t.stage.Draining? then Serials(t.queue) else []
  }

  function Gather(v: View, key: Key, tasks: seq<Task>): seq<nat> {
    if tasks == [] then [] else Gather(v, key, tasks[..|tasks| - 1]) + Part(v, key, tasks[|tasks| - 1])
  }

  function HandOf(c: Config, s: State, key: Key): seq<nat> {
    if s.hand.Some? then Talk(c, [s.hand.value], key) else []
  }

  /** Where the session's messages are: those that turns received, the queue of the running turn, waiting
      tasks, the consumer's hand, the bus, and leftovers that can only go to its end. */
  datatype Lists = Lists(served: seq<nat>, queue: seq<nat>, waits: seq<nat>, hand: seq<nat>, bus: seq<nat>, rest: seq<nat>)

  function ListsOf(c: Config, s: State, key: Key): Lists {
    Lists(Of(c, s.served, key), Gather(Turns, key, s.tasks), Gather(Waits, key, s.tasks), HandOf(c, s, key),
          Talk(c, s.bus, key), Gather(Drains, key, s.tasks))
  }

  /** What stands before a message that is put at the end of the bus. */
  function Ahead(l: Lists): seq<nat> { l.waits + l.hand + l.bus }

  /** The messages in the order in which turns received them or are going to. */
  function Flat(l: Lists): seq<nat> { l.served + l.queue + Ahead(l) + l.rest }

  function Line(c: Config, s: State, key: Key): seq<nat> { Ahead(ListsOf(c, s, key)) }

  function Order(c: Config, s: State, key: Key): seq<nat> { Flat(ListsOf(c, s, key)) }

  /** No message of the session stands behind a later arrival. */
  ghost predicate Ordered(c: Config, s: State, key: Key) {
    Sorted(Order(c, s, key)) && AllBelow(Order(c, s, key), |s.arrived|)
  }

  /** The steps that put a message behind a later arrival of its session:
      a turn ends with leftovers while the line holds a message of the session;
      a message joins the running turn while an earlier one waits as a task of its own;
      a message is published while leftovers wait for room on the bus. */
  predicate Overtakes(c: Config, s: State, l: Label, key: Key)
    requires Enabled(c, s, l)
  {
    match l
    case Leave(t) => s.tasks[t].key == key && s.tasks[t].queue != [] && Line(c, s, key) != []
    case Deliver(t) => s.tasks[t].stage.Turn? && s.tasks[t].key == key && s.tasks[t].queue != [] && Line(c, s, key) != []
    case Route =>
      Joins(c, s, s.hand.value) && EffectiveKey(c, s.hand.value) == key && Gather(Waits, key, s.tasks) != []
    case Publish(m) => Conversational(m) && EffectiveKey(c, m) == key && Gather(Drains, key, s.tasks) != []
    case _ => false
  }

  // ----- Updating the lists -----

  lemma {:induction false} SerialsAppend(a: seq<Inbound>, b: seq<Inbound>)
    ensures Serials(a + b) == Serials(a) + Serials(b)
  {
  }

  lemma {:induction false} OfAppend(c: Config, a: seq<Inbound>, b: seq<Inbound>, key: Key)
    ensures Of(c, a + b, key) == Of(c, a, key) + Of(c, b, key)
  {
    if b == [] {
      assert a + b == a;
    } else {
      assert (a + b)[..|a + b| - 1] == a + b[..|b| - 1];
      OfAppend(c, a, b[..|b| - 1], key);
    }
  }

  lemma {:induction false} TalkAppend(c: Config, a: seq<Inbound>, b: seq<Inbound>, key: Key)
    ensures Talk(c, a + b, key) == Talk(c, a, key) + Talk(c, b, key)
  {
    if b == [] {
      assert a + b == a;
    } else {
      assert (a + b)[..|a + b| - 1] == a + b[..|b| - 1];
      TalkAppend(c, a, b[..|b| - 1], key);
    }
  }

  lemma {:induction false} TalkOne(c: Config, m: Inbound, key: Key)
    ensures Talk(c, [m], key) == if EffectiveKey(c, m) == key && Conversational(m) then [m.serial] else []
    ensures Of(c, [m], key) == if EffectiveKey(c, m) == key then [m.serial] else []
  {
    assert [m][..0] == [];
  }

  /** All messages are of one session. */
  predicate AllOf(c: Config, ms: seq<Inbound>, own: Key) {
    forall i | 0 <= i < |ms| :: EffectiveKey(c, ms[i]) == own && Conversational(ms[i])
  }

  lemma {:induction false} OwnMessages(c: Config, ms: seq<Inbound>, own: Key, key: Key)
    requires AllOf(c, ms, own)
    ensures Talk(c, ms, key) == Of(c, ms, key) == if own == key then Serials(ms) else []
  {
    if ms != [] {
      var front, last := ms[..|ms| - 1], ms[|ms| - 1];
      assert AllOf(c, front, own) by { assert forall i | 0 <= i < |front| :: front[i] == ms[i]; }
      OwnMessages(c, front, own, key);
      assert Serials(ms) == Serials(front) + [last.serial];
      assert EffectiveKey(c, last) == own && Conversational(last);
    }
  }

  lemma {:induction false} Assoc(a: seq<nat>, b: seq<nat>, d: seq<nat>)
    ensures a + b + d == a + (b + d)
  {
  }

  lemma {:induction false} GatherAppend(v: View, key: Key, a: seq<Task>, b: seq<Task>)
    ensures Gather(v, key, a + b) == Gather(v, key, a) + Gather(v, key, b)
  {
    if b == [] {
      assert a + b == a;
    } else {
      var ab, front, last := a + b, b[..|b| - 1], Part(v, key, b[|b| - 1]);
      assert ab[..|ab| - 1] == a + front && ab[|ab| - 1] == b[|b| - 1];
      GatherAppend(v, key, a, front);
      assert Gather(v, key, ab) == Gather(v, key, a + front) + last && Gather(v, key, b) == Gather(v, key, front) + last;
      Assoc(Gather(v, key, a), Gather(v, key, front), last);
    }
  }

  lemma {:induction false} GatherOne(v: View, key: Key, t: Task)
    ensures Gather(v, key, [t]) == Part(v, key, t)
  {
    assert [t][..0] == [];
  }

  lemma {:induction false} GatherPut(v: View, key: Key, tasks: seq<Task>, t: nat, x: Task)
    requires t < |tasks|
    ensures var a, b := Gather(v, key, tasks[..t]), Gather(v, key, tasks[t + 1..]);
            Gather(v, key, tasks) == a + Part(v, key, tasks[t]) + b && Gather(v, key, tasks[t := x]) == a + Part(v, key, x) + b
  {
    var a, b := tasks[..t], tasks[t + 1..];
    assert tasks == a + [tasks[t]] + b && tasks[t := x] == a + [x] + b;
    GatherAppend(v, key, a + [tasks[t]], b);
    GatherAppend(v, key, a, [tasks[t]]);
    GatherAppend(v, key, a + [x], b);
    GatherAppend(v, key, a, [x]);
    GatherOne(v, key, tasks[t]);
    GatherOne(v, key, x);
  }

  predicate Empty(v: View, key: Key, tasks: seq<Task>) {
    forall i | 0 <= i < |tasks| :: Part(v, key, tasks[i]) == []
  }

  lemma {:induction false} GatherNone(v: View, key: Key, tasks: seq<Task>)
    requires Empty(v, key, tasks)
    ensures Gather(v, key, tasks) == []
  {
    if tasks != [] {
      assert Empty(v, key, tasks[..|tasks| - 1]);
      GatherNone(v, key, tasks[..|tasks| - 1]);
    }
  }

  /** Nobody else holds anything of the kind. */
  predicate Alone(v: View, key: Key, tasks: seq<Task>, t: nat) {
    forall u | 0 <= u < |tasks| && u != t :: Part(v, key, tasks[u]) == []
  }

  lemma {:induction false} AloneSplits(v: View, key: Key, tasks: seq<Task>, t: nat)
    requires t < |tasks| && Alone(v, key, tasks, t)
    ensures Empty(v, key, tasks[..t]) && Empty(v, key, tasks[t + 1..])
  {
  }

  lemma {:induction false} Padded(p: seq<nat>)
    ensures [] + p + [] == p
  {
  }

  lemma {:induction false} GatherOnly(v: View, key: Key, tasks: seq<Task>, t: nat, x: Task)
    requires t < |tasks| && Alone(v, key, tasks, t)
    ensures Gather(v, key, tasks) == Part(v, key, tasks[t]) && Gather(v, key, tasks[t := x]) == Part(v, key, x)
  {
    AloneSplits(v, key, tasks, t);
    GatherNone(v, key, tasks[..t]);
    GatherNone(v, key, tasks[t + 1..]);
    GatherPut(v, key, tasks, t, x);
    Padded(Part(v, key, x));
    Padded(Part(v, key, tasks[t]));
  }

  lemma {:induction false} GatherSub(v: View, key: Key, a: seq<Task>, b: seq<Task>)
    requires |a| == |b| && forall i | 0 <= i < |a| :: Sublist(Part(v, key, a[i]), Part(v, key, b[i]))
    ensures Sublist(Gather(v, key, a), Gather(v, key, b))
  {
    if a != [] {
      var n := |a| - 1;
      assert forall i | 0 <= i < n :: a[..n][i] == a[i] && b[..n][i] == b[i];
      GatherSub(v, key, a[..n], b[..n]);
      SublistAppend(Gather(v, key, a[..n]), Gather(v, key, b[..n]), Part(v, key, a[n]), Part(v, key, b[n]));
    }
  }

  // ----- Steps that only take messages out of the order, or leave it -----

  /** The lists of the order, one by one. */
  lemma {:induction false} OrderSub(c: Config, s: State, r: State, key: Key)
    requires r.arrived == s.arrived
    requires Sublist(Of(c, r.served, key), Of(c, s.served, key)) && Sublist(HandOf(c, r, key), HandOf(c, s, key))
    requires Sublist(Talk(c, r.bus, key), Talk(c, s.bus, key))
    requires Sublist(Gather(Waits, key, r.tasks), Gather(Waits, key, s.tasks))
    requires Sublist(Gather(Turns, key, r.tasks), Gather(Turns, key, s.tasks))
    requires Sublist(Gather(Drains, key, r.tasks), Gather(Drains, key, s.tasks))
    ensures Ordered(c, s, key) ==> Ordered(c, r, key)
  {
    var w, x := Gather(Waits, key, r.tasks), Gather(Waits, key, s.tasks);
    SublistAppend(w, x, HandOf(c, r, key), HandOf(c, s, key));
    SublistAppend(w + HandOf(c, r, key), x + HandOf(c, s, key), Talk(c, r.bus, key), Talk(c, s.bus, key));
    var o, p, q, u := Of(c, r.served, key), Of(c, s.served, key), Gather(Turns, key, r.tasks), Gather(Turns, key, s.tasks);
    SublistAppend(o, p, q, u);
    SublistAppend(o + q, p + u, Line(c, r, key), Line(c, s, key));
    SublistAppend(o + q + Line(c, r, key), p + u + Line(c, s, key), Gather(Drains, key, r.tasks), Gather(Drains, key, s.tasks));
    SubSorted(Order(c, r, key), Order(c, s, key), |s.arrived|);
  }

  /** A task of which the step leaves no more than it had. */
  predicate Lessens(key: Key, x: Task, t: Task) {
    && Sublist(Part(Waits, key, x), Part(Waits, key, t))
    && Sublist(Part(Turns, key, x), Part(Turns, key, t))
    && Sublist(Part(Drains, key, x), Part(Drains, key, t))
  }

  lemma {:induction false} LessensItself(key: Key, t: Task)
    ensures Lessens(key, t, t)
  {
    SublistRefl(Part(Waits, key, t));
    SublistRefl(Part(Turns, key, t));
    SublistRefl(Part(Drains, key, t));
  }

  lemma {:induction false} LessenedOrder(c: Config, s: State, r: State, key: Key)
    requires r.arrived == s.arrived && r.served == s.served && r.bus == s.bus && (r.hand == s.hand || r.hand.None?)
    requires |r.tasks| == |s.tasks| && forall i | 0 <= i < |s.tasks| :: Lessens(key, r.tasks[i], s.tasks[i])
    ensures Ordered(c, s, key) ==> Ordered(c, r, key)
  {
    GatherSub(Waits, key, r.tasks, s.tasks);
    GatherSub(Turns, key, r.tasks, s.tasks);
    GatherSub(Drains, key, r.tasks, s.tasks);
    SublistRefl(Of(c, s.served, key));
    SublistRefl(HandOf(c, s, key));
    SublistRefl(Talk(c, s.bus, key));
    OrderSub(c, s, r, key);
  }

  lemma {:induction false} LessenedPut(c: Config, s: State, r: State, t: nat, key: Key)
    requires r.arrived == s.arrived && r.served == s.served && r.bus == s.bus && (r.hand == s.hand || r.hand.None?)
    requires t < |s.tasks| && |r.tasks| == |s.tasks| && r.tasks == s.tasks[t := r.tasks[t]] && Lessens(key, r.tasks[t], s.tasks[t])
    ensures Ordered(c, s, key) ==> Ordered(c, r, key)
  {
    forall i | 0 <= i < |s.tasks| ensures Lessens(key, r.tasks[i], s.tasks[i]) { LessensItself(key, s.tasks[i]); }
    LessenedOrder(c, s, r, key);
  }

  lemma {:induction false} QuietTaskSteps(c: Config, s: State, l: Label, key: Key)
    requires Enabled(c, s, l) && (l.Start? || l.Acquire? || l.Cancel?)
    ensures Ordered(c, s, key) ==> Ordered(c, Apply(c, s, l), key)
  {
    LessensItself(key, s.tasks[l.t]);
    LessenedPut(c, s, Apply(c, s, l), l.t, key);
  }

  lemma {:induction false} QuietEnds(c: Config, s: State, t: nat, x: Task, key: Key)
    requires t < |s.tasks| && x.stage.Done? && x.key == s.tasks[t].key
    ensures Ordered(c, s, key) ==> Ordered(c, Put(s, t, x), key)
  {
    SublistOfNothing(Part(Waits, key, s.tasks[t]));
    SublistOfNothing(Part(Turns, key, s.tasks[t]));
    SublistOfNothing(Part(Drains, key, s.tasks[t]));
    LessenedPut(c, s, Put(s, t, x), t, key);
  }

  /** Locks, gate and published queues play no part. */
  lemma {:induction false} OrderFrame(c: Config, s: State, r: State, key: Key)
    requires r.arrived == s.arrived && r.served == s.served && r.bus == s.bus && r.hand == s.hand && r.tasks == s.tasks
    ensures Ordered(c, r, key) <==> Ordered(c, s, key)
  {
  }

  lemma {:induction false} FinishStep(c: Config, s: State, t: nat, key: Key)
    requires t < |s.tasks|
    ensures Ordered(c, s, key) ==> Ordered(c, Released(c, s, t), key)
  {
    var x := s.tasks[t].(stage := Done);
    QuietEnds(c, s, t, x, key);
    OrderFrame(c, Put(s, t, x), Released(c, s, t), key);
  }

  lemma {:induction false} CutStep(c: Config, s: State, t: nat, key: Key)
    requires Enabled(c, s, Deliver(t)) && !s.tasks[t].stage.Turn?
    ensures Ordered(c, s, key) ==> Ordered(c, Cancelled(c, s, t), key)
  {
    var task := s.tasks[t];
    var x := task.(cancelling := false, lost := task.lost + task.queue, queue := []);
    var done := x.(stage := Done);
    QuietEnds(c, s, t, done, key);
    assert Cancelled(c, s, t).tasks == Put(s, t, done).tasks;
    OrderFrame(c, Put(s, t, done), Cancelled(c, s, t), key);
  }

  lemma {:induction false} StopStep(c: Config, s: State, stopped: Key, key: Key)
    ensures Ordered(c, s, key) ==> Ordered(c, Stopped(s, stopped), key)
  {
    var r := Stopped(s, stopped);
    forall i | 0 <= i < |s.tasks| ensures Lessens(key, r.tasks[i], s.tasks[i]) {
      LessensItself(key, s.tasks[i]);
      SublistOfNothing(Part(Waits, key, s.tasks[i]));
    }
    LessenedOrder(c, s, r, key);
  }

  lemma {:induction false} HandleStep(c: Config, s: State, key: Key)
    requires s.hand.Some? && Handles(c, s, s.hand.value)
    ensures Ordered(c, s, key) ==> Ordered(c, Routed(c, s, s.hand.value), key)
  {
    var r := Routed(c, s, s.hand.value);
    forall i | 0 <= i < |s.tasks| ensures Lessens(key, r.tasks[i], s.tasks[i]) { LessensItself(key, s.tasks[i]); }
    SublistOfNothing(HandOf(c, s, key));
    LessenedOrder(c, s, r, key);
  }

  // ----- Steps that move a message along the order -----

  lemma {:induction false} TakeStep(c: Config, s: State, key: Key)
    requires Enabled(c, s, Take)
    ensures Order(c, Apply(c, s, Take), key) == Order(c, s, key)
  {
    var r := Apply(c, s, Take);
    assert s.bus == [s.bus[0]] + s.bus[1..];
    TalkAppend(c, [s.bus[0]], s.bus[1..], key);
    var l := ListsOf(c, r, key);
    assert ListsOf(c, s, key) == l.(hand := [], bus := l.hand + l.bus);
    HandFromBus(l);
  }

  lemma {:induction false} HandFromBus(l: Lists)
    ensures Flat(l.(hand := [], bus := l.hand + l.bus)) == Flat(l)
  {
    assert l.waits + [] + (l.hand + l.bus) == l.waits + l.hand + l.bus;
  }

  lemma {:induction false} GatherSnoc(v: View, key: Key, tasks: seq<Task>, x: Task)
    ensures Gather(v, key, tasks + [x]) == Gather(v, key, tasks) + Part(v, key, x)
  {
    assert (tasks + [x])[..|tasks|] == tasks;
  }

  lemma {:induction false} NewTaskStep(c: Config, s: State, key: Key)
    requires s.hand.Some? && !Handles(c, s, s.hand.value)
    ensures Order(c, NewTask(c, s, s.hand.value), key) == Order(c, s, key)
  {
    var m, r := s.hand.value, NewTask(c, s, s.hand.value);
    var x, l := r.tasks[|s.tasks|], ListsOf(c, s, key);
    TalkOne(c, m, key);
    GatherSnoc(Waits, key, s.tasks, x);
    GatherSnoc(Turns, key, s.tasks, x);
    GatherSnoc(Drains, key, s.tasks, x);
    assert ListsOf(c, r, key) == l.(waits := l.waits + l.hand, hand := []);
    TaskFromHand(l);
  }

  lemma {:induction false} TaskFromHand(l: Lists)
    ensures Flat(l.(waits := l.waits + l.hand, hand := [])) == Flat(l)
  {
    assert l.waits + l.hand + [] + l.bus == l.waits + l.hand + l.bus;
  }

  /** Only the task behind the session's lock is in a turn or drains. */
  lemma {:induction false} AloneInside(c: Config, s: State, t: nat)
    requires LockInv(c, s) && t < |s.tasks| && Locked(s.tasks[t].stage)
    ensures Inner(s, t)
  {
  }

  predicate Inner(s: State, t: nat) {
    t < |s.tasks| && Alone(Turns, s.tasks[t].key, s.tasks, t) && Alone(Drains, s.tasks[t].key, s.tasks, t)
  }

  lemma {:induction false} GatherSame(v: View, key: Key, a: seq<Task>, b: seq<Task>)
    requires |a| == |b| && forall i | 0 <= i < |a| :: Part(v, key, a[i]) == Part(v, key, b[i])
    ensures Gather(v, key, a) == Gather(v, key, b)
  {
    if a != [] { GatherSame(v, key, a[..|a| - 1], b[..|b| - 1]); }
  }

  /** In the turn and after it, the task holds its queue. */
  function Held(s: Task, v: View): seq<nat> {
    if (v.Turns? && s.stage.Turn?) || (v.Drains? && s.stage.Draining?) then Serials(s.queue) else []
  }

  lemma {:induction false} HeldPart(key: Key, x: Task)
    requires x.key == key && Inside(x.stage)
    ensures Part(Turns, key, x) == Held(x, Turns) && Part(Drains, key, x) == Held(x, Drains) && Part(Waits, key, x) == []
  {
  }

  lemma {:induction false} WaitsSame(key: Key, tasks: seq<Task>, t: nat, x: Task)
    requires t < |tasks| && Part(Waits, key, x) == Part(Waits, key, tasks[t])
    ensures Gather(Waits, key, tasks[t := x]) == Gather(Waits, key, tasks)
  {
    GatherSame(Waits, key, tasks, tasks[t := x]);
  }

  /** So a step of that task changes just its own part. */
  lemma {:induction false} HeldLists(c: Config, s: State, t: nat, x: Task)
    requires Inner(s, t) && x.key == s.tasks[t].key && Inside(s.tasks[t].stage) && Inside(x.stage)
    ensures var l := ListsOf(c, s, x.key);
            && l.queue == Held(s.tasks[t], Turns) && l.rest == Held(s.tasks[t], Drains)
            && ListsOf(c, Put(s, t, x), x.key) == l.(queue := Held(x, Turns), rest := Held(x, Drains))
  {
    var key, a, tasks := x.key, s.tasks[t], s.tasks[t := x];
    HeldPart(key, a);
    HeldPart(key, x);
    GatherOnly(Turns, key, s.tasks, t, x);
    GatherOnly(Drains, key, s.tasks, t, x);
    WaitsSame(key, s.tasks, t, x);
    PutLists(c, s, t, x, key);
  }

  lemma {:induction false} PutLists(c: Config, s: State, t: nat, x: Task, key: Key)
    requires t < |s.tasks|
    ensures ListsOf(c, Put(s, t, x), key)
            == ListsOf(c, s, key).(queue := Gather(Turns, key, s.tasks[t := x]), waits := Gather(Waits, key, s.tasks[t := x]),
                                   rest := Gather(Drains, key, s.tasks[t := x]))
  {
  }

  lemma {:induction false} FrontServed(key: Key, tasks: seq<Task>, t: nat, x: Task, m: nat) returns (w: seq<nat>)
    requires t < |tasks| && Empty(Waits, key, tasks[..t]) && Part(Waits, key, tasks[t]) == [m] && Part(Waits, key, x) == []
    ensures Gather(Waits, key, tasks) == [m] + w && Gather(Waits, key, tasks[t := x]) == w
  {
    w := Gather(Waits, key, tasks[t + 1..]);
    GatherNone(Waits, key, tasks[..t]);
    GatherPut(Waits, key, tasks, t, x);
    assert [] + [m] + w == [m] + w && [] + [] + w == w;
  }

  lemma {:induction false} ServedSnoc(c: Config, served: seq<Inbound>, m: Inbound, key: Key)
    requires EffectiveKey(c, m) == key
    ensures Of(c, served + [m], key) == Of(c, served, key) + [m.serial]
  {
    OfAppend(c, served, [m], key);
    TalkOne(c, m, key);
  }

  lemma {:induction false} GateParts(a: Task, x: Task)
    requires a.stage.AtGate? && !a.cancelling && x == a.(stage := Turn, queue := [])
    ensures Part(Waits, a.key, a) == [a.msg.serial] && Part(Turns, a.key, a) == [] && Part(Drains, a.key, a) == []
    ensures Part(Waits, a.key, x) == [] && Part(Turns, a.key, x) == [] && Part(Drains, a.key, x) == []
  {
  }

  lemma {:induction false} GateLists(c: Config, s: State, t: nat, x: Task) returns (w: seq<nat>)
    requires Inner(s, t) && Empty(Waits, s.tasks[t].key, s.tasks[..t]) && s.tasks[t].stage.AtGate? && !s.tasks[t].cancelling
    requires x == s.tasks[t].(stage := Turn, queue := [])
    ensures var l := ListsOf(c, s, x.key);
            && l.queue == [] && l.rest == [] && l.waits == [x.msg.serial] + w
            && ListsOf(c, Put(s, t, x), x.key) == l.(waits := w)
  {
    GateParts(s.tasks[t], x);
    GatherOnly(Turns, x.key, s.tasks, t, x);
    GatherOnly(Drains, x.key, s.tasks, t, x);
    w := FrontServed(x.key, s.tasks, t, x, x.msg.serial);
    PutLists(c, s, t, x, x.key);
  }

  /** The task at the front of the line is served. */
  lemma {:induction false} ServeLists(c: Config, s: State, t: nat, x: Task)
    requires Inner(s, t) && Empty(Waits, s.tasks[t].key, s.tasks[..t]) && s.tasks[t].stage.AtGate? && !s.tasks[t].cancelling
    requires x == s.tasks[t].(stage := Turn, queue := []) && EffectiveKey(c, x.msg) == x.key
    ensures Order(c, Put(s, t, x).(served := s.served + [x.msg]), x.key) == Order(c, s, x.key)
  {
    var w := GateLists(c, s, t, x);
    ServedSnoc(c, s.served, x.msg, x.key);
    var l, r := ListsOf(c, s, x.key), Put(s, t, x);
    assert ListsOf(c, r.(served := s.served + [x.msg]), x.key) == ListsOf(c, r, x.key).(served := l.served + [x.msg.serial]);
    ServeFront(l.served, x.msg.serial, w, l.hand, l.bus);
  }

  lemma {:induction false} PassGateStep(c: Config, s: State, t: nat)
    requires LockInv(c, s) && Enabled(c, s, PassGate(t)) && First(s, t) && !s.tasks[t].cancelling
    ensures Order(c, Apply(c, s, PassGate(t)), s.tasks[t].key) == Order(c, s, s.tasks[t].key)
  {
    var x := s.tasks[t].(stage := Turn, queue := []);
    AloneInside(c, s, t);
    FrontIsEmpty(s, t);
    ServeLists(c, s, t, x);
    SameLists(c, Put(s, t, x).(served := s.served + [x.msg]), Apply(c, s, PassGate(t)), x.key);
  }

  /** Locks, gate and published queues play no part. */
  lemma {:induction false} SameLists(c: Config, s: State, r: State, key: Key)
    requires r.served == s.served && r.bus == s.bus && r.hand == s.hand && r.tasks == s.tasks
    ensures ListsOf(c, r, key) == ListsOf(c, s, key)
  {
  }

  lemma {:induction false} FrontIsEmpty(s: State, t: nat)
    requires t < |s.tasks| && First(s, t)
    ensures Empty(Waits, s.tasks[t].key, s.tasks[..t])
  {
  }

  lemma {:induction false} ServeFront(o: seq<nat>, m: nat, w: seq<nat>, h: seq<nat>, b: seq<nat>)
    ensures Flat(Lists(o, [], [m] + w, h, b, [])) == Flat(Lists(o + [m], [], w, h, b, []))
  {
    assert o + [] + ([m] + w + h + b) + [] == o + [m] + [] + (w + h + b) + [];
  }

  lemma {:induction false} QueueIsOwn(c: Config, s: State, t: nat)
    requires AccountInv(c, s) && t < |s.tasks|
    ensures AllOf(c, s.tasks[t].queue, s.tasks[t].key)
  {
    var task := s.tasks[t];
    assert Accounted(c, task);
    var before := task.injected + task.republished + task.lost;
    forall i | 0 <= i < |task.queue| ensures EffectiveKey(c, task.queue[i]) == task.key && Conversational(task.queue[i]) {
      assert task.queue[i] == task.routed[|before| + i];
    }
  }

  lemma {:induction false} QueueSplits(c: Config, queue: seq<Inbound>, n: nat, key: Key)
    requires AllOf(c, queue, key) && n <= |queue|
    ensures Serials(queue) == Serials(queue[..n]) + Serials(queue[n..])
    ensures Of(c, queue[..n], key) == Talk(c, queue[..n], key) == Serials(queue[..n])
  {
    OwnMessages(c, queue[..n], key, key);
  }

  /** The front of the queue is served. */
  lemma {:induction false} InjectLists(c: Config, s: State, t: nat, n: nat, x: Task)
    requires Inner(s, t) && s.tasks[t].stage.Turn? && AllOf(c, s.tasks[t].queue, s.tasks[t].key) && n <= |s.tasks[t].queue|
    requires x.key == s.tasks[t].key && x.stage.Turn? && x.queue == s.tasks[t].queue[n..]
    ensures Order(c, Put(s, t, x).(served := s.served + s.tasks[t].queue[..n]), x.key) == Order(c, s, x.key)
  {
    var queue, key, r := s.tasks[t].queue, x.key, Put(s, t, x);
    HeldLists(c, s, t, x);
    QueueSplits(c, queue, n, key);
    OfAppend(c, s.served, queue[..n], key);
    var l, q1, q2 := ListsOf(c, s, key), Serials(queue[..n]), Serials(queue[n..]);
    assert ListsOf(c, r.(served := s.served + queue[..n]), key) == l.(served := l.served + q1, queue := q2);
    ServeQueue(l, q1, q2);
  }

  lemma {:induction false} InjectStep(c: Config, s: State, t: nat)
    requires LockInv(c, s) && AccountInv(c, s) && Enabled(c, s, Inject(t))
    ensures Order(c, Apply(c, s, Inject(t)), s.tasks[t].key) == Order(c, s, s.tasks[t].key)
  {
    var r, n := Apply(c, s, Inject(t)), Injections.Min(INJECTIONS_PER_CYCLE, |s.tasks[t].queue|);
    AloneInside(c, s, t);
    QueueIsOwn(c, s, t);
    InjectLists(c, s, t, n, r.tasks[t]);
    SameLists(c, Put(s, t, r.tasks[t]).(served := s.served + s.tasks[t].queue[..n]), r, s.tasks[t].key);
  }

  lemma {:induction false} ServeQueue(l: Lists, q1: seq<nat>, q2: seq<nat>)
    requires l.queue == q1 + q2
    ensures Flat(l.(served := l.served + q1, queue := q2)) == Flat(l)
  {
    assert l.served + (q1 + q2) == l.served + q1 + q2;
  }

  /** Messages of the session put at the end of the bus by a task that drains. */
  lemma {:induction false} DrainLists(c: Config, s: State, t: nat, n: nat, x: Task)
    requires Inner(s, t) && AllOf(c, s.tasks[t].queue, s.tasks[t].key) && n <= |s.tasks[t].queue|
    requires s.tasks[t].stage.Turn? || s.tasks[t].stage.Draining?
    requires x.key == s.tasks[t].key && x.stage.Draining? && x.queue == s.tasks[t].queue[n..]
    ensures var l, q1 := ListsOf(c, s, x.key), Serials(s.tasks[t].queue[..n]);
            && Serials(s.tasks[t].queue) == q1 + Serials(x.queue)
            && l.queue == Held(s.tasks[t], Turns) && l.rest == Held(s.tasks[t], Drains)
            && ListsOf(c, Put(s, t, x).(bus := s.bus + s.tasks[t].queue[..n]), x.key)
               == l.(queue := [], bus := l.bus + q1, rest := Serials(x.queue))
  {
    var queue, key, r := s.tasks[t].queue, x.key, Put(s, t, x);
    HeldLists(c, s, t, x);
    QueueSplits(c, queue, n, key);
    TalkAppend(c, s.bus, queue[..n], key);
  }

  lemma {:induction false} ResumeLists(c: Config, s: State, t: nat, n: nat, x: Task)
    requires Inner(s, t) && s.tasks[t].stage.Draining? && AllOf(c, s.tasks[t].queue, s.tasks[t].key) && n <= |s.tasks[t].queue|
    requires x.key == s.tasks[t].key && x.stage.Draining? && x.queue == s.tasks[t].queue[n..]
    ensures Order(c, Put(s, t, x).(bus := s.bus + s.tasks[t].queue[..n]), x.key) == Order(c, s, x.key)
  {
    DrainLists(c, s, t, n, x);
    RestToBus(ListsOf(c, s, x.key), Serials(s.tasks[t].queue[..n]), Serials(x.queue));
  }

  /** Leftovers go where their place in the order is: to the end. */
  lemma {:induction false} ResumeStep(c: Config, s: State, t: nat)
    requires LockInv(c, s) && AccountInv(c, s) && At(s, t, Draining) && |s.bus| <= c.busCap
    ensures Order(c, Republish(c, s, t), s.tasks[t].key) == Order(c, s, s.tasks[t].key)
  {
    var task, n := s.tasks[t], Injections.Min(|s.tasks[t].queue|, c.busCap - |s.bus|);
    AloneInside(c, s, t);
    QueueIsOwn(c, s, t);
    ResumeLists(c, s, t, n, task.(queue := task.queue[n..], republished := task.republished + task.queue[..n]));
  }

  lemma {:induction false} RestToBus(l: Lists, q1: seq<nat>, q2: seq<nat>)
    requires l.rest == q1 + q2
    ensures Flat(l.(bus := l.bus + q1, rest := q2)) == Flat(l)
  {
    assert l.waits + l.hand + (l.bus + q1) == Ahead(l) + q1;
    var front := l.served + l.queue;
    assert front + (Ahead(l) + q1) + q2 == front + Ahead(l) + (q1 + q2);
  }

  // ----- Steps that can break the order -----

  /** Leftovers leave their place in front of the line for its end. */
  lemma {:induction false} LeftOrder(c: Config, s: State, t: nat)
    requires LockInv(c, s) && AccountInv(c, s) && Enabled(c, s, Leave(t))
    ensures var key, q := s.tasks[t].key, Serials(s.tasks[t].queue);
            var o, line := Of(c, s.served, key), Line(c, s, key);
            Order(c, s, key) == o + q + line && Order(c, Left(c, s, t), key) == o + line + q
  {
    var task, key, n := s.tasks[t], s.tasks[t].key, Injections.Min(|s.tasks[t].queue|, c.busCap - |s.bus|);
    var x := task.(stage := Draining, cancelling := false, queue := task.queue[n..], republished := task.republished + task.queue[..n]);
    AloneInside(c, s, t);
    QueueIsOwn(c, s, t);
    DrainLists(c, s, t, n, x);
    LeftIs(c, s, t, n, x);
    SameLists(c, Put(s, t, x).(bus := s.bus + task.queue[..n]), Left(c, s, t), key);
    MoveBehind(ListsOf(c, s, key), Serials(task.queue[..n]), Serials(x.queue));
  }

  lemma {:induction false} LeftIs(c: Config, s: State, t: nat, n: nat, x: Task)
    requires Enabled(c, s, Leave(t)) && n == Injections.Min(|s.tasks[t].queue|, c.busCap - |s.bus|)
    requires x == s.tasks[t].(stage := Draining, cancelling := false, queue := s.tasks[t].queue[n..],
                              republished := s.tasks[t].republished + s.tasks[t].queue[..n])
    ensures var r := Left(c, s, t);
            r.tasks == s.tasks[t := x] && r.bus == s.bus + s.tasks[t].queue[..n] && r.hand == s.hand && r.served == s.served
  {
  }

  lemma {:induction false} MoveBehind(l: Lists, q1: seq<nat>, q2: seq<nat>)
    requires l.queue == q1 + q2 && l.rest == []
    ensures Flat(l) == l.served + l.queue + Ahead(l)
    ensures Flat(l.(queue := [], bus := l.bus + q1, rest := q2)) == l.served + Ahead(l) + l.queue
  {
    assert l.waits + l.hand + (l.bus + q1) == Ahead(l) + q1;
    assert l.served + [] + (Ahead(l) + q1) + q2 == l.served + Ahead(l) + (q1 + q2);
  }

  lemma {:induction false} Swapped(o: seq<nat>, q: seq<nat>, line: seq<nat>, n: nat)
    requires Sorted(o + q + line) && AllBelow(o + q + line, n)
    ensures q == [] || line == [] ==> o + line + q == o + q + line
    ensures q != [] && line != [] ==> !Sorted(o + line + q)
  {
    if q != [] && line != [] {
      assert (o + q + line)[|o|] == q[0] && (o + q + line)[|o| + |q|] == line[0];
      assert (o + line + q)[|o|] == line[0] && (o + line + q)[|o| + |line|] == q[0];
    }
  }

  lemma {:induction false} LeaveStep(c: Config, s: State, t: nat, key: Key)
    requires LockInv(c, s) && AccountInv(c, s) && Enabled(c, s, Leave(t)) && s.tasks[t].key == key && Ordered(c, s, key)
    ensures s.tasks[t].queue == [] || Line(c, s, key) == [] ==> Ordered(c, Left(c, s, t), key)
    ensures s.tasks[t].queue != [] && Line(c, s, key) != [] ==> !Sorted(Order(c, Left(c, s, t), key))
  {
    LeftOrder(c, s, t);
    Swapped(Of(c, s.served, key), Serials(s.tasks[t].queue), Line(c, s, key), |s.arrived|);
    assert Left(c, s, t).arrived == s.arrived;
  }

  lemma {:induction false} HandEmpties(c: Config, s: State, m: Inbound, key: Key)
    requires s.hand == Some(m) && Conversational(m) && EffectiveKey(c, m) == key
    ensures ListsOf(c, s, key).hand == [m.serial] && ListsOf(c, s.(hand := None), key) == ListsOf(c, s, key).(hand := [])
  {
    TalkOne(c, m, key);
  }

  lemma {:induction false} JoinLists(c: Config, s: State, t: nat, m: Inbound, x: Task)
    requires Inner(s, t) && s.tasks[t].stage.Turn? && s.hand == Some(m) && Conversational(m) && EffectiveKey(c, m) == s.tasks[t].key
    requires x.key == s.tasks[t].key && x.stage.Turn? && x.queue == s.tasks[t].queue + [Pinned(c, m)]
    ensures var l := ListsOf(c, s, x.key);
            l.hand == [m.serial] && ListsOf(c, Put(s, t, x).(hand := None), x.key) == l.(queue := l.queue + [m.serial], hand := [])
  {
    HeldLists(c, s, t, x);
    HandEmpties(c, s, m, x.key);
    HandEmpties(c, Put(s, t, x), m, x.key);
    PinningKeepsTheKey(c, m);
    SerialsAppend(s.tasks[t].queue, [Pinned(c, m)]);
    assert Serials([Pinned(c, m)]) == [m.serial];
  }

  lemma {:induction false} JoinOrder(c: Config, s: State, key: Key)
    requires LockInv(c, s) && QueueInv(s) && s.hand.Some? && Joins(c, s, s.hand.value)
    requires EffectiveKey(c, s.hand.value) == key
    ensures var l, m := ListsOf(c, s, key), [s.hand.value.serial];
            l.hand == m && ListsOf(c, Routed(c, s, s.hand.value), key) == l.(queue := l.queue + m, hand := [])
  {
    var t, r := s.queues[key], Routed(c, s, s.hand.value);
    AloneInside(c, s, t);
    JoinLists(c, s, t, s.hand.value, r.tasks[t]);
    SameLists(c, Put(s, t, r.tasks[t]).(hand := None), r, key);
  }

  lemma {:induction false} JoinSteps(l: Lists, m: seq<nat>)
    requires Sorted(Flat(l)) && l.hand == m && |m| == 1
    ensures l.waits == [] ==> Flat(l.(queue := l.queue + m, hand := [])) == Flat(l)
    ensures l.waits != [] ==> !Sorted(Flat(l.(queue := l.queue + m, hand := [])))
  {
    var o, rest := l.served + l.queue, l.bus + l.rest;
    assert l.served + l.queue + (l.waits + m + l.bus) + l.rest == o + l.waits + m + rest;
    assert l.served + (l.queue + m) + (l.waits + [] + l.bus) + l.rest == o + m + l.waits + rest;
    Jumped(o, l.waits, m, rest);
  }

  lemma {:induction false} Jumped(o: seq<nat>, w: seq<nat>, m: seq<nat>, rest: seq<nat>)
    requires Sorted(o + w + m + rest) && |m| == 1
    ensures w != [] ==> !Sorted(o + m + w + rest)
    ensures w == [] ==> o + m + w + rest == o + w + m + rest
  {
    if w != [] {
      assert (o + w + m + rest)[|o|] == w[0] && (o + w + m + rest)[|o| + |w|] == m[0];
      assert (o + m + w + rest)[|o|] == m[0] && (o + m + w + rest)[|o| + 1] == w[0];
    }
  }

  lemma {:induction false} JoinStep(c: Config, s: State, key: Key)
    requires LockInv(c, s) && QueueInv(s) && AccountInv(c, s) && s.hand.Some? && Joins(c, s, s.hand.value)
    requires EffectiveKey(c, s.hand.value) == key && Ordered(c, s, key)
    ensures Gather(Waits, key, s.tasks) == [] ==> Ordered(c, Routed(c, s, s.hand.value), key)
    ensures Gather(Waits, key, s.tasks) != [] ==> !Sorted(Order(c, Routed(c, s, s.hand.value), key))
  {
    JoinOrder(c, s, key);
    JoinSteps(ListsOf(c, s, key), [s.hand.value.serial]);
    assert Routed(c, s, s.hand.value).arrived == s.arrived;
  }

  lemma {:induction false} Inserted(front: seq<nat>, d: seq<nat>, m: seq<nat>, n: nat)
    requires Sorted(front + d) && AllBelow(front + d, n) && m == [n]
    ensures d == [] ==> Sorted(front + m + d) && AllBelow(front + m + d, n + 1)
    ensures d != [] ==> !Sorted(front + m + d)
  {
    if d == [] {
      assert front + d == front && front + m + d == front + m;
    } else {
      assert (front + d)[|front|] == d[0] && (front + m + d)[|front|] == n && (front + m + d)[|front| + 1] == d[0];
    }
  }

  lemma {:induction false} PublishStep(c: Config, s: State, m: Inbound, key: Key)
    requires Enabled(c, s, Publish(m)) && m.serial == |s.arrived| && Ordered(c, s, key)
    ensures Overtakes(c, s, Publish(m), key) ==> !Sorted(Order(c, Apply(c, s, Publish(m)), key))
    ensures !Overtakes(c, s, Publish(m), key) ==> Ordered(c, Apply(c, s, Publish(m)), key)
  {
    TalkAppend(c, s.bus, [m], key);
    TalkOne(c, m, key);
    var l, x, front := ListsOf(c, s, key), Talk(c, [m], key), Of(c, s.served, key) + Gather(Turns, key, s.tasks);
    assert ListsOf(c, Apply(c, s, Publish(m)), key) == l.(bus := l.bus + x);
    Assoc(l.waits + l.hand, l.bus, x);
    Assoc(front, Ahead(l), x);
    if x == [] {
      assert l.bus + x == l.bus;
    } else {
      Inserted(front + Ahead(l), l.rest, x, |s.arrived|);
    }
  }

  // ----- Steps of other sessions -----

  lemma {:induction false} OtherLists(c: Config, s: State, r: State, t: nat, key: Key)
    requires t < |s.tasks| && |r.tasks| == |s.tasks| && r.tasks == s.tasks[t := r.tasks[t]]
    requires s.tasks[t].key != key && r.tasks[t].key != key
    requires HandOf(c, r, key) == HandOf(c, s, key) && Of(c, r.served, key) == Of(c, s.served, key) && Talk(c, r.bus, key) == Talk(c, s.bus, key)
    ensures ListsOf(c, r, key) == ListsOf(c, s, key)
  {
    GatherSame(Waits, key, s.tasks, r.tasks);
    GatherSame(Turns, key, s.tasks, r.tasks);
    GatherSame(Drains, key, s.tasks, r.tasks);
  }

  lemma {:induction false} OtherTalk(c: Config, s: State, t: nat, n: nat, key: Key)
    requires AccountInv(c, s) && t < |s.tasks| && n <= |s.tasks[t].queue| && s.tasks[t].key != key
    ensures Talk(c, s.bus + s.tasks[t].queue[..n], key) == Talk(c, s.bus, key)
    ensures Of(c, s.served + s.tasks[t].queue[..n], key) == Of(c, s.served, key)
  {
    var own, ms := s.tasks[t].key, s.tasks[t].queue[..n];
    QueueIsOwn(c, s, t);
    OwnMessages(c, ms, own, key);
    TalkAppend(c, s.bus, ms, key);
    OfAppend(c, s.served, ms, key);
  }

  lemma {:induction false} OtherDrain(c: Config, s: State, t: nat, key: Key)
    requires AccountInv(c, s) && t < |s.tasks| && |s.bus| <= c.busCap && s.tasks[t].key != key
    ensures ListsOf(c, Republish(c, s, t), key) == ListsOf(c, s, key)
  {
    OtherTalk(c, s, t, Injections.Min(|s.tasks[t].queue|, c.busCap - |s.bus|), key);
    OtherLists(c, s, Republish(c, s, t), t, key);
  }

  lemma {:induction false} OtherLeft(c: Config, s: State, t: nat, key: Key)
    requires AccountInv(c, s) && t < |s.tasks| && |s.bus| <= c.busCap && s.tasks[t].key != key
    ensures ListsOf(c, Left(c, s, t), key) == ListsOf(c, s, key)
  {
    OtherTalk(c, s, t, Injections.Min(|s.tasks[t].queue|, c.busCap - |s.bus|), key);
    OtherLists(c, s, Left(c, s, t), t, key);
  }

  lemma {:induction false} OtherServed(c: Config, s: State, l: Label, key: Key)
    requires LockInv(c, s) && AccountInv(c, s) && Enabled(c, s, l) && (l.PassGate? || l.Inject?) && s.tasks[l.t].key != key
    ensures ListsOf(c, Apply(c, s, l), key) == ListsOf(c, s, key)
  {
    var task := s.tasks[l.t];
    if l.PassGate? {
      TalkOne(c, task.msg, key);
      OfAppend(c, s.served, [task.msg], key);
    } else {
      OtherTalk(c, s, l.t, Injections.Min(INJECTIONS_PER_CYCLE, |task.queue|), key);
    }
    OtherLists(c, s, Apply(c, s, l), l.t, key);
  }

  lemma {:induction false} OtherJoin(c: Config, s: State, key: Key)
    requires LockInv(c, s) && QueueInv(s) && s.hand.Some? && Joins(c, s, s.hand.value) && EffectiveKey(c, s.hand.value) != key
    ensures ListsOf(c, Routed(c, s, s.hand.value), key) == ListsOf(c, s, key)
  {
    TalkOne(c, s.hand.value, key);
    OtherLists(c, s, Routed(c, s, s.hand.value), s.queues[EffectiveKey(c, s.hand.value)], key);
  }

  // ----- The front of the line -----

  /** A task at the gate that is going to get through is the first of its session. */
  ghost predicate GateFirst(s: State) {
    forall t: nat | t < |s.tasks| :: s.tasks[t].stage.AtGate? && !s.tasks[t].cancelling ==> First(s, t)
  }

  predicate NoNewWaiters(s: State, r: State) {
    && |r.tasks| == |s.tasks|
    && forall i | 0 <= i < |s.tasks| ::
         && r.tasks[i].key == s.tasks[i].key && (Queued(r.tasks[i]) ==> Queued(s.tasks[i]))
         && (r.tasks[i].stage.AtGate? && !r.tasks[i].cancelling ==> s.tasks[i].stage.AtGate? && !s.tasks[i].cancelling)
  }

  lemma {:induction false} FirstStays(s: State, r: State, t: nat)
    requires NoNewWaiters(s, r) && t < |s.tasks| && First(s, t)
    ensures First(r, t)
  {
  }

  lemma {:induction false} FrontFrame(s: State, r: State)
    requires GateFirst(s) && NoNewWaiters(s, r)
    ensures GateFirst(r)
  {
    forall t: nat | t < |r.tasks| && r.tasks[t].stage.AtGate? && !r.tasks[t].cancelling ensures First(r, t) { FirstStays(s, r, t); }
  }

  lemma {:induction false} FrontAcquire(c: Config, s: State, t: nat)
    requires GateFirst(s) && Enabled(c, s, Acquire(t)) && First(s, t)
    ensures GateFirst(Apply(c, s, Acquire(t)))
  {
    var r := Apply(c, s, Acquire(t));
    forall u: nat | u < |r.tasks| && r.tasks[u].stage.AtGate? && !r.tasks[u].cancelling ensures First(r, u) {
      assert First(s, u);
      assert forall w | 0 <= w < u :: Queued(r.tasks[w]) ==> Queued(s.tasks[w]);
    }
  }

  lemma {:induction false} FrontNewTask(c: Config, s: State, m: Inbound)
    requires GateFirst(s)
    ensures GateFirst(NewTask(c, s, m))
  {
    var r := NewTask(c, s, m);
    forall u: nat | u < |r.tasks| && r.tasks[u].stage.AtGate? && !r.tasks[u].cancelling ensures First(r, u) {
      assert u < |s.tasks| && First(s, u);
      assert forall w | 0 <= w < u :: r.tasks[w] == s.tasks[w];
    }
  }

  lemma {:induction false} FrontTaskSteps(c: Config, s: State, l: Label)
    requires Enabled(c, s, l) && (l.Start? || l.PassGate? || l.Inject? || l.Cancel? || l.Leave? || l.Resume?)
    ensures NoNewWaiters(s, Apply(c, s, l))
  {
    var r := Apply(c, s, l);
    assert r.tasks == s.tasks[l.t := r.tasks[l.t]];
  }

  lemma {:induction false} OneTaskChanges(s: State, r: State, t: nat)
    requires t < |s.tasks| == |r.tasks| && r.tasks == s.tasks[t := r.tasks[t]]
    requires r.tasks[t].key == s.tasks[t].key && (r.tasks[t].stage.Done? || r.tasks[t].stage.Draining?)
    ensures NoNewWaiters(s, r)
  {
  }

  lemma {:induction false} FrontEnds(c: Config, s: State, l: Label)
    requires Enabled(c, s, l) && (l.Finish? || l.Deliver?)
    ensures NoNewWaiters(s, Apply(c, s, l))
  {
    var r := Apply(c, s, l);
    assert r.tasks == s.tasks[l.t := r.tasks[l.t]];
    OneTaskChanges(s, r, l.t);
  }

  lemma {:induction false} FrontStep(c: Config, s: State, l: Label)
    requires GateFirst(s) && Enabled(c, s, l) && Fair(s, l)
    ensures GateFirst(Apply(c, s, l))
  {
    match l
    case Acquire(t) => FrontAcquire(c, s, t);
    case Route =>
      var m := s.hand.value;
      if Handles(c, s, m) || Joins(c, s, m) { FrontFrame(s, Routed(c, s, m)); } else { FrontNewTask(c, s, m); }
    case Stop(key) => FrontFrame(s, Stopped(s, key));
    case Finish(_) =>
      FrontEnds(c, s, l);
      FrontFrame(s, Apply(c, s, l));
    case Deliver(_) =>
      FrontEnds(c, s, l);
      FrontFrame(s, Apply(c, s, l));
    case Publish(_) => FrontFrame(s, Apply(c, s, l));
    case Take => FrontFrame(s, Apply(c, s, l));
    case Reap(_) => FrontFrame(s, Apply(c, s, l));
    case Collect(_) => FrontFrame(s, Apply(c, s, l));
    case _ =>
      FrontTaskSteps(c, s, l);
      FrontFrame(s, Apply(c, s, l));
  }

  // ----- Every step, every run -----

  lemma {:induction false} OwnTurnStep(c: Config, s: State, l: Label)
    requires Invariant(c, s) && GateFirst(s) && Enabled(c, s, l) && Fair(s, l)
    requires l.PassGate? || l.Inject? || l.Resume?
    ensures Order(c, Apply(c, s, l), s.tasks[l.t].key) == Order(c, s, s.tasks[l.t].key)
  {
    match l
    case PassGate(t) => PassGateStep(c, s, t);
    case Inject(t) => InjectStep(c, s, t);
    case Resume(t) => ResumeStep(c, s, t);
  }

  lemma {:induction false} TurnStep(c: Config, s: State, l: Label, key: Key)
    requires Invariant(c, s) && GateFirst(s) && Enabled(c, s, l) && Fair(s, l) && Ordered(c, s, key)
    requires l.PassGate? || l.Inject? || l.Resume?
    ensures Ordered(c, Apply(c, s, l), key)
  {
    if s.tasks[l.t].key == key {
      OwnTurnStep(c, s, l);
    } else if l.Resume? {
      OtherDrain(c, s, l.t, key);
    } else {
      OtherServed(c, s, l, key);
    }
    assert Apply(c, s, l).arrived == s.arrived;
  }

  lemma {:induction false} LeavingStep(c: Config, s: State, t: nat, key: Key)
    requires Invariant(c, s) && Enabled(c, s, Leave(t)) && Ordered(c, s, key)
    ensures Ordered(c, Left(c, s, t), key) <==> !Overtakes(c, s, Leave(t), key)
  {
    if s.tasks[t].key == key {
      LeaveStep(c, s, t, key);
    } else {
      OtherLeft(c, s, t, key);
      assert Left(c, s, t).arrived == s.arrived;
    }
  }

  lemma {:induction false} RouteStep(c: Config, s: State, key: Key)
    requires Invariant(c, s) && s.hand.Some? && Ordered(c, s, key)
    ensures Ordered(c, Routed(c, s, s.hand.value), key) <==> !Overtakes(c, s, Route, key)
  {
    var m := s.hand.value;
    if Handles(c, s, m) {
      HandleStep(c, s, key);
    } else if Joins(c, s, m) {
      if EffectiveKey(c, m) == key { JoinStep(c, s, key); } else { OtherJoin(c, s, key); }
      assert Routed(c, s, m).arrived == s.arrived;
    } else {
      NewTaskStep(c, s, key);
      assert NewTask(c, s, m).arrived == s.arrived;
    }
  }

  /** From a state in which no message of the session stands behind a later arrival, a step leads to another
      such state if and only if it is none of the three overtaking steps. */
  lemma {:induction false} OrderBreaksExactly(c: Config, s: State, l: Label, key: Key)
    requires Invariant(c, s) && GateFirst(s) && Enabled(c, s, l) && Fair(s, l) && Ordered(c, s, key)
    ensures Ordered(c, Apply(c, s, l), key) <==> !Overtakes(c, s, l, key)
  {
    match l
    case Publish(m) => PublishStep(c, s, m, key);
    case Take => TakeStep(c, s, key);
    case Route => RouteStep(c, s, key);
    case Leave(t) => LeavingStep(c, s, t, key);
    case Deliver(t) => if s.tasks[t].stage.Turn? { LeavingStep(c, s, t, key); } else { CutStep(c, s, t, key); }
    case Finish(t) => FinishStep(c, s, t, key);
    case Stop(stopped) => StopStep(c, s, stopped, key);
    case Reap(_) => OrderFrame(c, s, Apply(c, s, l), key);
    case Collect(_) => OrderFrame(c, s, Apply(c, s, l), key);
    case PassGate(_) => TurnStep(c, s, l, key);
    case Inject(_) => TurnStep(c, s, l, key);
    case Resume(_) => TurnStep(c, s, l, key);
    case _ => QuietTaskSteps(c, s, l, key);
  }

  lemma {:induction false} RunKeepsFront(c: Config, states: seq<State>, labels: seq<Label>, k: nat)
    requires FairRun(c, states, labels) && k < |states|
    ensures GateFirst(states[k])
  {
    if k > 0 {
      RunKeepsFront(c, states, labels, k - 1);
      FrontStep(c, states[k - 1], labels[k - 1]);
    }
  }

  /** In a run without an overtaking step of the session, its messages reach the model in the order in which
      they arrived, and those that still wait are in that order, too. */
  lemma {:induction false} SessionIsServedInOrder(c: Config, states: seq<State>, labels: seq<Label>, k: nat, key: Key)
    requires FairRun(c, states, labels) && k < |states|
    requires forall j | 0 <= j < k :: !Overtakes(c, states[j], labels[j], key)
    ensures Ordered(c, states[k], key) && Sorted(Of(c, states[k].served, key))
  {
    if k > 0 {
      SessionIsServedInOrder(c, states, labels, k - 1, key);
      RunKeepsInvariant(c, states, labels, k - 1);
      RunKeepsFront(c, states, labels, k - 1);
      OrderBreaksExactly(c, states[k - 1], labels[k - 1], key);
    }
    ServedComesFirst(ListsOf(c, states[k], key));
  }

  lemma {:induction false} ServedComesFirst(l: Lists)
    requires Sorted(Flat(l))
    ensures Sorted(l.served)
  {
    assert forall i | 0 <= i < |l.served| :: Flat(l)[i] == l.served[i];
  }

  /** The first overtaking step puts a message behind a later arrival. */
  lemma {:induction false} FirstOvertakingBreaksOrder(c: Config, states: seq<State>, labels: seq<Label>, k: nat, key: Key)
    requires FairRun(c, states, labels) && k < |labels|
    requires forall j | 0 <= j < k :: !Overtakes(c, states[j], labels[j], key)
    ensures Ordered(c, states[k + 1], key) <==> !Overtakes(c, states[k], labels[k], key)
  {
    SessionIsServedInOrder(c, states, labels, k, key);
    RunKeepsInvariant(c, states, labels, k);
    RunKeepsFront(c, states, labels, k);
    OrderBreaksExactly(c, states[k], labels[k], key);
  }

  // ----- The overtaking steps happen -----

  lemma {:induction false} ReachThirdOnBus(c: Config) returns (states: seq<State>, labels: seq<Label>)
    requires Passable(c) && c.busCap > 1
    ensures FairRun(c, states, labels)
    ensures states[|labels|] == Midway(c, [Pinned(c, SECOND)], [FIRST, SECOND, THIRD]).(bus := [THIRD])
  {
    states, labels := ReachMidway(c);
    states := Extend(c, states, labels, Publish(THIRD));
    labels := labels + [Publish(THIRD)];
    assert [FIRST, SECOND] + [THIRD] == [FIRST, SECOND, THIRD] && [] + [THIRD] == [THIRD];
  }

  lemma {:induction false} ReachOvertaken(c: Config) returns (states: seq<State>, labels: seq<Label>)
    requires Passable(c) && c.busCap > 1
    ensures FairRun(c, states, labels)
    ensures states[|labels|] == Midway(c, [Pinned(c, SECOND)], [FIRST, SECOND, THIRD]).(
              bus := [THIRD, Pinned(c, SECOND)], queues := map[],
              tasks := [Answering(c, [Pinned(c, SECOND)]).(stage := Draining, queue := [], republished := [Pinned(c, SECOND)])])
  {
    states, labels := ReachThirdOnBus(c);
    LeaveWithRoom(c, states[|labels|]);
    states := Extend(c, states, labels, Leave(0));
    labels := labels + [Leave(0)];
  }

  /** The first turn is over, and its leftover stands behind a later message. */
  lemma {:induction false} ReachLeftover(c: Config) returns (states: seq<State>, labels: seq<Label>)
    requires Passable(c) && c.busCap > 1
    ensures FairRun(c, states, labels) && AfterFirstTurn(c, states[|labels|])
  {
    states, labels := ReachOvertaken(c);
    FinishFirst(c, states[|labels|]);
    states := Extend(c, states, labels, Finish(0));
    labels := labels + [Finish(0)];
  }

  lemma {:induction false} LeaveWithRoom(c: Config, s: State)
    requires s.tasks == [Answering(c, [Pinned(c, SECOND)])] && s.bus == [THIRD] && c.busCap > 1
    requires s.queues == map[EffectiveKey(c, FIRST) := 0]
    ensures var x := Answering(c, [Pinned(c, SECOND)]).(stage := Draining, queue := [], republished := [Pinned(c, SECOND)]);
            Left(c, s, 0) == s.(tasks := [x], bus := [THIRD, Pinned(c, SECOND)], queues := map[])
  {
    var r := Left(c, s, 0);
    assert r.tasks[0].queue == [] && r.tasks[0].republished == [Pinned(c, SECOND)];
    assert r.bus == [THIRD, Pinned(c, SECOND)] && r.queues == map[];
    assert r.tasks == [r.tasks[0]];
  }

  lemma {:induction false} FinishFirst(c: Config, s: State)
    requires |s.tasks| == 1 && s.tasks[0].stage.Draining? && s.tasks[0].lock == 0 && s.holders == map[0 := 0]
    ensures var r := Released(c, s, 0);
            && r == s.(tasks := r.tasks, holders := map[], permits := r.permits) && (c.gate.Some? ==> r.permits > 0)
            && |r.tasks| == 1 && r.tasks[0] == s.tasks[0].(stage := Done)
  {
    assert Released(c, s, 0).holders == map[];
  }

  predicate AfterFirstTurn(c: Config, s: State) {
    && s.bus == [THIRD, Pinned(c, SECOND)] && s.hand.None? && s.arrived == [FIRST, SECOND, THIRD]
    && |s.tasks| == 1 && s.tasks[0].stage.Done? && s.served == [Pinned(c, FIRST)]
    && s.locks == map[EffectiveKey(c, FIRST) := 0] && s.holders == map[] && s.queues == map[]
    && (c.gate.Some? ==> s.permits > 0)
  }

  lemma {:induction false} ReachThirdTask(c: Config) returns (states: seq<State>, labels: seq<Label>)
    requires Passable(c) && c.busCap > 1
    ensures FairRun(c, states, labels)
    ensures var s := states[|labels|];
            && s.bus == [Pinned(c, SECOND)] && s.hand.None? && s.arrived == [FIRST, SECOND, THIRD]
            && |s.tasks| == 2 && s.tasks[0].stage.Done? && s.served == [Pinned(c, FIRST)]
            && s.tasks[1] == Task(THIRD, EffectiveKey(c, FIRST), Created, 0, [], [], [], [], [], 0, false, false)
            && s.locks == map[EffectiveKey(c, FIRST) := 0] && s.holders == map[] && s.queues == map[]
            && (c.gate.Some? ==> s.permits > 0)
  {
    states, labels := ReachLeftover(c);
    states := Extend(c, states, labels, Take);
    labels := labels + [Take];
    assert states[|labels|].bus == [Pinned(c, SECOND)];
    states := Extend(c, states, labels, Route);
    labels := labels + [Route];
  }

  /** Leftovers go behind what is already on the bus: the third message is answered before the second, which
      came earlier and is of the same session. */
  lemma {:induction false} LeftoversAreOvertaken(c: Config) returns (states: seq<State>, labels: seq<Label>)
    requires Passable(c) && c.busCap > 1
    ensures FairRun(c, states, labels)
    ensures var s := states[|labels|];
            && s.arrived == [FIRST, SECOND, THIRD] && EffectiveKey(c, SECOND) == EffectiveKey(c, THIRD)
            && s.served == [Pinned(c, FIRST), Pinned(c, THIRD)] && s.bus == [Pinned(c, SECOND)]
  {
    states, labels := ReachThirdTask(c);
    states, labels := BeginTurn(c, states, labels, 1, 0);
    assert states[|labels|].served == [Pinned(c, FIRST), Pinned(c, THIRD)];
  }

  /** Two messages came before the first turn began, and are tasks of their own. */
  lemma {:induction false} ReachWaiter(c: Config) returns (states: seq<State>, labels: seq<Label>)
    requires Passable(c) && c.busCap > 0
    ensures FairRun(c, states, labels) && OneWaits(c, states[|labels|])
  {
    states, labels := ReachTwoTasks(c);
    states, labels := BeginTurn(c, states, labels, 0, 0);
    assert states[|labels|].served == [Pinned(c, FIRST)];
  }

  lemma {:induction false} ReachTwoTasks(c: Config) returns (states: seq<State>, labels: seq<Label>)
    requires c.busCap > 0
    ensures FairRun(c, states, labels)
    ensures var s, key := states[|labels|], EffectiveKey(c, FIRST);
            && s == Initial(c).(arrived := [FIRST, SECOND], active := s.active, tasks := s.tasks)
            && s.tasks == [Task(FIRST, key, Created, 0, [], [], [], [], [], 0, false, false),
                           Task(SECOND, key, Created, 0, [], [], [], [], [], 0, false, false)]
  {
    states, labels := ReachTask(c);
    states, labels := Arrive(c, states, labels, SECOND);
    states := Extend(c, states, labels, Route);
    labels := labels + [Route];
    assert states[|labels|].arrived == [FIRST, SECOND] && states[|labels|].bus == [];
  }

  predicate OneWaits(c: Config, s: State) {
    && s.bus == [] && s.hand.None? && s.arrived == [FIRST, SECOND] && s.served == [Pinned(c, FIRST)]
    && |s.tasks| == 2 && s.tasks[0] == Answering(c, []) && s.tasks[1].stage.Created? && s.tasks[1].msg == SECOND
    && EffectiveKey(c, FIRST) in s.queues && s.queues[EffectiveKey(c, FIRST)] == 0
  }

  /** A message that joins the running turn is answered before an earlier one that waits as a task. */
  lemma {:induction false} WaitersAreOvertaken(c: Config) returns (states: seq<State>, labels: seq<Label>)
    requires Passable(c) && c.busCap > 0
    ensures FairRun(c, states, labels)
    ensures var s := states[|labels|];
            && s.arrived == [FIRST, SECOND, THIRD] && EffectiveKey(c, SECOND) == EffectiveKey(c, THIRD)
            && s.served == [Pinned(c, FIRST), Pinned(c, THIRD)] && |s.tasks| == 2 && s.tasks[1].stage.Created? && s.tasks[1].msg == SECOND
  {
    states, labels := ReachWaiter(c);
    states, labels := Arrive(c, states, labels, THIRD);
    assert states[|labels|].arrived == [FIRST, SECOND, THIRD];
    JoinsAnswering(c, states[|labels|], THIRD);
    states := Extend(c, states, labels, Route);
    labels := labels + [Route];
    InjectOne(c, states[|labels|]);
    states := Extend(c, states, labels, Inject(0));
    labels := labels + [Inject(0)];
  }

  lemma {:induction false} InjectOne(c: Config, s: State)
    requires |s.tasks| == 2 && s.tasks[0] == Answering(c, [Pinned(c, THIRD)]) && s.served == [Pinned(c, FIRST)]
    ensures Enabled(c, s, Inject(0))
    ensures var r := Apply(c, s, Inject(0));
            && r == s.(tasks := r.tasks, served := [Pinned(c, FIRST), Pinned(c, THIRD)])
            && |r.tasks| == 2 && r.tasks[1] == s.tasks[1]
  {
    assert [Pinned(c, THIRD)][..1] == [Pinned(c, THIRD)];
    assert Apply(c, s, Inject(0)).served == [Pinned(c, FIRST), Pinned(c, THIRD)];
  }
}
