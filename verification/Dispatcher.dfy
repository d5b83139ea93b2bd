/** The dispatcher object: its methods are the uninterrupted stretches of the consumer loop and of a
    task, each proved to be the step of the protocol that it stands for. */
module Dispatcher {
  import opened Messages
  import opened Dispatch
  import Injections

  class MessageDispatcher {
    const config: Config
    var bus: seq<Inbound>
    var hand: Option<Inbound>
    var tasks: seq<Task>
    var sessionLocks: map<Key, nat>
    var nextLock: nat
    var holders: map<nat, nat>
    var permits: nat
    var pendingQueues: map<Key, nat>
    var activeTasks: map<Key, seq<nat>>
    var handled: seq<Inbound>
    var arrived: seq<Inbound>
    var served: seq<Inbound>

    constructor (config: Config)
      ensures this.config == config && Snapshot() == Initial(config)
    {
      this.config := config;
      bus, hand, tasks, handled, arrived, served := [], None, [], [], [], [];
      sessionLocks, nextLock, holders, pendingQueues, activeTasks := map[], 0, map[], map[], map[];
      permits := if config.gate.Some? then config.gate.value else 0;
    }

    function Snapshot(): State
      reads this
    {
      State(bus, hand, tasks, sessionLocks, nextLock, holders, permits, pendingQueues, activeTasks, handled, arrived, served)
    }

    method CreateTask(m: Inbound)
      modifies this
      ensures Snapshot() == NewTask(config, old(Snapshot()), m)
    {
      var key := EffectiveKey(config, m);
      var known := if key in activeTasks then activeTasks[key] else [];
      activeTasks := activeTasks[key := known + [|tasks|]];
      tasks := tasks + [Task(m, key, Created, 0, [], [], [], [], [], 0, false, false)];
      hand := None;
    }

    /** One message of the consumer loop. */
    method RouteMessage()
      requires hand.Some? && QueueInv(Snapshot())
      modifies this
      ensures Snapshot() == Apply(config, old(Snapshot()), Route)
    {
      var m := hand.value;
      var key := EffectiveKey(config, m);
      if m.kind.Control? || m.kind.Priority? {
        handled, hand := handled + [m], None;
        return;
      }
      if key in pendingQueues {
        if m.kind.Dispatchable? {
          handled, hand := handled + [m], None;
          return;
        }
        var pending := m;
        if key != SessionKey(m) { pending := m.(override := key); }
        var t := pendingQueues[key];
        if |tasks[t].queue| < PENDING_CAP {
          tasks := tasks[t := tasks[t].(queue := tasks[t].queue + [pending], routed := tasks[t].routed + [pending])];
          hand := None;
          return;
        }
      }
      CreateTask(m);
    }

    /** The beginning of a task: its message is pinned to the session, its lock found or made. */
    method Begin(t: nat)
      requires t < |tasks| && tasks[t].stage.Created?
      modifies this
      ensures Snapshot() == Apply(config, old(Snapshot()), Start(t))
    {
      var task := tasks[t];
      var key := EffectiveKey(config, task.msg);
      if key != SessionKey(task.msg) { task := task.(msg := task.msg.(override := key)); }
      if key !in sessionLocks {
        sessionLocks := sessionLocks[key := nextLock];
        nextLock := nextLock + 1;
      }
      tasks := tasks[t := task.(stage := Waiting, lock := sessionLocks[key])];
      assert Snapshot().locks == Apply(config, old(Snapshot()), Start(t)).locks;
    }

    /** Leftovers go back to the bus, oldest first, while it has room. */
    method RepublishLeftovers(leftovers: seq<Inbound>) returns (n: nat)
      requires |bus| <= config.busCap
      modifies this`bus
      ensures n == Injections.Min(|leftovers|, config.busCap - |old(bus)|) && bus == old(bus) + leftovers[..n]
    {
      n := 0;
      while n < |leftovers| && |bus| < config.busCap
        invariant n <= |leftovers| && bus == old(bus) + leftovers[..n] && |bus| <= config.busCap
      {
        assert leftovers[..n + 1] == leftovers[..n] + [leftovers[n]];
        bus, n := bus + [leftovers[n]], n + 1;
      }
    }

    /** The end of a turn: the queue is withdrawn, and its leftovers are put back. */
    method EndTurn(t: nat)
      requires t < |tasks| && Enabled(config, Snapshot(), Leave(t))
      modifies this
      ensures Snapshot() == Apply(config, old(Snapshot()), Leave(t))
    {
      var task := tasks[t];
      if task.key in pendingQueues && pendingQueues[task.key] == t { pendingQueues := pendingQueues - {task.key}; }
      var n := RepublishLeftovers(task.queue);
      tasks := tasks[t := task.(stage := Draining, cancelling := false, queue := task.queue[n..],
                                republished := task.republished + task.queue[..n])];
    }

    /** /stop: every unfinished task that the session's list names is asked to stop, and counted. */
    method CancelActiveTasks(key: Key) returns (cancelled: nat)
      requires ActiveInv(Snapshot())
      modifies this
      ensures Snapshot() == Apply(config, old(Snapshot()), Stop(key))
      ensures cancelled == Unfinished(old(tasks), ActiveOf(old(Snapshot()), key))
    {
      cancelled := 0;
      var ids := if key in activeTasks then activeTasks[key] else [];
      assert ids == ActiveOf(old(Snapshot()), key) && Below(ids, |tasks|);
      activeTasks := activeTasks - {key};
      for n := 0 to |ids|
        invariant tasks == AskedAll(old(tasks), ids[..n])
        invariant cancelled == Unfinished(old(tasks), ids[..n])
        modifies this`tasks
      {
        assert ids[..n + 1] == ids[..n] + [ids[n]] && ids[..n + 1][..n] == ids[..n];
        AskedSnoc(old(tasks), ids[..n], ids[n]);
        if !tasks[ids[n]].stage.Done? {
          tasks := tasks[ids[n] := tasks[ids[n]].(cancelling := true, stopped := true)];
          cancelled := cancelled + 1;
        }
      }
      assert ids[..|ids|] == ids;
    }
  }

  /** How many tasks of the list are not over. */
  function Unfinished(tasks: seq<Task>, ids: seq<nat>): nat {
    if ids == [] then 0
    else
      var last := ids[|ids| - 1];
      Unfinished(tasks, ids[..|ids| - 1]) + if last < |tasks| && !tasks[last].stage.Done? then 1 else 0
  }

  lemma {:induction false} AskedSnoc(tasks: seq<Task>, ids: seq<nat>, t: nat)
    requires t < |tasks|
    ensures AskedAll(tasks, ids + [t]) == AskedAll(tasks, ids)[t := Asked(AskedAll(tasks, ids)[t])]
  {
  }
}
