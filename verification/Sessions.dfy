/** Which messages share a session: what the consumer makes of a message's channel, chat, agent and override,
    and what follows for turns, queues and locks. */
module Sessions {
  import opened Messages
  import opened Dispatch

  /** An override wins over the agent, and the agent over the unified mode. */
  predicate SessionIs(c: Config, m: Inbound, key: Key) {
    && (m.override != "" ==> key == m.override)
    && (m.override == "" && m.agentId != "" ==> key == m.channel + ":" + m.chatId + "#" + m.agentId)
    && (m.override == "" && m.agentId == "" && c.unified ==> key == "unified:default")
    && (m.override == "" && m.agentId == "" && !c.unified ==> key == m.channel + ":" + m.chatId)
  }

  ghost predicate SameSession(c: Config, a: Inbound, b: Inbound) {
    exists key :: SessionIs(c, a, key) && SessionIs(c, b, key)
  }

  lemma {:induction false} KeyIs(c: Config, m: Inbound, key: Key)
    ensures SessionIs(c, m, key) <==> key == EffectiveKey(c, m)
  {
  }

  lemma {:induction false} SameKey(c: Config, a: Inbound, b: Inbound)
    ensures SameSession(c, a, b) <==> EffectiveKey(c, a) == EffectiveKey(c, b)
  {
    KeyIs(c, a, EffectiveKey(c, a));
    KeyIs(c, b, EffectiveKey(c, a));
    if key :| SessionIs(c, a, key) && SessionIs(c, b, key) {
      KeyIs(c, a, key);
      KeyIs(c, b, key);
    }
  }

  // ----- Names -----

  /** The separators of a session name do not occur in the names of channel and chat. */
  predicate Clean(m: Inbound) {
    ':' !in m.channel && '#' !in m.channel && '#' !in m.chatId
  }

  lemma {:induction false} SplitAt(a: string, x: string, b: string, y: string, sep: char)
    requires sep !in a && sep !in b && a + [sep] + x == b + [sep] + y
    ensures a == b && x == y
  {
    var s, t := a + [sep] + x, b + [sep] + y;
    assert s[|a|] == sep && t[|b|] == sep;
    assert (forall k | 0 <= k < |a| :: s[k] == a[k]) && (forall k | 0 <= k < |b| :: t[k] == b[k]);
    assert |a| == |b|;
    assert s[..|a|] == a && t[..|b|] == b && s[|a| + 1..] == x && t[|b| + 1..] == y;
  }

  lemma {:induction false} ChatNames(a: Inbound, b: Inbound)
    requires Clean(a) && Clean(b)
    ensures a.channel + ":" + a.chatId == b.channel + ":" + b.chatId <==> a.channel == b.channel && a.chatId == b.chatId
    ensures '#' !in a.channel + ":" + a.chatId
  {
    if a.channel + ":" + a.chatId == b.channel + ":" + b.chatId { SplitAt(a.channel, a.chatId, b.channel, b.chatId, ':'); }
  }

  lemma {:induction false} AgentNames(a: Inbound, b: Inbound)
    requires Clean(a) && Clean(b)
    ensures a.channel + ":" + a.chatId + "#" + a.agentId == b.channel + ":" + b.chatId + "#" + b.agentId
            <==> a.channel == b.channel && a.chatId == b.chatId && a.agentId == b.agentId
    ensures '#' in a.channel + ":" + a.chatId + "#" + a.agentId
  {
    var p, q := a.channel + ":" + a.chatId, b.channel + ":" + b.chatId;
    ChatNames(a, b);
    ChatNames(b, a);
    if p + "#" + a.agentId == q + "#" + b.agentId { SplitAt(p, a.agentId, q, b.agentId, '#'); }
    assert (p + "#" + a.agentId)[|p|] == '#';
  }

  /** Two messages without override share a session if and only if they are for the same agent and come from
      the same chat, or are for none in the unified mode; of two overrides the names decide. */
  lemma {:induction false} SameSessionExactly(c: Config, a: Inbound, b: Inbound)
    requires Clean(a) && Clean(b)
    ensures a.override == "" && b.override == "" ==>
              (SameSession(c, a, b) <==>
                 a.agentId == b.agentId && ((c.unified && a.agentId == "") || (a.channel == b.channel && a.chatId == b.chatId)))
    ensures a.override != "" && b.override != "" ==> (SameSession(c, a, b) <==> a.override == b.override)
  {
    SameKey(c, a, b);
    KeyIs(c, a, EffectiveKey(c, a));
    KeyIs(c, b, EffectiveKey(c, b));
    ChatNames(a, b);
    ChatNames(b, a);
    AgentNames(a, b);
    AgentNames(b, a);
    assert '#' !in "unified:default";
  }

  // ----- A task keeps its session -----

  lemma {:induction false} EndsKeepKeys(c: Config, s: State, t: nat)
    requires t < |s.tasks| && |s.bus| <= c.busCap
    ensures |Left(c, s, t).tasks| == |Released(c, s, t).tasks| == |Cancelled(c, s, t).tasks| == |s.tasks|
    ensures forall i | 0 <= i < |s.tasks| ::
              Left(c, s, t).tasks[i].key == Released(c, s, t).tasks[i].key == Cancelled(c, s, t).tasks[i].key == s.tasks[i].key
  {
  }

  lemma {:induction false} KeyStays(c: Config, s: State, l: Label, i: nat)
    requires Enabled(c, s, l) && i < |s.tasks|
    ensures i < |Apply(c, s, l).tasks| && Apply(c, s, l).tasks[i].key == s.tasks[i].key
  {
    match l
    case Leave(t) => EndsKeepKeys(c, s, t);
    case Deliver(t) => EndsKeepKeys(c, s, t);
    case _ =>
  }

  lemma {:induction false} KeyPersists(c: Config, states: seq<State>, labels: seq<Label>, i: nat, j: nat, t: nat)
    requires Run(c, states, labels) && i <= j < |states| && t < |states[i].tasks|
    ensures t < |states[j].tasks| && states[j].tasks[t].key == states[i].tasks[t].key
    decreases j
  {
    if i < j {
      KeyPersists(c, states, labels, i, j - 1, t);
      KeyStays(c, states[j - 1], labels[j - 1], t);
    }
  }

  /** Step `i` makes task `t` for message `m`. */
  predicate Makes(states: seq<State>, labels: seq<Label>, i: nat, m: Inbound, t: nat) {
    && i < |labels| && |states| == |labels| + 1
    && labels[i].Route? && states[i].hand == Some(m) && |states[i].tasks| == t && |states[i + 1].tasks| == t + 1
  }

  lemma {:induction false} TaskOfMessage(c: Config, states: seq<State>, labels: seq<Label>, i: nat, j: nat, m: Inbound, t: nat)
    requires Run(c, states, labels) && Makes(states, labels, i, m, t) && i < j < |states|
    ensures t < |states[j].tasks| && states[j].tasks[t].key == EffectiveKey(c, m)
  {
    assert states[i + 1] == Apply(c, states[i], labels[i]);
    KeyPersists(c, states, labels, i + 1, j, t);
  }

  // ----- Joining a turn -----

  lemma {:induction false} RoutingChat(c: Config, s: State, m: Inbound, t: nat)
    requires QueueInv(s) && s.hand == Some(m) && m.kind.Chat? && t < |s.tasks| && s.tasks[t].stage.Turn?
    ensures var task, r := s.tasks[t], Routed(c, s, m);
            && t < |r.tasks|
            && (EffectiveKey(c, m) == task.key && |task.queue| < PENDING_CAP ==>
                  r == s.(hand := None, tasks := s.tasks[t := task.(queue := task.queue + [Pinned(c, m)], routed := task.routed + [Pinned(c, m)])]))
            && (EffectiveKey(c, m) != task.key || |task.queue| >= PENDING_CAP ==> r.tasks[t] == task)
  {
  }

  lemma {:induction false} PinnedIs(c: Config, m: Inbound)
    ensures exists key :: SessionIs(c, m, key)
              && Pinned(c, m) == if m.override == "" && key != m.channel + ":" + m.chatId then m.(override := key) else m
  {
    KeyIs(c, m, EffectiveKey(c, m));
  }

  /** While the turn for one message runs, another one joins its queue if and only if they share a session and
      there is room: it goes to the end, under the name of the session, and nothing else changes. */
  lemma {:induction false} ChatsJoinExactly(c: Config, states: seq<State>, labels: seq<Label>, i: nat, j: nat, a: Inbound, t: nat, m: Inbound)
    requires Run(c, states, labels) && Makes(states, labels, i, a, t) && i < j < |labels|
    requires labels[j].Route? && states[j].hand == Some(m) && m.kind.Chat?
    requires t < |states[j].tasks| && states[j].tasks[t].stage.Turn?
    ensures var task := states[j].tasks[t];
            if SameSession(c, a, m) && |task.queue| < 20
            then exists key :: SessionIs(c, m, key) &&
                   var held := if m.override == "" && key != m.channel + ":" + m.chatId then m.(override := key) else m;
                   states[j + 1] == states[j].(hand := None,
                     tasks := states[j].tasks[t := task.(queue := task.queue + [held], routed := task.routed + [held])])
            else t < |states[j + 1].tasks| && states[j + 1].tasks[t] == task
  {
    assert Enabled(c, states[j], labels[j]) && states[j + 1] == Apply(c, states[j], labels[j]);
    RunKeepsInvariant(c, states, labels, j);
    TaskOfMessage(c, states, labels, i, j, a, t);
    SameKey(c, a, m);
    RoutingChat(c, states[j], m, t);
    PinnedIs(c, m);
  }

  /** In the unified mode: whatever chats two messages come from, the second joins the turn of the first. */
  lemma {:induction false} UnifiedChatsShareATurn(c: Config, states: seq<State>, labels: seq<Label>, i: nat, j: nat, a: Inbound, t: nat, m: Inbound)
    requires c.unified && a.override == a.agentId == m.override == m.agentId == ""
    requires Run(c, states, labels) && Makes(states, labels, i, a, t) && i < j < |labels|
    requires labels[j].Route? && states[j].hand == Some(m) && m.kind.Chat? && m.channel + ":" + m.chatId != "unified:default"
    requires t < |states[j].tasks| && states[j].tasks[t].stage.Turn? && |states[j].tasks[t].queue| < 20
    ensures |states[j + 1].tasks| == |states[j].tasks|
    ensures states[j + 1].tasks[t].queue == states[j].tasks[t].queue + [m.(override := "unified:default")]
  {
    assert SessionIs(c, a, "unified:default") && SessionIs(c, m, "unified:default");
    ChatsJoinExactly(c, states, labels, i, j, a, t, m);
  }

  // ----- Everything else that the consumer does -----

  /** Some turn of the message's session is running. */
  ghost predicate Busy(c: Config, s: State, m: Inbound) {
    exists t :: 0 <= t < |s.tasks| && s.tasks[t].stage.Turn? && SessionIs(c, m, s.tasks[t].key)
  }

  /** The consumer answers the message itself. */
  ghost predicate Inline(c: Config, s: State, m: Inbound) {
    m.kind.Control? || m.kind.Priority? || (m.kind.Dispatchable? && Busy(c, s, m))
  }

  /** The turn that the message joins. */
  predicate Open(c: Config, s: State, m: Inbound, t: nat) {
    t < |s.tasks| && s.tasks[t].stage.Turn? && SessionIs(c, m, s.tasks[t].key) && |s.tasks[t].queue| < 20
  }

  lemma {:induction false} QueueMeansBusy(c: Config, s: State, m: Inbound)
    requires QueueInv(s)
    ensures Busy(c, s, m) <==> EffectiveKey(c, m) in s.queues
    ensures forall t: nat | t < |s.tasks| && s.tasks[t].stage.Turn? && SessionIs(c, m, s.tasks[t].key) ::
              EffectiveKey(c, m) in s.queues && s.queues[EffectiveKey(c, m)] == t
  {
    var key := EffectiveKey(c, m);
    forall t: nat | t < |s.tasks| && s.tasks[t].stage.Turn? && SessionIs(c, m, s.tasks[t].key)
      ensures key in s.queues && s.queues[key] == t
    {
      KeyIs(c, m, s.tasks[t].key);
    }
    if key in s.queues { KeyIs(c, m, key); }
  }

  /** A message is answered at once, put into the queue of its session's turn, or made a task of its own,
      each exactly when the other ways are not open. */
  lemma {:induction false} RouteExactly(c: Config, s: State, m: Inbound)
    requires QueueInv(s) && s.hand == Some(m)
    ensures var r := Apply(c, s, Route);
            && (Inline(c, s, m) ==> r == s.(hand := None, handled := s.handled + [m]))
            && (forall t: nat | !Inline(c, s, m) && Open(c, s, m, t) :: |r.tasks| == |s.tasks| && |r.tasks[t].queue| == |s.tasks[t].queue| + 1)
            && (!Inline(c, s, m) && (forall t: nat :: !Open(c, s, m, t)) ==>
                  && |r.tasks| == |s.tasks| + 1 && r.tasks[..|s.tasks|] == s.tasks
                  && (var task := r.tasks[|s.tasks|];
                      && task.msg == m && SessionIs(c, m, task.key) && task.stage.Created? && task.queue == [] && !task.cancelling
                      && r == s.(hand := None, tasks := r.tasks, active := s.active[task.key := ActiveOf(s, task.key) + [|s.tasks|]])))
  {
    QueueMeansBusy(c, s, m);
    var key := EffectiveKey(c, m);
    KeyIs(c, m, key);
    if Joins(c, s, m) { assert Open(c, s, m, s.queues[key]); }
  }

  // ----- Locks of different sessions -----

  ghost predicate OwnLocks(s: State) {
    && (forall k | k in s.locks :: s.locks[k] < s.nextLock)
    && (forall k, l | k in s.locks && l in s.locks && k != l :: s.locks[k] != s.locks[l])
  }

  lemma {:induction false} EndsKeepLocks(c: Config, s: State, t: nat)
    requires t < |s.tasks| && |s.bus| <= c.busCap
    ensures Left(c, s, t).locks == Released(c, s, t).locks == Cancelled(c, s, t).locks == s.locks
    ensures Left(c, s, t).nextLock == Released(c, s, t).nextLock == Cancelled(c, s, t).nextLock == s.nextLock
  {
  }

  lemma {:induction false} LocksStay(c: Config, s: State, l: Label)
    requires Enabled(c, s, l) && !l.Start? && !l.Collect?
    ensures Apply(c, s, l).locks == s.locks && Apply(c, s, l).nextLock == s.nextLock
  {
    match l
    case Leave(t) => EndsKeepLocks(c, s, t);
    case Deliver(t) => EndsKeepLocks(c, s, t);
    case Finish(t) =>
    case Route =>
    case _ =>
  }

  lemma {:induction false} StepKeepsOwnLocks(c: Config, s: State, l: Label)
    requires OwnLocks(s) && Enabled(c, s, l)
    ensures OwnLocks(Apply(c, s, l))
  {
    if !l.Start? && !l.Collect? { LocksStay(c, s, l); }
  }

  lemma {:induction false} RunKeepsOwnLocks(c: Config, states: seq<State>, labels: seq<Label>, k: nat)
    requires Run(c, states, labels) && k < |states|
    ensures OwnLocks(states[k])
  {
    if k > 0 {
      RunKeepsOwnLocks(c, states, labels, k - 1);
      StepKeepsOwnLocks(c, states[k - 1], labels[k - 1]);
    }
  }

  /** Tasks of two messages have one key, and, once begun, one lock, if and only if the messages share a
      session. */
  lemma {:induction false} SessionsHaveTheirOwnLocks(c: Config, states: seq<State>, labels: seq<Label>, i: nat, j: nat, k: nat, a: Inbound, t: nat, b: Inbound, u: nat)
    requires Run(c, states, labels) && Makes(states, labels, i, a, t) && Makes(states, labels, j, b, u)
    requires i < k < |states| && j < k
    ensures t < |states[k].tasks| && u < |states[k].tasks|
    ensures var x, y := states[k].tasks[t], states[k].tasks[u];
            && (x.key == y.key <==> SameSession(c, a, b))
            && (Begun(x.stage) && Begun(y.stage) ==> (x.lock == y.lock <==> SameSession(c, a, b)))
  {
    TaskOfMessage(c, states, labels, i, k, a, t);
    TaskOfMessage(c, states, labels, j, k, b, u);
    SameKey(c, a, b);
    RunKeepsInvariant(c, states, labels, k);
    RunKeepsOwnLocks(c, states, labels, k);
  }
}
