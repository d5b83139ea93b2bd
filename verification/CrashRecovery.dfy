/** Turns that may be cut short at any point, and the repair at the start of the next one.

    One session is followed through any number of turns: its in-memory copy, the copy on disk, and
    the list that the runner of the current turn has built so far. Saving is a step of its own and may
    happen, or fail to happen, at any time; a crash reloads the last saved copy. */
module CrashRecovery {
  import opened Messages
  import opened ToolPairing
  import opened SessionTurn
  import opened SaveTurn

  datatype Stage =
    | Idle
    | Begun          // RESTORE is about to look at the checkpoint
    | SlotRestored   // RESTORE is about to look at the pending flag
    | Ready          // COMPACT, COMMAND, BUILD
    | Replying       // a command answers without running the model
    | Replied
    /** `tail`: what the runner appended to its prompt; `issued`: tool calls still being executed. */
    | Running(tail: seq<Message>, issued: Option<Message>)

  /** `asked`: where the current turn stored its user message; `interrupted`: where the user messages
      of turns that were cut short stand. */
  datatype State = State(mem: Snapshot, disk: Snapshot, stage: Stage, asked: Option<nat>, interrupted: set<nat>)

  datatype Label =
    | Begin
    | RestoreSlot(now: nat)
    | RestoreFlag(now: nat)
    | Save
    | Followup(text: string, now: nat)                    // a subagent's answer, stored by a system turn
    | CommandUser(msg: Inbound, key: string, now: nat)
    | CommandReply(text: string, now: nat)
    | CommandDone
    | Build(msg: Inbound, key: string, now: nat)
    | IssueTools(assistant: Message)
    | FinishTools(results: seq<Message>)
    | FatalTools(results: seq<Message>)                   // a tool failed for good: no payload is emitted
    | Answer(assistant: Message)
    | Audit(payload: Checkpoint)
    | Note(entry: Message)                                // injected user entry, recovery or final notice
    | Amend(entry: Message)                               // the last such entry is replaced
    | Finish(offered: seq<Message>, maxChars: int, latency: Option<nat>, now: nat)
    | Cancel(now: nat)
    | Fail
    | Crash

  predicate Speech(m: Message) {
    m.role.Assistant? && m.toolCalls == [] && !Empty(m.content)
  }

  predicate UserEntry(m: Message) {
    m.role.User? && m.toolCalls == []
  }

  /** One non-empty result per call, in call order. */
  predicate Results(assistant: Message, results: seq<Message>) {
    && |results| == |assistant.toolCalls|
    && forall k | 0 <= k < |results| ::
         && results[k].role.Tool? && results[k].content != Blocks([])
         && (assistant.toolCalls[k].Call? ==> results[k].toolCallId == assistant.toolCalls[k].id)
  }

  /** What SAVE may be offered of a run: all of it, all but its first entry, or all of it after one
      prompt entry without tool calls. */
  ghost predicate OfferedOf(tail: seq<Message>, offered: seq<Message>) {
    || offered == tail
    || (tail != [] && offered == tail[1..])
    || (offered != [] && offered[0].toolCalls == [] && !offered[0].role.Tool? && offered[1..] == tail)
  }

  function Append(s: Snapshot, m: Message): Snapshot {
    s.(messages := s.messages + [m])
  }

  function Reply(text: string, command: bool, now: nat): Message {
    Plain(Assistant, Text(text)).(stamp := Stamp(Some(now), None, "", command))
  }

  ghost predicate Enabled(s: State, l: Label) {
    match l
    case Begin => s.stage.Idle?
    case RestoreSlot(_) => s.stage.Begun?
    case RestoreFlag(_) => s.stage.SlotRestored?
    case Save => true
    case Followup(text, _) => s.stage.Ready? && text != ""
    case CommandUser(_, _, _) => s.stage.Ready?
    case CommandReply(_, _) => s.stage.Replying?
    case CommandDone => s.stage.Replied?
    case Build(_, _, _) => s.stage.Ready?
    case IssueTools(a) => s.stage.Running? && s.stage.issued.None? && a.role.Assistant? && a.toolCalls != []
    case FinishTools(results) => s.stage.Running? && s.stage.issued.Some? && Results(s.stage.issued.value, results)
    case FatalTools(results) => s.stage.Running? && s.stage.issued.Some? && Results(s.stage.issued.value, results)
    case Answer(a) => s.stage.Running? && s.stage.issued.None? && Speech(a)
    case Audit(c) => s.stage.Running? && AuditOnly(c.phase)
    case Note(m) => s.stage.Running? && s.stage.issued.None? && (Speech(m) || UserEntry(m))
    case Amend(m) =>
      && s.stage.Running? && s.stage.issued.None? && s.stage.tail != []
      && (var last := s.stage.tail[|s.stage.tail| - 1];
          (Speech(m) && Speech(last)) || (UserEntry(m) && UserEntry(last)))
    case Finish(offered, _, _, _) => s.stage.Running? && s.stage.issued.None? && OfferedOf(s.stage.tail, offered)
    case Cancel(_) => !s.stage.Idle?
    case Fail => !s.stage.Idle?
    case Crash => true
  }

  function Interrupted(s: State): set<nat> {
    if s.asked.Some? then s.interrupted + {s.asked.value} else s.interrupted
  }

  function StoreUser(s: State, msg: Inbound, key: string, command: bool, now: nat, next: Stage): State {
    if Storable(msg)
    then s.(mem := s.mem.(messages := s.mem.messages + [EarlyEntry(msg, key, command, now)], pending := true),
            asked := Some(|s.mem.messages|), stage := next)
    else s.(asked := None, stage := next)
  }

  ghost function Apply(s: State, l: Label): State
    requires Enabled(s, l)
  {
    match l
    case Begin => s.(stage := Begun)
    case RestoreSlot(now) => s.(mem := RestoreCheckpoint(s.mem, now), stage := SlotRestored)
    case RestoreFlag(now) => s.(mem := RestorePending(s.mem, now), stage := Ready)
    case Save => s.(disk := s.mem)
    case Followup(text, now) => s.(mem := Append(s.mem, Reply(text, false, now)))
    case CommandUser(msg, key, now) => StoreUser(s, msg, key, true, now, Replying)
    case CommandReply(text, now) => s.(mem := Append(s.mem, Reply(text, true, now)), stage := Replied)
    case CommandDone => s.(mem := s.mem.(pending := false), stage := Idle, asked := None)
    case Build(msg, key, now) => StoreUser(s, msg, key, false, now, Running([], None))
    case IssueTools(a) =>
      s.(mem := SetCheckpoint(s.mem, Checkpoint(AwaitingTools, Some(a), [], a.toolCalls)),
         stage := Running(s.stage.tail, Some(a)))
    case FinishTools(results) =>
      var a := s.stage.issued.value;
      s.(mem := SetCheckpoint(s.mem, Checkpoint(ToolsCompleted, Some(a), results, [])),
         stage := Running(s.stage.tail + [a] + results, None))
    case FatalTools(results) => s.(stage := Running(s.stage.tail + [s.stage.issued.value] + results, None))
    case Answer(a) =>
      s.(mem := SetCheckpoint(s.mem, Checkpoint(FinalResponse, Some(a), [], [])),
         stage := Running(s.stage.tail + [a], None))
    case Audit(c) => s.(mem := SetCheckpoint(s.mem, c))
    case Note(m) => s.(stage := Running(s.stage.tail + [m], None))
    case Amend(m) => s.(stage := Running(s.stage.tail[..|s.stage.tail| - 1] + [m], None))
    case Finish(offered, maxChars, latency, now) =>
      s.(mem := Snapshot(s.mem.messages + TurnEntries(offered, maxChars, latency, now), None, false),
         stage := Idle, asked := None)
    case Cancel(now) =>
      s.(mem := RestoreCheckpoint(s.mem, now), stage := Idle, asked := None, interrupted := Interrupted(s))
    case Fail => s.(stage := Idle, asked := None, interrupted := Interrupted(s))
    case Crash =>
      s.(mem := s.disk, stage := Idle, asked := None,
         interrupted := set p | p in Interrupted(s) && p < |s.disk.messages|)
  }

  const EMPTY := Snapshot([], None, false)
  const INIT := State(EMPTY, EMPTY, Idle, None, {})

  /** `states` is a run from the initial state along `labels`. */
  ghost predicate Run(states: seq<State>, labels: seq<Label>) {
    && |states| == |labels| + 1
    && states[0] == INIT
    && forall k | 0 <= k < |labels| :: Enabled(states[k], labels[k]) && states[k + 1] == Apply(states[k], labels[k])
  }

  // ----- Every call has its result -----

  /** Each identifier that an entry declares is answered by a later entry. */
  ghost predicate Closed(ms: seq<Message>) {
    ms == [] || (DeclaredBy(ms[0]) <= Fulfilled(ms[1..]) && Closed(ms[1..]))
  }

  lemma {:induction false} ClosedAt(ms: seq<Message>, i: nat, id: string) returns (k: nat)
    requires Closed(ms) && i < |ms| && id in DeclaredBy(ms[i])
    ensures i < k < |ms| && Identified(ms[k]) && ms[k].toolCallId == id
  {
    if i == 0 {
      var m :| m in ms[1..] && Identified(m) && m.toolCallId == id;
      var j :| 0 <= j < |ms[1..]| && ms[1..][j] == m;
      k := j + 1;
    } else {
      var j := ClosedAt(ms[1..], i - 1, id);
      k := j + 1;
    }
  }

  lemma {:induction false} FulfilledAppend(a: seq<Message>, b: seq<Message>)
    ensures Fulfilled(a + b) == Fulfilled(a) + Fulfilled(b)
  {
    forall id ensures id in Fulfilled(a + b) <==> id in Fulfilled(a) + Fulfilled(b) {
      if m :| m in a + b && Identified(m) && m.toolCallId == id {
        assert m in a || m in b;
      }
      if m :| m in a && Identified(m) && m.toolCallId == id { assert m in a + b; }
      if m :| m in b && Identified(m) && m.toolCallId == id { assert m in a + b; }
    }
  }

  lemma {:induction false} ClosedAppend(a: seq<Message>, b: seq<Message>)
    requires Closed(a) && Closed(b)
    ensures Closed(a + b)
  {
    if a == [] {
      assert a + b == b;
    } else {
      assert (a + b)[1..] == a[1..] + b;
      ClosedAppend(a[1..], b);
      FulfilledAppend(a[1..], b);
    }
  }

  lemma {:induction false} Undeclaring(ms: seq<Message>)
    requires forall i | 0 <= i < |ms| :: DeclaredBy(ms[i]) == {}
    ensures Closed(ms)
  {
    if ms != [] { Undeclaring(ms[1..]); }
  }

  lemma {:induction false} SameKeysFulfil(a: seq<Message>, b: seq<Message>)
    requires |a| == |b| && forall i | 0 <= i < |a| :: Key(a[i]) == Key(b[i])
    ensures Fulfilled(a) <= Fulfilled(b)
  {
    forall id | id in Fulfilled(a) ensures id in Fulfilled(b) {
      var m :| m in a && Identified(m) && m.toolCallId == id;
      var i :| 0 <= i < |a| && a[i] == m;
      assert Key(a[i]) == Key(b[i]) && b[i] in b;
      assert Key(a[i]).role == a[i].role && Key(a[i]).toolCallId == a[i].toolCallId;
      assert Key(b[i]).role == b[i].role && Key(b[i]).toolCallId == b[i].toolCallId;
    }
  }

  lemma {:induction false} SameKeyDeclares(a: Message, b: Message)
    requires Key(a) == Key(b)
    ensures DeclaredBy(a) == DeclaredBy(b) && a.role == b.role && a.toolCalls == b.toolCalls
  {
    assert a.role == Key(a).role == b.role && a.toolCalls == Key(a).toolCalls == b.toolCalls;
  }

  lemma {:induction false} ClosedByKeys(a: seq<Message>, b: seq<Message>)
    requires |a| == |b| && forall i | 0 <= i < |a| :: Key(a[i]) == Key(b[i])
    requires Closed(a)
    ensures Closed(b)
  {
    if a != [] {
      assert forall i | 0 <= i < |a[1..]| :: a[1..][i] == a[i + 1] && b[1..][i] == b[i + 1];
      ClosedByKeys(a[1..], b[1..]);
      SameKeysFulfil(a[1..], b[1..]);
      SameKeyDeclares(a[0], b[0]);
    }
  }

  // ----- Storing a closed run keeps it closed -----

  ghost predicate NoEmptyResults(ms: seq<Message>) {
    forall i | 0 <= i < |ms| :: ms[i].role.Tool? ==> ms[i].content != Blocks([])
  }

  lemma {:induction false} PersistedOneShape(m: Message, maxChars: int, now: nat)
    ensures |Persisted(m, maxChars, now)| <= 1
    ensures forall e | e in Persisted(m, maxChars, now) ::
              DeclaredBy(e) == DeclaredBy(m) && e.role == m.role && e.toolCallId == m.toolCallId
    ensures Persisted(m, maxChars, now) == [] ==> DeclaredBy(m) == {}
    ensures m.role.Tool? && m.content != Blocks([]) ==> |Persisted(m, maxChars, now)| == 1
  {
    if m.role.Tool? && m.content.Blocks? {
      KeptBlocks(m.content.blocks, Some(maxChars), false);
      if m.content.blocks != [] { assert m.content.blocks[0] in m.content.blocks; }
    }
  }

  lemma {:induction false} PersistedCons(ms: seq<Message>, maxChars: int, now: nat)
    requires ms != []
    ensures PersistedAll(ms, maxChars, now) == Persisted(ms[0], maxChars, now) + PersistedAll(ms[1..], maxChars, now)
  {
    assert ms == [ms[0]] + ms[1..];
    PersistedAllAppend([ms[0]], ms[1..], maxChars, now);
    PersistedOne(ms[0], maxChars, now);
  }

  lemma {:induction false} PersistedFulfils(ms: seq<Message>, maxChars: int, now: nat)
    requires NoEmptyResults(ms)
    ensures Fulfilled(ms) <= Fulfilled(PersistedAll(ms, maxChars, now))
  {
    if ms != [] {
      PersistedFulfils(ms[1..], maxChars, now);
      PersistedCons(ms, maxChars, now);
      PersistedOneShape(ms[0], maxChars, now);
      var first := Persisted(ms[0], maxChars, now);
      FulfilledAppend(first, PersistedAll(ms[1..], maxChars, now));
      assert ms == [ms[0]] + ms[1..];
      FulfilledAppend([ms[0]], ms[1..]);
      if Identified(ms[0]) {
        assert first[0] in first && Identified(first[0]);
      }
    }
  }

  lemma {:induction false} PersistedIsClosed(ms: seq<Message>, maxChars: int, now: nat)
    requires Closed(ms) && NoEmptyResults(ms)
    ensures Closed(PersistedAll(ms, maxChars, now))
  {
    if ms != [] {
      PersistedIsClosed(ms[1..], maxChars, now);
      PersistedCons(ms, maxChars, now);
      PersistedOneShape(ms[0], maxChars, now);
      PersistedFulfils(ms[1..], maxChars, now);
      var first, rest := Persisted(ms[0], maxChars, now), PersistedAll(ms[1..], maxChars, now);
      if first == [] {
        assert first + rest == rest;
      } else {
        assert first[0] in first;
        assert (first + rest)[1..] == rest;
      }
    }
  }

  lemma {:induction false} TurnEntriesClosed(ms: seq<Message>, maxChars: int, latency: Option<nat>, now: nat)
    requires Closed(ms) && NoEmptyResults(ms)
    ensures Closed(TurnEntries(ms, maxChars, latency, now))
  {
    PersistedIsClosed(ms, maxChars, now);
    if latency.Some? {
      var stored := PersistedAll(ms, maxChars, now);
      LatencyAtLast(stored, latency.value);
      ClosedByKeys(stored, WithLatency(stored, latency.value));
    }
  }

  // ----- Checkpoints stand for closed blocks -----

  /** A payload that recovery can use: an assistant entry, results, and a result or a pending call for
      each of its calls. */
  ghost predicate Recoverable(c: Checkpoint) {
    && !AuditOnly(c.phase)
    && c.assistant.Some? && c.assistant.value.role.Assistant?
    && (forall k | 0 <= k < |c.completed| :: c.completed[k].role.Tool?)
    && (forall id | id in DeclaredBy(c.assistant.value) ::
          id in Fulfilled(c.completed) || exists call :: call in c.pending && call.Call? && call.id == id)
  }

  lemma {:induction false} InterruptionsAnswer(calls: seq<ToolCall>, now: nat)
    ensures forall i | 0 <= i < |Interruptions(calls, now)| :: Interruptions(calls, now)[i].role.Tool?
    ensures forall call | call in calls && call.Call? && call.id != "" :: call.id in Fulfilled(Interruptions(calls, now))
  {
    if calls != [] {
      var front, last := calls[..|calls| - 1], calls[|calls| - 1];
      InterruptionsAnswer(front, now);
      var added := if last.Call? then [Interruption(last, now)] else [];
      FulfilledAppend(Interruptions(front, now), added);
      forall call | call in calls && call.Call? && call.id != ""
        ensures call.id in Fulfilled(Interruptions(calls, now))
      {
        if call !in front {
          assert added[0] in added && Identified(added[0]);
        }
      }
    }
  }

  lemma {:induction false} BlockIsClosed(c: Checkpoint, now: nat)
    requires Recoverable(c)
    ensures var block := RestoredBlock(c, now);
            block != [] && block[0].role.Assistant?
            && (forall i | 1 <= i < |block| :: block[i].role.Tool?)
            && Closed(block)
  {
    var block := RestoredBlock(c, now);
    var head, done, broken := c.assistant.value, StampedAll(c.completed, now), Interruptions(c.pending, now);
    InterruptionsAnswer(c.pending, now);
    assert block[1..] == done + broken;
    FulfilledAppend(done, broken);
    assert forall i | 0 <= i < |done| :: Key(c.completed[i]) == Key(done[i]);
    SameKeysFulfil(c.completed, done);
    assert DeclaredBy(block[0]) == DeclaredBy(head);
    Undeclaring(block[1..]);
  }

  lemma {:induction false} MergeKeepsClosed(ms: seq<Message>, c: Checkpoint, now: nat)
    requires Closed(ms) && Recoverable(c)
    ensures Closed(Merged(ms, RestoredBlock(c, now)))
  {
    var block := RestoredBlock(c, now);
    BlockIsClosed(c, now);
    var n := Overlap(ms, block);
    if n > 0 { Undeclaring(block[n..]); }
    ClosedAppend(ms, block[n..]);
  }

  /** On top of a user entry nothing of the block can already be there. */
  lemma {:induction false} MergeAfterUser(ms: seq<Message>, c: Checkpoint, now: nat)
    requires Recoverable(c) && ms != [] && ms[|ms| - 1].role.User?
    ensures Merged(ms, RestoredBlock(c, now)) == ms + RestoredBlock(c, now)
  {
    var block := RestoredBlock(c, now);
    BlockIsClosed(c, now);
    var n := Overlap(ms, block);
    if n > 0 { SameKeyDeclares(ms[|ms| - n + (n - 1)], block[n - 1]); }
  }

  // ----- The invariant -----

  /** The user entry at `p` is followed by an assistant or tool entry, or it is the last entry and a
      marker is set that makes the next RESTORE append one. */
  ghost predicate Covered(s: Snapshot, p: nat) {
    p < |s.messages| ==>
      && s.messages[p].role.User?
      && (if p + 1 < |s.messages|
          then s.messages[p + 1].role.Assistant? || s.messages[p + 1].role.Tool?
          else s.pending || s.checkpoint.Some?)
  }

  ghost predicate Sound(s: Snapshot) {
    Closed(s.messages) && (s.checkpoint.Some? ==> Recoverable(s.checkpoint.value))
  }

  /** No turn is at the stage where its user message may still lack an answer. */
  predicate Settled(stage: Stage) {
    stage.Ready? || stage.Replying? || stage.Replied? || stage.Running?
  }

  ghost predicate Invariant(s: State) {
    && Sound(s.mem) && Sound(s.disk)
    && |s.disk.messages| <= |s.mem.messages|
    && (forall p | p in Interrupted(s) :: p < |s.mem.messages| && Covered(s.mem, p) && Covered(s.disk, p))
    && (s.stage.SlotRestored? || s.stage.Ready? ==> s.mem.checkpoint.None?)
    && (s.stage.Ready? ==> !s.mem.pending)
    && (!Settled(s.stage) || s.stage.Ready? ==> s.asked.None?)
    && (Settled(s.stage) ==> forall p | p in s.interrupted :: p + 1 < |s.mem.messages|)
    && (s.stage.Running? ==> Closed(s.stage.tail) && NoEmptyResults(s.stage.tail))
    && (s.stage.Running? && s.stage.issued.Some? ==> s.stage.issued.value.role.Assistant?)
  }

  // ----- Each step keeps it -----

  lemma {:induction false} RestoreSlotKeeps(s: Snapshot, now: nat)
    requires Sound(s)
    ensures var t := RestoreCheckpoint(s, now);
            && Sound(t) && t.checkpoint.None? && s.messages <= t.messages
            && forall p: nat | p < |s.messages| && Covered(s, p) ::
                 Covered(t, p) && (s.checkpoint.Some? ==> p + 1 < |t.messages|)
  {
    if s.checkpoint.Some? {
      var c := s.checkpoint.value;
      var t := RestoreCheckpoint(s, now);
      MergeKeepsClosed(s.messages, c, now);
      forall p: nat | p < |s.messages| && Covered(s, p) ensures Covered(t, p) && p + 1 < |t.messages| {
        if p + 1 == |s.messages| {
          MergeAfterUser(s.messages, c, now);
          BlockIsClosed(c, now);
        }
      }
    }
  }

  lemma {:induction false} AppendKeeps(s: Snapshot, m: Message)
    requires Sound(s) && DeclaredBy(m) == {}
    ensures Sound(Append(s, m))
    ensures forall p: nat | p < |s.messages| && Covered(s, p) && (p + 1 < |s.messages| || m.role.Assistant?) ::
              Covered(Append(s, m), p) && p + 1 < |Append(s, m).messages|
  {
    Undeclaring([m]);
    ClosedAppend(s.messages, [m]);
  }

  lemma {:induction false} RestoreFlagKeeps(s: Snapshot, now: nat)
    requires Sound(s) && s.checkpoint.None?
    ensures var t := RestorePending(s, now);
            && Sound(t) && t.checkpoint.None? && !t.pending && s.messages <= t.messages
            && forall p: nat | p < |s.messages| && Covered(s, p) :: Covered(t, p) && p + 1 < |t.messages|
  {
    if s.pending && s.messages != [] && s.messages[|s.messages| - 1].role.User? {
      AppendKeeps(s, Stamped(Plain(Assistant, Text(INTERRUPTED_TURN)), now));
    }
  }

  lemma {:induction false} SlotStaysRecoverable(s: Snapshot, c: Checkpoint)
    requires Sound(s) && (AuditOnly(c.phase) || Recoverable(c))
    ensures Sound(SetCheckpoint(s, c)) && SetCheckpoint(s, c).messages == s.messages
    ensures forall p | Covered(s, p) :: Covered(SetCheckpoint(s, c), p)
  {
  }

  lemma {:induction false} ResultsAnswer(a: Message, results: seq<Message>)
    requires Results(a, results)
    ensures DeclaredBy(a) <= Fulfilled(results)
  {
    forall id | id in DeclaredBy(a) ensures id in Fulfilled(results) {
      var call :| call in a.toolCalls && call.Call? && call.id == id;
      var k :| 0 <= k < |a.toolCalls| && a.toolCalls[k] == call;
      assert results[k] in results && Identified(results[k]);
    }
  }

  lemma {:induction false} ToolRoundIsClosed(a: Message, results: seq<Message>)
    requires a.role.Assistant? && Results(a, results)
    ensures Closed([a] + results) && NoEmptyResults([a] + results)
  {
    ResultsAnswer(a, results);
    Undeclaring(results);
    assert ([a] + results)[1..] == results;
  }

  lemma {:induction false} ToolRoundKeeps(tail: seq<Message>, a: Message, results: seq<Message>)
    requires Closed(tail) && NoEmptyResults(tail) && a.role.Assistant? && Results(a, results)
    ensures Closed(tail + [a] + results) && NoEmptyResults(tail + [a] + results)
  {
    ToolRoundIsClosed(a, results);
    ClosedAppend(tail, [a] + results);
    assert tail + [a] + results == tail + ([a] + results);
  }

  lemma {:induction false} NoteIsClosed(tail: seq<Message>, m: Message)
    requires Closed(tail) && NoEmptyResults(tail) && m.toolCalls == [] && !m.role.Tool?
    ensures Closed(tail + [m]) && NoEmptyResults(tail + [m])
  {
    Undeclaring([m]);
    ClosedAppend(tail, [m]);
  }

  lemma {:induction false} ClosedFront(tail: seq<Message>)
    requires tail != [] && Closed(tail) && !tail[|tail| - 1].role.Tool?
    ensures Closed(tail[..|tail| - 1])
  {
    if |tail| > 1 {
      ClosedFront(tail[1..]);
      var front := tail[..|tail| - 1];
      assert front[1..] == tail[1..][..|tail[1..]| - 1];
      assert tail[1..] == front[1..] + [tail[|tail| - 1]];
      FulfilledAppend(front[1..], [tail[|tail| - 1]]);
    }
  }

  lemma {:induction false} OfferedIsClosed(tail: seq<Message>, offered: seq<Message>)
    requires Closed(tail) && NoEmptyResults(tail) && OfferedOf(tail, offered)
    ensures Closed(offered) && NoEmptyResults(offered)
  {
    if offered != tail && !(tail != [] && offered == tail[1..]) {
      forall i | 0 <= i < |offered| ensures offered[i].role.Tool? ==> offered[i].content != Blocks([]) {
        if i > 0 { assert offered[i] == tail[i - 1]; }
      }
    }
  }

  lemma {:induction false} RestoreSteps(s: State, l: Label)
    requires Invariant(s) && Enabled(s, l) && (l.Begin? || l.RestoreSlot? || l.RestoreFlag? || l.Save?)
    ensures Invariant(Apply(s, l))
  {
    match l
    case RestoreSlot(now) => RestoreSlotKeeps(s.mem, now);
    case RestoreFlag(now) => RestoreFlagKeeps(s.mem, now);
    case _ =>
  }

  lemma {:induction false} MessageSteps(s: State, l: Label)
    requires Invariant(s) && Enabled(s, l)
    requires l.Followup? || l.CommandUser? || l.CommandReply? || l.CommandDone? || l.Build?
    ensures Invariant(Apply(s, l))
  {
    match l
    case Followup(text, now) => AppendKeeps(s.mem, Reply(text, false, now));
    case CommandReply(text, now) => AppendKeeps(s.mem, Reply(text, true, now));
    case CommandUser(msg, key, now) => AppendKeeps(s.mem, EarlyEntry(msg, key, true, now));
    case Build(msg, key, now) => AppendKeeps(s.mem, EarlyEntry(msg, key, false, now));
    case CommandDone =>
  }

  lemma {:induction false} RunnerSteps(s: State, l: Label)
    requires Invariant(s) && Enabled(s, l)
    requires l.IssueTools? || l.FinishTools? || l.FatalTools? || l.Answer? || l.Audit?
    ensures Invariant(Apply(s, l))
  {
    match l
    case IssueTools(a) =>
      SlotStaysRecoverable(s.mem, Checkpoint(AwaitingTools, Some(a), [], a.toolCalls));
    case FinishTools(results) =>
      var a := s.stage.issued.value;
      ResultsAnswer(a, results);
      SlotStaysRecoverable(s.mem, Checkpoint(ToolsCompleted, Some(a), results, []));
      ToolRoundKeeps(s.stage.tail, a, results);
    case FatalTools(results) => ToolRoundKeeps(s.stage.tail, s.stage.issued.value, results);
    case Answer(a) =>
      SlotStaysRecoverable(s.mem, Checkpoint(FinalResponse, Some(a), [], []));
      NoteIsClosed(s.stage.tail, a);
    case Audit(c) =>
      SlotStaysRecoverable(s.mem, c);
  }

  lemma {:induction false} TailSteps(s: State, l: Label)
    requires Invariant(s) && Enabled(s, l) && (l.Note? || l.Amend? || l.Finish?)
    ensures Invariant(Apply(s, l))
  {
    match l
    case Note(m) => NoteIsClosed(s.stage.tail, m);
    case Amend(m) =>
      ClosedFront(s.stage.tail);
      NoteIsClosed(s.stage.tail[..|s.stage.tail| - 1], m);
    case Finish(offered, maxChars, latency, now) =>
      OfferedIsClosed(s.stage.tail, offered);
      TurnEntriesClosed(offered, maxChars, latency, now);
      ClosedAppend(s.mem.messages, TurnEntries(offered, maxChars, latency, now));
  }

  lemma {:induction false} CutSteps(s: State, l: Label)
    requires Invariant(s) && Enabled(s, l) && (l.Cancel? || l.Fail? || l.Crash?)
    ensures Invariant(Apply(s, l))
  {
    if l.Cancel? { RestoreSlotKeeps(s.mem, l.now); }
  }

  lemma {:induction false} StepKeepsInvariant(s: State, l: Label)
    requires Invariant(s) && Enabled(s, l)
    ensures Invariant(Apply(s, l))
  {
    match l
    case Begin => RestoreSteps(s, l);
    case RestoreSlot(_) => RestoreSteps(s, l);
    case RestoreFlag(_) => RestoreSteps(s, l);
    case Save => RestoreSteps(s, l);
    case Followup(_, _) => MessageSteps(s, l);
    case CommandUser(_, _, _) => MessageSteps(s, l);
    case CommandReply(_, _) => MessageSteps(s, l);
    case CommandDone => MessageSteps(s, l);
    case Build(_, _, _) => MessageSteps(s, l);
    case IssueTools(_) => RunnerSteps(s, l);
    case FinishTools(_) => RunnerSteps(s, l);
    case FatalTools(_) => RunnerSteps(s, l);
    case Answer(_) => RunnerSteps(s, l);
    case Audit(_) => RunnerSteps(s, l);
    case Note(_) => TailSteps(s, l);
    case Amend(_) => TailSteps(s, l);
    case Finish(_, _, _, _) => TailSteps(s, l);
    case Cancel(_) => CutSteps(s, l);
    case Fail => CutSteps(s, l);
    case Crash => CutSteps(s, l);
  }

  lemma {:induction false} RunKeepsInvariant(states: seq<State>, labels: seq<Label>, k: nat)
    requires Run(states, labels) && k < |states|
    ensures Invariant(states[k])
  {
    if k > 0 {
      RunKeepsInvariant(states, labels, k - 1);
      StepKeepsInvariant(states[k - 1], labels[k - 1]);
    }
  }

  // ----- What recovery guarantees -----

  /** Every call of the list is answered by a later entry. */
  ghost predicate EveryCallAnswered(ms: seq<Message>) {
    forall i: nat, id | i < |ms| && id in DeclaredBy(ms[i]) ::
      exists k :: i < k < |ms| && Identified(ms[k]) && ms[k].toolCallId == id
  }

  /** However turns were cut short before: once RESTORE is done both markers are gone, every tool call
      in the history has its result after it, and the user message of each interrupted turn that is
      still in the history is followed by an assistant or tool entry. */
  lemma {:induction false} RestoreRepairsEveryRun(states: seq<State>, labels: seq<Label>, k: nat)
    requires Run(states, labels) && k < |states| && states[k].stage.Ready?
    ensures states[k].mem.checkpoint.None? && !states[k].mem.pending
    ensures EveryCallAnswered(states[k].mem.messages)
    ensures forall p | p in states[k].interrupted ::
              p + 1 < |states[k].mem.messages|
              && states[k].mem.messages[p].role.User?
              && (states[k].mem.messages[p + 1].role.Assistant? || states[k].mem.messages[p + 1].role.Tool?)
  {
    RunKeepsInvariant(states, labels, k);
    ClosedAnswers(states[k].mem.messages);
  }

  lemma {:induction false} ClosedAnswers(ms: seq<Message>)
    requires Closed(ms)
    ensures EveryCallAnswered(ms)
  {
    forall i: nat, id | i < |ms| && id in DeclaredBy(ms[i])
      ensures exists k :: i < k < |ms| && Identified(ms[k]) && ms[k].toolCallId == id
    {
      var k := ClosedAt(ms, i, id);
    }
  }

  /** At every moment of every run: what is in memory and what is on disk has all its calls answered,
      and a checkpoint in the slot is one that recovery can use; no audit payload ever sits there. */
  lemma {:induction false} HistoryIsSoundThroughout(states: seq<State>, labels: seq<Label>, k: nat)
    requires Run(states, labels) && k < |states|
    ensures EveryCallAnswered(states[k].mem.messages) && EveryCallAnswered(states[k].disk.messages)
    ensures states[k].mem.checkpoint.Some? ==> Recoverable(states[k].mem.checkpoint.value)
    ensures states[k].disk.checkpoint.Some? ==> Recoverable(states[k].disk.checkpoint.value)
  {
    RunKeepsInvariant(states, labels, k);
    ClosedAnswers(states[k].mem.messages);
    ClosedAnswers(states[k].disk.messages);
  }

  lemma {:induction false} DiskStays(states: seq<State>, labels: seq<Label>, i: nat, j: nat)
    requires Run(states, labels) && i <= j < |states| && forall k | i <= k < j :: !labels[k].Save?
    ensures states[j].disk == states[i].disk
  {
    if i < j { DiskStays(states, labels, i, j - 1); }
  }

  lemma {:induction false} FinishedPayload(ms: seq<Message>, c: Checkpoint)
    requires EndsInPayload(ms, c) && c.assistant.Some? && c.pending == []
    ensures |ms| > |c.completed| && SameEntry(ms[|ms| - |c.completed| - 1], c.assistant.value)
    ensures forall k | 0 <= k < |c.completed| :: SameEntry(ms[|ms| - |c.completed| + k], c.completed[k])
  {
    assert Calls(c.pending) == [];
  }

  lemma {:induction false} FinishedSlotRestores(s: Snapshot, a: Message, results: seq<Message>, now: nat)
    requires s.checkpoint == Some(Checkpoint(ToolsCompleted, Some(a), results, []))
    ensures var ms := RestoreCheckpoint(s, now).messages;
            && |ms| > |results| && SameEntry(ms[|ms| - |results| - 1], a)
            && forall k | 0 <= k < |results| :: SameEntry(ms[|ms| - |results| + k], results[k])
  {
    var c := s.checkpoint.value;
    PayloadIsRestored(s, now);
    FinishedPayload(RestoreCheckpoint(s, now).messages, c);
  }

  lemma {:induction false} FinishedSlotIsSaved(states: seq<State>, labels: seq<Label>, i: nat)
    requires Run(states, labels) && i + 1 < |labels| && labels[i].FinishTools? && labels[i + 1].Save?
    ensures states[i].stage.Running? && states[i].stage.issued.Some?
    ensures states[i + 2].disk.checkpoint
            == Some(Checkpoint(ToolsCompleted, Some(states[i].stage.issued.value), labels[i].results, []))
  {
    assert Enabled(states[i], labels[i]) && states[i + 1] == Apply(states[i], labels[i]);
    assert Enabled(states[i + 1], labels[i + 1]) && states[i + 2] == Apply(states[i + 1], labels[i + 1]);
  }

  lemma {:induction false} CrashRestoresDisk(states: seq<State>, labels: seq<Label>, j: nat)
    requires Run(states, labels) && j + 2 < |labels| && labels[j].Crash? && labels[j + 1].Begin? && labels[j + 2].RestoreSlot?
    ensures states[j + 3].mem == RestoreCheckpoint(states[j].disk, labels[j + 2].now)
  {
    assert states[j + 1] == Apply(states[j], labels[j]);
    assert Enabled(states[j + 1], labels[j + 1]) && states[j + 2] == Apply(states[j + 1], labels[j + 1]);
    assert Enabled(states[j + 2], labels[j + 2]) && states[j + 3] == Apply(states[j + 2], labels[j + 2]);
  }

  /** A tool round that was finished and saved survives a crash: once RESTORE has looked at the slot, the
      history ends in the assistant entry and each result with the content that it was finished with. */
  lemma {:induction false} FinishedResultsSurvive(states: seq<State>, labels: seq<Label>, i: nat, j: nat)
    requires Run(states, labels) && i + 1 < j && j + 2 < |labels|
    requires labels[i].FinishTools? && labels[i + 1].Save? && (forall k | i + 2 <= k < j :: !labels[k].Save?)
    requires labels[j].Crash? && labels[j + 1].Begin? && labels[j + 2].RestoreSlot?
    ensures states[i].stage.Running? && states[i].stage.issued.Some?
    ensures var ms, results := states[j + 3].mem.messages, labels[i].results;
            && |ms| > |results| && SameEntry(ms[|ms| - |results| - 1], states[i].stage.issued.value)
            && forall k | 0 <= k < |results| :: SameEntry(ms[|ms| - |results| + k], results[k])
  {
    FinishedSlotIsSaved(states, labels, i);
    DiskStays(states, labels, i + 2, j);
    CrashRestoresDisk(states, labels, j);
    FinishedSlotRestores(states[j].disk, states[i].stage.issued.value, labels[i].results, labels[j + 2].now);
  }

  /** The offers that the SAVE step really makes are among those allowed here, for turns of a user and for
      those that a subagent's answer starts. */
  lemma {:induction false} SaveOffersAreCovered(role: Role, system: Content, history: seq<Message>, current: Content, early: bool, tail: seq<Message>)
    requires role.User? || role.Assistant?
    ensures var offered := From(PromptAs(role, system, history, current) + tail, SaveSkip(history, early));
            OfferedOf(tail, offered) || (tail == [] && offered == [])
  {
    OfferedAs(role, system, history, current, early, tail);
  }

  // ----- A run that loses an answer -----

  const ASK := Inbound("go on", [])
  const CALLING := Plain(Assistant, NoContent).(toolCalls := [Call("1", "read_file")])
  const RESULT := ToolResult("1", "read_file", Text("ok"))
  const LIMIT_NOTICE := Plain(Assistant, Text("iteration limit"))
  const INJECTED := Plain(User, Text("one more thing"))
  const REPLY := Plain(Assistant, Text("done"))

  lemma {:induction false} Extend(states: seq<State>, labels: seq<Label>, l: Label) returns (more: seq<State>)
    requires Run(states, labels) && Enabled(states[|labels|], l)
    ensures Run(more, labels + [l]) && more[|labels| + 1] == Apply(states[|labels|], l) && more[..|states|] == states
  {
    more := states + [Apply(states[|labels|], l)];
    forall k | 0 <= k < |labels + [l]|
      ensures Enabled(more[k], (labels + [l])[k]) && more[k + 1] == Apply(more[k], (labels + [l])[k])
    {
      if k < |labels| { assert (labels + [l])[k] == labels[k] && more[k] == states[k] && more[k + 1] == states[k + 1]; }
    }
  }

  ghost predicate Quiet(s: State) { s.stage.Idle? && s.mem.checkpoint.None? && !s.mem.pending && s.asked.None? }

  /** Nothing is left to restore. */
  lemma {:induction false} ReachReady(before: seq<State>, done: seq<Label>) returns (states: seq<State>, labels: seq<Label>)
    requires Run(before, done) && Quiet(before[|done|])
    ensures Run(states, labels) && states[|labels|] == before[|done|].(stage := Ready)
  {
    states := Extend(before, done, Begin);
    labels := done + [Begin];
    states := Extend(states, labels, RestoreSlot(0));
    labels := labels + [RestoreSlot(0)];
    states := Extend(states, labels, RestoreFlag(0));
    labels := labels + [RestoreFlag(0)];
  }

  lemma {:induction false} ReachAsked(before: seq<State>, done: seq<Label>) returns (states: seq<State>, labels: seq<Label>)
    requires Run(before, done) && Quiet(before[|done|])
    ensures Run(states, labels) && |labels| > 0 && labels[|labels| - 1] == Build(ASK, "", 0)
    ensures states[|labels| - 1].mem == before[|done|].mem
    ensures states[|labels|].mem.messages == before[|done|].mem.messages + [EarlyEntry(ASK, "", false, 0)]
    ensures states[|labels|].stage == Running([], None)
  {
    states, labels := ReachReady(before, done);
    assert ASK.content[0] == 'g';
    ghost var ready := states;
    states := Extend(states, labels, Build(ASK, "", 0));
    assert states[..|ready|][|labels|] == ready[|labels|];
    labels := labels + [Build(ASK, "", 0)];
  }

  lemma {:induction false} ReachToolRound() returns (states: seq<State>, labels: seq<Label>)
    ensures Run(states, labels) && states[|labels|].stage == Running([CALLING, RESULT], None)
  {
    states, labels := ReachAsked([INIT], []);
    states := Extend(states, labels, IssueTools(CALLING));
    labels := labels + [IssueTools(CALLING)];
    states := Extend(states, labels, FinishTools([RESULT]));
    labels := labels + [FinishTools([RESULT])];
  }

  /** The iterations run out after a tool call, and a follow-up is taken in behind the notice about it. */
  lemma {:induction false} ReachInjected() returns (states: seq<State>, labels: seq<Label>)
    ensures Run(states, labels)
    ensures states[|labels|].stage == Running([CALLING, RESULT, LIMIT_NOTICE, INJECTED], None)
  {
    states, labels := ReachToolRound();
    states := Extend(states, labels, Note(LIMIT_NOTICE));
    labels := labels + [Note(LIMIT_NOTICE)];
    states := Extend(states, labels, Note(INJECTED));
    labels := labels + [Note(INJECTED)];
  }

  lemma {:induction false} ReachEndsInUser(maxChars: int) returns (states: seq<State>, labels: seq<Label>)
    ensures Run(states, labels) && Quiet(states[|labels|]) && EndsInUser(states[|labels|].mem.messages)
  {
    states, labels := ReachInjected();
    var tail := states[|labels|].stage.tail;
    states := Extend(states, labels, Finish(tail, maxChars, None, 0));
    labels := labels + [Finish(tail, maxChars, None, 0)];
    assert tail[|tail| - 1] == INJECTED;
    assert |INJECTED.content.text| < |RUNTIME_CONTEXT_TAG|;
  }

  lemma {:induction false} NothingIsOffered(system: Content, history: seq<Message>, user: Content)
    requires EndsInUser(history)
    ensures From(Prompt(system, history, user) + [REPLY], SaveSkip(history, Storable(ASK))) == [REPLY][1..] == []
  {
    assert ASK.content[0] == 'g';
    Offered(system, history, user, true, [REPLY]);
  }

  /** The end of a turn whose only entry is an answer. */
  lemma {:induction false} AnswerAndFinish(before: seq<State>, done: seq<Label>, finish: Label) returns (states: seq<State>, labels: seq<Label>)
    requires Run(before, done) && before[|done|].stage == Running([], None)
    requires finish.Finish? && finish.offered == []
    ensures Run(states, labels) && labels == done + [Answer(REPLY), finish] && states[..|before|] == before
    ensures states[|labels|].stage.Idle? && states[|labels|].mem.messages == before[|done|].mem.messages
  {
    states := Extend(before, done, Answer(REPLY));
    labels := done + [Answer(REPLY)];
    var answered := states;
    assert states[|labels|].stage.tail[1..] == [];
    states := Extend(states, labels, finish);
    assert states[..|before|] == answered[..|before|];
    assert TurnEntries([], finish.maxChars, finish.latency, finish.now) == [];
    assert labels + [finish] == done + [Answer(REPLY), finish];
    labels := labels + [finish];
  }

  /** A turn on top of such a history: the message is stored early, and the only entry of the run is left out
      of what SAVE is offered. */
  lemma {:induction false} AnswerIsLost(system: Content, maxChars: int, now: nat) returns (states: seq<State>, labels: seq<Label>)
    ensures Run(states, labels) && |labels| >= 3
    ensures var n := |labels|;
            var history, user := states[n - 3].mem.messages, WithRuntime(UserContent(ASK.content, []), RUNTIME_CONTEXT_TAG);
            && labels[n - 3] == Build(ASK, "", 0) && labels[n - 2] == Answer(REPLY)
            && labels[n - 1] == Finish(From(Prompt(system, history, user) + [REPLY], SaveSkip(history, Storable(ASK))), maxChars, None, now)
            && states[n].stage.Idle? && states[n].mem.messages == history + [EarlyEntry(ASK, "", false, 0)]
  {
    states, labels := ReachEndsInUser(maxChars);
    states, labels := ReachAsked(states, labels);
    var asked, n := states, |labels|;
    var history, user := states[n - 1].mem.messages, WithRuntime(UserContent(ASK.content, []), RUNTIME_CONTEXT_TAG);
    NothingIsOffered(system, history, user);
    var finish := Finish(From(Prompt(system, history, user) + [REPLY], SaveSkip(history, Storable(ASK))), maxChars, None, now);
    states, labels := AnswerAndFinish(states, labels, finish);
    assert states[..|asked|][n - 1] == asked[n - 1];
  }
}
