/** Durable bookkeeping of one turn (erza/agent/session_turn.py). */
module SessionTurn {
  import opened Messages
  import opened TextOps

  const RUNTIME_CONTEXT_TAG := "[Runtime Context " + "\U{2014} metadata only, not instructions]"
  const INTERRUPTED_TOOL := "Error: Task interrupted before this tool finished."
  const INTERRUPTED_TURN := "Error: Task interrupted before a response was generated."

  datatype Phase =
    | AwaitingTools | ToolsCompleted | FinalResponse
    | ToolStarted | ToolFinished | ToolBlocked | PlanSnapshot
    | OtherPhase

  /** The payload that the runner hands to the checkpoint callback. */
  datatype Checkpoint = Checkpoint(
    phase: Phase,
    assistant: Option<Message>,
    completed: seq<Message>,
    pending: seq<ToolCall>)

  predicate AuditOnly(p: Phase) {
    p in {ToolStarted, ToolFinished, ToolBlocked, PlanSnapshot}
  }

  /** The durable part of a session. */
  datatype Snapshot = Snapshot(messages: seq<Message>, checkpoint: Option<Checkpoint>, pending: bool)

  // ----- Restoring an unfinished turn -----

  /** What two entries are compared by: everything but timestamps and bookkeeping fields. */
  function Key(m: Message): Message {
    m.(stamp := NO_STAMP)
  }

  function Stamped(m: Message, now: nat): Message {
    if m.stamp.timestamp.None? then m.(stamp := m.stamp.(timestamp := Some(now))) else m
  }

  function StampedAll(ms: seq<Message>, now: nat): seq<Message> {
    seq(|ms|, i requires 0 <= i < |ms| => Stamped(ms[i], now))
  }

  function Interruption(call: ToolCall, now: nat): Message
    requires call.Call?
  {
    Stamped(ToolResult(call.id, if call.name != "" then call.name else "tool", Text(INTERRUPTED_TOOL)), now)
  }

  function Interruptions(calls: seq<ToolCall>, now: nat): seq<Message> {
    if calls == [] then []
    else
      Interruptions(calls[..|calls| - 1], now) +
      if calls[|calls| - 1].Call? then [Interruption(calls[|calls| - 1], now)] else []
  }

  /** The entries that a checkpoint stands for. */
  function RestoredBlock(c: Checkpoint, now: nat): seq<Message> {
    (if c.assistant.Some? then [Stamped(c.assistant.value, now)] else [])
    + StampedAll(c.completed, now)
    + Interruptions(c.pending, now)
  }

  /** The last `n` entries of `ms` agree key-wise with the first `n` of `block`. */
  predicate Overlaps(ms: seq<Message>, block: seq<Message>, n: nat) {
    n <= |ms| && n <= |block| && forall i | 0 <= i < n :: Key(ms[|ms| - n + i]) == Key(block[i])
  }

  function OverlapUpTo(ms: seq<Message>, block: seq<Message>, n: nat): (r: nat)
    requires n <= |ms| && n <= |block|
    ensures r <= n && Overlaps(ms, block, r)
    ensures forall k | r < k <= n :: !Overlaps(ms, block, k)
  {
    if n == 0 || Overlaps(ms, block, n) then n else OverlapUpTo(ms, block, n - 1)
  }

  function Overlap(ms: seq<Message>, block: seq<Message>): nat {
    OverlapUpTo(ms, block, if |ms| < |block| then |ms| else |block|)
  }

  function Merged(ms: seq<Message>, block: seq<Message>): seq<Message> {
    ms + block[Overlap(ms, block)..]
  }

  /** `ms` ends, key-wise, with the whole of `block`. */
  ghost predicate EndsWith(ms: seq<Message>, block: seq<Message>) {
    Overlaps(ms, block, |block|)
  }

  function RestoreCheckpoint(s: Snapshot, now: nat): Snapshot {
    if s.checkpoint.None? then s
    else Snapshot(Merged(s.messages, RestoredBlock(s.checkpoint.value, now)), None, false)
  }

  function RestorePending(s: Snapshot, now: nat): Snapshot {
    if !s.pending then s
    else
      var open := s.messages != [] && s.messages[|s.messages| - 1].role.User?;
      var closing := Stamped(Plain(Assistant, Text(INTERRUPTED_TURN)), now);
      Snapshot(if open then s.messages + [closing] else s.messages, s.checkpoint, false)
  }

  function SetCheckpoint(s: Snapshot, c: Checkpoint): Snapshot {
    if AuditOnly(c.phase) then s else s.(checkpoint := Some(c))
  }

  lemma {:induction false} MergeExtends(ms: seq<Message>, block: seq<Message>)
    ensures ms <= Merged(ms, block) && EndsWith(Merged(ms, block), block)
  {
    var n, merged := Overlap(ms, block), Merged(ms, block);
    assert |merged| == |ms| + |block| - n && Overlaps(ms, block, n);
    forall i | 0 <= i < |block| ensures Key(merged[|merged| - |block| + i]) == Key(block[i]) {
      if i < n {
        assert merged[|merged| - |block| + i] == ms[|ms| - n + i];
      } else {
        assert merged[|merged| - |block| + i] == block[i];
      }
    }
  }

  lemma {:induction false} MergeIsShortest(ms: seq<Message>, block: seq<Message>, other: seq<Message>)
    requires ms <= other && EndsWith(other, block)
    ensures |Merged(ms, block)| <= |other|
  {
    if |other| < |Merged(ms, block)| {
      var k := |block| - (|other| - |ms|);
      forall i | 0 <= i < k ensures Key(ms[|ms| - k + i]) == Key(block[i]) {
        assert other[|other| - |block| + i] == ms[|ms| - k + i];
      }
      assert Overlaps(ms, block, k);
    }
  }

  lemma {:induction false} MergeIsUnique(ms: seq<Message>, block: seq<Message>, other: seq<Message>, i: nat)
    requires ms <= other && EndsWith(other, block) && |other| == |Merged(ms, block)| && i < |other|
    ensures Key(other[i]) == Key(Merged(ms, block)[i])
  {
    MergeExtends(ms, block);
    if i >= |ms| {
      var j := i - (|other| - |block|);
      assert Key(other[|other| - |block| + j]) == Key(block[j]);
    }
  }

  /** Merging a checkpoint keeps the old entries as a prefix and ends with the whole block; no
      shorter list does both, and one of the same length differs only in timestamps. */
  lemma {:induction false} MergeIsShortestExtension(ms: seq<Message>, block: seq<Message>)
    ensures ms <= Merged(ms, block) && EndsWith(Merged(ms, block), block)
    ensures forall other | ms <= other && EndsWith(other, block) ::
              |Merged(ms, block)| <= |other|
              && (|other| == |Merged(ms, block)| ==>
                    forall i | 0 <= i < |other| :: Key(other[i]) == Key(Merged(ms, block)[i]))
  {
    MergeExtends(ms, block);
    forall other | ms <= other && EndsWith(other, block)
      ensures |Merged(ms, block)| <= |other|
      ensures |other| == |Merged(ms, block)| ==>
                forall i | 0 <= i < |other| :: Key(other[i]) == Key(Merged(ms, block)[i])
    {
      MergeIsShortest(ms, block, other);
      if |other| == |Merged(ms, block)| {
        forall i | 0 <= i < |other| { MergeIsUnique(ms, block, other, i); }
      }
    }
  }

  lemma {:induction false} FullOverlap(ms: seq<Message>, block: seq<Message>)
    requires EndsWith(ms, block)
    ensures Merged(ms, block) == ms
  {
  }

  lemma {:induction false} InterruptionsKeys(calls: seq<ToolCall>, t: nat, u: nat)
    ensures |Interruptions(calls, t)| == |Interruptions(calls, u)|
    ensures forall i | 0 <= i < |Interruptions(calls, t)| ::
              Key(Interruptions(calls, t)[i]) == Key(Interruptions(calls, u)[i])
  {
    if calls != [] { InterruptionsKeys(calls[..|calls| - 1], t, u); }
  }

  lemma {:induction false} BlockKeys(c: Checkpoint, t: nat, u: nat)
    ensures |RestoredBlock(c, t)| == |RestoredBlock(c, u)|
    ensures forall i | 0 <= i < |RestoredBlock(c, t)| :: Key(RestoredBlock(c, t)[i]) == Key(RestoredBlock(c, u)[i])
  {
    InterruptionsKeys(c.pending, t, u);
  }

  /** Restoring a checkpoint that was already restored adds nothing, at whatever time. */
  lemma {:induction false} RestoringAgainAddsNothing(ms: seq<Message>, c: Checkpoint, t: nat, u: nat)
    ensures var once := Merged(ms, RestoredBlock(c, t)); Merged(once, RestoredBlock(c, u)) == once
  {
    var first, second := RestoredBlock(c, t), RestoredBlock(c, u);
    var once := Merged(ms, first);
    MergeExtends(ms, first);
    BlockKeys(c, t, u);
    forall i | 0 <= i < |second| ensures Key(once[|once| - |second| + i]) == Key(second[i]) {
      assert Key(once[|once| - |first| + i]) == Key(first[i]);
    }
    FullOverlap(once, second);
  }

  // ----- What a restored entry is -----

  /** The same entry but for timestamps and bookkeeping fields. */
  predicate SameEntry(a: Message, b: Message) {
    a.(stamp := b.stamp) == b
  }

  lemma {:induction false} KeyIsEntry(a: Message, b: Message)
    ensures Key(a) == Key(b) <==> SameEntry(a, b)
  {
    assert a.(stamp := b.stamp) == Key(a).(stamp := b.stamp) && b == Key(b).(stamp := b.stamp);
    assert Key(a) == a.(stamp := b.stamp).(stamp := NO_STAMP);
  }

  /** A timestamp that is there stays; one that is missing becomes `now`. */
  predicate Dated(a: Message, b: Message, now: nat) {
    a.stamp == if b.stamp.timestamp.Some? then b.stamp else b.stamp.(timestamp := Some(now))
  }

  /** The calls that are dictionaries, in order. */
  function Calls(calls: seq<ToolCall>): seq<ToolCall> {
    if calls == [] then [] else (if calls[0].Call? then [calls[0]] else []) + Calls(calls[1..])
  }

  predicate IsInterruption(m: Message, call: ToolCall) {
    && call.Call? && m.role.Tool? && m.toolCalls == [] && m.toolCallId == call.id
    && m.name == (if call.name == "" then "tool" else call.name)
    && m.content == Text("Error: Task interrupted before this tool finished.")
    && m.reasoning == "" && m.thinking == ""
  }

  /** The list ends in the assistant entry of the payload, each finished result as it is, and a result about
      the interruption for each call that is still open; all in order. */
  ghost predicate EndsInPayload(ms: seq<Message>, c: Checkpoint) {
    var open := Calls(c.pending);
    var n, first := |ms| - |open| - |c.completed|, if c.assistant.Some? then 1 else 0;
    && n >= first
    && (c.assistant.Some? ==> SameEntry(ms[n - 1], c.assistant.value))
    && (forall i | 0 <= i < |c.completed| :: SameEntry(ms[n + i], c.completed[i]))
    && (forall i | 0 <= i < |open| :: IsInterruption(ms[n + |c.completed| + i], open[i]))
  }

  lemma {:induction false} CallsSnoc(calls: seq<ToolCall>, last: ToolCall)
    ensures Calls(calls + [last]) == Calls(calls) + if last.Call? then [last] else []
  {
    if calls == [] {
      assert [] + [last] == [last] && [last][1..] == [];
    } else {
      var all := calls + [last];
      assert all[1..] == calls[1..] + [last] && all[0] == calls[0];
      CallsSnoc(calls[1..], last);
      assert Calls(all) == (if calls[0].Call? then [calls[0]] else []) + Calls(all[1..]);
    }
  }

  lemma {:induction false} InterruptionsAre(calls: seq<ToolCall>, now: nat)
    ensures var open, r := Calls(calls), Interruptions(calls, now);
            |r| == |open| && forall i | 0 <= i < |r| :: IsInterruption(r[i], open[i]) && r[i].stamp.timestamp == Some(now)
  {
    if calls != [] {
      var front, last := calls[..|calls| - 1], calls[|calls| - 1];
      InterruptionsAre(front, now);
      CallsSnoc(front, last);
      assert calls == front + [last];
    }
  }

  /** An entry of the block that the payload does not hold itself is dated now, the others as they were. */
  ghost predicate DatedBlock(block: seq<Message>, c: Checkpoint, now: nat) {
    var first := if c.assistant.Some? then 1 else 0;
    && |block| >= first + |c.completed|
    && (c.assistant.Some? ==> Dated(block[0], c.assistant.value, now))
    && (forall i | 0 <= i < |c.completed| :: Dated(block[first + i], c.completed[i], now))
    && (forall i | first + |c.completed| <= i < |block| :: block[i].stamp.timestamp == Some(now))
  }

  lemma {:induction false} StampedIs(m: Message, now: nat)
    ensures SameEntry(Stamped(m, now), m) && Dated(Stamped(m, now), m, now)
  {
  }

  /** The block in three stretches. */
  ghost predicate Parts(block: seq<Message>, c: Checkpoint, rest: seq<Message>, now: nat) {
    var first, n := if c.assistant.Some? then 1 else 0, |c.completed|;
    && |block| == first + n + |rest|
    && (c.assistant.Some? ==> block[0] == Stamped(c.assistant.value, now))
    && (forall i | 0 <= i < n :: block[first + i] == Stamped(c.completed[i], now))
    && (forall i | first + n <= i < |block| :: block[i] == rest[i - first - n])
  }

  lemma {:induction false} BlockParts(c: Checkpoint, now: nat)
    ensures Parts(RestoredBlock(c, now), c, Interruptions(c.pending, now), now)
  {
  }

  lemma {:induction false} PartsArePayload(block: seq<Message>, c: Checkpoint, rest: seq<Message>, now: nat)
    requires Parts(block, c, rest, now)
    requires |rest| == |Calls(c.pending)| && forall i | 0 <= i < |rest| :: IsInterruption(rest[i], Calls(c.pending)[i])
    ensures EndsInPayload(block, c)
  {
    var first := if c.assistant.Some? then 1 else 0;
    if c.assistant.Some? { StampedIs(c.assistant.value, now); }
    forall i | 0 <= i < |c.completed| ensures SameEntry(block[first + i], c.completed[i]) { StampedIs(c.completed[i], now); }
  }

  lemma {:induction false} PartsAreDated(block: seq<Message>, c: Checkpoint, rest: seq<Message>, now: nat)
    requires Parts(block, c, rest, now) && forall i | 0 <= i < |rest| :: rest[i].stamp.timestamp == Some(now)
    ensures DatedBlock(block, c, now)
  {
    var first := if c.assistant.Some? then 1 else 0;
    if c.assistant.Some? { StampedIs(c.assistant.value, now); }
    forall i | 0 <= i < |c.completed| ensures Dated(block[first + i], c.completed[i], now) { StampedIs(c.completed[i], now); }
  }

  lemma {:induction false} BlockIsPayload(c: Checkpoint, now: nat)
    ensures EndsInPayload(RestoredBlock(c, now), c) && DatedBlock(RestoredBlock(c, now), c, now)
    ensures |RestoredBlock(c, now)| == (if c.assistant.Some? then 1 else 0) + |c.completed| + |Calls(c.pending)|
  {
    BlockParts(c, now);
    InterruptionsAre(c.pending, now);
    PartsArePayload(RestoredBlock(c, now), c, Interruptions(c.pending, now), now);
    PartsAreDated(RestoredBlock(c, now), c, Interruptions(c.pending, now), now);
  }

  /** A restored session keeps its messages and ends in the payload, and both markers are gone. */
  lemma {:induction false} PayloadIsRestored(s: Snapshot, now: nat)
    requires s.checkpoint.Some?
    ensures var t := RestoreCheckpoint(s, now);
            s.messages <= t.messages && EndsInPayload(t.messages, s.checkpoint.value) && t.checkpoint.None? && !t.pending
  {
    var c := s.checkpoint.value;
    var block := RestoredBlock(c, now);
    var ms := Merged(s.messages, block);
    BlockIsPayload(c, now);
    MergeExtends(s.messages, block);
    forall i | 0 <= i < |block| ensures SameEntry(ms[|ms| - |block| + i], block[i]) {
      KeyIsEntry(ms[|ms| - |block| + i], block[i]);
    }
    PayloadCarries(ms, block, c);
  }

  /** What was added is dated as it should be. */
  lemma {:induction false} RestoredAreDated(s: Snapshot, now: nat) returns (block: seq<Message>)
    requires s.checkpoint.Some?
    ensures var ms := RestoreCheckpoint(s, now).messages;
            && DatedBlock(block, s.checkpoint.value, now) && |s.messages| <= |ms| <= |s.messages| + |block|
            && ms[|s.messages|..] == block[|block| + |s.messages| - |ms|..]
  {
    block := RestoredBlock(s.checkpoint.value, now);
    BlockIsPayload(s.checkpoint.value, now);
    assert Overlaps(s.messages, block, Overlap(s.messages, block));
  }

  lemma {:induction false} PayloadCarries(ms: seq<Message>, block: seq<Message>, c: Checkpoint)
    requires EndsInPayload(block, c) && |block| == (if c.assistant.Some? then 1 else 0) + |c.completed| + |Calls(c.pending)|
    requires |block| <= |ms| && forall i | 0 <= i < |block| :: SameEntry(ms[|ms| - |block| + i], block[i])
    ensures EndsInPayload(ms, c)
  {
    var open, d := Calls(c.pending), |ms| - |block|;
    var n := |block| - |open| - |c.completed|;
    if c.assistant.Some? { assert SameEntry(ms[d + (n - 1)], block[n - 1]); }
    forall i | 0 <= i < |c.completed| ensures SameEntry(ms[d + n + i], c.completed[i]) {
      assert SameEntry(ms[d + (n + i)], block[n + i]);
    }
    forall i | 0 <= i < |open| ensures IsInterruption(ms[d + n + |c.completed| + i], open[i]) {
      assert SameEntry(ms[d + (n + |c.completed| + i)], block[n + |c.completed| + i]);
    }
  }

  /** A turn that only stored its user message is closed by an answer about the interruption; a history that
      ends otherwise is left as it is. */
  lemma {:induction false} PendingIsClosed(s: Snapshot, now: nat)
    requires s.pending
    ensures var t := RestorePending(s, now);
            && !t.pending && t.checkpoint == s.checkpoint
            && (if s.messages != [] && s.messages[|s.messages| - 1].role.User?
                then |t.messages| == |s.messages| + 1 && s.messages <= t.messages
                     && SameEntry(t.messages[|s.messages|], Plain(Assistant, Text("Error: Task interrupted before a response was generated.")))
                     && t.messages[|s.messages|].stamp.timestamp == Some(now)
                else t.messages == s.messages)
  {
  }

  class Session {
    const key: string
    var messages: seq<Message>
    var checkpoint: Option<Checkpoint>
    var pending: bool

    constructor (key: string)
      ensures this.key == key && Value() == Snapshot([], None, false)
    {
      this.key := key;
      messages, checkpoint, pending := [], None, false;
    }

    function Value(): Snapshot
      reads this
    {
      Snapshot(messages, checkpoint, pending)
    }

    /** Materialises an unfinished turn; true when there was a checkpoint. */
    method RestoreRuntimeCheckpoint(now: nat) returns (restored: bool)
      modifies this
      ensures Value() == RestoreCheckpoint(old(Value()), now)
      ensures restored == old(checkpoint).Some?
    {
      if checkpoint.None? {
        return false;
      }
      var c := checkpoint.value;
      var block := if c.assistant.Some? then [Stamped(c.assistant.value, now)] else [];
      block := block + StampedAll(c.completed, now);
      var results: seq<Message> := [];
      for k := 0 to |c.pending|
        invariant results == Interruptions(c.pending[..k], now)
      {
        assert c.pending[..k + 1][..k] == c.pending[..k];
        if c.pending[k].Call? {
          results := results + [Interruption(c.pending[k], now)];
        }
      }
      assert c.pending[..|c.pending|] == c.pending;
      block := block + results;
      var maxOverlap := if |messages| < |block| then |messages| else |block|;
      var overlap := maxOverlap;
      while overlap > 0 && !Overlaps(messages, block, overlap)
        invariant 0 <= overlap <= maxOverlap
        invariant OverlapUpTo(messages, block, maxOverlap) == OverlapUpTo(messages, block, overlap)
      {
        overlap := overlap - 1;
      }
      messages := messages + block[overlap..];
      pending := false;
      checkpoint := None;
      restored := true;
    }

    /** Closes a turn of which only the user message was stored. */
    method RestorePendingUserTurn(now: nat) returns (restored: bool)
      modifies this
      ensures Value() == RestorePending(old(Value()), now)
      ensures restored == old(pending)
    {
      if !pending {
        return false;
      }
      if messages != [] && messages[|messages| - 1].role.User? {
        messages := messages + [Stamped(Plain(Assistant, Text(INTERRUPTED_TURN)), now)];
      }
      pending := false;
      restored := true;
    }

    /** Keeps the latest recoverable payload; audit payloads leave the slot alone. */
    method SetRuntimeCheckpoint(payload: Checkpoint) returns (saved: bool)
      modifies this
      ensures Value() == SetCheckpoint(old(Value()), payload)
      ensures saved == !AuditOnly(payload.phase)
    {
      if AuditOnly(payload.phase) {
        return false;
      }
      checkpoint := Some(payload);
      saved := true;
    }
  }
}
