/** The reflection log: a file of lines, a cursor file that says how many of them were consumed, and pruning
    of the consumed lines by two separate writes. */
module ReflectionLog {
  import opened Messages

  const MAX_REFLECTIONS: nat := 500

  /** A consumer at work: it has read `entries`, the lines from `start` up to `end`. */
  datatype Reading = Reading(start: nat, end: nat, entries: seq<nat>, ingested: bool)

  /** Entries are numbered as they are appended; `count` is how many there were. `consumed` records what
      a consumer has taken in. */
  datatype State = State(lines: seq<nat>, cursor: nat, count: nat, consumed: set<nat>, reading: Option<Reading>)

  /** How far the two atomic writes of a pruning get before a failure or a crash. */
  datatype Writes = NoWrite | CursorOnly | Both

  datatype Label =
    | Append
    | Prune(writes: Writes)
    | Read(end: nat)
    | Ingest
    | Commit
    | Crash           // a consumer at work is gone; the files stay

  const EMPTY := State([], 0, 0, {}, None)

  /** A cursor beyond the file proves nothing: everything is read again. */
  function Effective(s: State): nat { if s.cursor <= |s.lines| then s.cursor else 0 }

  function Pruned(s: State, w: Writes): State {
    if s.cursor == 0 || w.NoWrite? then s
    else if s.cursor > |s.lines| || w.CursorOnly? then s.(cursor := 0)
    else s.(cursor := 0, lines := s.lines[s.cursor..])
  }

  function Elements(entries: seq<nat>): set<nat> { set e | e in entries }

  predicate Enabled(s: State, l: Label) {
    match l
    case Read(end) => s.reading.None? && Effective(s) < end <= |s.lines|
    case Ingest => s.reading.Some?
    case Commit => s.reading.Some? && s.reading.value.ingested
    case _ => true
  }

  function Apply(s: State, l: Label): State
    requires Enabled(s, l)
  {
    match l
    case Append => s.(lines := s.lines + [s.count], count := s.count + 1)
    case Prune(w) => Pruned(s, w)
    case Read(end) => s.(reading := Some(Reading(Effective(s), end, s.lines[Effective(s)..end], false)))
    case Ingest => s.(consumed := s.consumed + Elements(s.reading.value.entries), reading := Some(s.reading.value.(ingested := true)))
    case Commit => s.(cursor := s.reading.value.end, reading := None)
    case Crash => s.(reading := None)
  }

  // ----- The log object -----

  class Log {
    var lines: seq<nat>
    var cursor: nat
    var count: nat

    constructor ()
      ensures lines == [] && cursor == 0 && count == 0
    {
      lines, cursor, count := [], 0, 0;
    }

    /** A line is appended and, in a long file, the consumed lines go. `w` is how far the writes get. */
    method AppendReflection(w: Writes)
      modifies this
      ensures var grown := State(old(lines) + [old(count)], old(cursor), old(count) + 1, {}, None);
              State(lines, cursor, count, {}, None) == if |old(lines)| + 1 > MAX_REFLECTIONS then Pruned(grown, w) else grown
    {
      lines, count := lines + [count], count + 1;
      MaybeRotate(w);
    }

    method MaybeRotate(w: Writes)
      modifies this`lines, this`cursor
      ensures var s := State(old(lines), old(cursor), count, {}, None);
              State(lines, cursor, count, {}, None) == if |old(lines)| > MAX_REFLECTIONS then Pruned(s, w) else s
    {
      if |lines| <= MAX_REFLECTIONS { return; }
      if cursor == 0 { return; }
      if cursor > |lines| {
        if !w.NoWrite? { cursor := 0; }
        return;
      }
      var kept := lines[cursor..];
      if w.NoWrite? { return; }
      cursor := 0;
      if w.CursorOnly? { return; }
      lines := kept;
    }
  }

  // ----- Nothing is lost -----

  predicate Run(states: seq<State>, labels: seq<Label>) {
    && |states| == |labels| + 1
    && states[0] == EMPTY
    && forall k | 0 <= k < |labels| :: Enabled(states[k], labels[k]) && states[k + 1] == Apply(states[k], labels[k])
  }

  /** While a consumer is at work the file is not rewritten. */
  predicate Undisturbed(states: seq<State>, labels: seq<Label>)
    requires |states| == |labels| + 1
  {
    forall k | 0 <= k < |labels| :: labels[k].Prune? && labels[k].writes.Both? ==> states[k].reading.None?
  }

  /** The file holds the latest entries, and all entries before the cursor have been consumed. */
  ghost predicate Invariant(s: State) {
    && |s.lines| <= s.count && s.cursor <= |s.lines|
    && (forall i | 0 <= i < |s.lines| :: s.lines[i] == s.count - |s.lines| + i)
    && (forall e: nat | e < s.count - |s.lines| + s.cursor :: e in s.consumed)
    && (s.reading.Some? ==>
          && s.reading.value.start < s.reading.value.end <= |s.lines|
          && s.reading.value.entries == s.lines[s.reading.value.start..s.reading.value.end]
          && (forall e: nat | e < s.count - |s.lines| + s.reading.value.start :: e in s.consumed)
          && (s.reading.value.ingested ==> forall e: nat | e < s.count - |s.lines| + s.reading.value.end :: e in s.consumed))
  }

  lemma {:induction false} IngestKeeps(s: State)
    requires Invariant(s) && s.reading.Some?
    ensures Invariant(Apply(s, Ingest))
  {
    var t, r, base := Apply(s, Ingest), s.reading.value, s.count - |s.lines|;
    forall e: nat | e < base + r.end ensures e in t.consumed {
      if e >= base + r.start { assert r.entries[e - base - r.start] == s.lines[e - base] == e; }
    }
  }

  lemma {:induction false} StepKeeps(s: State, l: Label)
    requires Invariant(s) && Enabled(s, l) && (l.Prune? && l.writes.Both? ==> s.reading.None?)
    ensures Invariant(Apply(s, l))
  {
    if l.Ingest? { IngestKeeps(s); }
  }

  lemma {:induction false} RunKeepsInvariant(states: seq<State>, labels: seq<Label>, k: nat)
    requires Run(states, labels) && Undisturbed(states, labels) && k < |states|
    ensures Invariant(states[k])
  {
    if k > 0 {
      RunKeepsInvariant(states, labels, k - 1);
      StepKeeps(states[k - 1], labels[k - 1]);
    }
  }

  /** The entry has been consumed, or a consumer that starts now reads it. */
  ghost predicate Safe(s: State, e: nat) {
    e in s.consumed || exists i :: Effective(s) <= i < |s.lines| && s.lines[i] == e
  }

  /** Whatever crashes and failed writes there are: every entry ever appended has been consumed or is still
      to be read, provided that no consumer is at work while the file is rewritten. */
  lemma {:induction false} NothingIsLost(states: seq<State>, labels: seq<Label>, k: nat, e: nat)
    requires Run(states, labels) && Undisturbed(states, labels) && k < |states| && e < states[k].count
    ensures Safe(states[k], e)
  {
    RunKeepsInvariant(states, labels, k);
    var s := states[k];
    if e >= s.count - |s.lines| + s.cursor { assert s.lines[e - (s.count - |s.lines|)] == e; }
  }

  /** The file always holds the latest entries in their order, each once. */
  lemma {:induction false} FileIsATail(states: seq<State>, labels: seq<Label>, k: nat)
    requires Run(states, labels) && k < |states|
    ensures |states[k].lines| <= states[k].count
    ensures forall i | 0 <= i < |states[k].lines| :: states[k].lines[i] == states[k].count - |states[k].lines| + i
  {
    if k > 0 { FileIsATail(states, labels, k - 1); }
  }

  /** A complete pruning removes the lines before the cursor and no others, also in a long run; a cursor beyond
      the file is reset, and a cursor at its beginning leaves the file alone. */
  lemma {:induction false} PruningIsExact(states: seq<State>, labels: seq<Label>, k: nat)
    requires Run(states, labels) && k < |labels| && labels[k] == Prune(Both)
    ensures var s, t := states[k], states[k + 1];
            var gone := if s.cursor <= |s.lines| then s.cursor else 0;
            && t.cursor == 0 && t.count == s.count && t.consumed == s.consumed && t.reading == s.reading
            && |t.lines| == |s.lines| - gone && |s.lines| <= s.count
            && (forall i | 0 <= i < |t.lines| :: t.lines[i] == s.count - |s.lines| + gone + i)
  {
    FileIsATail(states, labels, k);
    assert states[k + 1] == Apply(states[k], labels[k]);
  }

  /** A consumer that reads to the end and is not cut short has seen everything. */
  lemma {:induction false} ConsumerCatchesUp(s: State)
    requires Invariant(s) && s.reading.None? && s.cursor < |s.lines|
    ensures var t := Apply(Apply(Apply(s, Read(|s.lines|)), Ingest), Commit);
            (forall e: nat | e < t.count :: e in t.consumed) && t.cursor == |t.lines|
  {
    var r := Apply(s, Read(|s.lines|));
    IngestKeeps(r);
  }

  // ----- Where the conditions are needed -----

  /** The two writes in the other order: after the first of them an entry that nobody consumed lies before
      the cursor. */
  lemma {:induction false} OtherOrderLoses(s: State, e: nat)
    requires Invariant(s) && s.cursor < |s.lines| && e == s.lines[s.cursor] && e !in s.consumed && 0 < s.cursor <= |s.lines| - s.cursor
    ensures !Safe(s.(lines := s.lines[s.cursor..]), e)
  {
    var t := s.(lines := s.lines[s.cursor..]);
    forall i | Effective(t) <= i < |t.lines| ensures t.lines[i] != e {
      assert t.lines[i] == s.lines[s.cursor + i];
    }
  }

  /** The cursor write of a consumer is safe if and only if the line that it names is not beyond what has
      been consumed, as the file is numbered now, or does not exist at all. `m` entries have been consumed. */
  lemma {:induction false} CommitIsSafeExactly(s: State, m: nat)
    requires Enabled(s, Commit) && |s.lines| <= s.count && forall i | 0 <= i < |s.lines| :: s.lines[i] == s.count - |s.lines| + i
    requires s.count - |s.lines| <= m && forall e: nat :: e in s.consumed <==> e < m
    ensures (forall e: nat | e < s.count :: Safe(Apply(s, Commit), e))
            <==> s.reading.value.end > |s.lines| || s.count - |s.lines| + s.reading.value.end <= m
  {
    var t, base, end := Apply(s, Commit), s.count - |s.lines|, s.reading.value.end;
    if end > |s.lines| || base + end <= m {
      forall e: nat | e < s.count ensures Safe(t, e) {
        if e >= m { assert t.lines[e - base] == e; }
      }
    } else {
      assert m < s.count && !Safe(t, m);
    }
  }

  lemma {:induction false} Extend(states: seq<State>, labels: seq<Label>, l: Label) returns (more: seq<State>)
    requires Run(states, labels) && Enabled(states[|labels|], l)
    ensures Run(more, labels + [l]) && more[|labels| + 1] == Apply(states[|labels|], l)
  {
    more := states + [Apply(states[|labels|], l)];
    forall k | 0 <= k < |labels + [l]|
      ensures Enabled(more[k], (labels + [l])[k]) && more[k + 1] == Apply(more[k], (labels + [l])[k])
    {
      if k < |labels| { assert (labels + [l])[k] == labels[k] && more[k] == states[k] && more[k + 1] == states[k + 1]; }
    }
  }

  /** The first entry has been consumed, and a consumer has read the second. */
  lemma {:induction false} ReachSecondRead() returns (states: seq<State>, labels: seq<Label>)
    ensures Run(states, labels) && states[|labels|] == State([0, 1], 1, 2, {0}, Some(Reading(1, 2, [1], false)))
  {
    states, labels := [EMPTY], [];
    states := Extend(states, labels, Append);
    labels := labels + [Append];
    states := Extend(states, labels, Read(1));
    labels := labels + [Read(1)];
    assert states[|labels|].reading.value.entries == [0];
    states := Extend(states, labels, Ingest);
    labels := labels + [Ingest];
    assert states[|labels|].consumed == {0};
    states := Extend(states, labels, Commit);
    labels := labels + [Commit];
    states := Extend(states, labels, Append);
    labels := labels + [Append];
    states := Extend(states, labels, Read(2));
    labels := labels + [Read(2)];
    assert states[|labels|].lines == [0, 1] && states[|labels|].lines[1..2] == [1];
    assert states[|labels|].consumed == {0};
  }

  /** A consumer reads, the file is pruned and grows while it works, and its cursor then counts lines that
      are gone: the third entry is never read. */
  lemma {:induction false} PruningUnderAConsumerLoses() returns (states: seq<State>, labels: seq<Label>)
    ensures Run(states, labels) && states[|labels|].count == 3 && !Safe(states[|labels|], 2)
  {
    states, labels := ReachSecondRead();
    states := Extend(states, labels, Append);
    labels := labels + [Append];
    states := Extend(states, labels, Prune(Both));
    labels := labels + [Prune(Both)];
    states := Extend(states, labels, Ingest);
    labels := labels + [Ingest];
    states := Extend(states, labels, Commit);
    labels := labels + [Commit];
    assert states[|labels|].lines == [1, 2] && states[|labels|].cursor == 2;
  }
}
