/** The outbound dispatcher: it merges consecutive deltas of a stream before it sends them. */
module Outbound {
  import opened Dedup

  /** The flags are the metadata entries the dispatcher looks at; `rest` stands for all other metadata. */
  datatype Message = Message(
    channel: string, chatId: string, content: string,
    delta: bool, end: bool, streamed: bool,
    reasoning: bool, progress: bool, toolHint: bool, retryWait: bool, modelUpdated: bool,
    originId: string, messageId: string, rest: nat)

  /** Which channels exist and what each one wants. */
  datatype Config = Config(known: set<string>, reasoning: set<string>, progress: set<string>, toolHints: set<string>)

  /** What a chat gets to see, one character of a stream at a time. */
  datatype Event =
    | Chr(channel: string, chatId: string, c: char)
    | End(channel: string, chatId: string)
    | Full(message: Message)
    | Reasoning(message: Message)

  // ----- One message by itself -----

  /** None of the filters that come before merging drops the message. */
  predicate Passes(cfg: Config, m: Message) {
    && !m.reasoning
    && (m.progress ==> m.channel in if m.toolHint then cfg.toolHints else cfg.progress)
    && !m.retryWait
    && !(m.modelUpdated && m.channel == "websocket" && "websocket" !in cfg.known)
  }

  function Chars(m: Message, text: string): seq<Event>
    decreases |text|
  {
    if text == "" then [] else [Chr(m.channel, m.chatId, text[0])] + Chars(m, text[1..])
  }

  function Piece(m: Message): seq<Event> {
    Chars(m, m.content) + if m.end then [End(m.channel, m.chatId)] else []
  }

  function AsReply(m: Message): Reply {
    Reply(m.channel, m.chatId, m.content, m.progress, m.originId, m.messageId)
  }

  /** What a channel does with a message that reaches it. */
  function Sent(m: Message): seq<Event> {
    if m.delta || m.end then Piece(m) else if m.streamed then [] else [Full(m)]
  }

  /** The memory against duplicates, and what was seen. */
  datatype Outcome = Outcome(cache: Cache, seen: seq<Event>)

  /** Suppression and sending. */
  function Deliver(cfg: Config, c: Cache, m: Message): Outcome {
    if m.channel !in cfg.known then Outcome(c, [])
    else if m.delta || m.end || m.streamed then Outcome(c, Sent(m))
    else
      var after := TouchedAll(c, Touches(c, AsReply(m)), MAX_FINGERPRINTS);
      Outcome(after, if Suppressed(c, AsReply(m)) then [] else Sent(m))
  }

  /** A message handled without any merging. */
  function Alone(cfg: Config, c: Cache, m: Message): Outcome {
    if m.reasoning then Outcome(c, if m.channel in cfg.known && m.channel in cfg.reasoning then [Reasoning(m)] else [])
    else if !Passes(cfg, m) then Outcome(c, [])
    else Deliver(cfg, c, m)
  }

  function Prefixed(seen: seq<Event>, o: Outcome): Outcome { Outcome(o.cache, seen + o.seen) }

  /** A list of messages handled one by one without any merging. */
  function Plain(cfg: Config, c: Cache, ms: seq<Message>): Outcome
    decreases |ms|
  {
    if ms == [] then Outcome(c, [])
    else
      var first := Alone(cfg, c, ms[0]);
      Prefixed(first.seen, Plain(cfg, first.cache, ms[1..]))
  }

  // ----- Merging -----

  predicate SameTarget(a: Message, b: Message) { a.channel == b.channel && a.chatId == b.chatId }

  function Joined(first: Message, next: Message): Message {
    first.(content := first.content + next.content, end := first.end || next.end)
  }

  /** `absorbed` went into `message`; `boundary` is the message that stopped the merging, if any. */
  datatype Merge = Merge(message: Message, absorbed: seq<Message>, boundary: seq<Message>, rest: seq<Message>)

  function Coalesced(first: Message, queue: seq<Message>): Merge
    decreases |queue|
  {
    if queue == [] then Merge(first, [], [], [])
    else
      var next := queue[0];
      if SameTarget(first, next) && next.delta && !first.end then
        if next.end then Merge(Joined(first, next), [next], [], queue[1..])
        else
          var r := Coalesced(Joined(first, next), queue[1..]);
          r.(absorbed := [next] + r.absorbed)
      else Merge(first, [], [next], queue[1..])
  }

  predicate Merges(m: Message) { m.delta && !m.end }

  // ----- The dispatcher -----

  /** `arrived` and `taken` record what was put on the queue and what the dispatcher dealt with; `merged`
      says which of the latter were absorbed by an earlier one. */
  datatype State = State(
    queue: seq<Message>, pending: seq<Message>, cache: Cache, seen: seq<Event>,
    arrived: seq<Message>, taken: seq<Message>, merged: seq<bool>)

  datatype Label = Arrive(message: Message) | Dispatch

  const START := State([], [], [], [], [], [], [])

  function All(n: nat): seq<bool> { seq(n, _ => true) }

  function Handled(cfg: Config, s: State, first: Message): State {
    if !Passes(cfg, first) || !Merges(first) then
      var o := Alone(cfg, s.cache, first);
      s.(cache := o.cache, seen := s.seen + o.seen, taken := s.taken + [first], merged := s.merged + [false])
    else
      var g := Coalesced(first, s.queue);
      var o := Deliver(cfg, s.cache, g.message);
      s.(queue := g.rest, pending := s.pending + g.boundary, cache := o.cache, seen := s.seen + o.seen,
         taken := s.taken + [first] + g.absorbed, merged := s.merged + [false] + All(|g.absorbed|))
  }

  function Apply(cfg: Config, s: State, l: Label): State {
    match l
    case Arrive(m) => s.(queue := s.queue + [m], arrived := s.arrived + [m])
    case Dispatch =>
      if s.pending != [] then Handled(cfg, s.(pending := s.pending[1..]), s.pending[0])
      else if s.queue != [] then Handled(cfg, s.(queue := s.queue[1..]), s.queue[0])
      else s
  }

  function After(cfg: Config, labels: seq<Label>): State {
    if labels == [] then START else Apply(cfg, After(cfg, labels[..|labels| - 1]), labels[|labels| - 1])
  }

  class ChannelManager {
    const config: Config
    var queue: seq<Message>
    var pending: seq<Message>
    var cache: Cache
    var seen: seq<Event>
    ghost var arrived: seq<Message>
    ghost var taken: seq<Message>
    ghost var merged: seq<bool>

    constructor (config: Config)
      ensures this.config == config && Snapshot() == START
    {
      this.config := config;
      queue, pending, cache, seen := [], [], [], [];
      arrived, taken, merged := [], [], [];
    }

    ghost function Snapshot(): State
      reads this
    {
      State(queue, pending, cache, seen, arrived, taken, merged)
    }

    /** Takes deltas of the same stream off the queue until something else is met, which it hands back. */
    method CoalesceStreamDeltas(first: Message) returns (merged: Message, nonMatching: seq<Message>)
      requires Merges(first)
      modifies this`queue
      ensures var g := Coalesced(first, old(queue)); merged == g.message && nonMatching == g.boundary && queue == g.rest
    {
      merged, nonMatching := first, [];
      while queue != []
        invariant !merged.end && nonMatching == [] && SameTarget(first, merged)
        invariant var g, r := Coalesced(first, old(queue)), Coalesced(merged, queue);
                  g.message == r.message && g.boundary == r.boundary && g.rest == r.rest
        decreases |queue|
      {
        var next := queue[0];
        queue := queue[1..];
        if next.channel == first.channel && next.chatId == first.chatId && next.delta {
          merged := merged.(content := merged.content + next.content);
          if next.end {
            merged := merged.(end := true);
            return;
          }
        } else {
          nonMatching := [next];
          return;
        }
      }
    }

    /** One round of the dispatch loop. */
    method DispatchOne()
      modifies this
      ensures Snapshot() == Apply(config, old(Snapshot()), Dispatch)
    {
      var msg: Message;
      if pending != [] {
        msg, pending := pending[0], pending[1..];
      } else if queue != [] {
        msg, queue := queue[0], queue[1..];
      } else {
        return;
      }
      taken, merged := taken + [msg], merged + [false];
      if msg.reasoning {
        if msg.channel in config.known && msg.channel in config.reasoning { seen := seen + [Reasoning(msg)]; }
        return;
      }
      if msg.progress {
        if msg.toolHint && msg.channel !in config.toolHints { return; }
        if !msg.toolHint && msg.channel !in config.progress { return; }
      }
      if msg.retryWait { return; }
      if msg.modelUpdated && msg.channel == "websocket" && "websocket" !in config.known { return; }
      if msg.delta && !msg.end {
        ghost var g := Coalesced(msg, queue);
        var whole, extra := CoalesceStreamDeltas(msg);
        msg, pending := whole, pending + extra;
        taken, merged := taken + g.absorbed, merged + All(|g.absorbed|);
      }
      SendOne(msg);
    }

    /** Suppression and sending. */
    method SendOne(msg: Message)
      modifies this`cache, this`seen
      ensures var o := Deliver(config, old(cache), msg); cache == o.cache && seen == old(seen) + o.seen
    {
      if msg.channel !in config.known { return; }
      if !msg.delta && !msg.end && !msg.streamed {
        var suppress := Suppressed(cache, AsReply(msg));
        cache := TouchedAll(cache, Touches(cache, AsReply(msg)), MAX_FINGERPRINTS);
        if suppress { return; }
      }
      seen := seen + Sent(msg);
    }
  }

  // ----- Merging changes nothing that is seen -----

  lemma {:induction false} CharsAppend(m: Message, a: string, b: string)
    ensures Chars(m, a + b) == Chars(m, a) + Chars(m, b)
    decreases |a|
  {
    if a == "" {
      assert a + b == b;
    } else {
      assert (a + b)[1..] == a[1..] + b;
      CharsAppend(m, a[1..], b);
    }
  }

  lemma {:induction false} CharsSameTarget(m: Message, n: Message, text: string)
    requires SameTarget(m, n)
    ensures Chars(m, text) == Chars(n, text)
    decreases |text|
  {
    if text != "" { CharsSameTarget(m, n, text[1..]); }
  }

  lemma {:induction false} JoinedPiece(first: Message, next: Message)
    requires SameTarget(first, next) && !first.end
    ensures Piece(Joined(first, next)) == Piece(first) + Piece(next)
  {
    var j := Joined(first, next);
    CharsAppend(j, first.content, next.content);
    CharsSameTarget(j, first, first.content);
    CharsSameTarget(j, next, next.content);
  }

  lemma {:induction false} PrefixTwice(a: seq<Event>, b: seq<Event>, o: Outcome)
    ensures Prefixed(a, Prefixed(b, o)) == Prefixed(a + b, o)
    ensures Prefixed([], o) == o
  {
    assert a + (b + o.seen) == (a + b) + o.seen;
  }

  /** A stretch of deltas for one chat with no end mark before its last one. */
  predicate Stretch(first: Message, ms: seq<Message>) {
    forall i | 0 <= i < |ms| :: SameTarget(first, ms[i]) && ms[i].delta && (ms[i].end ==> i == |ms| - 1)
  }

  lemma {:induction false} StretchCons(first: Message, next: Message, ms: seq<Message>)
    requires SameTarget(first, next) && next.delta && !next.end && Stretch(Joined(first, next), ms)
    ensures Stretch(first, [next] + ms)
  {
  }

  lemma {:induction false} MergedIsStretch(first: Message, queue: seq<Message>)
    requires Merges(first)
    ensures Stretch(first, Coalesced(first, queue).absorbed)
    decreases |queue|
  {
    if queue != [] && SameTarget(first, queue[0]) && queue[0].delta && !queue[0].end {
      var j := Joined(first, queue[0]);
      MergedIsStretch(j, queue[1..]);
      StretchCons(first, queue[0], Coalesced(j, queue[1..]).absorbed);
    }
  }

  lemma {:induction false} MergedEndsWithMark(first: Message, queue: seq<Message>)
    requires Merges(first)
    ensures var g := Coalesced(first, queue); g.message.end <==> g.absorbed != [] && g.absorbed[|g.absorbed| - 1].end
    decreases |queue|
  {
    if queue != [] && SameTarget(first, queue[0]) && queue[0].delta && !queue[0].end {
      MergedEndsWithMark(Joined(first, queue[0]), queue[1..]);
      var r := Coalesced(Joined(first, queue[0]), queue[1..]).absorbed;
      assert ([queue[0]] + r)[|r|] == if r == [] then queue[0] else r[|r| - 1];
    }
  }

  /** What is merged is the longest stretch: the message that stops the merging does not continue it. */
  lemma {:induction false} MergeIsMaximal(first: Message, queue: seq<Message>)
    requires Merges(first)
    ensures var g := Coalesced(first, queue);
            && Stretch(first, g.absorbed)
            && (g.boundary != [] ==> !g.boundary[0].delta || !SameTarget(first, g.boundary[0]))
            && (g.boundary == [] ==> g.rest == [] || (g.absorbed != [] && g.absorbed[|g.absorbed| - 1].end))
  {
    MergedIsStretch(first, queue);
    MergedEndsWithMark(first, queue);
    MergeStops(first, queue);
  }

  lemma {:induction false} MergeStops(first: Message, queue: seq<Message>)
    requires Merges(first)
    ensures var g := Coalesced(first, queue);
            && (g.boundary != [] ==> !g.boundary[0].delta || !SameTarget(first, g.boundary[0]))
            && (g.boundary == [] ==> g.rest == [] || g.message.end)
    decreases |queue|
  {
    if queue != [] && SameTarget(first, queue[0]) && queue[0].delta && !queue[0].end {
      var j := Joined(first, queue[0]);
      MergeStops(j, queue[1..]);
      var r := Coalesced(j, queue[1..]);
      assert r.boundary != [] ==> (SameTarget(first, r.boundary[0]) <==> SameTarget(j, r.boundary[0]));
    }
  }

  // ----- What merging shows -----

  /** What a delta shows when it is merged: the filters no longer see it. */
  function Unfiltered(cfg: Config, m: Message): seq<Event> {
    if m.channel in cfg.known then Piece(m) else []
  }

  /** A message handled by itself, or as an absorbed one. */
  function Shown(cfg: Config, c: Cache, m: Message, absorbed: bool): Outcome {
    if absorbed then Outcome(c, Unfiltered(cfg, m)) else Alone(cfg, c, m)
  }

  function Played(cfg: Config, c: Cache, ms: seq<Message>, merged: seq<bool>): Outcome
    requires |merged| == |ms|
    decreases |ms|
  {
    if ms == [] then Outcome(c, [])
    else
      var first := Shown(cfg, c, ms[0], merged[0]);
      Prefixed(first.seen, Played(cfg, first.cache, ms[1..], merged[1..]))
  }

  lemma {:induction false} PlayedAppend(cfg: Config, c: Cache, a: seq<Message>, x: seq<bool>, b: seq<Message>, y: seq<bool>)
    requires |x| == |a| && |y| == |b|
    ensures Played(cfg, c, a + b, x + y) == Prefixed(Played(cfg, c, a, x).seen, Played(cfg, Played(cfg, c, a, x).cache, b, y))
    decreases |a|
  {
    if a == [] {
      assert a + b == b && x + y == y;
    } else {
      var first := Shown(cfg, c, a[0], x[0]);
      assert (a + b)[1..] == a[1..] + b && (x + y)[1..] == x[1..] + y;
      PlayedAppend(cfg, first.cache, a[1..], x[1..], b, y);
      var others := Played(cfg, first.cache, a[1..], x[1..]);
      PrefixTwice(first.seen, others.seen, Played(cfg, others.cache, b, y));
    }
  }

  lemma {:induction false} PlayedOne(cfg: Config, c: Cache, m: Message, absorbed: bool)
    ensures Played(cfg, c, [m], [absorbed]) == Shown(cfg, c, m, absorbed)
  {
    assert [m][1..] == [] && [absorbed][1..] == [];
  }

  lemma {:induction false} PlayedJoined(cfg: Config, c: Cache, first: Message, next: Message, more: seq<Message>)
    requires SameTarget(first, next) && !first.end
    ensures Played(cfg, c, [first] + ([next] + more), All(|more| + 2)) == Played(cfg, c, [Joined(first, next)] + more, All(|more| + 1))
  {
    var j, n := Joined(first, next), |more|;
    JoinedPiece(first, next);
    assert All(n + 2) == [true] + ([true] + All(n)) && All(n + 1) == [true] + All(n);
    PlayedAppend(cfg, c, [first], [true], [next] + more, [true] + All(n));
    PlayedAppend(cfg, c, [next], [true], more, All(n));
    PlayedAppend(cfg, c, [j], [true], more, All(n));
    PlayedOne(cfg, c, first, true);
    PlayedOne(cfg, c, next, true);
    PlayedOne(cfg, c, j, true);
    PrefixTwice(Unfiltered(cfg, first), Unfiltered(cfg, next), Played(cfg, c, more, All(n)));
  }

  /** A merged message shows what its parts show past the filters. */
  lemma {:induction false} MergeShowsParts(cfg: Config, c: Cache, first: Message, queue: seq<Message>)
    requires Merges(first)
    ensures var g := Coalesced(first, queue);
            Deliver(cfg, c, g.message) == Played(cfg, c, [first] + g.absorbed, All(|g.absorbed| + 1))
    decreases |queue|
  {
    PlayedOne(cfg, c, first, true);
    assert [first] + [] == [first] && All(1) == [true];
    if queue != [] && SameTarget(first, queue[0]) && queue[0].delta {
      var next := queue[0];
      var j := Joined(first, next);
      if next.end {
        PlayedJoined(cfg, c, first, next, []);
        PlayedOne(cfg, c, j, true);
        assert [next] + [] == [next] && [j] + [] == [j];
      } else {
        var r := Coalesced(j, queue[1..]);
        PlayedJoined(cfg, c, first, next, r.absorbed);
        MergeShowsParts(cfg, c, j, queue[1..]);
      }
    }
  }

  lemma {:induction false} DeltaAlone(cfg: Config, c: Cache, m: Message)
    requires m.delta && Passes(cfg, m)
    ensures Alone(cfg, c, m) == Deliver(cfg, c, m) == Outcome(c, Unfiltered(cfg, m))
  {
  }

  /** Merging the delta makes no difference: its channel does not exist, or it gets through the filters by
      itself, or it shows nothing, neither by itself nor merged. */
  predicate Harmless(cfg: Config, m: Message) {
    || m.channel !in cfg.known
    || Passes(cfg, m)
    || (m.content == "" && !m.end && !(m.reasoning && m.channel in cfg.reasoning))
  }

  predicate AllHarmless(cfg: Config, ms: seq<Message>, merged: seq<bool>)
    requires |merged| == |ms|
  {
    forall i | 0 <= i < |ms| :: merged[i] ==> Harmless(cfg, ms[i])
  }

  predicate DeltasMerged(ms: seq<Message>, merged: seq<bool>) {
    |merged| == |ms| && forall i | 0 <= i < |ms| :: merged[i] ==> ms[i].delta
  }

  /** Stream characters and marks less reasoning events. */
  function Balance(es: seq<Event>): int {
    if es == [] then 0 else Balance(es[..|es| - 1]) + if es[|es| - 1].Reasoning? then -1 else 1
  }

  lemma {:induction false} BalanceAppend(a: seq<Event>, b: seq<Event>)
    ensures Balance(a + b) == Balance(a) + Balance(b)
  {
    if b == [] {
      assert a + b == a;
    } else {
      assert (a + b)[..|a + b| - 1] == a + b[..|b| - 1];
      BalanceAppend(a, b[..|b| - 1]);
    }
  }

  lemma {:induction false} BalanceChars(m: Message, text: string)
    ensures Balance(Chars(m, text)) == |text|
    decreases |text|
  {
    if text != "" {
      var c := [Chr(m.channel, m.chatId, text[0])];
      assert c[..0] == [];
      BalanceChars(m, text[1..]);
      BalanceAppend(c, Chars(m, text[1..]));
    }
  }

  lemma {:induction false} BalancePiece(m: Message)
    ensures Balance(Piece(m)) == |m.content| + if m.end then 1 else 0
    ensures Balance(Piece(m)) == 0 ==> Piece(m) == []
  {
    var mark := if m.end then [End(m.channel, m.chatId)] else [];
    BalanceChars(m, m.content);
    BalanceAppend(Chars(m, m.content), mark);
    if m.end { assert mark[..0] == []; }
  }

  /** Merged, a delta shows at least as much, and the same if and only if it is harmless. */
  lemma {:induction false} MergedShowsMore(cfg: Config, c: Cache, m: Message)
    requires m.delta
    ensures Alone(cfg, c, m).cache == c
    ensures Balance(Alone(cfg, c, m).seen) <= Balance(Unfiltered(cfg, m))
    ensures Harmless(cfg, m) ==> Alone(cfg, c, m).seen == Unfiltered(cfg, m)
    ensures !Harmless(cfg, m) ==> Balance(Alone(cfg, c, m).seen) < Balance(Unfiltered(cfg, m))
  {
    BalancePiece(m);
    assert [Reasoning(m)][..0] == [];
  }

  /** Played with merging, a list shows the same as without if and only if every merged delta is harmless.
      What the memory holds is the same in any case. */
  lemma {:induction false} PlayedExactly(cfg: Config, c: Cache, ms: seq<Message>, merged: seq<bool>)
    requires DeltasMerged(ms, merged)
    ensures Played(cfg, c, ms, merged).cache == Plain(cfg, c, ms).cache
    ensures Balance(Plain(cfg, c, ms).seen) <= Balance(Played(cfg, c, ms, merged).seen)
    ensures AllHarmless(cfg, ms, merged) ==> Played(cfg, c, ms, merged) == Plain(cfg, c, ms)
    ensures !AllHarmless(cfg, ms, merged) ==> Balance(Plain(cfg, c, ms).seen) < Balance(Played(cfg, c, ms, merged).seen)
    decreases |ms|
  {
    if ms != [] {
      var shown, alone := Shown(cfg, c, ms[0], merged[0]), Alone(cfg, c, ms[0]);
      if merged[0] { MergedShowsMore(cfg, c, ms[0]); }
      assert DeltasMerged(ms[1..], merged[1..]);
      PlayedExactly(cfg, shown.cache, ms[1..], merged[1..]);
      HarmlessCons(cfg, ms, merged);
      BalanceAppend(shown.seen, Played(cfg, shown.cache, ms[1..], merged[1..]).seen);
      BalanceAppend(alone.seen, Plain(cfg, alone.cache, ms[1..]).seen);
    }
  }

  lemma {:induction false} HarmlessCons(cfg: Config, ms: seq<Message>, merged: seq<bool>)
    requires |merged| == |ms| && ms != []
    ensures AllHarmless(cfg, ms, merged) <==> (merged[0] ==> Harmless(cfg, ms[0])) && AllHarmless(cfg, ms[1..], merged[1..])
  {
    if AllHarmless(cfg, ms[1..], merged[1..]) {
      forall i | 1 <= i < |ms| ensures merged[i] ==> Harmless(cfg, ms[i]) {
        assert ms[1..][i - 1] == ms[i] && merged[1..][i - 1] == merged[i];
      }
    }
  }

  /** One merge, of any number of deltas, shows what they would show one by one, if and only if each of those
      absorbed is harmless. */
  lemma {:induction false} MergeKeepsMeaningExactly(cfg: Config, c: Cache, first: Message, queue: seq<Message>)
    requires Merges(first) && Passes(cfg, first)
    ensures var g := Coalesced(first, queue);
            Deliver(cfg, c, g.message) == Plain(cfg, c, [first] + g.absorbed) <==> forall m | m in g.absorbed :: Harmless(cfg, m)
  {
    var g := Coalesced(first, queue);
    var ms, merged := [first] + g.absorbed, All(|g.absorbed| + 1);
    MergeShowsParts(cfg, c, first, queue);
    MergedIsStretch(first, queue);
    AbsorbedHarmless(cfg, first, g.absorbed);
    PlayedExactly(cfg, c, ms, merged);
  }

  lemma {:induction false} AbsorbedHarmless(cfg: Config, first: Message, absorbed: seq<Message>)
    requires Merges(first) && Passes(cfg, first) && Stretch(first, absorbed)
    ensures DeltasMerged([first] + absorbed, All(|absorbed| + 1))
    ensures AllHarmless(cfg, [first] + absorbed, All(|absorbed| + 1)) <==> forall m | m in absorbed :: Harmless(cfg, m)
  {
    var ms, merged := [first] + absorbed, All(|absorbed| + 1);
    if AllHarmless(cfg, ms, merged) {
      forall m | m in absorbed ensures Harmless(cfg, m) {
        var i :| 0 <= i < |absorbed| && absorbed[i] == m;
        assert ms[i + 1] == m && merged[i + 1];
      }
    }
  }

  // ----- Whole runs -----

  /** Nothing is lost or reordered, at most one message is held back, and what was shown is what the messages
      dealt with show, each by itself or merged. */
  ghost predicate Invariant(cfg: Config, s: State) {
    && |s.pending| <= 1
    && s.taken + s.pending + s.queue == s.arrived
    && DeltasMerged(s.taken, s.merged)
    && Outcome(s.cache, s.seen) == Played(cfg, [], s.taken, s.merged)
  }

  lemma {:induction false} MergeSplits(first: Message, queue: seq<Message>)
    ensures var g := Coalesced(first, queue); queue == g.absorbed + g.boundary + g.rest && |g.boundary| <= 1
    decreases |queue|
  {
    if queue != [] && SameTarget(first, queue[0]) && queue[0].delta && !first.end && !queue[0].end {
      MergeSplits(Joined(first, queue[0]), queue[1..]);
      var r := Coalesced(Joined(first, queue[0]), queue[1..]);
      assert [queue[0]] + r.absorbed + r.boundary + r.rest == [queue[0]] + (r.absorbed + r.boundary + r.rest);
    }
  }

  lemma {:induction false} Regroup(a: seq<Message>, b: seq<Message>, c: seq<Message>, d: seq<Message>)
    ensures a + b + c + d == a + (b + c + d) && [] + b == b && a + [] + b == a + b
  {
  }

  lemma {:induction false} HandleKeepsOrder(cfg: Config, s: State, first: Message)
    requires s.pending == [] && s.taken + [first] + s.queue == s.arrived
    ensures var t := Handled(cfg, s, first); t.taken + t.pending + t.queue == t.arrived == s.arrived && |t.pending| <= 1
  {
    var g := Coalesced(first, s.queue);
    MergeSplits(first, s.queue);
    Regroup(s.taken + [first], g.absorbed, g.boundary, g.rest);
    Regroup(s.taken + [first], s.queue, [], []);
    Regroup(s.taken + [first], g.boundary, [], []);
  }

  lemma {:induction false} HandleAlone(cfg: Config, s: State, first: Message)
    requires DeltasMerged(s.taken, s.merged) && Outcome(s.cache, s.seen) == Played(cfg, [], s.taken, s.merged)
    requires !Passes(cfg, first) || !Merges(first)
    ensures var t := Handled(cfg, s, first);
            DeltasMerged(t.taken, t.merged) && Outcome(t.cache, t.seen) == Played(cfg, [], t.taken, t.merged)
  {
    PlayedAppend(cfg, [], s.taken, s.merged, [first], [false]);
    PlayedOne(cfg, s.cache, first, false);
  }

  lemma {:induction false} FirstIsUnfiltered(cfg: Config, c: Cache, first: Message, more: seq<Message>)
    requires Merges(first) && Passes(cfg, first)
    ensures Played(cfg, c, [first] + more, All(|more| + 1)) == Played(cfg, c, [first] + more, [false] + All(|more|))
  {
    DeltaAlone(cfg, c, first);
    assert All(|more| + 1)[1..] == All(|more|) && ([false] + All(|more|))[1..] == All(|more|);
    assert ([first] + more)[1..] == more;
  }

  lemma {:induction false} HandleMerged(cfg: Config, s: State, first: Message)
    requires DeltasMerged(s.taken, s.merged) && Outcome(s.cache, s.seen) == Played(cfg, [], s.taken, s.merged)
    requires Passes(cfg, first) && Merges(first)
    ensures var t := Handled(cfg, s, first);
            DeltasMerged(t.taken, t.merged) && Outcome(t.cache, t.seen) == Played(cfg, [], t.taken, t.merged)
  {
    var g := Coalesced(first, s.queue);
    var more := [false] + All(|g.absorbed|);
    MergedIsStretch(first, s.queue);
    MergeShowsParts(cfg, s.cache, first, s.queue);
    FirstIsUnfiltered(cfg, s.cache, first, g.absorbed);
    PlayedAppend(cfg, [], s.taken, s.merged, [first] + g.absorbed, more);
    assert s.taken + [first] + g.absorbed == s.taken + ([first] + g.absorbed);
    assert s.merged + [false] + All(|g.absorbed|) == s.merged + more;
    assert DeltasMerged([first] + g.absorbed, more);
  }

  lemma {:induction false} HandleStep(cfg: Config, s: State, first: Message)
    requires s.pending == [] && s.taken + [first] + s.queue == s.arrived
    requires DeltasMerged(s.taken, s.merged) && Outcome(s.cache, s.seen) == Played(cfg, [], s.taken, s.merged)
    ensures Invariant(cfg, Handled(cfg, s, first))
  {
    HandleKeepsOrder(cfg, s, first);
    if !Passes(cfg, first) || !Merges(first) { HandleAlone(cfg, s, first); } else { HandleMerged(cfg, s, first); }
  }

  lemma {:induction false} RunKeepsInvariant(cfg: Config, labels: seq<Label>)
    ensures Invariant(cfg, After(cfg, labels))
  {
    if labels != [] {
      RunKeepsInvariant(cfg, labels[..|labels| - 1]);
      var s := After(cfg, labels[..|labels| - 1]);
      match labels[|labels| - 1]
      case Arrive(m) => assert s.taken + s.pending + (s.queue + [m]) == s.arrived + [m];
      case Dispatch => DispatchStep(cfg, s);
    }
  }

  lemma {:induction false} DispatchStep(cfg: Config, s: State)
    requires Invariant(cfg, s)
    ensures Invariant(cfg, Apply(cfg, s, Dispatch))
  {
    if s.pending != [] {
      assert s.pending == [s.pending[0]] && s.pending[1..] == [];
      HandleStep(cfg, s.(pending := s.pending[1..]), s.pending[0]);
    } else if s.queue != [] {
      assert s.queue == [s.queue[0]] + s.queue[1..] && s.pending + s.queue == s.queue;
      assert s.taken + [s.queue[0]] + s.queue[1..] == s.arrived;
      HandleStep(cfg, s.(queue := s.queue[1..]), s.queue[0]);
    }
  }

  /** Whatever the timing: messages are dealt with in the order of their arrival, none is lost or
      repeated, and at most one is held back between two rounds. */
  lemma {:induction false} NothingIsLostOrReordered(cfg: Config, labels: seq<Label>)
    ensures var s := After(cfg, labels); |s.pending| <= 1 && s.taken + s.pending + s.queue == s.arrived
  {
    RunKeepsInvariant(cfg, labels);
  }

  /** Whatever the timing, at every moment: the chats have seen exactly what the messages dealt with would
      have shown without merging, in the same order, if and only if each delta that was absorbed is
      harmless. The memory against duplicates is the same in any case. */
  lemma {:induction false} MergingIsInvisibleExactly(cfg: Config, labels: seq<Label>)
    ensures var s := After(cfg, labels);
            && s.cache == Plain(cfg, [], s.taken).cache
            && |s.merged| == |s.taken|
            && (s.seen == Plain(cfg, [], s.taken).seen <==> AllHarmless(cfg, s.taken, s.merged))
  {
    var s := After(cfg, labels);
    RunKeepsInvariant(cfg, labels);
    PlayedExactly(cfg, [], s.taken, s.merged);
  }

  // ----- Which deltas can be absorbed -----

  /** Some schedule absorbs entry `i`: an earlier one can start a merge, and what comes from there to `i` is
      a stretch. */
  predicate Absorbable(cfg: Config, ms: seq<Message>, i: nat)
    requires i < |ms|
  {
    exists f: nat | f < i :: Merges(ms[f]) && Passes(cfg, ms[f]) && Stretch(ms[f], ms[f + 1..i + 1])
  }

  ghost predicate OnlyAbsorbable(cfg: Config, ms: seq<Message>, merged: seq<bool>) {
    |merged| == |ms| && forall i: nat | i < |ms| && merged[i] :: Absorbable(cfg, ms, i)
  }

  lemma {:induction false} AbsorbableInPrefix(cfg: Config, ms: seq<Message>, more: seq<Message>, i: nat)
    requires i < |ms| && Absorbable(cfg, ms, i)
    ensures Absorbable(cfg, ms + more, i)
  {
    var f: nat :| f < i && Merges(ms[f]) && Passes(cfg, ms[f]) && Stretch(ms[f], ms[f + 1..i + 1]);
    var all := ms + more;
    assert all[f] == ms[f] && all[f + 1..i + 1] == ms[f + 1..i + 1];
    assert Merges(all[f]) && Passes(cfg, all[f]) && Stretch(all[f], all[f + 1..i + 1]);
  }

  lemma {:induction false} AbsorbedAreAbsorbable(cfg: Config, taken: seq<Message>, merged: seq<bool>, first: Message, absorbed: seq<Message>)
    requires OnlyAbsorbable(cfg, taken, merged) && (absorbed != [] ==> Merges(first) && Passes(cfg, first)) && Stretch(first, absorbed)
    ensures OnlyAbsorbable(cfg, taken + [first] + absorbed, merged + [false] + All(|absorbed|))
  {
    var ms, flags, f := taken + [first] + absorbed, merged + [false] + All(|absorbed|), |taken|;
    forall i: nat | i < |ms| && flags[i] ensures Absorbable(cfg, ms, i) {
      if i < f {
        assert merged[i];
        AbsorbableInPrefix(cfg, taken, [first] + absorbed, i);
        assert taken + ([first] + absorbed) == ms;
      } else {
        assert ms[f] == first && ms[f + 1..i + 1] == absorbed[..i - f];
      }
    }
  }

  lemma {:induction false} HandledAbsorbs(cfg: Config, s: State, first: Message)
    requires OnlyAbsorbable(cfg, s.taken, s.merged)
    ensures OnlyAbsorbable(cfg, Handled(cfg, s, first).taken, Handled(cfg, s, first).merged)
  {
    if !Passes(cfg, first) || !Merges(first) {
      AbsorbedAreAbsorbable(cfg, s.taken, s.merged, first, []);
      assert s.taken + [first] + [] == s.taken + [first] && s.merged + [false] + All(0) == s.merged + [false];
    } else {
      MergedIsStretch(first, s.queue);
      AbsorbedAreAbsorbable(cfg, s.taken, s.merged, first, Coalesced(first, s.queue).absorbed);
    }
  }

  lemma {:induction false} RunAbsorbsAbsorbable(cfg: Config, labels: seq<Label>)
    ensures OnlyAbsorbable(cfg, After(cfg, labels).taken, After(cfg, labels).merged)
  {
    if labels != [] {
      var s := After(cfg, labels[..|labels| - 1]);
      RunAbsorbsAbsorbable(cfg, labels[..|labels| - 1]);
      if labels[|labels| - 1].Dispatch? {
        if s.pending != [] {
          HandledAbsorbs(cfg, s.(pending := s.pending[1..]), s.pending[0]);
        } else if s.queue != [] {
          HandledAbsorbs(cfg, s.(queue := s.queue[1..]), s.queue[0]);
        }
      }
    }
  }

  lemma {:induction false} AbsorbsStretch(first: Message, queue: seq<Message>, n: nat)
    requires Merges(first) && n <= |queue| && Stretch(first, queue[..n])
    ensures |Coalesced(first, queue).absorbed| >= n
    decreases n
  {
    if n > 0 {
      var next := queue[0];
      assert queue[..n][0] == next;
      if !next.end {
        var j := Joined(first, next);
        assert queue[1..][..n - 1] == queue[..n][1..];
        AbsorbsStretch(j, queue[1..], n - 1);
      }
    }
  }

  lemma {:induction false} AfterSnoc(cfg: Config, labels: seq<Label>, l: Label)
    ensures After(cfg, labels + [l]) == Apply(cfg, After(cfg, labels), l)
  {
    assert (labels + [l])[..|labels|] == labels;
  }

  /** Each message is dealt with before the next one comes. */
  lemma {:induction false} OneByOne(cfg: Config, ms: seq<Message>) returns (labels: seq<Label>)
    ensures var s := After(cfg, labels); s.arrived == s.taken == ms && s.pending == [] && s.queue == []
  {
    labels := [];
    if ms != [] {
      var last := ms[|ms| - 1];
      labels := OneByOne(cfg, ms[..|ms| - 1]);
      AfterSnoc(cfg, labels, Arrive(last));
      AfterSnoc(cfg, labels + [Arrive(last)], Dispatch);
      labels := labels + [Arrive(last)] + [Dispatch];
    }
  }

  lemma {:induction false} AllArrive(cfg: Config, before: seq<Label>, more: seq<Message>) returns (labels: seq<Label>)
    ensures var s, t := After(cfg, before), After(cfg, labels); t == s.(queue := s.queue + more, arrived := s.arrived + more)
  {
    labels := before;
    if more != [] {
      labels := AllArrive(cfg, before, more[..|more| - 1]);
      AfterSnoc(cfg, labels, Arrive(more[|more| - 1]));
      labels := labels + [Arrive(more[|more| - 1])];
      assert more == more[..|more| - 1] + [more[|more| - 1]];
    }
  }

  lemma {:induction false} HandledTakes(cfg: Config, s: State, ms: seq<Message>, f: nat, i: nat)
    requires f < i < |ms| && Merges(ms[f]) && Passes(cfg, ms[f]) && Stretch(ms[f], ms[f + 1..i + 1])
    requires s.queue == ms[f + 1..] && |s.taken| == |s.merged| == f
    ensures var t := Handled(cfg, s, ms[f]); i < |t.taken| == |t.merged| && t.merged[i]
  {
    assert s.queue[..i - f] == ms[f + 1..i + 1];
    AbsorbsStretch(ms[f], s.queue, i - f);
  }

  /** The schedule that absorbs an entry: what comes before the start of its stretch is dealt with, and all
      the rest has arrived when the dispatcher goes on. */
  lemma {:induction false} AbsorbingSchedule(cfg: Config, ms: seq<Message>, i: nat) returns (labels: seq<Label>)
    requires i < |ms| && Absorbable(cfg, ms, i)
    ensures var s := After(cfg, labels); s.arrived == ms && i < |s.taken| == |s.merged| && s.merged[i]
  {
    var f: nat :| f < i && Merges(ms[f]) && Passes(cfg, ms[f]) && Stretch(ms[f], ms[f + 1..i + 1]);
    labels := OneByOne(cfg, ms[..f]);
    RunKeepsInvariant(cfg, labels);
    labels := AllArrive(cfg, labels, ms[f..]);
    var s := After(cfg, labels);
    assert s.queue == ms[f..] && s.queue[1..] == ms[f + 1..] && ms[..f] + ms[f..] == ms;
    HandledTakes(cfg, s.(queue := s.queue[1..]), ms, f, i);
    AfterSnoc(cfg, labels, Dispatch);
    labels := labels + [Dispatch];
  }

  /** However these messages are timed, merging shows nothing else. */
  ghost predicate AlwaysInvisible(cfg: Config, ms: seq<Message>) {
    forall labels | After(cfg, labels).arrived == ms :: After(cfg, labels).seen == Plain(cfg, [], After(cfg, labels).taken).seen
  }

  /** For given messages merging is invisible under every timing, if and only if each of them that can be
      absorbed is harmless. */
  lemma {:induction false} AlwaysInvisibleExactly(cfg: Config, ms: seq<Message>)
    ensures AlwaysInvisible(cfg, ms) <==> forall i: nat | i < |ms| && Absorbable(cfg, ms, i) :: Harmless(cfg, ms[i])
  {
    if forall i: nat | i < |ms| && Absorbable(cfg, ms, i) :: Harmless(cfg, ms[i]) {
      forall labels | After(cfg, labels).arrived == ms
        ensures After(cfg, labels).seen == Plain(cfg, [], After(cfg, labels).taken).seen
      {
        HarmlessRun(cfg, ms, labels);
      }
    } else {
      var i: nat :| i < |ms| && Absorbable(cfg, ms, i) && !Harmless(cfg, ms[i]);
      var labels := AbsorbingSchedule(cfg, ms, i);
      MergingIsInvisibleExactly(cfg, labels);
      RunKeepsInvariant(cfg, labels);
      var s := After(cfg, labels);
      assert s.taken[i] == (s.taken + s.pending + s.queue)[i] == ms[i];
      assert !AllHarmless(cfg, s.taken, s.merged);
    }
  }

  lemma {:induction false} HarmlessRun(cfg: Config, ms: seq<Message>, labels: seq<Label>)
    requires After(cfg, labels).arrived == ms
    requires forall i: nat | i < |ms| && Absorbable(cfg, ms, i) :: Harmless(cfg, ms[i])
    ensures After(cfg, labels).seen == Plain(cfg, [], After(cfg, labels).taken).seen
  {
    var s := After(cfg, labels);
    MergingIsInvisibleExactly(cfg, labels);
    RunKeepsInvariant(cfg, labels);
    RunAbsorbsAbsorbable(cfg, labels);
    var more := s.pending + s.queue;
    assert s.taken + more == ms;
    forall i | 0 <= i < |s.taken| && s.merged[i] ensures Harmless(cfg, s.taken[i]) {
      AbsorbableInPrefix(cfg, s.taken, more, i);
      assert ms[i] == s.taken[i];
    }
  }

  /** In particular: once everything has been dealt with, and if every delta gets through the filters by
      itself, merging has changed nothing. */
  lemma {:induction false} MergingIsInvisible(cfg: Config, labels: seq<Label>)
    requires forall i | 0 <= i < |After(cfg, labels).arrived| ::
               After(cfg, labels).arrived[i].delta ==> Harmless(cfg, After(cfg, labels).arrived[i])
    requires After(cfg, labels).pending + After(cfg, labels).queue == []
    ensures Outcome(After(cfg, labels).cache, After(cfg, labels).seen) == Plain(cfg, [], After(cfg, labels).arrived)
  {
    var s := After(cfg, labels);
    RunKeepsInvariant(cfg, labels);
    assert s.pending == [] && s.queue == [] && s.taken + [] + [] == s.taken;
    MergingIsInvisibleExactly(cfg, labels);
  }

  const WEB := Config({"web"}, {}, {}, {})
  const DELTA := Message("web", "1", "a", true, false, false, false, false, false, false, false, "", "", 0)
  const UNWANTED := DELTA.(content := "b", progress := true)

  /** A run in which a progress delta that the channel does not want is shown, because it came while another
      delta was waiting. */
  lemma {:induction false} FilteredDeltaIsShown()
    ensures var s := After(WEB, [Arrive(DELTA), Arrive(UNWANTED), Dispatch]);
            && s.taken == s.arrived == [DELTA, UNWANTED]
            && s.seen == [Chr("web", "1", 'a'), Chr("web", "1", 'b')]
            && Plain(WEB, [], s.arrived).seen == [Chr("web", "1", 'a')]
  {
    var l1, l2, l3 := Arrive(DELTA), Arrive(UNWANTED), Dispatch;
    assert [l1][..0] == [] && [l1, l2][..1] == [l1] && [l1, l2, l3][..2] == [l1, l2];
    var s1, s := After(WEB, [l1]), After(WEB, [l1, l2]);
    assert After(WEB, []) == START;
    assert s1 == Apply(WEB, START, l1) && s == Apply(WEB, s1, l2);
    assert s.queue == [DELTA, UNWANTED] && s.arrived == [DELTA, UNWANTED] && s.seen == [] && s.taken == [] && s.pending == [];
    TwoDeltasMerge(s);
    assert [DELTA, UNWANTED][1..] == [UNWANTED] && [UNWANTED][1..] == [];
    OneChar(DELTA, "a");
    assert After(WEB, [l1, l2, l3]) == Apply(WEB, s, l3);
    assert Alone(WEB, [], DELTA) == Outcome([], Piece(DELTA)) && Alone(WEB, [], UNWANTED) == Outcome([], []);
    assert Plain(WEB, [], [UNWANTED]).seen == [];
    assert Plain(WEB, [], [DELTA, UNWANTED]).seen == Piece(DELTA) + Plain(WEB, [], [UNWANTED]).seen;
  }

  lemma {:induction false} TwoDeltasMerge(s: State)
    requires s.queue == [DELTA, UNWANTED] && s.seen == [] && s.taken == [] && s.pending == []
    ensures var t := Apply(WEB, s, Dispatch);
            && t.seen == [Chr("web", "1", 'a'), Chr("web", "1", 'b')]
            && t.taken == [DELTA, UNWANTED] && t.arrived == s.arrived
  {
    assert s.queue[1..] == [UNWANTED] && [UNWANTED][1..] == [];
    var j := Joined(DELTA, UNWANTED);
    assert Coalesced(j, []) == Merge(j, [], [], []);
    assert Coalesced(DELTA, [UNWANTED]) == Merge(j, [UNWANTED] + [], [], []);
    JoinedPiece(DELTA, UNWANTED);
    OneChar(DELTA, "a");
    OneChar(UNWANTED, "b");
  }

  lemma {:induction false} OneChar(m: Message, text: string)
    requires |text| == 1
    ensures Chars(m, text) == [Chr(m.channel, m.chatId, text[0])]
  {
    assert text[1..] == "";
  }
}
