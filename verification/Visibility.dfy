/** What a chat gets to see of each message that the outbound dispatcher deals with. */
module Visibility {
  import Dedup
  import opened Outbound

  /** The channel exists, and neither retry notices nor unwanted progress is meant. */
  predicate Wanted(cfg: Config, m: Message) {
    && m.channel in cfg.known && !m.reasoning && !m.retryWait
    && (m.progress && m.toolHint ==> m.channel in cfg.toolHints)
    && (m.progress && !m.toolHint ==> m.channel in cfg.progress)
  }

  /** A reply that is sent in one piece. */
  predicate Whole(m: Message) { !m.delta && !m.end && !m.streamed }

  /** The replies of a run that the memory against duplicates is asked about, oldest first. */
  function Replies(cfg: Config, ms: seq<Message>): seq<Dedup.Reply> {
    if ms == [] then []
    else
      var m := ms[|ms| - 1];
      Replies(cfg, ms[..|ms| - 1])
      + if Wanted(cfg, m) && Whole(m)
        then [Dedup.Reply(m.channel, m.chatId, m.content, m.progress, m.originId, m.messageId)] else []
  }

  /** The latest reply recorded for the message that this one answers has the same words, and fewer than ten
      thousand other messages were recorded since. */
  predicate Repeated(rs: seq<Dedup.Reply>, m: Message) {
    Dedup.RepeatsLatest(Dedup.History(rs), Dedup.Reply(m.channel, m.chatId, m.content, m.progress, m.originId, m.messageId))
  }

  function Length(m: Message): nat { |m.content| + if m.end then 1 else 0 }

  /** The characters of a stream message, in order, and its end mark. */
  predicate Streamed(m: Message, es: seq<Event>) {
    && |es| == Length(m)
    && (forall i | 0 <= i < |m.content| :: es[i] == Chr(m.channel, m.chatId, m.content[i]))
    && (m.end ==> es[|m.content|] == End(m.channel, m.chatId))
  }

  predicate StreamedAll(ms: seq<Message>, es: seq<Event>)
    decreases |ms|
  {
    if ms == [] then es == []
    else Length(ms[0]) <= |es| && Streamed(ms[0], es[..Length(ms[0])]) && StreamedAll(ms[1..], es[Length(ms[0])..])
  }

  /** What dealing with `m`, and with the deltas that it absorbs, adds to what is seen. */
  predicate Adds(cfg: Config, rs: seq<Dedup.Reply>, m: Message, absorbed: seq<Message>, added: seq<Event>) {
    if m.reasoning then added == if m.channel in cfg.known && m.channel in cfg.reasoning then [Reasoning(m)] else []
    else if !Wanted(cfg, m) then added == []
    else if Whole(m) then added == if Repeated(rs, m) then [] else [Full(m)]
    else if !m.delta && !m.end then added == []
    else StreamedAll([m] + absorbed, added)
  }

  // ----- The memory over a run -----

  lemma {:induction false} PlainAppend(cfg: Config, c: Dedup.Cache, a: seq<Message>, b: seq<Message>)
    ensures Plain(cfg, c, a + b) == Prefixed(Plain(cfg, c, a).seen, Plain(cfg, Plain(cfg, c, a).cache, b))
    decreases |a|
  {
    if a == [] {
      assert a + b == b;
    } else {
      var first := Alone(cfg, c, a[0]);
      assert (a + b)[1..] == a[1..] + b;
      PlainAppend(cfg, first.cache, a[1..], b);
      PrefixTwice(first.seen, Plain(cfg, first.cache, a[1..]).seen, Plain(cfg, Plain(cfg, first.cache, a[1..]).cache, b));
    }
  }

  lemma {:induction false} PlainOne(cfg: Config, c: Dedup.Cache, m: Message)
    ensures Plain(cfg, c, [m]).cache == Alone(cfg, c, m).cache
  {
    assert [m][1..] == [];
  }

  lemma {:induction false} AfterSnoc(rs: seq<Dedup.Reply>, r: Dedup.Reply)
    ensures Dedup.After(rs + [r]) == Dedup.TouchedAll(Dedup.After(rs), Dedup.Touches(Dedup.After(rs), r), 10_000)
  {
    assert (rs + [r])[..|rs|] == rs;
  }

  lemma {:induction false} AloneRemembers(cfg: Config, c: Dedup.Cache, m: Message)
    ensures Alone(cfg, c, m).cache
            == if Wanted(cfg, m) && Whole(m) then Dedup.TouchedAll(c, Dedup.Touches(c, AsReply(m)), 10_000) else c
  {
  }

  lemma {:induction false} MemoryIsHistory(cfg: Config, ms: seq<Message>)
    ensures Plain(cfg, [], ms).cache == Dedup.After(Replies(cfg, ms))
  {
    if ms == [] {
      assert Dedup.After([]) == [];
    } else {
      var front, m := ms[..|ms| - 1], ms[|ms| - 1];
      var c, rs := Plain(cfg, [], front).cache, Replies(cfg, front);
      MemoryIsHistory(cfg, front);
      assert ms == front + [m];
      PlainAppend(cfg, [], front, [m]);
      PlainOne(cfg, c, m);
      AloneRemembers(cfg, c, m);
      AfterSnoc(rs, AsReply(m));
      RepliesSnoc(cfg, ms);
    }
  }

  lemma {:induction false} RepliesSnoc(cfg: Config, ms: seq<Message>)
    requires ms != []
    ensures var front, m := Replies(cfg, ms[..|ms| - 1]), ms[|ms| - 1];
            Replies(cfg, ms) == if Wanted(cfg, m) && Whole(m) then front + [AsReply(m)] else front
  {
  }

  // ----- One message -----

  lemma {:induction false} CharsAre(m: Message, text: string)
    ensures |Chars(m, text)| == |text| && forall i | 0 <= i < |text| :: Chars(m, text)[i] == Chr(m.channel, m.chatId, text[i])
    decreases |text|
  {
    if text != "" { CharsAre(m, text[1..]); }
  }

  lemma {:induction false} PieceIsStreamed(m: Message)
    ensures Streamed(m, Piece(m))
  {
    CharsAre(m, m.content);
  }

  lemma {:induction false} PlayedIsStreamed(cfg: Config, c: Dedup.Cache, ms: seq<Message>)
    requires forall i | 0 <= i < |ms| :: ms[i].channel in cfg.known
    ensures StreamedAll(ms, Played(cfg, c, ms, All(|ms|)).seen)
    decreases |ms|
  {
    if ms != [] {
      var piece, rest := Piece(ms[0]), Played(cfg, c, ms[1..], All(|ms| - 1)).seen;
      PieceIsStreamed(ms[0]);
      assert All(|ms|)[1..] == All(|ms| - 1);
      PlayedIsStreamed(cfg, c, ms[1..]);
      assert (piece + rest)[..|piece|] == piece && (piece + rest)[|piece|..] == rest;
    }
  }

  lemma {:induction false} OneIsStreamed(m: Message)
    ensures StreamedAll([m], Piece(m))
  {
    PieceIsStreamed(m);
    assert Piece(m)[..Length(m)] == Piece(m) && Piece(m)[Length(m)..] == [] && [m][1..] == [];
  }

  lemma {:induction false} MergeIsStreamed(cfg: Config, c: Dedup.Cache, first: Message, queue: seq<Message>)
    requires Merges(first) && first.channel in cfg.known
    ensures var g := Coalesced(first, queue); StreamedAll([first] + g.absorbed, Deliver(cfg, c, g.message).seen)
  {
    var g := Coalesced(first, queue);
    MergeShowsParts(cfg, c, first, queue);
    MergedIsStretch(first, queue);
    forall i | 0 <= i < |[first] + g.absorbed| ensures ([first] + g.absorbed)[i].channel in cfg.known {
      if i > 0 { assert SameTarget(first, g.absorbed[i - 1]); }
    }
    PlayedIsStreamed(cfg, c, [first] + g.absorbed);
  }

  lemma {:induction false} UnwantedMergeIsHidden(cfg: Config, c: Dedup.Cache, first: Message, queue: seq<Message>)
    requires first.channel !in cfg.known
    ensures Deliver(cfg, c, Coalesced(first, queue).message).seen == []
  {
    MergeKeepsChannel(first, queue);
  }

  lemma {:induction false} MergeKeepsChannel(first: Message, queue: seq<Message>)
    ensures Coalesced(first, queue).message.channel == first.channel
    decreases |queue|
  {
    if queue != [] && SameTarget(first, queue[0]) && queue[0].delta && !first.end && !queue[0].end {
      MergeKeepsChannel(Joined(first, queue[0]), queue[1..]);
    }
  }

  lemma {:induction false} RepeatsAreSuppressed(rs: seq<Dedup.Reply>, m: Message)
    ensures Dedup.Suppressed(Dedup.After(rs), AsReply(m)) <==> Repeated(rs, m)
  {
    Dedup.SuppressedExactly(rs, Dedup.After(rs), Dedup.History(rs), AsReply(m));
  }

  lemma {:induction false} WholeIsShown(cfg: Config, c: Dedup.Cache, m: Message)
    requires Wanted(cfg, m) && Whole(m)
    ensures Alone(cfg, c, m).seen == if Dedup.Suppressed(c, AsReply(m)) then [] else [Full(m)]
  {
  }

  lemma {:induction false} AloneAdds(cfg: Config, rs: seq<Dedup.Reply>, m: Message)
    requires !Passes(cfg, m) || !Merges(m)
    ensures Adds(cfg, rs, m, [], Alone(cfg, Dedup.After(rs), m).seen)
  {
    assert [m] + [] == [m];
    if Wanted(cfg, m) {
      if Whole(m) {
        RepeatsAreSuppressed(rs, m);
        WholeIsShown(cfg, Dedup.After(rs), m);
      } else {
        OneIsStreamed(m);
      }
    }
  }

  lemma {:induction false} HandledAdds(cfg: Config, rs: seq<Dedup.Reply>, s: State, m: Message)
    requires s.cache == Dedup.After(rs)
    ensures var t := Handled(cfg, s, m);
            && s.taken + [m] <= t.taken && s.seen <= t.seen
            && Adds(cfg, rs, m, t.taken[|s.taken| + 1..], t.seen[|s.seen|..])
  {
    var t := Handled(cfg, s, m);
    if !Passes(cfg, m) || !Merges(m) {
      AloneAdds(cfg, rs, m);
      assert t.taken[|s.taken| + 1..] == [] && t.seen[|s.seen|..] == Alone(cfg, s.cache, m).seen;
    } else {
      var g := Coalesced(m, s.queue);
      assert t.taken[|s.taken| + 1..] == g.absorbed && t.seen[|s.seen|..] == Deliver(cfg, s.cache, g.message).seen;
      if m.channel in cfg.known {
        MergeIsStreamed(cfg, s.cache, m, s.queue);
      } else {
        UnwantedMergeIsHidden(cfg, s.cache, m, s.queue);
      }
    }
  }

  /** After any run the next round of the dispatcher takes the next message, with any deltas that it absorbs,
      and adds to what is seen: a whole reply that is wanted, unless it repeats the latest one; of a stream all
      characters and end marks in order; reasoning where the channel shows it; and nothing else. */
  lemma {:induction false} DispatchShows(cfg: Config, labels: seq<Label>)
    requires After(cfg, labels).pending + After(cfg, labels).queue != []
    ensures var s, t := After(cfg, labels), Apply(cfg, After(cfg, labels), Dispatch);
            var m := (s.pending + s.queue)[0];
            && s.taken + [m] <= t.taken && s.seen <= t.seen
            && Adds(cfg, Replies(cfg, s.taken), m, t.taken[|s.taken| + 1..], t.seen[|s.seen|..])
  {
    var s := After(cfg, labels);
    var rs := Replies(cfg, s.taken);
    MergingIsInvisibleExactly(cfg, labels);
    MemoryIsHistory(cfg, s.taken);
    if s.pending != [] {
      HandledAdds(cfg, rs, s.(pending := s.pending[1..]), s.pending[0]);
    } else {
      HandledAdds(cfg, rs, s.(queue := s.queue[1..]), s.queue[0]);
    }
  }
}
