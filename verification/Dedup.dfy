/** Two bounded memories against duplicates: the fingerprints of replies already sent (least recently used
    goes first) and the identifiers of inbound messages already seen (oldest goes first). */
module Dedup {
  import opened TextOps

  // ----- Reply fingerprints -----

  const MAX_FINGERPRINTS: nat := 10_000

  datatype Key = Key(channel: string, chatId: string, messageId: string)

  /** A fingerprint is a hash of the text with white space normalised; the text stands for its hash. */
  datatype Entry = Entry(key: Key, fingerprint: string)

  /** Keys in the order in which they would be evicted. */
  type Cache = seq<Entry>

  function Fingerprint(content: string): string {
    Joined(content, "")
  }

  /** `" ".join(content.split())`, with `done` already written. */
  function Joined(content: string, done: string): string
    decreases |content|
  {
    if content == "" then done
    else if IsSpace(content[0]) then Joined(content[1..], done)
    else
      var n := WordEnd(content, 0);
      Joined(content[n..], if done == "" then content[..n] else done + " " + content[..n])
  }

  function WordEnd(content: string, i: nat): (n: nat)
    requires i <= |content|
    ensures i <= n <= |content|
    ensures i < |content| && !IsSpace(content[i]) ==> i < n
    decreases |content| - i
  {
    if i < |content| && !IsSpace(content[i]) then WordEnd(content, i + 1) else i
  }

  function Keys(c: Cache): set<Key> {
    if c == [] then {} else Keys(c[..|c| - 1]) + {c[|c| - 1].key}
  }

  function Removed(c: Cache, key: Key): Cache {
    if c == [] then [] else
      var front := Removed(c[..|c| - 1], key);
      if c[|c| - 1].key == key then front else front + [c[|c| - 1]]
  }

  function Last(c: Cache, n: nat): Cache {
    if |c| <= n then c else c[|c| - n..]
  }

  function Found(c: Cache, key: Key): (r: int)
    ensures -1 <= r < |c|
    ensures 0 <= r ==> c[r].key == key
  {
    if c == [] then -1 else if c[|c| - 1].key == key then |c| - 1 else Found(c[..|c| - 1], key)
  }

  /** Writing or finding a key makes it the most recent one; the least recent one goes if there are too many. */
  function Touched(c: Cache, e: Entry, cap: nat): Cache {
    Last(Removed(c, e.key) + [e], cap)
  }

  /** The fields of an outbound message that duplicate suppression looks at; "" where absent. */
  datatype Reply = Reply(channel: string, chatId: string, content: string, progress: bool, originId: string, messageId: string)

  /** The key is in the cache with this fingerprint. */
  predicate Repeats(c: Cache, e: Entry) {
    Found(c, e.key) >= 0 && c[Found(c, e.key)] == e
  }

  /** What a reply writes to the memory. */
  function Touches(c: Cache, r: Reply): seq<Entry> {
    var fp := Fingerprint(r.content);
    var origin := Entry(Key(r.channel, r.chatId, r.originId), fp);
    var own := Entry(Key(r.channel, r.chatId, r.messageId), fp);
    if r.progress || fp == "" then []
    else if r.originId != "" && Repeats(c, origin) then [origin]
    else (if r.originId != "" then [origin] else []) + (if r.messageId != "" then [own] else [])
  }

  predicate Suppressed(c: Cache, r: Reply) {
    var fp := Fingerprint(r.content);
    !r.progress && fp != "" && r.originId != "" && Repeats(c, Entry(Key(r.channel, r.chatId, r.originId), fp))
  }

  function TouchedAll(c: Cache, es: seq<Entry>, cap: nat): Cache {
    if es == [] then c else Touched(TouchedAll(c, es[..|es| - 1], cap), es[|es| - 1], cap)
  }

  class ReplyFingerprints {
    var cache: Cache

    constructor ()
      ensures cache == []
    {
      cache := [];
    }

    predicate Valid()
      reads this
    {
      |cache| <= MAX_FINGERPRINTS
    }

    method Record(e: Entry)
      modifies this
      ensures cache == Touched(old(cache), e, MAX_FINGERPRINTS) && Valid()
    {
      cache := Removed(cache, e.key) + [e];
      ghost var all := cache;
      while |cache| > MAX_FINGERPRINTS
        invariant Last(all, MAX_FINGERPRINTS) == Last(cache, MAX_FINGERPRINTS)
      {
        cache := cache[1..];
      }
    }

    method ShouldSuppress(r: Reply) returns (suppress: bool)
      requires Valid()
      modifies this
      ensures Valid()
      ensures suppress == Suppressed(old(cache), r)
      ensures cache == TouchedAll(old(cache), Touches(old(cache), r), MAX_FINGERPRINTS)
    {
      if r.progress { return false; }
      var fp := Fingerprint(r.content);
      if fp == "" { return false; }
      ghost var written := [];
      if r.originId != "" {
        var origin := Entry(Key(r.channel, r.chatId, r.originId), fp);
        TouchOne(cache, [], origin, MAX_FINGERPRINTS);
        if Repeats(cache, origin) {
          RemovedShrinks(cache, origin.key);
          cache := Removed(cache, origin.key) + [origin];
          return true;
        }
        Record(origin);
        written := [origin];
      }
      if r.messageId != "" {
        var own := Entry(Key(r.channel, r.chatId, r.messageId), fp);
        TouchOne(old(cache), written, own, MAX_FINGERPRINTS);
        Record(own);
      }
      return false;
    }
  }

  lemma {:induction false} TouchOne(c: Cache, es: seq<Entry>, e: Entry, cap: nat)
    ensures TouchedAll(c, [], cap) == c
    ensures TouchedAll(c, es + [e], cap) == Touched(TouchedAll(c, es, cap), e, cap)
    ensures TouchedAll(c, [e], cap) == Touched(c, e, cap)
  {
    assert (es + [e])[..|es|] == es;
    assert [e][..0] == [];
  }

  lemma {:induction false} RemovedShrinks(c: Cache, key: Key)
    ensures |Removed(c, key)| <= |c| && (Found(c, key) >= 0 ==> |Removed(c, key)| < |c|)
  {
    if c != [] { RemovedShrinks(c[..|c| - 1], key); }
  }

  // ----- The bounded memory against an unbounded one -----

  /** All keys ever touched, each with its latest fingerprint, in the order of their latest touches. */
  function Unbounded(es: seq<Entry>): Cache {
    if es == [] then [] else Removed(Unbounded(es[..|es| - 1]), es[|es| - 1].key) + [es[|es| - 1]]
  }

  /** The latest touch of the key, or -1. */
  function LastTouch(es: seq<Entry>, key: Key): (r: int)
    ensures -1 <= r < |es|
    ensures 0 <= r ==> es[r].key == key
    ensures forall i | r < i < |es| :: es[i].key != key
  {
    if es == [] then -1 else if es[|es| - 1].key == key then |es| - 1 else LastTouch(es[..|es| - 1], key)
  }

  predicate Distinct(c: Cache) {
    c == [] || (c[|c| - 1].key !in Keys(c[..|c| - 1]) && Distinct(c[..|c| - 1]))
  }

  lemma {:induction false} KeysSnoc(a: Cache, e: Entry)
    ensures Keys(a + [e]) == Keys(a) + {e.key}
  {
    assert (a + [e])[..|a|] == a;
  }

  lemma {:induction false} KeysAppend(a: Cache, b: Cache)
    ensures Keys(a + b) == Keys(a) + Keys(b)
  {
    if b == [] {
      assert a + b == a;
    } else {
      assert (a + b)[..|a + b| - 1] == a + b[..|b| - 1];
      KeysAppend(a, b[..|b| - 1]);
    }
  }

  lemma {:induction false} RemovedAppend(a: Cache, b: Cache, key: Key)
    ensures Removed(a + b, key) == Removed(a, key) + Removed(b, key)
  {
    if b == [] {
      assert a + b == a;
    } else {
      assert (a + b)[..|a + b| - 1] == a + b[..|b| - 1];
      RemovedAppend(a, b[..|b| - 1], key);
    }
  }

  lemma {:induction false} RemovedKeys(c: Cache, key: Key)
    ensures Keys(Removed(c, key)) == Keys(c) - {key}
  {
    if c != [] {
      var front, last := c[..|c| - 1], c[|c| - 1];
      RemovedKeys(front, key);
      assert c == front + [last];
      KeysSnoc(front, last);
      KeysSnoc(Removed(front, key), last);
    }
  }

  lemma {:induction false} RemovedAbsent(c: Cache, key: Key)
    requires key !in Keys(c)
    ensures Removed(c, key) == c
  {
    if c != [] {
      assert c == c[..|c| - 1] + [c[|c| - 1]];
      KeysSnoc(c[..|c| - 1], c[|c| - 1]);
      RemovedAbsent(c[..|c| - 1], key);
    }
  }

  lemma {:induction false} RemovedDistinct(c: Cache, key: Key)
    requires Distinct(c)
    ensures Distinct(Removed(c, key)) && |Removed(c, key)| >= |c| - 1
  {
    if c != [] {
      var front, last := c[..|c| - 1], c[|c| - 1];
      RemovedDistinct(front, key);
      RemovedKeys(front, key);
      if last.key == key {
        RemovedAbsent(front, key);
      } else {
        var r := Removed(front, key);
        assert (r + [last])[..|r|] == r;
      }
    }
  }

  lemma {:induction false} DistinctTail(a: Cache, b: Cache)
    requires Distinct(a + b)
    ensures Distinct(b)
  {
    if b != [] {
      var front, last := b[..|b| - 1], b[|b| - 1];
      assert (a + b)[..|a + b| - 1] == a + front && (a + b)[|a + b| - 1] == last;
      DistinctTail(a, front);
      KeysAppend(a, front);
    }
  }

  lemma {:induction false} DistinctCount(c: Cache)
    requires Distinct(c)
    ensures |Keys(c)| == |c|
  {
    if c != [] {
      var front, last := c[..|c| - 1], c[|c| - 1];
      DistinctCount(front);
      assert c == front + [last];
      KeysSnoc(front, last);
    }
  }

  lemma {:induction false} UnboundedDistinct(es: seq<Entry>)
    ensures Distinct(Unbounded(es))
  {
    if es != [] {
      var u, e := Unbounded(es[..|es| - 1]), es[|es| - 1];
      UnboundedDistinct(es[..|es| - 1]);
      RemovedDistinct(u, e.key);
      RemovedKeys(u, e.key);
      assert (Removed(u, e.key) + [e])[..|Removed(u, e.key)|] == Removed(u, e.key);
    }
  }

  /** Cutting first or touching first makes no difference. */
  lemma {:induction false} TouchCut(c: Cache, e: Entry, cap: nat)
    requires Distinct(c) && cap > 0
    ensures Touched(Last(c, cap), e, cap) == Touched(c, e, cap)
  {
    if |c| > cap {
      var cut, kept := c[..|c| - cap], c[|c| - cap..];
      assert c == cut + kept;
      DistinctTail(cut, kept);
      RemovedDistinct(kept, e.key);
      RemovedAppend(cut, kept, e.key);
      assert Removed(c, e.key) + [e] == Removed(cut, e.key) + (Removed(kept, e.key) + [e]);
    }
  }

  function Bounded(es: seq<Entry>, cap: nat): Cache {
    TouchedAll([], es, cap)
  }

  /** The memory holds exactly the `cap` most recently touched keys. */
  lemma {:induction false} BoundedIsLast(es: seq<Entry>, cap: nat)
    requires cap > 0
    ensures Bounded(es, cap) == Last(Unbounded(es), cap)
  {
    if es != [] {
      BoundedIsLast(es[..|es| - 1], cap);
      UnboundedDistinct(es[..|es| - 1]);
      TouchCut(Unbounded(es[..|es| - 1]), es[|es| - 1], cap);
    }
  }

  // ----- When a fingerprint is remembered -----

  /** The unbounded memory holds the key's latest entry, and behind it the keys touched since. */
  ghost predicate Behind(es: seq<Entry>, key: Key, a: Cache, b: Cache) {
    var r := LastTouch(es, key);
    r >= 0 && Unbounded(es) == a + [es[r]] + b && key !in Keys(b) && Keys(b) == Keys(es[r + 1..])
  }

  lemma {:induction false} BehindOlder(front: seq<Entry>, e: Entry, key: Key, a: Cache, b: Cache)
    requires Behind(front, key, a, b) && e.key != key
    ensures Behind(front + [e], key, Removed(a, e.key), Removed(b, e.key) + [e])
  {
    LastTouchOlder(front, e, key);
    assert (front + [e])[LastTouch(front, key)] == front[LastTouch(front, key)];
    UnboundedSnoc(front, e);
    TouchBehind(a, front[LastTouch(front, key)], b, e);
    BehindKeys(front, e, LastTouch(front, key), b);
  }

  lemma {:induction false} LastTouchOlder(front: seq<Entry>, e: Entry, key: Key)
    requires e.key != key
    ensures LastTouch(front + [e], key) == LastTouch(front, key)
  {
    assert (front + [e])[..|front|] == front;
  }

  lemma {:induction false} UnboundedSnoc(front: seq<Entry>, e: Entry)
    ensures Unbounded(front + [e]) == Removed(Unbounded(front), e.key) + [e]
  {
    assert (front + [e])[..|front|] == front;
  }

  lemma {:induction false} BehindKeys(front: seq<Entry>, e: Entry, r: nat, b: Cache)
    requires r < |front| && Keys(b) == Keys(front[r + 1..])
    ensures Keys(Removed(b, e.key) + [e]) == Keys((front + [e])[r + 1..]) == Keys(b) + {e.key}
  {
    RemovedKeys(b, e.key);
    KeysSnoc(Removed(b, e.key), e);
    assert (front + [e])[r + 1..] == front[r + 1..] + [e];
    KeysSnoc(front[r + 1..], e);
  }

  lemma {:induction false} NeverTouched(es: seq<Entry>, key: Key)
    requires LastTouch(es, key) < 0
    ensures key !in Keys(Unbounded(es))
  {
    if es != [] {
      var u, e := Unbounded(es[..|es| - 1]), es[|es| - 1];
      NeverTouched(es[..|es| - 1], key);
      RemovedKeys(u, e.key);
      KeysSnoc(Removed(u, e.key), e);
    }
  }

  lemma {:induction false} UnboundedMeaning(es: seq<Entry>, key: Key) returns (a: Cache, b: Cache)
    requires LastTouch(es, key) >= 0
    ensures Behind(es, key, a, b)
  {
    var front, e := es[..|es| - 1], es[|es| - 1];
    assert es == front + [e];
    if e.key == key {
      a, b := Removed(Unbounded(front), key), [];
      assert es[|front| + 1..] == [];
    } else {
      a, b := UnboundedMeaning(front, key);
      BehindOlder(front, e, key, a, b);
      a, b := Removed(a, e.key), Removed(b, e.key) + [e];
    }
  }

  lemma {:induction false} Regroup(a: Cache, x: Entry, b: Cache, e: Entry)
    ensures a + [x] + b + [e] == a + [x] + (b + [e])
  {
  }

  /** Touching another key moves it behind `x`. */
  lemma {:induction false} TouchBehind(a: Cache, x: Entry, b: Cache, e: Entry)
    requires x.key != e.key
    ensures Removed(a + [x] + b, e.key) + [e] == Removed(a, e.key) + [x] + (Removed(b, e.key) + [e])
  {
    RemovedAppend(a + [x], b, e.key);
    RemovedAppend(a, [x], e.key);
    assert [x][..0] == [] && Removed([x], e.key) == [x];
    Regroup(Removed(a, e.key), x, Removed(b, e.key), e);
  }

  lemma {:induction false} FoundAbsent(c: Cache, key: Key)
    requires key !in Keys(c)
    ensures Found(c, key) < 0
  {
    if c != [] {
      assert c == c[..|c| - 1] + [c[|c| - 1]];
      KeysSnoc(c[..|c| - 1], c[|c| - 1]);
      FoundAbsent(c[..|c| - 1], key);
    }
  }

  lemma {:induction false} FoundSplit(a: Cache, x: Entry, b: Cache)
    requires x.key !in Keys(b)
    ensures Found(a + [x] + b, x.key) == |a|
  {
    var c := a + [x] + b;
    if b == [] {
      assert c[|c| - 1] == x;
    } else {
      var front, last := b[..|b| - 1], b[|b| - 1];
      assert b == front + [last];
      KeysSnoc(front, last);
      assert c[..|c| - 1] == a + [x] + front && c[|c| - 1] == last;
      FoundSplit(a, x, front);
    }
  }

  lemma {:induction false} AbsentFromLast(u: Cache, key: Key, cap: nat)
    requires key !in Keys(u)
    ensures Found(Last(u, cap), key) < 0
  {
    var kept := Last(u, cap);
    var cut := u[..|u| - |kept|];
    assert u == cut + kept;
    KeysAppend(cut, kept);
    FoundAbsent(kept, key);
  }

  lemma {:induction false} RememberedTouched(es: seq<Entry>, e: Entry, cap: nat)
    requires cap > 0 && LastTouch(es, e.key) >= 0
    ensures var r := LastTouch(es, e.key);
            Repeats(Last(Unbounded(es), cap), e) <==> es[r] == e && |Keys(es[r + 1..])| < cap
  {
    var a, b := UnboundedMeaning(es, e.key);
    UnboundedDistinct(es);
    RememberedSplit(Unbounded(es), a, es[LastTouch(es, e.key)], b, cap);
  }

  /** A fingerprint is remembered if and only if it is the latest of its key and fewer than `cap` other
      keys were touched since. */
  lemma {:induction false} RememberedExactly(es: seq<Entry>, e: Entry, cap: nat)
    requires cap > 0
    ensures var r := LastTouch(es, e.key);
            Repeats(Bounded(es, cap), e) <==> r >= 0 && es[r] == e && |Keys(es[r + 1..])| < cap
  {
    BoundedIsLast(es, cap);
    if LastTouch(es, e.key) < 0 {
      NeverTouched(es, e.key);
      AbsentFromLast(Unbounded(es), e.key, cap);
    } else {
      RememberedTouched(es, e, cap);
    }
  }

  lemma {:induction false} RememberedSplit(u: Cache, a: Cache, x: Entry, b: Cache, cap: nat)
    requires u == a + [x] + b && x.key !in Keys(b) && cap > 0 && Distinct(u)
    ensures |Keys(b)| < cap ==> Found(Last(u, cap), x.key) >= 0 && Last(u, cap)[Found(Last(u, cap), x.key)] == x
    ensures |Keys(b)| >= cap ==> Found(Last(u, cap), x.key) < 0
  {
    DistinctTail(a + [x], b);
    DistinctCount(b);
    if |b| < cap {
      var before := if |u| <= cap then a else a[|u| - cap..];
      assert Last(u, cap) == before + [x] + b;
      FoundSplit(before, x, b);
    } else {
      assert Last(u, cap) == Last(b, cap);
      AbsentFromLast(b, x.key, cap);
    }
  }

  // ----- A run of the channel manager -----

  /** All entries written by a run of replies, oldest first. */
  function History(rs: seq<Reply>): seq<Entry> {
    if rs == [] then []
    else var h := History(rs[..|rs| - 1]); h + Touches(Bounded(h, MAX_FINGERPRINTS), rs[|rs| - 1])
  }

  /** The memory after a run of replies, as the manager updates it. */
  function After(rs: seq<Reply>): Cache {
    if rs == [] then []
    else var c := After(rs[..|rs| - 1]); TouchedAll(c, Touches(c, rs[|rs| - 1]), MAX_FINGERPRINTS)
  }

  lemma {:induction false} TouchedAllAppend(c: Cache, a: seq<Entry>, b: seq<Entry>, cap: nat)
    ensures TouchedAll(c, a + b, cap) == TouchedAll(TouchedAll(c, a, cap), b, cap)
  {
    if b == [] {
      assert a + b == a;
    } else {
      assert (a + b)[..|a + b| - 1] == a + b[..|b| - 1];
      TouchedAllAppend(c, a, b[..|b| - 1], cap);
    }
  }

  lemma {:induction false} AfterIsBounded(rs: seq<Reply>)
    ensures After(rs) == Bounded(History(rs), MAX_FINGERPRINTS)
  {
    if rs != [] {
      var h := History(rs[..|rs| - 1]);
      AfterIsBounded(rs[..|rs| - 1]);
      TouchedAllAppend([], h, Touches(Bounded(h, MAX_FINGERPRINTS), rs[|rs| - 1]), MAX_FINGERPRINTS);
    }
  }

  /** The reply answers a message whose latest recorded reply has the same text, and fewer than ten thousand
      other messages were recorded since. */
  predicate RepeatsLatest(h: seq<Entry>, r: Reply) {
    var origin := Entry(Key(r.channel, r.chatId, r.originId), Fingerprint(r.content));
    var at := LastTouch(h, origin.key);
    && !r.progress && origin.fingerprint != "" && r.originId != ""
    && at >= 0 && h[at] == origin && |Keys(h[at + 1..])| < MAX_FINGERPRINTS
  }

  /** Over any run a reply is suppressed if and only if it repeats the latest one. */
  lemma {:induction false} SuppressedExactly(rs: seq<Reply>, c: Cache, h: seq<Entry>, r: Reply)
    requires c == After(rs) && h == History(rs)
    ensures Suppressed(c, r) <==> RepeatsLatest(h, r)
  {
    AfterIsBounded(rs);
    SuppressedByHistory(h, r);
  }

  lemma {:induction false} SuppressedByHistory(h: seq<Entry>, r: Reply)
    ensures Suppressed(Bounded(h, MAX_FINGERPRINTS), r) <==> RepeatsLatest(h, r)
  {
    RememberedExactly(h, Entry(Key(r.channel, r.chatId, r.originId), Fingerprint(r.content)), MAX_FINGERPRINTS);
    SuppressedRepeats(Bounded(h, MAX_FINGERPRINTS), r);
  }

  lemma {:induction false} SuppressedRepeats(c: Cache, r: Reply)
    ensures var origin := Entry(Key(r.channel, r.chatId, r.originId), Fingerprint(r.content));
            Suppressed(c, r) <==> !r.progress && origin.fingerprint != "" && r.originId != "" && Repeats(c, origin)
  {
  }

  // ----- Inbound identifiers -----

  class InboundDedup {
    var seen: seq<string>
    ghost var accepted: seq<string>

    constructor ()
      ensures Valid(0) && accepted == []
    {
      seen, accepted := [], [];
    }

    /** The identifiers kept are the last ones accepted. */
    ghost predicate Valid(maxSize: nat)
      reads this
    {
      seen == LastIds(accepted, maxSize) && Spaced(accepted, maxSize)
    }

    method DedupMessage(id: string, maxSize: nat) returns (isNew: bool)
      requires Valid(maxSize)
      modifies this
      ensures Valid(maxSize)
      ensures isNew <==> id !in LastIds(old(accepted), maxSize)
      ensures accepted == if isNew then old(accepted) + [id] else old(accepted)
    {
      if id in seen { return false; }
      AcceptKeepsSpacing(accepted, id, maxSize);
      accepted := accepted + [id];
      seen := seen + [id];
      while |seen| > maxSize
        invariant LastIds(seen, maxSize) == LastIds(accepted, maxSize)
        invariant Spaced(accepted, maxSize) && accepted == old(accepted) + [id]
      {
        seen := seen[1..];
      }
      return true;
    }
  }

  function LastIds(ids: seq<string>, n: nat): seq<string> {
    if |ids| <= n then ids else ids[|ids| - n..]
  }

  /** Between two acceptances of the same identifier lie at least `n` others. */
  predicate Spaced(ids: seq<string>, n: nat) {
    forall i, j | 0 <= i < j < |ids| && ids[i] == ids[j] :: j - i - 1 >= n
  }

  lemma {:induction false} AcceptKeepsSpacing(ids: seq<string>, id: string, n: nat)
    requires Spaced(ids, n)
    ensures Spaced(ids + [id], n) <==> id !in LastIds(ids, n)
  {
    if id in LastIds(ids, n) {
      var k :| 0 <= k < |LastIds(ids, n)| && LastIds(ids, n)[k] == id;
      var i := |ids| - |LastIds(ids, n)| + k;
      assert (ids + [id])[i] == (ids + [id])[|ids|];
    } else {
      forall i | |ids| - |LastIds(ids, n)| <= i < |ids| ensures ids[i] != id {
        assert ids[i] == LastIds(ids, n)[i - (|ids| - |LastIds(ids, n)|)];
      }
      var all := ids + [id];
      forall i, j | 0 <= i < j < |all| && all[i] == all[j] ensures j - i - 1 >= n {
        assert all[i] == ids[i];
        if j < |ids| { assert all[j] == ids[j]; }
      }
    }
  }
}
