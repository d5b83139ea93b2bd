/** When two replies count as the same, and what a reply leaves in the memory against duplicates. */
module Fingerprints {
  import opened TextOps
  import opened Dedup

  /** The words of a text: its longest stretches without white space, in order. */
  function Words(s: string): seq<string> {
    if s == "" then []
    else if IsSpace(s[0]) then Words(s[1..])
    else if |s| == 1 || IsSpace(s[1]) then [[s[0]]] + Words(s[1..])
    else
      var rest := Words(s[1..]);
      if rest == [] then [[s[0]]] else [[s[0]] + rest[0]] + rest[1..]
  }

  function Spaced(ws: seq<string>): string {
    if ws == [] then "" else if |ws| == 1 then ws[0] else ws[0] + " " + Spaced(ws[1..])
  }

  predicate Word(w: string) {
    w != "" && forall i | 0 <= i < |w| :: !IsSpace(w[i])
  }

  lemma {:induction false} WordsAreWords(s: string)
    ensures forall w | w in Words(s) :: Word(w)
    ensures s != "" && !IsSpace(s[0]) ==> Words(s) != []
  {
    if s != "" {
      var rest := Words(s[1..]);
      WordsAreWords(s[1..]);
      if rest != [] {
        assert Word(rest[0]) && forall w | w in rest[1..] :: w in rest;
        var first := [s[0]] + rest[0];
        assert !IsSpace(s[0]) ==> Word(first);
      }
    }
  }

  /** The first word ends where the next white space begins. */
  lemma {:induction false} WordEndShifts(s: string, i: nat)
    requires i < |s|
    ensures WordEnd(s, i + 1) == 1 + WordEnd(s[1..], i)
    decreases |s| - i
  {
    if i + 1 < |s| && !IsSpace(s[i + 1]) { WordEndShifts(s, i + 1); }
  }

  lemma {:induction false} FirstWord(s: string)
    requires s != "" && !IsSpace(s[0])
    ensures var n := WordEnd(s, 0); Words(s) == [s[..n]] + Words(s[n..])
  {
    var n := WordEnd(s, 0);
    assert n == WordEnd(s, 1);
    WordEndShifts(s, 0);
    var t := s[1..];
    if |s| == 1 || IsSpace(s[1]) {
      assert n == 1 && s[..1] == [s[0]];
    } else {
      FirstWord(t);
      var k := WordEnd(t, 0);
      assert s[..n] == [s[0]] + t[..k] && s[n..] == t[k..];
      assert Words(t)[1..] == Words(t[k..]);
    }
  }

  lemma {:induction false} JoinedIsSpaced(s: string, done: string)
    ensures Joined(s, done) == if Words(s) == [] then done else if done == "" then Spaced(Words(s)) else done + " " + Spaced(Words(s))
    decreases |s|
  {
    if s != "" {
      if IsSpace(s[0]) {
        JoinedIsSpaced(s[1..], done);
      } else {
        var n := WordEnd(s, 0);
        FirstWord(s);
        var more := if done == "" then s[..n] else done + " " + s[..n];
        JoinedIsSpaced(s[n..], more);
        SpacedCons(s[..n], Words(s[n..]));
        Regroup(done + " ", s[..n], Spaced(Words(s[n..])));
      }
    }
  }

  lemma {:induction false} SpacedCons(w: string, ws: seq<string>)
    ensures Spaced([w] + ws) == if ws == [] then w else w + " " + Spaced(ws)
  {
    assert ([w] + ws)[1..] == ws;
  }

  lemma {:induction false} Regroup(a: string, b: string, c: string)
    ensures a + (b + " " + c) == a + b + " " + c
  {
  }

  lemma {:induction false} WordThen(w: string, s: string)
    requires Word(w) && (s == "" || IsSpace(s[0]))
    ensures Words(w + s) == [w] + Words(s)
  {
    if |w| == 1 {
      assert (w + s)[1..] == s && w == [w[0]];
    } else {
      var rest := w[1..];
      assert (w + s)[1..] == rest + s && (w + s)[1] == w[1];
      WordThen(rest, s);
      assert w == [w[0]] + rest && ([rest] + Words(s))[1..] == Words(s);
    }
  }

  /** Words put together with blanks are found again. */
  lemma {:induction false} WordsOfSpaced(ws: seq<string>)
    requires forall w | w in ws :: Word(w)
    ensures Words(Spaced(ws)) == ws
  {
    if |ws| == 1 {
      WordThen(ws[0], "");
      assert ws[0] + "" == ws[0];
    } else if ws != [] {
      var tail := " " + Spaced(ws[1..]);
      WordsOfSpaced(ws[1..]);
      WordThen(ws[0], tail);
      assert tail[1..] == Spaced(ws[1..]);
      assert ws[0] + tail == ws[0] + " " + Spaced(ws[1..]);
    }
  }

  /** Two texts have one fingerprint if and only if they have the same words; one without words has none. */
  lemma {:induction false} FingerprintsAgreeExactly(a: string, b: string)
    ensures Fingerprint(a) == Fingerprint(b) <==> Words(a) == Words(b)
    ensures Fingerprint(a) == "" <==> Words(a) == []
  {
    JoinedIsSpaced(a, "");
    JoinedIsSpaced(b, "");
    WordsAreWords(a);
    WordsAreWords(b);
    WordsOfSpaced(Words(a));
    WordsOfSpaced(Words(b));
    WordsOfSpaced([]);
  }

  // ----- What is recorded -----

  lemma {:induction false} AfterOneMore(rs: seq<Reply>, r: Reply)
    ensures After(rs + [r]) == TouchedAll(After(rs), Touches(After(rs), r), MAX_FINGERPRINTS)
  {
    assert (rs + [r])[..|rs|] == rs;
  }

  lemma {:induction false} TouchedIsFound(c: Cache, e: Entry)
    ensures Repeats(Touched(c, e, MAX_FINGERPRINTS), e)
  {
    var all := Removed(c, e.key) + [e];
    assert all[|all| - 1] == e && Last(all, MAX_FINGERPRINTS)[|Last(all, MAX_FINGERPRINTS)| - 1] == e;
  }

  lemma {:induction false} SecondTouchKeeps(c: Cache, e: Entry, f: Entry)
    requires e.key != f.key || e == f
    ensures Repeats(Touched(Touched(c, e, MAX_FINGERPRINTS), f, MAX_FINGERPRINTS), e)
  {
    var once := Touched(c, e, MAX_FINGERPRINTS);
    TouchedIsFound(c, e);
    TouchedIsFound(once, f);
    if e != f {
      var front := Removed(once, f.key);
      var before := once[..|once| - 1];
      assert front == Removed(before, f.key) + [e];
      RemovedShrinks(before, f.key);
      var all := front + [f];
      var last := Last(all, MAX_FINGERPRINTS);
      assert last[|last| - 1] == f && last[|last| - 2] == e;
      assert Found(last[..|last| - 1], e.key) == |last| - 2;
    }
  }

  /** A reply with words that is not progress is recorded for the message that it answers, and under its own
      identifier if it is sent: the next reply with the same words to either of them is suppressed. */
  lemma {:induction false} EchoIsSuppressed(rs: seq<Reply>, r: Reply, again: Reply)
    requires !r.progress && !again.progress && Words(r.content) != [] && Words(again.content) == Words(r.content)
    requires again.channel == r.channel && again.chatId == r.chatId && again.originId != ""
    requires again.originId == r.originId || (again.originId == r.messageId && !Suppressed(After(rs), r))
    ensures Suppressed(After(rs + [r]), again)
  {
    var c, fp := After(rs), Fingerprint(r.content);
    var origin, own := Entry(Key(r.channel, r.chatId, r.originId), fp), Entry(Key(r.channel, r.chatId, r.messageId), fp);
    FingerprintsAgreeExactly(r.content, again.content);
    AfterOneMore(rs, r);
    TouchOne(c, [], origin, MAX_FINGERPRINTS);
    TouchOne(c, [], own, MAX_FINGERPRINTS);
    TouchOne(c, [origin], own, MAX_FINGERPRINTS);
    TouchedIsFound(c, origin);
    TouchedIsFound(c, own);
    TouchedIsFound(Touched(c, origin, MAX_FINGERPRINTS), own);
    SecondTouchKeeps(c, origin, own);
  }

  /** Progress and replies without words are not recorded. */
  lemma {:induction false} NothingIsRecorded(rs: seq<Reply>, r: Reply)
    requires r.progress || Words(r.content) == [] || (r.originId == "" && r.messageId == "")
    ensures After(rs + [r]) == After(rs) && !Suppressed(After(rs), r)
  {
    FingerprintsAgreeExactly(r.content, "");
    AfterOneMore(rs, r);
  }
}
