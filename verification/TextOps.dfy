/** The string operations that the persistence and prompt code relies on. */
module TextOps {

  const TRUNCATION_SUFFIX := "\n... (truncated)"

  /** Whitespace as removed by `str.strip()`. */
  predicate IsSpace(c: char) {
    || '\t' <= c <= '\r' || '\U{1c}' <= c <= ' ' || c == '\U{85}' || c == '\U{a0}' || c == '\U{1680}'
    || '\U{2000}' <= c <= '\U{200a}' || c == '\U{2028}' || c == '\U{2029}' || c == '\U{202f}'
    || c == '\U{205f}' || c == '\U{3000}'
  }

  predicate Blank(s: string) {
    forall i | 0 <= i < |s| :: IsSpace(s[i])
  }

  /** `t` occurs in `s` at index `i`. */
  predicate OccursAt(s: string, t: string, i: nat) {
    i + |t| <= |s| && s[i..i + |t|] == t
  }

  ghost predicate Contains(s: string, t: string) {
    exists i: nat :: OccursAt(s, t, i)
  }

  /** First index at or after `i` where `t` occurs, or -1 (`str.find`). */
  function FindFrom(s: string, t: string, i: nat): (r: int)
    ensures r == -1 || (i <= r && OccursAt(s, t, r))
    decreases |s| - i
  {
    if i + |t| > |s| then -1
    else if OccursAt(s, t, i) then i
    else if i == |s| then -1
    else FindFrom(s, t, i + 1)
  }

  /** The index found is the first one, and -1 is returned only if there is none. */
  lemma {:induction false} FindFromIsFirst(s: string, t: string, i: nat, j: nat)
    requires i <= j && OccursAt(s, t, j)
    ensures 0 <= FindFrom(s, t, i) <= j
    decreases |s| - i
  {
    if i < j && !OccursAt(s, t, i) { FindFromIsFirst(s, t, i + 1, j); }
  }

  /** `s.rstrip("\n ")` */
  function RStrip(s: string): (r: string)
    ensures r <= s
  {
    if s != "" && (s[|s| - 1] == '\n' || s[|s| - 1] == ' ') then RStrip(s[..|s| - 1]) else s
  }

  /** Stripping leaves nothing exactly when there is nothing but newlines and blanks. */
  lemma {:induction false} RStripEmpty(s: string)
    ensures RStrip(s) == "" <==> forall i | 0 <= i < |s| :: s[i] == '\n' || s[i] == ' '
  {
    if s != "" {
      var front := s[..|s| - 1];
      RStripEmpty(front);
      if s[|s| - 1] == '\n' || s[|s| - 1] == ' ' {
        assert forall i | 0 <= i < |front| :: front[i] == s[i];
      }
    }
  }

  predicate EndsBare(s: string) {
    s == "" || (s[|s| - 1] != '\n' && s[|s| - 1] != ' ')
  }

  /** Stripping leaves the one beginning that ends in neither newline nor blank and has nothing else behind it. */
  lemma {:induction false} RStripExactly(s: string, r: string)
    ensures r == RStrip(s) <==>
            r <= s && EndsBare(r) && forall i | |r| <= i < |s| :: s[i] == '\n' || s[i] == ' '
  {
    if s != "" && (s[|s| - 1] == '\n' || s[|s| - 1] == ' ') {
      RStripExactly(s[..|s| - 1], r);
      if r <= s && r != s { assert r <= s[..|s| - 1]; }
      if r <= s[..|s| - 1] { assert r <= s; }
    }
  }

  /** A prefix that ends before the first occurrence contains no occurrence. */
  lemma {:induction false} PrefixBeforeFind(s: string, t: string, p: string)
    requires t != "" && FindFrom(s, t, 0) >= 0 && p <= s[..FindFrom(s, t, 0)]
    ensures !Contains(p, t)
  {
    if i: nat :| OccursAt(p, t, i) {
      assert s[i..i + |t|] == p[i..i + |t|];
      FindFromIsFirst(s, t, 0, i);
    }
  }

  /** Truncation with a stable suffix; a bound of zero or less means no bound. */
  function Truncate(text: string, maxChars: int): (r: string)
    ensures |r| <= |text| || maxChars > 0
    ensures maxChars > 0 ==> |r| <= maxChars + |TRUNCATION_SUFFIX|
    ensures maxChars <= 0 || |text| <= maxChars ==> r == text
  {
    if maxChars <= 0 || |text| <= maxChars then text else text[..maxChars] + TRUNCATION_SUFFIX
  }
}
