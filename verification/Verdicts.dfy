/** The verdicts on plan steps that carry no evidence of a tool, the reasons for rejections, and which verdicts
    are kept. */
module Verdicts {
  import opened Messages
  import opened TextOps
  import opened Acceptance

  /** The same letter but for the case of ASCII letters. */
  predicate SameLetter(a: char, b: char) {
    a == b || ('A' <= a <= 'Z' && b == a + (32 as char)) || ('A' <= b <= 'Z' && a == b + (32 as char))
  }

  predicate MentionedAt(content: string, criteria: string, i: nat) {
    i + |criteria| <= |content| && forall k | 0 <= k < |criteria| :: SameLetter(content[i + k], criteria[k])
  }

  lemma {:induction false} LowerAgrees(a: char, b: char)
    ensures LowerChar(a) == LowerChar(b) <==> SameLetter(a, b)
  {
  }

  lemma {:induction false} OccursLower(content: string, criteria: string, i: nat)
    ensures OccursAt(Lower(content), Lower(criteria), i) <==> MentionedAt(content, criteria, i)
  {
    if i + |criteria| <= |content| {
      var part := Lower(content)[i..i + |criteria|];
      forall k | 0 <= k < |criteria| ensures part[k] == Lower(criteria)[k] <==> SameLetter(content[i + k], criteria[k]) {
        LowerAgrees(content[i + k], criteria[k]);
      }
      if OccursAt(Lower(content), Lower(criteria), i) { assert forall k | 0 <= k < |criteria| :: part[k] == Lower(criteria)[k]; }
      if MentionedAt(content, criteria, i) { assert part == Lower(criteria); }
    }
  }

  /** The criteria are mentioned if and only if they occur somewhere, whatever the case of the letters. */
  lemma {:induction false} MentionsExactly(content: string, criteria: string)
    ensures Mentions(content, criteria) <==> exists i: nat :: MentionedAt(content, criteria, i)
  {
    var at := FindFrom(Lower(content), Lower(criteria), 0);
    if at >= 0 { OccursLower(content, criteria, at); }
    if i: nat :| MentionedAt(content, criteria, i) {
      OccursLower(content, criteria, i);
      FindFromIsFirst(Lower(content), Lower(criteria), 0, i);
    }
  }

  /** The criteria are met by the text, or there are none. */
  ghost predicate Met(c: Case) {
    c.step.criteria == "" || exists i: nat :: MentionedAt(c.content, c.step.criteria, i)
  }

  /** A verifier is asked and gives its decision. */
  predicate Decides(c: Case, accepted: bool) {
    c.enableVerifier && c.answer.Answer? && c.answer.accepted == Some(accepted)
  }

  /** A step without a tool is accepted on its text, if it meets the criteria or a verifier says that it does. */
  lemma {:induction false} FreshTextAcceptanceExactly(c: Case)
    requires !ToolLevel(c.step)
    ensures Fresh(c).0.accepted <==> !Blank(c.content) && (Met(c) || Decides(c, true))
  {
    MentionsExactly(c.content, c.step.criteria);
  }

  /** Why a step is rejected. There is always one of these reasons. */
  lemma {:induction false} FreshRejectionExactly(c: Case)
    ensures Fresh(c).0.accepted <==> Fresh(c).0.why.None?
    ensures !Fresh(c).0.accepted ==>
              Fresh(c).0.why == Some(
                if ToolLevel(c.step) && !HasReceipt(c.obs) then NoToolReceipt
                else if !ToolLevel(c.step) && Blank(c.content) then (if c.obs == [] then EmptyContentNoTools else EmptyContentWithTools)
                else if Decides(c, false) && c.answer.reason != "" then VerifierSays(c.answer.reason)
                else DoneCriteriaNotMet)
  {
    MentionsExactly(c.content, c.step.criteria);
  }

  /** A verdict is kept unless a verifier was needed and gave no decision, or one with an error. */
  lemma {:induction false} KeptExactly(c: Case)
    ensures Fresh(c).1 <==> ByRules(c).accepted || ByRules(c).why != Some(DoneCriteriaNotMet) || !c.enableVerifier
                            || (c.answer.Answer? && c.answer.accepted.Some? && !c.answer.error)
  {
  }

  /** What is in the cache is the answer, whatever the evidence says by now, and nothing is written. */
  lemma {:induction false} CachedIsAnswered(cache: Cache, c: Case)
    requires ObservationsDigest(c.obs).Digest? && (c.step.id, ObservationsDigest(c.obs)) in cache
    ensures Evaluated(cache, c) == Judged(cache[(c.step.id, ObservationsDigest(c.obs))], cache)
  {
  }
}
