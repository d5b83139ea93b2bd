/** When a plan step counts as done: rules over tool receipts, a verifier for one kind of rejection, and a
    cache of verdicts. */
module Acceptance {
  import opened Messages
  import opened TextOps

  // ----- Steps and observations -----

  /** `hint`, `criteria` and the declared level are "" when absent. */
  datatype Step = Step(id: int, hint: string, criteria: string, level: string)

  /** An empty receipt is present but counts as none wherever its truth value is taken. */
  datatype Receipt = NoReceipt | EmptyReceipt | Receipt(committed: bool, digest: Option<string>, target: Option<string>)

  datatype Observation = Observation(tool: string, status: string, receipt: Receipt)

  const RECEIPT_TOOLS := {"write_file", "edit_file", "apply_patch"}

  /** The planner can raise the bar but not lower it. */
  predicate ToolLevel(step: Step) {
    step.level == "tool" || step.hint in RECEIPT_TOOLS
  }

  predicate HasReceipt(obs: seq<Observation>) {
    exists o :: o in obs && o.receipt.Receipt?
  }

  predicate HasCommitted(obs: seq<Observation>) {
    exists o :: o in obs && o.receipt.Receipt? && o.receipt.committed
  }

  // ----- The digest of a set of observations -----

  /** The fields that the verdict may depend on. */
  datatype Item = Item(tool: string, status: string, digest: Option<string>, target: Option<string>)

  function ItemOf(o: Observation): Item {
    if o.receipt.Receipt? then Item(o.tool, o.status, o.receipt.digest, o.receipt.target)
    else Item(o.tool, o.status, None, None)
  }

  function Items(obs: seq<Observation>): seq<Item> {
    seq(|obs|, i requires 0 <= i < |obs| => ItemOf(obs[i]))
  }

  predicate Before(a: string, b: string) {
    b != "" && (a == "" || a[0] < b[0] || (a[0] == b[0] && Before(a[1..], b[1..])))
  }

  lemma {:induction false} BeforeIsOrder(a: string, b: string, c: string)
    ensures !(Before(a, b) && Before(b, a)) && !Before(a, a)
    ensures Before(a, b) || Before(b, a) || a == b
    ensures Before(a, b) && Before(b, c) ==> Before(a, c)
  {
    if a != "" && b != "" {
      if c != "" {
        BeforeIsOrder(a[1..], b[1..], c[1..]);
      } else {
        BeforeIsOrder(a[1..], b[1..], "");
      }
      assert a == [a[0]] + a[1..] && b == [b[0]] + b[1..];
    } else if a != "" {
      BeforeIsOrder(a[1..], "", "");
    }
  }

  /** Python raises an error when it has to order None and a string. */
  predicate MayCompare(a: Option<string>, b: Option<string>) { a.Some? == b.Some? }

  predicate Comparable(a: Item, b: Item) {
    a.tool == b.tool && a.status == b.status ==>
      MayCompare(a.digest, b.digest) && (a.digest == b.digest ==> MayCompare(a.target, b.target))
  }

  predicate OptionBefore(a: Option<string>, b: Option<string>) {
    b.Some? && (a.None? || Before(a.value, b.value))
  }

  /** Tuple order. */
  predicate ItemBefore(a: Item, b: Item) {
    || Before(a.tool, b.tool)
    || (a.tool == b.tool && Before(a.status, b.status))
    || (a.tool == b.tool && a.status == b.status && OptionBefore(a.digest, b.digest))
    || (a.tool == b.tool && a.status == b.status && a.digest == b.digest && OptionBefore(a.target, b.target))
  }

  lemma {:induction false} OptionBeforeIsOrder(a: Option<string>, b: Option<string>, c: Option<string>)
    ensures !(OptionBefore(a, b) && OptionBefore(b, a)) && !OptionBefore(a, a)
    ensures OptionBefore(a, b) || OptionBefore(b, a) || a == b
    ensures OptionBefore(a, b) && OptionBefore(b, c) ==> OptionBefore(a, c)
  {
    BeforeIsOrder(if a.Some? then a.value else "", if b.Some? then b.value else "", if c.Some? then c.value else "");
  }

  lemma {:induction false} ItemBeforeIsOrder(a: Item, b: Item, c: Item)
    ensures !(ItemBefore(a, b) && ItemBefore(b, a)) && !ItemBefore(a, a)
    ensures ItemBefore(a, b) || ItemBefore(b, a) || a == b
    ensures ItemBefore(a, b) && ItemBefore(b, c) ==> ItemBefore(a, c)
  {
    BeforeIsOrder(a.tool, b.tool, c.tool);
    BeforeIsOrder(a.status, b.status, c.status);
    OptionBeforeIsOrder(a.digest, b.digest, c.digest);
    OptionBeforeIsOrder(a.target, b.target, c.target);
  }

  function Inserted(x: Item, sorted: seq<Item>): seq<Item> {
    if sorted == [] || !ItemBefore(sorted[0], x) then [x] + sorted else [sorted[0]] + Inserted(x, sorted[1..])
  }

  function Sorted(items: seq<Item>): seq<Item> {
    if items == [] then [] else Inserted(items[0], Sorted(items[1..]))
  }

  /** Sorting as it is carried out: a comparison that the language refuses ends it. Any sort compares items
      that end up next to each other, so which one it is makes no difference to whether it fails. */
  datatype Sorting = Done(items: seq<Item>) | Refused

  function TryInsert(x: Item, sorted: seq<Item>): Sorting {
    if sorted == [] then Done([x])
    else if !Comparable(x, sorted[0]) then Refused
    else if !ItemBefore(sorted[0], x) then Done([x] + sorted)
    else
      match TryInsert(x, sorted[1..])
      case Refused => Refused
      case Done(rest) => Done([sorted[0]] + rest)
  }

  function TrySort(items: seq<Item>): Sorting {
    if items == [] then Done([])
    else
      match TrySort(items[1..])
      case Refused => Refused
      case Done(sorted) => TryInsert(items[0], sorted)
  }

  /** The hash is taken to be injective: the sorted list stands for it. */
  datatype Digest = Digest(items: seq<Item>) | TypeError

  predicate AllComparable(items: seq<Item>) {
    forall i, j | 0 <= i < j < |items| :: Comparable(items[i], items[j])
  }

  function ObservationsDigest(obs: seq<Observation>): Digest {
    match TrySort(Items(obs))
    case Refused => TypeError
    case Done(items) => Digest(items)
  }

  predicate Ascending(items: seq<Item>) {
    forall i, j | 0 <= i < j < |items| :: !ItemBefore(items[j], items[i])
  }

  lemma {:induction false} AscendingTail(items: seq<Item>)
    requires Ascending(items) && items != []
    ensures Ascending(items[1..]) && multiset(items[1..]) == multiset(items) - multiset{items[0]}
  {
    assert items == [items[0]] + items[1..];
    assert forall i | 0 <= i < |items[1..]| :: items[1..][i] == items[i + 1];
  }

  lemma {:induction false} AscendingCons(x: Item, sorted: seq<Item>)
    requires Ascending(sorted) && forall y | y in sorted :: !ItemBefore(y, x)
    ensures Ascending([x] + sorted)
  {
    var r := [x] + sorted;
    forall i, j | 0 <= i < j < |r| ensures !ItemBefore(r[j], r[i]) {
      assert r[j] == sorted[j - 1] && sorted[j - 1] in sorted;
      if i > 0 { assert r[i] == sorted[i - 1]; }
    }
  }

  lemma {:induction false} LeastFirst(x: Item, sorted: seq<Item>, y: Item)
    requires Ascending(sorted) && sorted != [] && !ItemBefore(sorted[0], x) && y in sorted
    ensures !ItemBefore(y, x)
  {
    ItemBeforeIsOrder(y, x, sorted[0]);
    ItemBeforeIsOrder(sorted[0], x, y);
  }

  lemma {:induction false} InsertedIsSorted(x: Item, sorted: seq<Item>)
    requires Ascending(sorted)
    ensures Ascending(Inserted(x, sorted)) && multiset(Inserted(x, sorted)) == multiset(sorted) + multiset{x}
  {
    if sorted == [] || !ItemBefore(sorted[0], x) {
      forall y | y in sorted ensures !ItemBefore(y, x) { LeastFirst(x, sorted, y); }
      AscendingCons(x, sorted);
    } else {
      var first, rest := sorted[0], Inserted(x, sorted[1..]);
      AscendingTail(sorted);
      InsertedIsSorted(x, sorted[1..]);
      forall y | y in rest ensures !ItemBefore(y, first) {
        assert y in multiset(rest);
        ItemBeforeIsOrder(first, x, x);
        if y != x { assert y in multiset(sorted[1..]); }
      }
      AscendingCons(first, rest);
    }
  }

  lemma {:induction false} SortedSorts(items: seq<Item>)
    ensures Ascending(Sorted(items)) && multiset(Sorted(items)) == multiset(items)
  {
    if items != [] {
      SortedSorts(items[1..]);
      InsertedIsSorted(items[0], Sorted(items[1..]));
      assert items == [items[0]] + items[1..];
    }
  }

  lemma {:induction false} AscendingIsUnique(a: seq<Item>, b: seq<Item>)
    requires Ascending(a) && Ascending(b) && multiset(a) == multiset(b)
    ensures a == b
  {
    if a == [] {
      assert |multiset(b)| == 0;
    } else {
      assert a[0] in multiset(b) && |multiset(a)| == |multiset(b)|;
      assert b[0] in multiset(a);
      FirstIsLeast(a, b[0]);
      FirstIsLeast(b, a[0]);
      ItemBeforeIsOrder(a[0], b[0], b[0]);
      AscendingTail(a);
      AscendingTail(b);
      AscendingIsUnique(a[1..], b[1..]);
      assert a == [a[0]] + a[1..] && b == [b[0]] + b[1..];
    }
  }

  lemma {:induction false} FirstIsLeast(a: seq<Item>, x: Item)
    requires Ascending(a) && x in a
    ensures !ItemBefore(x, a[0])
  {
    ItemBeforeIsOrder(x, x, x);
  }

  // ----- When sorting fails -----

  predicate ComparableTo(x: Item, items: seq<Item>) {
    forall y | y in items :: Comparable(x, y)
  }

  /** What is before an item of the same tool and status, and after one that cannot be compared with it,
      cannot be compared with the one or the other. */
  lemma {:induction false} BetweenIsNotComparable(x: Item, y: Item, z: Item)
    requires !ItemBefore(y, x) && !ItemBefore(z, y) && !Comparable(x, z)
    ensures !Comparable(x, y) || !Comparable(y, z)
  {
    BeforeIsOrder(x.tool, y.tool, z.tool);
    BeforeIsOrder(y.tool, z.tool, x.tool);
    BeforeIsOrder(x.status, y.status, z.status);
    BeforeIsOrder(y.status, z.status, x.status);
    OptionBeforeIsOrder(x.digest, y.digest, z.digest);
    OptionBeforeIsOrder(y.digest, z.digest, x.digest);
  }

  /** Inserting fails exactly if some item of the list cannot be compared with the new one, although it looks
      only at those before its place. */
  lemma {:induction false} InsertFailsExactly(x: Item, sorted: seq<Item>)
    requires Ascending(sorted) && AllComparable(sorted)
    ensures TryInsert(x, sorted) == if ComparableTo(x, sorted) then Done(Inserted(x, sorted)) else Refused
  {
    if sorted != [] && Comparable(x, sorted[0]) {
      assert forall y | y in sorted :: y == sorted[0] || y in sorted[1..];
      if !ItemBefore(sorted[0], x) {
        forall z | z in sorted ensures Comparable(x, z) {
          var i :| 0 <= i < |sorted| && sorted[i] == z;
          if i > 0 && !Comparable(x, z) { BetweenIsNotComparable(x, sorted[0], z); }
        }
      } else {
        AscendingTail(sorted);
        assert AllComparable(sorted[1..]);
        InsertFailsExactly(x, sorted[1..]);
        assert forall y | y in sorted[1..] :: y in sorted;
      }
    }
  }

  lemma {:induction false} ComparableByMembers(a: seq<Item>, b: seq<Item>)
    requires multiset(a) == multiset(b) && AllComparable(a)
    ensures AllComparable(b)
  {
    forall i, j | 0 <= i < j < |b| ensures Comparable(b[i], b[j]) {
      assert b[i] in multiset(a) && b[j] in multiset(a);
      if b[i] != b[j] {
        var k :| 0 <= k < |a| && a[k] == b[i];
        var l :| 0 <= l < |a| && a[l] == b[j];
        assert Comparable(a[k], a[l]) || Comparable(a[l], a[k]);
      }
    }
  }

  lemma {:induction false} ComparableCons(x: Item, items: seq<Item>)
    ensures AllComparable([x] + items) <==> ComparableTo(x, items) && AllComparable(items)
  {
    var all := [x] + items;
    if AllComparable(all) {
      forall y | y in items ensures Comparable(x, y) {
        var i :| 0 <= i < |items| && items[i] == y;
        assert Comparable(all[0], all[i + 1]);
      }
      forall i, j | 0 <= i < j < |items| ensures Comparable(items[i], items[j]) { assert Comparable(all[i + 1], all[j + 1]); }
    }
    if ComparableTo(x, items) && AllComparable(items) {
      forall i, j | 0 <= i < j < |all| ensures Comparable(all[i], all[j]) {
        assert all[j] == items[j - 1];
        if i == 0 { assert items[j - 1] in items; } else { assert all[i] == items[i - 1]; }
      }
    }
  }

  /** Sorting fails if and only if two of the items cannot be compared, wherever they stand; otherwise it
      sorts. */
  lemma {:induction false} SortFailsExactly(items: seq<Item>)
    ensures TrySort(items) == if AllComparable(items) then Done(Sorted(items)) else Refused
  {
    if items != [] {
      var x, rest := items[0], items[1..];
      assert items == [x] + rest;
      SortFailsExactly(rest);
      ComparableCons(x, rest);
      if AllComparable(rest) {
        SortedSorts(rest);
        ComparableByMembers(rest, Sorted(rest));
        InsertFailsExactly(x, Sorted(rest));
        SameMembers(rest, Sorted(rest));
      }
    }
  }

  lemma {:induction false} SameMembers(a: seq<Item>, b: seq<Item>)
    requires multiset(a) == multiset(b)
    ensures forall y :: y in a <==> y in b
  {
    forall y ensures y in a <==> y in b { assert y in multiset(a) <==> y in multiset(b); }
  }

  /** What `apply_patch` leaves: a dry run has no receipt, and the receipt of a real run names several files
      elsewhere, so that its digest is None and its target empty. */
  const DRY_RUN := Observation("apply_patch", "ok", NoReceipt)
  const PATCHED := Observation("apply_patch", "ok", Receipt(true, None, Some("")))

  /** A patch that is tried and then applied in one step: no digest, and so no verdict. */
  lemma {:induction false} MixedReceiptsHaveNoDigest(cache: Cache, c: Case)
    requires c.obs == [DRY_RUN, PATCHED]
    ensures ObservationsDigest(c.obs).TypeError? && Evaluated(cache, c).Failed?
  {
    var items := Items(c.obs);
    assert !Comparable(items[0], items[1]);
    SortFailsExactly(items);
  }

  /** Two lists of observations have the same digest if and only if they show the same items, in whatever
      order they arrived. */
  lemma {:induction false} DigestIgnoresOrderExactly(a: seq<Observation>, b: seq<Observation>)
    requires ObservationsDigest(a).Digest? && ObservationsDigest(b).Digest?
    ensures ObservationsDigest(a) == ObservationsDigest(b) <==> multiset(Items(a)) == multiset(Items(b))
  {
    SortFailsExactly(Items(a));
    SortFailsExactly(Items(b));
    SortedSorts(Items(a));
    SortedSorts(Items(b));
    if multiset(Items(a)) == multiset(Items(b)) { AscendingIsUnique(Sorted(Items(a)), Sorted(Items(b))); }
  }

  /** Whether the digest exists does not depend on the order either. */
  lemma {:induction false} FailureIgnoresOrder(a: seq<Observation>, b: seq<Observation>)
    requires multiset(Items(a)) == multiset(Items(b)) && ObservationsDigest(a).Digest?
    ensures ObservationsDigest(b).Digest?
  {
    SortFailsExactly(Items(a));
    SortFailsExactly(Items(b));
    ComparableByMembers(Items(a), Items(b));
  }

  // ----- Rules, verifier and cache -----

  datatype Rejection =
    | NoToolReceipt | DoneCriteriaNotMet | EmptyContentNoTools | EmptyContentWithTools | Unknown | VerifierSays(reason: string)

  /** `why` is None exactly for an accepted step. */
  datatype Verdict = Verdict(accepted: bool, why: Option<Rejection>)

  /** What the verifier model answers: nothing usable, or an object with or without a decision; `error`
      when the object has an error field of its own. */
  datatype Answer = NoAnswer | Answer(accepted: Option<bool>, reason: string, error: bool)

  type Cache = map<(int, Digest), Verdict>

  /** One evaluation: the step, what was observed, and what the verifier would say. */
  datatype Case = Case(step: Step, obs: seq<Observation>, content: string, enableVerifier: bool, answer: Answer)

  datatype Outcome = Judged(verdict: Verdict, cache: Cache) | Failed

  function LowerChar(c: char): char {
    if 'A' <= c <= 'Z' then c - 'A' + 'a' else c
  }

  function Lower(s: string): string {
    seq(|s|, i requires 0 <= i < |s| => LowerChar(s[i]))
  }

  predicate Mentions(content: string, criteria: string) {
    FindFrom(Lower(content), Lower(criteria), 0) >= 0
  }

  predicate IsAccepted(step: Step, obs: seq<Observation>, content: string) {
    if ToolLevel(step) then HasCommitted(obs) && (step.criteria != "" ==> content != "" && Mentions(content, step.criteria))
    else !Blank(content) && (step.criteria != "" ==> Mentions(content, step.criteria))
  }

  function RejectionReason(step: Step, obs: seq<Observation>, content: string): Rejection {
    if ToolLevel(step) then if !HasReceipt(obs) then NoToolReceipt else DoneCriteriaNotMet
    else if Blank(content) then if obs == [] then EmptyContentNoTools else EmptyContentWithTools
    else if step.criteria != "" && !Mentions(content, step.criteria) then DoneCriteriaNotMet
    else Unknown
  }

  function ByRules(c: Case): Verdict {
    if IsAccepted(c.step, c.obs, c.content) then Verdict(true, None)
    else Verdict(false, Some(RejectionReason(c.step, c.obs, c.content)))
  }

  /** The verdict on evidence that is not in the cache, and whether it is kept. */
  function Fresh(c: Case): (Verdict, bool) {
    var rules := ByRules(c);
    if rules.accepted || !c.enableVerifier || rules.why != Some(DoneCriteriaNotMet) then (rules, true)
    else if c.answer.Answer? && c.answer.accepted.Some? then
      var why := if c.answer.accepted.value then None
                 else Some(if c.answer.reason != "" then VerifierSays(c.answer.reason) else DoneCriteriaNotMet);
      (Verdict(c.answer.accepted.value, why), !c.answer.error)
    else (rules, false)
  }

  function Evaluated(cache: Cache, c: Case): Outcome {
    var digest := ObservationsDigest(c.obs);
    if digest.TypeError? then Failed
    else if (c.step.id, digest) in cache then Judged(cache[(c.step.id, digest)], cache)
    else
      var (verdict, keep) := Fresh(c);
      Judged(verdict, if keep then cache[(c.step.id, digest) := verdict] else cache)
  }

  class StepAcceptancePolicy {
    var cache: Cache

    constructor ()
      ensures cache == map[]
    {
      cache := map[];
    }

    /** None when the digest fails. */
    method EvaluateWithVerifier(c: Case) returns (verdict: Option<Verdict>)
      modifies this
      ensures var o := Evaluated(old(cache), c);
              && (o.Failed? ==> verdict.None? && cache == old(cache))
              && (o.Judged? ==> verdict == Some(o.verdict) && cache == o.cache)
    {
      var digest := ObservationsDigest(c.obs);
      if digest.TypeError? { return None; }
      var key := (c.step.id, digest);
      if key in cache { return Some(cache[key]); }
      var ruleAccepted := IsAccepted(c.step, c.obs, c.content);
      var ruleRejection := if ruleAccepted then None else Some(RejectionReason(c.step, c.obs, c.content));
      var rescuable := ruleRejection == Some(DoneCriteriaNotMet);
      if ruleAccepted || !c.enableVerifier || !rescuable {
        cache := cache[key := Verdict(ruleAccepted, ruleRejection)];
        return Some(Verdict(ruleAccepted, ruleRejection));
      }
      var accepted, reason, failed := ruleAccepted, ruleRejection, true;
      if c.answer.Answer? && c.answer.accepted.Some? {
        accepted, failed := c.answer.accepted.value, c.answer.error;
        reason := if accepted then None else if c.answer.reason != "" then Some(VerifierSays(c.answer.reason)) else ruleRejection;
      }
      if !failed { cache := cache[key := Verdict(accepted, reason)]; }
      return Some(Verdict(accepted, reason));
    }
  }

  // ----- Acceptance needs a receipt -----

  /** Fresh evidence for a tool-level step is accepted exactly when a committed receipt meets the criteria,
      or when a receipt of any kind is there and an enabled verifier is asked and says so. */
  lemma {:induction false} FreshToolAcceptanceExactly(c: Case)
    requires ToolLevel(c.step)
    ensures Fresh(c).0.accepted <==>
      || (HasCommitted(c.obs) && (c.step.criteria == "" || (c.content != "" && Mentions(c.content, c.step.criteria))))
      || (HasReceipt(c.obs) && c.enableVerifier && c.answer.Answer? && c.answer.accepted == Some(true))
  {
  }

  /** The digest can tell that there is a receipt: it has a digest or a target. The tools issue none without
      a target, but a patch has no digest. */
  predicate Visible(r: Receipt) { r.Receipt? && (r.digest.Some? || r.target.Some?) }

  /** Some receipt can be told, if there is any. */
  predicate Shows(obs: seq<Observation>) {
    HasReceipt(obs) ==> exists o :: o in obs && Visible(o.receipt)
  }

  predicate ShowsReceipt(items: multiset<Item>) {
    exists x :: x in items && (x.digest.Some? || x.target.Some?)
  }

  lemma {:induction false} ReceiptShows(obs: seq<Observation>)
    ensures ShowsReceipt(multiset(Items(obs))) <==> exists o :: o in obs && Visible(o.receipt)
  {
    if o :| o in obs && Visible(o.receipt) {
      var i :| 0 <= i < |obs| && obs[i] == o;
      assert Items(obs)[i] in multiset(Items(obs));
    }
    if ShowsReceipt(multiset(Items(obs))) {
      var x :| x in multiset(Items(obs)) && (x.digest.Some? || x.target.Some?);
      var i :| 0 <= i < |Items(obs)| && Items(obs)[i] == x;
      assert obs[i] in obs;
    }
  }

  /** The same observations without their receipts. */
  function Stripped(obs: seq<Observation>): seq<Observation> {
    seq(|obs|, i requires 0 <= i < |obs| => obs[i].(receipt := NoReceipt))
  }

  /** Observations without a receipt have the digest of others that have one, if and only if none of the
      latter shows. */
  lemma {:induction false} HiddenReceiptsExactly(obs: seq<Observation>)
    requires HasReceipt(obs) && ObservationsDigest(obs).Digest?
    ensures (exists b :: !HasReceipt(b) && ObservationsDigest(b) == ObservationsDigest(obs)) <==> !Shows(obs)
  {
    ReceiptShows(obs);
    if b :| !HasReceipt(b) && ObservationsDigest(b) == ObservationsDigest(obs) {
      DigestIgnoresOrderExactly(b, obs);
      ReceiptShows(b);
    }
    if !Shows(obs) { StrippedIsTheSame(obs); }
  }

  lemma {:induction false} StrippedIsTheSame(obs: seq<Observation>)
    requires HasReceipt(obs) && !Shows(obs)
    ensures Items(Stripped(obs)) == Items(obs) && !HasReceipt(Stripped(obs))
  {
    forall i | 0 <= i < |obs| ensures ItemOf(Stripped(obs)[i]) == ItemOf(obs[i]) { assert obs[i] in obs; }
  }

  /** The cache after a run of evaluations of one plan. */
  function After(cases: seq<Case>): Cache {
    if cases == [] then map[]
    else
      var before := After(cases[..|cases| - 1]);
      var o := Evaluated(before, cases[|cases| - 1]);
      if o.Judged? then o.cache else before
  }

  /** A verdict once in the cache is never replaced. */
  lemma {:induction false} CacheIsWrittenOnce(cases: seq<Case>, more: seq<Case>, key: (int, Digest))
    requires key in After(cases)
    ensures key in After(cases + more) && After(cases + more)[key] == After(cases)[key]
  {
    if more == [] {
      assert cases + more == cases;
    } else {
      assert (cases + more)[..|cases + more| - 1] == cases + more[..|more| - 1];
      CacheIsWrittenOnce(cases, more[..|more| - 1], key);
    }
  }

  /** A verdict in the cache was given to some evaluation of the run, and not by a failed verifier. */
  lemma {:induction false} CachedVerdictWasGiven(cases: seq<Case>, key: (int, Digest)) returns (k: nat)
    requires key in After(cases)
    ensures k < |cases| && key == (cases[k].step.id, ObservationsDigest(cases[k].obs))
    ensures After(cases)[key] == Fresh(cases[k]).0 && Fresh(cases[k]).1
  {
    var front := cases[..|cases| - 1];
    if key in After(front) {
      k := CachedVerdictWasGiven(front, key);
    } else {
      k := |cases| - 1;
    }
  }

  /** No step identifier is shared by a step that needs a receipt and one that does not. */
  predicate LevelsAgree(cases: seq<Case>) {
    forall i, j | 0 <= i < |cases| && 0 <= j < |cases| ::
      cases[i].step.id == cases[j].step.id ==> (ToolLevel(cases[i].step) <==> ToolLevel(cases[j].step))
  }

  /** Over any run of rules, verifier answers and cache hits: no receipt, no acceptance of a tool-level
      step, provided that steps of different levels have different identifiers, and that receipts show. */
  lemma {:induction false} NoReceiptNoAcceptance(cases: seq<Case>, c: Case)
    requires LevelsAgree(cases + [c]) && ToolLevel(c.step)
    requires forall i | 0 <= i < |cases| :: Shows(cases[i].obs)
    requires Evaluated(After(cases), c).Judged? && Evaluated(After(cases), c).verdict.accepted
    ensures HasReceipt(c.obs)
  {
    var key := (c.step.id, ObservationsDigest(c.obs));
    FreshToolAcceptanceExactly(c);
    if key in After(cases) {
      var k := CachedVerdictWasGiven(cases, key);
      assert (cases + [c])[k] == cases[k] && (cases + [c])[|cases|] == c;
      FreshToolAcceptanceExactly(cases[k]);
      HiddenReceiptsExactly(cases[k].obs);
    }
  }

  /** The second condition is needed: whenever committed receipts are there and none shows, the step can be
      accepted again on the same observations without them. */
  lemma {:induction false} HiddenReceiptForgesAcceptance(step: Step, obs: seq<Observation>) returns (first: Case, second: Case)
    requires ToolLevel(step) && HasCommitted(obs) && ObservationsDigest(obs).Digest? && !Shows(obs)
    ensures first.step == second.step == step && first.obs == obs && second.obs == Stripped(obs) && !HasReceipt(second.obs)
    ensures Evaluated(After([first]), second).Judged? && Evaluated(After([first]), second).verdict.accepted
  {
    var content := "x" + step.criteria;
    first := Case(step, obs, content, false, NoAnswer);
    second := Case(step, Stripped(obs), "", false, NoAnswer);
    assert OccursAt(Lower(content), Lower(step.criteria), 1);
    FindFromIsFirst(Lower(content), Lower(step.criteria), 0, 1);
    assert IsAccepted(step, obs, content);
    StrippedIsTheSame(obs);
    assert [first][..0] == [];
    assert ObservationsDigest(second.obs) == ObservationsDigest(obs);
    assert Evaluated(map[], first).Judged?;
  }

  /** The first condition is needed: if a tool-level step shares its identifier with a step of the other level,
      text alone gets it accepted. */
  lemma {:induction false} SharedIdentifierForgesAcceptance(text: Step, tool: Step) returns (first: Case, second: Case)
    requires !ToolLevel(text) && ToolLevel(tool) && text.id == tool.id
    ensures first.step == text && second.step == tool && first.obs == [] && second.obs == []
    ensures Evaluated(After([first]), second).Judged? && Evaluated(After([first]), second).verdict.accepted
  {
    var content := "x" + text.criteria;
    first := Case(text, [], content, false, NoAnswer);
    second := Case(tool, [], "", false, NoAnswer);
    assert content[0] == 'x' && !Blank(content);
    assert OccursAt(Lower(content), Lower(text.criteria), 1);
    FindFromIsFirst(Lower(content), Lower(text.criteria), 0, 1);
    assert IsAccepted(text, [], content);
    assert [first][..0] == [];
    assert Items([]) == [] && ObservationsDigest([]) == Digest([]);
    assert Evaluated(map[], first).Judged?;
  }
}
