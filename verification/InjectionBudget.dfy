/** The token budget of the system prompt: a cascade that drops and truncates parts until the prompt fits. */
module InjectionBudget {
  import opened TextOps

  const BUDGET := 65_000

  const CRITICAL := 0
  const SUMMARY := 1
  const MEMORY := 2
  const HISTORY := 3
  const SKILLS_ACTIVE := 4
  const LISTS := 5     // skills list and subagents
  const NOTES := 6

  /** The smaller `priority` is, the more the part matters. */
  datatype Part = Part(priority: int, text: string)

  function Max(a: int, b: int): int { if a < b then b else a }

  function EstimateTokens(text: string): nat {
    Max(1, |text| / 4)
  }

  function Total(parts: seq<Part>): nat {
    if parts == [] then 0 else Total(parts[..|parts| - 1]) + EstimateTokens(parts[|parts| - 1].text)
  }

  /** The tokens of the parts of one class. */
  function ClassTotal(parts: seq<Part>, level: int): nat {
    if parts == [] then 0
    else ClassTotal(parts[..|parts| - 1], level)
         + if parts[|parts| - 1].priority == level then EstimateTokens(parts[|parts| - 1].text) else 0
  }

  function OtherTotal(parts: seq<Part>, level: int): nat {
    if parts == [] then 0
    else OtherTotal(parts[..|parts| - 1], level)
         + if parts[|parts| - 1].priority != level then EstimateTokens(parts[|parts| - 1].text) else 0
  }

  predicate Untouchable(priority: int) { priority < SUMMARY || NOTES < priority }

  /** The tokens of the parts that the cascade never touches. */
  function FixedTotal(parts: seq<Part>): nat {
    if parts == [] then 0
    else FixedTotal(parts[..|parts| - 1])
         + if Untouchable(parts[|parts| - 1].priority) then EstimateTokens(parts[|parts| - 1].text) else 0
  }

  function Count(parts: seq<Part>, level: int): nat {
    if parts == [] then 0
    else Count(parts[..|parts| - 1], level) + if parts[|parts| - 1].priority == level then 1 else 0
  }

  // ----- The stages -----

  function Without(parts: seq<Part>, level: int): seq<Part> {
    if parts == [] then []
    else Without(parts[..|parts| - 1], level)
         + if parts[|parts| - 1].priority != level then [parts[|parts| - 1]] else []
  }

  predicate Trimmable(level: int) { SUMMARY <= level <= SKILLS_ACTIVE }

  function Floor(level: int): nat
    requires Trimmable(level)
  {
    if level == HISTORY then 2000 else if level == MEMORY then 1500 else 1000
  }

  /** A share of what the other classes leave over, which may be negative, but not less than the floor. */
  function Quota(level: int, remaining: int): nat
    requires Trimmable(level)
  {
    var share := if level == HISTORY then remaining / 2
                 else if level == SUMMARY then remaining * 4 / 5
                 else remaining * 3 / 10;
    Max(Floor(level), share)
  }

  function Cut(p: Part, level: int, quota: nat): Part {
    if p.priority == level then Part(level, Truncate(p.text, quota * 4)) else p
  }

  function CutAll(parts: seq<Part>, level: int, quota: nat): seq<Part> {
    seq(|parts|, i requires 0 <= i < |parts| => Cut(parts[i], level, quota))
  }

  function Trimmed(parts: seq<Part>, level: int): seq<Part>
    requires Trimmable(level)
  {
    CutAll(parts, level, Quota(level, BUDGET - OtherTotal(parts, level)))
  }

  /** What is left after both kinds of lists are gone. */
  function Bare(parts: seq<Part>): seq<Part> {
    Without(Without(parts, NOTES), LISTS)
  }

  /** What the cascade does to a prompt without lists and notes. */
  function TrimmedInOrder(b: seq<Part>): seq<Part> {
    var h := Trimmed(b, HISTORY);
    if Total(h) <= BUDGET then h
    else
      var m := Trimmed(h, MEMORY);
      if Total(m) <= BUDGET then m
      else
        var a := Trimmed(m, SKILLS_ACTIVE);
        if Total(a) <= BUDGET then a else Trimmed(a, SUMMARY)
  }

  function Enforced(parts: seq<Part>): seq<Part> {
    if Total(parts) <= BUDGET then parts
    else if Total(Without(parts, NOTES)) <= BUDGET then Without(parts, NOTES)
    else if Total(Bare(parts)) <= BUDGET then Bare(parts)
    else TrimmedInOrder(Bare(parts))
  }

  // ----- The methods -----

  method DropClass(parts: seq<Part>, level: int) returns (kept: seq<Part>)
    ensures kept == Without(parts, level)
  {
    kept := [];
    for i := 0 to |parts|
      invariant kept == Without(parts[..i], level)
    {
      assert parts[..i + 1][..i] == parts[..i];
      if parts[i].priority != level { kept := kept + [parts[i]]; }
    }
    assert parts[..|parts|] == parts;
  }

  method TruncateClass(parts: seq<Part>, level: int) returns (trimmed: seq<Part>)
    requires Trimmable(level)
    ensures trimmed == Trimmed(parts, level)
  {
    var remaining := BUDGET - OtherTotal(parts, level);
    var quota := Quota(level, remaining);
    trimmed := [];
    for i := 0 to |parts|
      invariant trimmed == CutAll(parts, level, quota)[..i]
    {
      if parts[i].priority == level {
        trimmed := trimmed + [Part(parts[i].priority, Truncate(parts[i].text, quota * 4))];
      } else {
        trimmed := trimmed + [parts[i]];
      }
    }
  }

  method EnforceInjectionBudget(parts: seq<Part>) returns (out: seq<Part>)
    ensures out == Enforced(parts)
  {
    out := parts;
    if Total(out) <= BUDGET { return; }
    out := DropClass(out, NOTES);
    if Total(out) <= BUDGET { return; }
    out := DropClass(out, LISTS);
    if Total(out) <= BUDGET { return; }
    out := TruncateClass(out, HISTORY);
    if Total(out) <= BUDGET { return; }
    out := TruncateClass(out, MEMORY);
    if Total(out) <= BUDGET { return; }
    out := TruncateClass(out, SKILLS_ACTIVE);
    if Total(out) <= BUDGET { return; }
    out := TruncateClass(out, SUMMARY);
  }

  // ----- What a stage does to the sums -----

  lemma {:induction false} TotalSplits(parts: seq<Part>, level: int)
    ensures Total(parts) == OtherTotal(parts, level) + ClassTotal(parts, level)
  {
    if parts != [] { TotalSplits(parts[..|parts| - 1], level); }
  }

  lemma {:induction false} TotalByClass(parts: seq<Part>)
    ensures Total(parts) == FixedTotal(parts) + ClassTotal(parts, SUMMARY) + ClassTotal(parts, MEMORY) + ClassTotal(parts, HISTORY)
                            + ClassTotal(parts, SKILLS_ACTIVE) + ClassTotal(parts, LISTS) + ClassTotal(parts, NOTES)
  {
    if parts != [] { TotalByClass(parts[..|parts| - 1]); }
  }

  lemma {:induction false} WithoutKeepsSums(parts: seq<Part>, level: int, other: int)
    requires !Untouchable(level) && other != level
    ensures ClassTotal(Without(parts, level), level) == 0
    ensures ClassTotal(Without(parts, level), other) == ClassTotal(parts, other)
    ensures Count(Without(parts, level), other) == Count(parts, other)
    ensures FixedTotal(Without(parts, level)) == FixedTotal(parts)
  {
    if parts != [] {
      var front := Without(parts[..|parts| - 1], level);
      WithoutKeepsSums(parts[..|parts| - 1], level, other);
      if parts[|parts| - 1].priority != level {
        assert (front + [parts[|parts| - 1]])[..|front|] == front;
      } else {
        assert front + [] == front;
      }
    }
  }

  lemma {:induction false} CutKeepsSums(parts: seq<Part>, level: int, quota: nat, other: int)
    requires !Untouchable(level) && other != level
    ensures ClassTotal(CutAll(parts, level, quota), other) == ClassTotal(parts, other)
    ensures OtherTotal(CutAll(parts, level, quota), level) == OtherTotal(parts, level)
    ensures FixedTotal(CutAll(parts, level, quota)) == FixedTotal(parts)
  {
    if parts != [] {
      assert CutAll(parts, level, quota)[..|parts| - 1] == CutAll(parts[..|parts| - 1], level, quota);
      CutKeepsSums(parts[..|parts| - 1], level, quota, other);
    }
  }

  lemma {:induction false} CutKeepsCount(parts: seq<Part>, level: int, quota: nat, other: int)
    ensures Count(CutAll(parts, level, quota), other) == Count(parts, other)
  {
    if parts != [] {
      assert CutAll(parts, level, quota)[..|parts| - 1] == CutAll(parts[..|parts| - 1], level, quota);
      CutKeepsCount(parts[..|parts| - 1], level, quota, other);
    }
  }

  lemma {:induction false} CutBounds(parts: seq<Part>, level: int, quota: nat)
    requires quota > 0
    ensures ClassTotal(CutAll(parts, level, quota), level) <= Count(parts, level) * (quota + 4)
  {
    if parts != [] {
      var front := parts[..|parts| - 1];
      assert CutAll(parts, level, quota)[..|parts| - 1] == CutAll(front, level, quota);
      CutBounds(front, level, quota);
      assert (Count(front, level) + 1) * (quota + 4) == Count(front, level) * (quota + 4) + (quota + 4);
    }
  }

  lemma {:induction false} CutBoundsClass(parts: seq<Part>, level: int, quota: nat)
    requires Count(parts, level) <= 1 && quota > 0
    ensures ClassTotal(CutAll(parts, level, quota), level) <= quota + 4
  {
    CutBounds(parts, level, quota);
    if Count(parts, level) == 0 { assert Count(parts, level) * (quota + 4) == 0; }
  }

  /** A stage either brings the prompt into the budget or leaves its class at its floor: a quota above
      the floor is a share of the room that is left. */
  lemma {:induction false} StageSettles(parts: seq<Part>, level: int)
    requires Trimmable(level) && Count(parts, level) <= 1 && Total(Trimmed(parts, level)) > BUDGET
    ensures Trimmed(parts, level) == CutAll(parts, level, Floor(level))
    ensures ClassTotal(Trimmed(parts, level), level) <= Floor(level) + 4
  {
    var remaining := BUDGET - OtherTotal(parts, level);
    var quota := Quota(level, remaining);
    CutBoundsClass(parts, level, quota);
    CutKeepsSums(parts, level, quota, CRITICAL);
    TotalSplits(Trimmed(parts, level), level);
  }

  // ----- The bound -----

  /** As the system prompt is built: at most one part of each class that can be truncated. */
  predicate OnePerClass(parts: seq<Part>) {
    && Count(parts, SUMMARY) <= 1 && Count(parts, MEMORY) <= 1
    && Count(parts, HISTORY) <= 1 && Count(parts, SKILLS_ACTIVE) <= 1
  }

  lemma {:induction false} BareSums(parts: seq<Part>)
    ensures FixedTotal(Bare(parts)) == FixedTotal(parts)
    ensures ClassTotal(Bare(parts), NOTES) == 0 && ClassTotal(Bare(parts), LISTS) == 0
    ensures OnePerClass(parts) ==> OnePerClass(Bare(parts))
  {
    var a := Without(parts, NOTES);
    forall k | k in {SUMMARY, MEMORY, HISTORY, SKILLS_ACTIVE} ensures Count(Bare(parts), k) == Count(parts, k) {
      WithoutKeepsSums(parts, NOTES, k);
      WithoutKeepsSums(a, LISTS, k);
    }
    WithoutKeepsSums(parts, NOTES, CRITICAL);
    WithoutKeepsSums(a, LISTS, NOTES);
  }

  /** What a truncating stage leaves alone. */
  lemma {:induction false} TrimmedSums(parts: seq<Part>, level: int, other: int)
    requires Trimmable(level) && other != level
    ensures ClassTotal(Trimmed(parts, level), other) == ClassTotal(parts, other)
    ensures FixedTotal(Trimmed(parts, level)) == FixedTotal(parts)
    ensures OnePerClass(parts) ==> OnePerClass(Trimmed(parts, level))
  {
    var quota := Quota(level, BUDGET - OtherTotal(parts, level));
    CutKeepsSums(parts, level, quota, other);
    CutKeepsCount(parts, level, quota, SUMMARY);
    CutKeepsCount(parts, level, quota, MEMORY);
    CutKeepsCount(parts, level, quota, HISTORY);
    CutKeepsCount(parts, level, quota, SKILLS_ACTIVE);
  }

  /** A class that has been through its stage, in a prompt that is still over the budget. */
  ghost predicate Floored(parts: seq<Part>, level: int)
    requires Trimmable(level)
  {
    ClassTotal(parts, level) <= Floor(level) + 4
  }

  lemma {:induction false} NextStage(parts: seq<Part>, level: int, other: int)
    requires Trimmable(level) && Trimmable(other) && level != other && OnePerClass(parts)
    requires Total(Trimmed(parts, level)) > BUDGET
    ensures var r := Trimmed(parts, level);
            && OnePerClass(r) && FixedTotal(r) == FixedTotal(parts) && Floored(r, level)
            && ClassTotal(r, other) == ClassTotal(parts, other)
            && ClassTotal(r, LISTS) == ClassTotal(parts, LISTS) && ClassTotal(r, NOTES) == ClassTotal(parts, NOTES)
  {
    StageSettles(parts, level);
    TrimmedSums(parts, level, other);
    TrimmedSums(parts, level, LISTS);
    TrimmedSums(parts, level, NOTES);
  }

  /** If the prompt is still over the budget at the end, every class is at its floor. */
  lemma {:induction false} ExhaustedCascade(parts: seq<Part>)
    requires OnePerClass(parts) && Total(Enforced(parts)) > BUDGET
    ensures var out := Enforced(parts);
            && FixedTotal(out) == FixedTotal(parts) && ClassTotal(out, LISTS) == 0 && ClassTotal(out, NOTES) == 0
            && Floored(out, HISTORY) && Floored(out, MEMORY) && Floored(out, SKILLS_ACTIVE) && Floored(out, SUMMARY)
  {
    var b := Bare(parts);
    BareSums(parts);
    var h := Trimmed(b, HISTORY);
    NextStage(b, HISTORY, MEMORY);
    var m := Trimmed(h, MEMORY);
    NextStage(h, MEMORY, HISTORY);
    var a := Trimmed(m, SKILLS_ACTIVE);
    NextStage(m, SKILLS_ACTIVE, HISTORY);
    NextStage(m, SKILLS_ACTIVE, MEMORY);
    NextStage(a, SUMMARY, HISTORY);
    NextStage(a, SUMMARY, MEMORY);
    NextStage(a, SUMMARY, SKILLS_ACTIVE);
  }

  /** The prompt fits the budget, or it exceeds what can never be cut by at most 5516 tokens: the four
      floors and four truncation suffixes. */
  lemma {:induction false} BudgetHolds(parts: seq<Part>)
    requires OnePerClass(parts)
    ensures Total(Enforced(parts)) <= Max(BUDGET, FixedTotal(parts) + 5500 + 4 * 4)
  {
    if Total(Enforced(parts)) > BUDGET {
      ExhaustedCascade(parts);
      TotalByClass(Enforced(parts));
    }
  }

  /** The largest quota that a class can get: its share of the whole budget. */
  function Ceiling(level: int): nat
    requires Trimmable(level)
  {
    Quota(level, BUDGET)
  }

  /** Each part of a class has the ceiling of its class for itself. */
  function Ceilings(parts: seq<Part>, level: int): nat
    requires Trimmable(level)
  {
    Count(parts, level) * (Ceiling(level) + 4)
  }

  lemma {:induction false} Scale(n: nat, a: nat, b: nat)
    requires a <= b
    ensures n * (a + 4) <= n * (b + 4)
  {
    assert n * (b + 4) == n * (a + 4) + n * (b - a);
  }

  lemma {:induction false} QuotaIsCapped(level: int, remaining: int)
    requires Trimmable(level) && remaining <= BUDGET
    ensures 0 < Quota(level, remaining) <= Ceiling(level)
  {
  }

  lemma {:induction false} StageBounds(parts: seq<Part>, level: int)
    requires Trimmable(level)
    ensures ClassTotal(Trimmed(parts, level), level) <= Ceilings(parts, level)
  {
    var remaining := BUDGET - OtherTotal(parts, level);
    QuotaIsCapped(level, remaining);
    CutBounds(parts, level, Quota(level, remaining));
    Scale(Count(parts, level), Quota(level, remaining), Ceiling(level));
  }

  lemma {:induction false} StageCaps(parts: seq<Part>, level: int, other: int)
    requires Trimmable(level) && other != level
    ensures var r := Trimmed(parts, level);
            && ClassTotal(r, other) == ClassTotal(parts, other)
            && FixedTotal(r) == FixedTotal(parts) && Count(r, level) == Count(parts, level) && Count(r, other) == Count(parts, other)
  {
    var quota := Quota(level, BUDGET - OtherTotal(parts, level));
    CutKeepsSums(parts, level, quota, other);
    CutKeepsCount(parts, level, quota, level);
    CutKeepsCount(parts, level, quota, other);
  }

  lemma {:induction false} BareCeilings(parts: seq<Part>, level: int)
    requires Trimmable(level)
    ensures Ceilings(Bare(parts), level) == Ceilings(parts, level)
  {
    WithoutKeepsSums(parts, NOTES, level);
    WithoutKeepsSums(Without(parts, NOTES), LISTS, level);
  }

  /** All four truncating stages. */
  function AllTrimmed(b: seq<Part>): seq<Part> {
    Trimmed(Trimmed(Trimmed(Trimmed(b, HISTORY), MEMORY), SKILLS_ACTIVE), SUMMARY)
  }

  lemma {:induction false} OverBudgetMeansAll(parts: seq<Part>)
    requires Total(Enforced(parts)) > BUDGET
    ensures Enforced(parts) == AllTrimmed(Bare(parts))
  {
  }

  /** What the four stages leave of each class. */
  lemma {:induction false} StagesCap(b: seq<Part>)
    ensures var r := AllTrimmed(b);
            && FixedTotal(r) == FixedTotal(b)
            && ClassTotal(r, LISTS) == ClassTotal(b, LISTS) && ClassTotal(r, NOTES) == ClassTotal(b, NOTES)
            && ClassTotal(r, HISTORY) <= Ceilings(b, HISTORY) && ClassTotal(r, MEMORY) <= Ceilings(b, MEMORY)
            && ClassTotal(r, SKILLS_ACTIVE) <= Ceilings(b, SKILLS_ACTIVE) && ClassTotal(r, SUMMARY) <= Ceilings(b, SUMMARY)
  {
    var h := Trimmed(b, HISTORY);
    var m := Trimmed(h, MEMORY);
    var a := Trimmed(m, SKILLS_ACTIVE);
    forall k | k != HISTORY ensures ClassTotal(h, k) == ClassTotal(b, k) && Count(h, k) == Count(b, k) { StageCaps(b, HISTORY, k); }
    forall k | k != MEMORY ensures ClassTotal(m, k) == ClassTotal(h, k) && Count(m, k) == Count(h, k) { StageCaps(h, MEMORY, k); }
    forall k | k != SKILLS_ACTIVE ensures ClassTotal(a, k) == ClassTotal(m, k) && Count(a, k) == Count(m, k) { StageCaps(m, SKILLS_ACTIVE, k); }
    forall k | k != SUMMARY ensures ClassTotal(Trimmed(a, SUMMARY), k) == ClassTotal(a, k) { StageCaps(a, SUMMARY, k); }
    StageBounds(b, HISTORY);
    StageBounds(h, MEMORY);
    StageBounds(m, SKILLS_ACTIVE);
    StageBounds(a, SUMMARY);
    StageCaps(b, HISTORY, NOTES);
    StageCaps(h, MEMORY, NOTES);
    StageCaps(m, SKILLS_ACTIVE, NOTES);
    StageCaps(a, SUMMARY, NOTES);
  }

  lemma {:induction false} CapOfSum(parts: seq<Part>, out: seq<Part>)
    requires out == AllTrimmed(Bare(parts))
    ensures Total(out) <= FixedTotal(parts) + Ceilings(parts, HISTORY) + Ceilings(parts, MEMORY)
                          + Ceilings(parts, SKILLS_ACTIVE) + Ceilings(parts, SUMMARY)
  {
    BareSums(parts);
    BareCeilings(parts, HISTORY);
    BareCeilings(parts, MEMORY);
    BareCeilings(parts, SKILLS_ACTIVE);
    BareCeilings(parts, SUMMARY);
    StagesCap(Bare(parts));
    TotalByClass(out);
  }

  /** Whatever parts there are, the prompt fits or exceeds what can never be cut by no more than the
      ceilings of its parts. */
  lemma {:induction false} AnyPromptIsBounded(parts: seq<Part>)
    ensures Total(Enforced(parts))
            <= Max(BUDGET, FixedTotal(parts) + Ceilings(parts, HISTORY) + Ceilings(parts, MEMORY)
                           + Ceilings(parts, SKILLS_ACTIVE) + Ceilings(parts, SUMMARY))
  {
    if Total(Enforced(parts)) > BUDGET {
      OverBudgetMeansAll(parts);
      CapOfSum(parts, AllTrimmed(Bare(parts)));
    }
  }

  function Filler(n: nat): string {
    seq(n, _ => 'x')
  }

  lemma {:induction false} SingleSums(p: Part, level: int)
    ensures Total([p]) == EstimateTokens(p.text)
    ensures OtherTotal([p], level) == if p.priority == level then 0 else EstimateTokens(p.text)
    ensures Without([p], level) == if p.priority == level then [] else [p]
    ensures !Untouchable(p.priority) ==> FixedTotal([p]) == 0
  {
    var one := [p];
    assert one[..|one| - 1] == [];
  }

  lemma {:induction false} PairSums(p: Part, level: int)
    ensures Total([p, p]) == 2 * EstimateTokens(p.text)
    ensures OtherTotal([p, p], level) == if p.priority == level then 0 else 2 * EstimateTokens(p.text)
    ensures p.priority != level ==> Without([p, p], level) == [p, p]
    ensures !Untouchable(p.priority) ==> FixedTotal([p, p]) == 0
  {
    var two := [p, p];
    assert two[..|two| - 1] == [p] && two[|two| - 1] == p;
    SingleSums(p, level);
  }

  lemma {:induction false} PairCut(p: Part, level: int, quota: nat)
    ensures CutAll([p, p], level, quota) == [Cut(p, level, quota), Cut(p, level, quota)]
    ensures p.priority != level ==> Cut(p, level, quota) == p
  {
  }

  lemma {:induction false} PairCeiling(p: Part)
    requires p.priority == HISTORY
    ensures Ceilings([p, p], HISTORY) == 65_008
  {
    var two, one := [p, p], [p];
    assert two[..|two| - 1] == one && one[..|one| - 1] == [];
    assert Count(one, HISTORY) == 1;
  }

  lemma {:induction false} PairTrimmed(p: Part, r: Part)
    requires p == Part(HISTORY, Filler(160_000)) && r == Cut(p, HISTORY, 32_500)
    ensures Total([p, p]) > BUDGET && Trimmed([p, p], HISTORY) == [r, r] && Total([r, r]) == 65_008
  {
    PairSums(p, HISTORY);
    PairCut(p, HISTORY, 32_500);
    assert |r.text| == 130_016;
    PairSums(r, CRITICAL);
  }

  lemma {:induction false} PairUntouched(r: Part)
    requires r.priority == HISTORY
    ensures forall k | Trimmable(k) && k != HISTORY :: Trimmed([r, r], k) == [r, r]
  {
    forall k | Trimmable(k) && k != HISTORY ensures Trimmed([r, r], k) == [r, r] {
      PairCut(r, k, Quota(k, BUDGET - OtherTotal([r, r], k)));
    }
  }

  /** With two parts of one class each gets a share of the same room, and the sum of the ceilings is reached. */
  lemma {:induction false} TwoHistoriesExceedTheBound(p: Part)
    requires p == Part(HISTORY, Filler(160_000))
    ensures FixedTotal([p, p]) == 0 && Total(Enforced([p, p])) == 65_008 == Ceilings([p, p], HISTORY)
  {
    var r := Cut(p, HISTORY, 32_500);
    PairSums(p, NOTES);
    PairSums(p, LISTS);
    assert Bare([p, p]) == [p, p];
    PairTrimmed(p, r);
    PairUntouched(r);
    PairCeiling(p);
  }

  // ----- What is kept -----

  /** The parts of one class, in order. */
  function Of(parts: seq<Part>, level: int): seq<Part> {
    if parts == [] then []
    else Of(parts[..|parts| - 1], level) + if parts[|parts| - 1].priority == level then [parts[|parts| - 1]] else []
  }

  lemma {:induction false} WithoutKeepsOthers(parts: seq<Part>, level: int, other: int)
    requires other != level
    ensures Of(Without(parts, level), other) == Of(parts, other)
    ensures Of(Without(parts, level), level) == []
  {
    if parts != [] {
      var front := Without(parts[..|parts| - 1], level);
      WithoutKeepsOthers(parts[..|parts| - 1], level, other);
      if parts[|parts| - 1].priority != level {
        assert (front + [parts[|parts| - 1]])[..|front|] == front;
      } else {
        assert front + [] == front;
      }
    }
  }

  lemma {:induction false} CutKeepsOthers(parts: seq<Part>, level: int, quota: nat, other: int)
    requires other != level
    ensures Of(CutAll(parts, level, quota), other) == Of(parts, other)
  {
    if parts != [] {
      assert CutAll(parts, level, quota)[..|parts| - 1] == CutAll(parts[..|parts| - 1], level, quota);
      CutKeepsOthers(parts[..|parts| - 1], level, quota, other);
    }
  }

  lemma {:induction false} BareKeeps(parts: seq<Part>, level: int)
    ensures level != NOTES && level != LISTS ==> Of(Bare(parts), level) == Of(parts, level)
    ensures level == NOTES || level == LISTS ==> Of(Bare(parts), level) == []
  {
    var a := Without(parts, NOTES);
    if level == NOTES {
      WithoutKeepsOthers(parts, NOTES, LISTS);
      WithoutKeepsOthers(a, LISTS, NOTES);
    } else if level == LISTS {
      WithoutKeepsOthers(a, LISTS, NOTES);
    } else {
      WithoutKeepsOthers(parts, NOTES, level);
      WithoutKeepsOthers(a, LISTS, level);
    }
  }

  lemma {:induction false} TrimmedKeeps(parts: seq<Part>, level: int, other: int)
    requires Trimmable(level) && other != level
    ensures Of(Trimmed(parts, level), other) == Of(parts, other)
  {
    CutKeepsOthers(parts, level, Quota(level, BUDGET - OtherTotal(parts, level)), other);
  }

  /** Parts that are not for cutting come out as they went in. */
  lemma {:induction false} CriticalPartsAreKept(parts: seq<Part>, level: int)
    requires Untouchable(level)
    ensures Of(Enforced(parts), level) == Of(parts, level)
  {
    WithoutKeepsOthers(parts, NOTES, level);
    BareKeeps(parts, level);
    var h := Trimmed(Bare(parts), HISTORY);
    TrimmedKeeps(Bare(parts), HISTORY, level);
    var m := Trimmed(h, MEMORY);
    TrimmedKeeps(h, MEMORY, level);
    var a := Trimmed(m, SKILLS_ACTIVE);
    TrimmedKeeps(m, SKILLS_ACTIVE, level);
    TrimmedKeeps(a, SUMMARY, level);
    assert Enforced(parts) in {parts, Without(parts, NOTES), Bare(parts), h, m, a, Trimmed(a, SUMMARY)};
  }

  /** Something of the class was dropped or truncated. */
  predicate Touched(parts: seq<Part>, level: int) {
    Of(Enforced(parts), level) != Of(parts, level)
  }

  /** Nothing is touched while the prompt fits, and a class is touched only when every class that goes
      before it is gone or at its floor. History goes before memory, memory before active skills. */
  lemma {:induction false} LessImportantGoesFirst(parts: seq<Part>)
    requires OnePerClass(parts)
    ensures var out := Enforced(parts);
      && (Total(parts) <= BUDGET ==> out == parts)
      && (Touched(parts, LISTS) ==> Of(out, NOTES) == [])
      && (Touched(parts, HISTORY) ==> Of(out, NOTES) == [] && Of(out, LISTS) == [])
      && (Touched(parts, MEMORY) ==> Floored(out, HISTORY) && Of(out, NOTES) == [] && Of(out, LISTS) == [])
      && (Touched(parts, SKILLS_ACTIVE) ==> Floored(out, HISTORY) && Floored(out, MEMORY) && Of(out, NOTES) == [] && Of(out, LISTS) == [])
      && (Touched(parts, SUMMARY) ==> Floored(out, HISTORY) && Floored(out, MEMORY) && Floored(out, SKILLS_ACTIVE)
                                      && Of(out, NOTES) == [] && Of(out, LISTS) == [])
  {
    var n, b := Without(parts, NOTES), Bare(parts);
    if Total(n) <= BUDGET || Total(parts) <= BUDGET {
      forall k | k != NOTES ensures Of(n, k) == Of(parts, k) { WithoutKeepsOthers(parts, NOTES, k); }
    } else if Total(b) <= BUDGET {
      forall k ensures Of(b, k) == if k == NOTES || k == LISTS then [] else Of(parts, k) { BareKeeps(parts, k); }
    } else {
      TrimmingGoesInOrder(parts);
    }
  }

  /** The stages after the first, which keep what is at its floor there. */
  lemma {:induction false} LaterStages(m: seq<Part>)
    requires OnePerClass(m) && Floored(m, HISTORY) && Floored(m, MEMORY) && Total(Trimmed(m, SKILLS_ACTIVE)) > BUDGET
    ensures var r := Trimmed(Trimmed(m, SKILLS_ACTIVE), SUMMARY);
            Floored(r, HISTORY) && Floored(r, MEMORY) && Floored(r, SKILLS_ACTIVE)
  {
    var a := Trimmed(m, SKILLS_ACTIVE);
    NextStage(m, SKILLS_ACTIVE, HISTORY);
    TrimmedSums(m, SKILLS_ACTIVE, MEMORY);
    TrimmedSums(a, SUMMARY, HISTORY);
    TrimmedSums(a, SUMMARY, MEMORY);
    TrimmedSums(a, SUMMARY, SKILLS_ACTIVE);
  }

  lemma {:induction false} StagesTouchInOrder(b: seq<Part>)
    requires OnePerClass(b)
    ensures var out := TrimmedInOrder(b);
      && Of(out, NOTES) == Of(b, NOTES) && Of(out, LISTS) == Of(b, LISTS)
      && (Of(out, MEMORY) != Of(b, MEMORY) ==> Floored(out, HISTORY))
      && (Of(out, SKILLS_ACTIVE) != Of(b, SKILLS_ACTIVE) ==> Floored(out, HISTORY) && Floored(out, MEMORY))
      && (Of(out, SUMMARY) != Of(b, SUMMARY) ==> Floored(out, HISTORY) && Floored(out, MEMORY) && Floored(out, SKILLS_ACTIVE))
  {
    var h := Trimmed(b, HISTORY);
    var m := Trimmed(h, MEMORY);
    var a := Trimmed(m, SKILLS_ACTIVE);
    forall k | k != HISTORY ensures Of(h, k) == Of(b, k) { TrimmedKeeps(b, HISTORY, k); }
    forall k | k != MEMORY ensures Of(m, k) == Of(h, k) { TrimmedKeeps(h, MEMORY, k); }
    forall k | k != SKILLS_ACTIVE ensures Of(a, k) == Of(m, k) { TrimmedKeeps(m, SKILLS_ACTIVE, k); }
    forall k | k != SUMMARY ensures Of(Trimmed(a, SUMMARY), k) == Of(a, k) { TrimmedKeeps(a, SUMMARY, k); }
    if Total(h) > BUDGET {
      NextStage(b, HISTORY, MEMORY);
      TrimmedSums(h, MEMORY, HISTORY);
      if Total(m) > BUDGET {
        NextStage(h, MEMORY, HISTORY);
        TrimmedSums(m, SKILLS_ACTIVE, HISTORY);
        TrimmedSums(m, SKILLS_ACTIVE, MEMORY);
        if Total(a) > BUDGET { LaterStages(m); }
      }
    }
  }

  lemma {:induction false} TrimmingGoesInOrder(parts: seq<Part>)
    requires OnePerClass(parts)
    requires Total(parts) > BUDGET && Total(Without(parts, NOTES)) > BUDGET && Total(Bare(parts)) > BUDGET
    ensures var out := Enforced(parts);
      && Of(out, NOTES) == [] && Of(out, LISTS) == []
      && (Touched(parts, MEMORY) ==> Floored(out, HISTORY))
      && (Touched(parts, SKILLS_ACTIVE) ==> Floored(out, HISTORY) && Floored(out, MEMORY))
      && (Touched(parts, SUMMARY) ==> Floored(out, HISTORY) && Floored(out, MEMORY) && Floored(out, SKILLS_ACTIVE))
  {
    var b := Bare(parts);
    BareSums(parts);
    forall k ensures Of(b, k) == if k == NOTES || k == LISTS then [] else Of(parts, k) { BareKeeps(parts, k); }
    StagesTouchInOrder(b);
  }

  // ----- A second pass changes nothing -----

  lemma {:induction false} WithoutNothing(parts: seq<Part>, level: int)
    requires Of(parts, level) == []
    ensures Without(parts, level) == parts
  {
    if parts != [] {
      var front, last := parts[..|parts| - 1], parts[|parts| - 1];
      assert last.priority != level && Of(front, level) == [];
      WithoutNothing(front, level);
      assert front + [last] == parts;
    }
  }

  lemma {:induction false} TruncateAgain(text: string, maxChars: int)
    ensures Truncate(Truncate(text, maxChars), maxChars) == Truncate(text, maxChars)
  {
    if 0 < maxChars < |text| { assert Truncate(text, maxChars)[..maxChars] == text[..maxChars]; }
  }

  /** Every part of the class is already as short as its floor makes it. */
  predicate CutToFloor(parts: seq<Part>, level: int)
    requires Trimmable(level)
  {
    CutAll(parts, level, Floor(level)) == parts
  }

  lemma {:induction false} CutTwice(parts: seq<Part>, level: int, other: int, quota: nat)
    requires Trimmable(level)
    ensures CutToFloor(CutAll(parts, level, Floor(level)), level)
    ensures other != level && CutToFloor(parts, level) ==> CutToFloor(CutAll(parts, other, quota), level)
  {
    var once := CutAll(parts, level, Floor(level));
    forall i | 0 <= i < |parts| ensures Cut(once[i], level, Floor(level)) == once[i] {
      TruncateAgain(parts[i].text, Floor(level) * 4);
    }
    if other != level && CutToFloor(parts, level) {
      var moved := CutAll(parts, other, quota);
      forall i | 0 <= i < |parts| ensures Cut(moved[i], level, Floor(level)) == moved[i] {
        assert CutAll(parts, level, Floor(level))[i] == parts[i];
      }
    }
  }

  /** Over the budget, a class at its floor has no more than its floor for a quota. */
  lemma {:induction false} FlooredStays(parts: seq<Part>, level: int)
    requires Trimmable(level) && Total(parts) > BUDGET && Floored(parts, level) && CutToFloor(parts, level)
    ensures Trimmed(parts, level) == parts
  {
    TotalSplits(parts, level);
  }

  lemma {:induction false} ExhaustedIsCut(parts: seq<Part>)
    requires OnePerClass(parts) && Total(Enforced(parts)) > BUDGET
    ensures var out := Enforced(parts);
      CutToFloor(out, HISTORY) && CutToFloor(out, MEMORY) && CutToFloor(out, SKILLS_ACTIVE) && CutToFloor(out, SUMMARY)
  {
    var b := Bare(parts);
    BareSums(parts);
    var h := Trimmed(b, HISTORY);
    NextStage(b, HISTORY, MEMORY);
    StageSettles(b, HISTORY);
    CutTwice(b, HISTORY, HISTORY, 0);
    var m := Trimmed(h, MEMORY);
    NextStage(h, MEMORY, HISTORY);
    StageSettles(h, MEMORY);
    CutTwice(h, MEMORY, MEMORY, 0);
    CutTwice(h, HISTORY, MEMORY, Floor(MEMORY));
    var a := Trimmed(m, SKILLS_ACTIVE);
    NextStage(m, SKILLS_ACTIVE, HISTORY);
    StageSettles(m, SKILLS_ACTIVE);
    CutTwice(m, SKILLS_ACTIVE, SKILLS_ACTIVE, 0);
    CutTwice(m, HISTORY, SKILLS_ACTIVE, Floor(SKILLS_ACTIVE));
    CutTwice(m, MEMORY, SKILLS_ACTIVE, Floor(SKILLS_ACTIVE));
    StageSettles(a, SUMMARY);
    CutTwice(a, SUMMARY, SUMMARY, 0);
    CutTwice(a, HISTORY, SUMMARY, Floor(SUMMARY));
    CutTwice(a, MEMORY, SUMMARY, Floor(SUMMARY));
    CutTwice(a, SKILLS_ACTIVE, SUMMARY, Floor(SUMMARY));
  }

  /** Enforcing the budget on a prompt that has been through it leaves it as it is, also when it could
      not be brought into the budget. */
  lemma {:induction false} EnforcingIsIdempotent(parts: seq<Part>)
    requires OnePerClass(parts)
    ensures Enforced(Enforced(parts)) == Enforced(parts)
  {
    var out := Enforced(parts);
    if Total(out) > BUDGET {
      ExhaustedCascade(parts);
      ExhaustedIsCut(parts);
      TrimmingGoesInOrder(parts);
      WithoutNothing(out, NOTES);
      WithoutNothing(out, LISTS);
      FlooredStays(out, HISTORY);
      FlooredStays(out, MEMORY);
      FlooredStays(out, SKILLS_ACTIVE);
      FlooredStays(out, SUMMARY);
    }
  }

  // ----- Order -----

  /** The part itself, or its beginning, no shorter than its floor, with the suffix. */
  ghost predicate Shortened(p: Part, r: Part) {
    && r.priority == p.priority
    && (r == p || (Trimmable(p.priority)
                   && exists n :: Floor(p.priority) * 4 <= n < |p.text| && r.text == p.text[..n] + TRUNCATION_SUFFIX))
  }

  ghost predicate Aligned(kept: seq<Part>, out: seq<Part>) {
    |out| == |kept| && forall i | 0 <= i < |kept| :: Shortened(kept[i], out[i])
  }

  /** The class has not been cut yet. */
  predicate Whole(kept: seq<Part>, parts: seq<Part>, level: int) {
    |parts| == |kept| && forall i | 0 <= i < |kept| && kept[i].priority == level :: parts[i] == kept[i]
  }

  lemma {:induction false} CutAligns(kept: seq<Part>, parts: seq<Part>, level: int)
    requires Trimmable(level) && Aligned(kept, parts) && Whole(kept, parts, level)
    ensures Aligned(kept, Trimmed(parts, level))
  {
    var quota := Quota(level, BUDGET - OtherTotal(parts, level));
    var out := Trimmed(parts, level);
    forall i | 0 <= i < |kept| ensures Shortened(kept[i], out[i]) {
      assert Shortened(kept[i], parts[i]);
      if kept[i].priority == level && |kept[i].text| > quota * 4 {
        assert out[i].text == kept[i].text[..quota * 4] + TRUNCATION_SUFFIX;
      }
    }
  }

  lemma {:induction false} CutLeavesWhole(kept: seq<Part>, parts: seq<Part>, level: int, other: int)
    requires Trimmable(level) && Aligned(kept, parts) && Whole(kept, parts, other) && other != level
    ensures Whole(kept, Trimmed(parts, level), other)
  {
    assert forall i | 0 <= i < |kept| :: Shortened(kept[i], parts[i]);
  }

  lemma {:induction false} TrimmingAligns(kept: seq<Part>)
    ensures var h := Trimmed(kept, HISTORY);
            var m := Trimmed(h, MEMORY);
            var a := Trimmed(m, SKILLS_ACTIVE);
            Aligned(kept, h) && Aligned(kept, m) && Aligned(kept, a) && Aligned(kept, Trimmed(a, SUMMARY))
  {
    var h := Trimmed(kept, HISTORY);
    CutAligns(kept, kept, HISTORY);
    CutLeavesWhole(kept, kept, HISTORY, MEMORY);
    CutLeavesWhole(kept, kept, HISTORY, SKILLS_ACTIVE);
    CutLeavesWhole(kept, kept, HISTORY, SUMMARY);
    var m := Trimmed(h, MEMORY);
    CutAligns(kept, h, MEMORY);
    CutLeavesWhole(kept, h, MEMORY, SKILLS_ACTIVE);
    CutLeavesWhole(kept, h, MEMORY, SUMMARY);
    var a := Trimmed(m, SKILLS_ACTIVE);
    CutAligns(kept, m, SKILLS_ACTIVE);
    CutLeavesWhole(kept, m, SKILLS_ACTIVE, SUMMARY);
    CutAligns(kept, a, SUMMARY);
  }

  /** The parts that are not dropped stay in order, each whole or cut to a beginning of itself. */
  lemma {:induction false} OrderIsKept(parts: seq<Part>)
    ensures Aligned(parts, Enforced(parts)) || Aligned(Without(parts, NOTES), Enforced(parts)) || Aligned(Bare(parts), Enforced(parts))
  {
    assert forall ps: seq<Part> :: Aligned(ps, ps);
    TrimmingAligns(Bare(parts));
  }

  // ----- The parts of the system prompt -----

  /** What the builder reads, rendered; "" where there is nothing. In a takeover a subagent's header and
      prompt stand for the identity. */
  datatype Sources = Sources(
    takeover: bool, header: string, prompt: string, identity: string, light: bool, bootstrap: string,
    contract: string, policy: string, recall: string, notes: string, activeSkills: string, skillsList: string,
    history: string, summary: string, subagents: string)

  datatype Section = Section(wanted: bool, part: Part)

  const MAX_HISTORY_CHARS := 32_000

  function Sections(s: Sources): seq<Section> {
    [ Section(s.takeover, Part(CRITICAL, s.header)),
      Section(s.takeover, Part(CRITICAL, s.prompt)),
      Section(!s.takeover, Part(CRITICAL, s.identity)),
      Section(!s.light && s.bootstrap != "", Part(CRITICAL, s.bootstrap)),
      Section(true, Part(CRITICAL, s.contract)),
      Section(!Blank(s.policy), Part(CRITICAL, "# Shared Policy (Cross-Session)\n\n" + s.policy)),
      Section(!s.light && s.recall != "", Part(MEMORY, s.recall)),
      Section(!Blank(s.notes), Part(NOTES, "# Scratchpad Notes (notes.md)\n\n" + s.notes)),
      Section(s.activeSkills != "", Part(SKILLS_ACTIVE, "# Active Skills\n\n" + s.activeSkills)),
      Section(s.skillsList != "", Part(LISTS, s.skillsList)),
      Section(s.history != "", Part(HISTORY, "# Recent History\n\n" + Truncate(s.history, MAX_HISTORY_CHARS))),
      Section(s.summary != "", Part(SUMMARY, "[Archived Context Summary]\n\n" + s.summary)),
      Section(!s.takeover && s.subagents != "", Part(LISTS, s.subagents)) ]
  }

  function Wanted(sections: seq<Section>): seq<Part> {
    if sections == [] then []
    else Wanted(sections[..|sections| - 1])
         + if sections[|sections| - 1].wanted then [sections[|sections| - 1].part] else []
  }

  lemma {:induction false} OnlySection(sections: seq<Section>, at: nat, level: int)
    requires forall i | 0 <= i < |sections| && i != at :: sections[i].part.priority != level
    ensures Count(Wanted(sections), level) <= 1
    ensures |sections| <= at ==> Count(Wanted(sections), level) == 0
  {
    if sections != [] {
      var front, last := sections[..|sections| - 1], sections[|sections| - 1];
      OnlySection(front, at, level);
      if last.wanted {
        assert (Wanted(front) + [last.part])[..|Wanted(front)|] == Wanted(front);
      } else {
        assert Wanted(front) + [] == Wanted(front);
      }
    }
  }

  /** The list that the system prompt is made of meets the condition of the bound, so every system prompt
      fits the budget up to its critical parts and 5516 tokens. */
  lemma {:induction false} SystemPromptFits(s: Sources)
    ensures OnePerClass(Wanted(Sections(s)))
    ensures Total(Enforced(Wanted(Sections(s)))) <= Max(BUDGET, FixedTotal(Wanted(Sections(s))) + 5500 + 4 * 4)
  {
    OnlySection(Sections(s), 6, MEMORY);
    OnlySection(Sections(s), 8, SKILLS_ACTIVE);
    OnlySection(Sections(s), 10, HISTORY);
    OnlySection(Sections(s), 11, SUMMARY);
    BudgetHolds(Wanted(Sections(s)));
  }
}
