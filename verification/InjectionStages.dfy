/** When each stage of the token budget acts, and what it leaves: the cascade in closed form, class by class. */
module InjectionStages {
  import opened TextOps
  import opened InjectionBudget

  /** The parts with their texts cut. */
  function CutTo(parts: seq<Part>, chars: int): seq<Part> {
    seq(|parts|, i requires 0 <= i < |parts| => Part(parts[i].priority, Truncate(parts[i].text, chars)))
  }

  lemma {:induction false} CutAllIsCutTo(parts: seq<Part>, level: int, quota: nat)
    ensures Of(CutAll(parts, level, quota), level) == CutTo(Of(parts, level), quota * 4)
  {
    if parts != [] {
      var front := parts[..|parts| - 1];
      CutAllIsCutTo(front, level, quota);
      assert CutAll(parts, level, quota)[..|parts| - 1] == CutAll(front, level, quota);
    }
  }

  lemma {:induction false} ClassTotalIsTotal(parts: seq<Part>, level: int)
    ensures ClassTotal(parts, level) == Total(Of(parts, level))
  {
    if parts != [] {
      var front, last := parts[..|parts| - 1], parts[|parts| - 1];
      ClassTotalIsTotal(front, level);
      if last.priority == level {
        assert (Of(front, level) + [last])[..|Of(front, level)|] == Of(front, level);
      } else {
        assert Of(front, level) + [] == Of(front, level);
      }
    }
  }

  lemma {:induction false} WithoutTotal(parts: seq<Part>, level: int)
    ensures Total(Without(parts, level)) == Total(parts) - ClassTotal(parts, level)
  {
    if parts != [] {
      var front, last := Without(parts[..|parts| - 1], level), parts[|parts| - 1];
      WithoutTotal(parts[..|parts| - 1], level);
      if last.priority != level { assert (front + [last])[..|front|] == front; } else { assert front + [] == front; }
    }
  }

  /** The shares in numbers. */
  lemma {:induction false} SharesAre(room: int)
    ensures Quota(HISTORY, room) == (if room / 2 < 2000 then 2000 else room / 2)
    ensures Quota(MEMORY, room) == (if room * 3 / 10 < 1500 then 1500 else room * 3 / 10)
    ensures Quota(SKILLS_ACTIVE, room) == (if room * 3 / 10 < 1000 then 1000 else room * 3 / 10)
    ensures Quota(SUMMARY, room) == (if room * 4 / 5 < 1000 then 1000 else room * 4 / 5)
  {
  }

  /** The class cut to its share of the room that the others leave in a prompt of `total` tokens. */
  function CutClass(before: seq<Part>, level: int, total: int): seq<Part>
    requires Trimmable(level)
  {
    CutTo(Of(before, level), 4 * Quota(level, BUDGET - (total - ClassTotal(before, level))))
  }

  /** What the prompt has once the class stands as it does in the output. */
  function Left(before: seq<Part>, out: seq<Part>, level: int, total: int): int {
    total - ClassTotal(before, level) + ClassTotal(out, level)
  }

  /** A class that can be cut. */
  type Level = k: int | Trimmable(k) witness SUMMARY

  predicate Distinct(levels: seq<Level>) {
    forall i, j | 0 <= i < j < |levels| :: levels[i] != levels[j]
  }

  /** Class after class: as it was if the prompt fits, with the classes before it as they stand in the
      output; else cut to its share. */
  ghost predicate CutInOrder(before: seq<Part>, out: seq<Part>, levels: seq<Level>, total: int)
    decreases |levels|
  {
    levels == [] ||
    (&& Of(out, levels[0]) == (if total <= BUDGET then Of(before, levels[0]) else CutClass(before, levels[0], total))
     && CutInOrder(before, out, levels[1..], Left(before, out, levels[0], total)))
  }

  const CASCADE: seq<Level> := [HISTORY, MEMORY, SKILLS_ACTIVE, SUMMARY]

  function Cascade(ps: seq<Part>, levels: seq<Level>): seq<Part>
    decreases |levels|
  {
    if levels == [] || Total(ps) <= BUDGET then ps else Cascade(Trimmed(ps, levels[0]), levels[1..])
  }

  lemma {:induction false} SameClass(a: seq<Part>, b: seq<Part>, level: int)
    requires Of(a, level) == Of(b, level)
    ensures ClassTotal(a, level) == ClassTotal(b, level)
  {
    ClassTotalIsTotal(a, level);
    ClassTotalIsTotal(b, level);
  }

  lemma {:induction false} StageShares(before: seq<Part>, ps: seq<Part>, level: int)
    requires Trimmable(level) && Of(ps, level) == Of(before, level)
    ensures Of(Trimmed(ps, level), level) == CutClass(before, level, Total(ps))
  {
    SameClass(ps, before, level);
    TotalSplits(ps, level);
    CutAllIsCutTo(ps, level, Quota(level, BUDGET - OtherTotal(ps, level)));
  }

  lemma {:induction false} StageTotal(ps: seq<Part>, level: int)
    requires Trimmable(level)
    ensures Total(Trimmed(ps, level)) == Left(ps, Trimmed(ps, level), level, Total(ps))
  {
    TotalSplits(ps, level);
    TotalSplits(Trimmed(ps, level), level);
    CutKeepsSums(ps, level, Quota(level, BUDGET - OtherTotal(ps, level)), CRITICAL);
  }

  /** The room that is left depends on nothing but the class itself. */
  lemma {:induction false} LeftSame(before: seq<Part>, after: seq<Part>, a: seq<Part>, b: seq<Part>, level: int, total: int)
    requires Of(before, level) == Of(a, level) && Of(after, level) == Of(b, level)
    ensures Left(before, after, level, total) == Left(a, b, level, total)
  {
    SameClass(before, a, level);
    SameClass(after, b, level);
  }

  lemma {:induction false} StageKeepsOthers(ps: seq<Part>, level: int)
    requires Trimmable(level)
    ensures forall k | k != level :: Of(Trimmed(ps, level), k) == Of(ps, k)
  {
    forall k | k != level ensures Of(Trimmed(ps, level), k) == Of(ps, k) { TrimmedKeeps(ps, level, k); }
  }

  ghost predicate SameClasses(a: seq<Part>, b: seq<Part>, levels: seq<Level>) {
    forall k | k in levels :: Of(a, k) == Of(b, k)
  }

  lemma {:induction false} FittingIsInOrder(before: seq<Part>, out: seq<Part>, levels: seq<Level>, total: int)
    requires SameClasses(out, before, levels) && total <= BUDGET
    ensures CutInOrder(before, out, levels, total)
    decreases |levels|
  {
    if levels != [] {
      SameClass(out, before, levels[0]);
      FittingIsInOrder(before, out, levels[1..], total);
    }
  }

  /** What is in none of the classes of the cascade stays. */
  lemma {:induction false} CascadeKeeps(ps: seq<Part>, levels: seq<Level>, other: int)
    requires other !in levels
    ensures Of(Cascade(ps, levels), other) == Of(ps, other)
    decreases |levels|
  {
    if levels != [] && Total(ps) > BUDGET {
      TrimmedKeeps(ps, levels[0], other);
      CascadeKeeps(Trimmed(ps, levels[0]), levels[1..], other);
    }
  }

  lemma {:induction false} CutNext(before: seq<Part>, out: seq<Part>, levels: seq<Level>, total: int, next: int)
    requires levels != [] && total > BUDGET && Of(out, levels[0]) == CutClass(before, levels[0], total)
    requires next == Left(before, out, levels[0], total) && CutInOrder(before, out, levels[1..], next)
    ensures CutInOrder(before, out, levels, total)
  {
  }

  lemma {:induction false} RestIsSame(before: seq<Part>, ps: seq<Part>, r: seq<Part>, levels: seq<Level>)
    requires levels != [] && Distinct(levels) && SameClasses(ps, before, levels)
    requires forall k | k != levels[0] :: Of(r, k) == Of(ps, k)
    ensures levels[0] !in levels[1..] && Distinct(levels[1..]) && SameClasses(r, before, levels[1..])
  {
  }

  lemma {:induction false} CascadeCutsInOrder(before: seq<Part>, ps: seq<Part>, levels: seq<Level>)
    requires Distinct(levels) && SameClasses(ps, before, levels)
    ensures CutInOrder(before, Cascade(ps, levels), levels, Total(ps))
    decreases |levels|
  {
    if levels == [] || Total(ps) <= BUDGET {
      if levels != [] { FittingIsInOrder(before, ps, levels, Total(ps)); }
    } else {
      var r := Trimmed(ps, levels[0]);
      StageShares(before, ps, levels[0]);
      StageTotal(ps, levels[0]);
      StageKeepsOthers(ps, levels[0]);
      RestIsSame(before, ps, r, levels);
      CascadeCutsInOrder(before, r, levels[1..]);
      var out := Cascade(r, levels[1..]);
      CascadeKeeps(r, levels[1..], levels[0]);
      LeftSame(before, out, ps, r, levels[0], Total(ps));
      CutNext(before, out, levels, Total(ps), Total(r));
    }
  }

  lemma {:induction false} CascadeCons(ps: seq<Part>, level: Level, rest: seq<Level>)
    ensures Cascade(ps, [level] + rest) == if Total(ps) <= BUDGET then ps else Cascade(Trimmed(ps, level), rest)
  {
    assert ([level] + rest)[1..] == rest;
  }

  lemma {:induction false} TrimmedIsCascade(b: seq<Part>)
    requires Total(b) > BUDGET
    ensures TrimmedInOrder(b) == Cascade(b, CASCADE)
  {
    var h := Trimmed(b, HISTORY);
    var m := Trimmed(h, MEMORY);
    CascadeCons(b, HISTORY, [MEMORY, SKILLS_ACTIVE, SUMMARY]);
    CascadeCons(h, MEMORY, [SKILLS_ACTIVE, SUMMARY]);
    CascadeCons(m, SKILLS_ACTIVE, [SUMMARY]);
    CascadeCons(Trimmed(m, SKILLS_ACTIVE), SUMMARY, []);
  }

  lemma {:induction false} BareTotals(parts: seq<Part>)
    ensures Total(Without(parts, NOTES)) == Total(parts) - ClassTotal(parts, NOTES)
    ensures Total(Bare(parts)) == Total(parts) - ClassTotal(parts, NOTES) - ClassTotal(parts, LISTS)
  {
    WithoutTotal(parts, NOTES);
    WithoutTotal(Without(parts, NOTES), LISTS);
    WithoutKeepsOthers(parts, NOTES, LISTS);
    SameClass(Without(parts, NOTES), parts, LISTS);
  }

  lemma {:induction false} EnforcedIsCascade(parts: seq<Part>)
    requires Total(Without(parts, NOTES)) > BUDGET && Total(parts) > BUDGET
    ensures Enforced(parts) == Cascade(Bare(parts), CASCADE)
  {
    if Total(Bare(parts)) > BUDGET { TrimmedIsCascade(Bare(parts)); }
  }

  /** `total` is what the prompt has, `notes` and `lists` what the two droppable classes have of it. */
  ghost predicate Acts(parts: seq<Part>, out: seq<Part>, levels: seq<Level>, total: int, notes: int, lists: int) {
    && Of(out, NOTES) == (if total <= BUDGET then Of(parts, NOTES) else [])
    && Of(out, LISTS) == (if total - notes <= BUDGET then Of(parts, LISTS) else [])
    && CutInOrder(parts, out, levels, total - notes - lists)
  }

  /** What becomes of each class: it is dropped if and only if the prompt is over the budget without the
      classes before it, and cut if and only if it is over the budget with those as they stand in the output. */
  ghost predicate ActsExactly(parts: seq<Part>, out: seq<Part>) {
    Acts(parts, out, CASCADE, Total(parts), ClassTotal(parts, NOTES), ClassTotal(parts, LISTS))
  }

  lemma {:induction false} Fitting(parts: seq<Part>, levels: seq<Level>, total: int, notes: nat, lists: nat)
    requires total <= BUDGET
    ensures Acts(parts, parts, levels, total, notes, lists)
  {
    FittingIsInOrder(parts, parts, levels, total - notes - lists);
  }

  lemma {:induction false} FittingWithoutNotes(parts: seq<Part>, levels: seq<Level>, total: int, notes: nat, lists: nat)
    requires total - notes <= BUDGET < total
    ensures Acts(parts, Without(parts, NOTES), levels, total, notes, lists)
  {
    var n := Without(parts, NOTES);
    WithoutKeepsOthers(parts, NOTES, LISTS);
    forall k | k in levels ensures Of(n, k) == Of(parts, k) { WithoutKeepsOthers(parts, NOTES, k); }
    FittingIsInOrder(parts, n, levels, total - notes - lists);
  }

  lemma {:induction false} BareIsSame(parts: seq<Part>, levels: seq<Level>)
    ensures SameClasses(Bare(parts), parts, levels)
  {
    forall k | k in levels ensures Of(Bare(parts), k) == Of(parts, k) { BareKeeps(parts, k); }
  }

  lemma {:induction false} BareIsBare(parts: seq<Part>, levels: seq<Level>)
    ensures Of(Cascade(Bare(parts), levels), NOTES) == [] && Of(Cascade(Bare(parts), levels), LISTS) == []
  {
    BareKeeps(parts, NOTES);
    BareKeeps(parts, LISTS);
    CascadeKeeps(Bare(parts), levels, NOTES);
    CascadeKeeps(Bare(parts), levels, LISTS);
  }

  lemma {:induction false} Cutting(parts: seq<Part>, out: seq<Part>, levels: seq<Level>, total: int, notes: nat, lists: nat)
    requires total - notes > BUDGET && Of(out, NOTES) == [] && Of(out, LISTS) == []
    requires CutInOrder(parts, out, levels, total - notes - lists)
    ensures Acts(parts, out, levels, total, notes, lists)
  {
  }

  lemma {:induction false} CuttingBare(parts: seq<Part>, levels: seq<Level>, total: int, notes: nat, lists: nat)
    requires total - notes > BUDGET && Distinct(levels) && Total(Bare(parts)) == total - notes - lists
    ensures Acts(parts, Cascade(Bare(parts), levels), levels, total, notes, lists)
  {
    BareIsSame(parts, levels);
    BareIsBare(parts, levels);
    CascadeCutsInOrder(parts, Bare(parts), levels);
    Cutting(parts, Cascade(Bare(parts), levels), levels, total, notes, lists);
  }

  /** The cascade acts so on any parts; a cut leaves its class a share of the room, but not less than its
      floor. */
  lemma {:induction false} StagesActExactly(parts: seq<Part>)
    ensures ActsExactly(parts, Enforced(parts))
  {
    var total, notes, lists := Total(parts), ClassTotal(parts, NOTES), ClassTotal(parts, LISTS);
    BareTotals(parts);
    if total <= BUDGET {
      Fitting(parts, CASCADE, total, notes, lists);
    } else if total - notes <= BUDGET {
      FittingWithoutNotes(parts, CASCADE, total, notes, lists);
    } else {
      EnforcedIsCascade(parts);
      CuttingBare(parts, CASCADE, total, notes, lists);
    }
  }
}
