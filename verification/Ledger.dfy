/** The call ledger of a turn, and the budgets that are charged from it. */
module Ledger {
  import opened Messages

  datatype Purpose =
    Executor | Planner | Replan | Reflection | Compact | Finalization | Memory | ToolCalls | Verifier | Unclassified

  /** The numeric fields that a provider reports: token counts and, under `COST`, dollars. */
  type Usage = map<string, real>

  const COST := "cost_usd"

  datatype Record = Record(purpose: Purpose, model: string, usage: Usage)

  function Get(u: Usage, key: string): real {
    if key in u then u[key] else 0.0
  }

  /** A count with its fraction cut off, towards zero. */
  function Whole(u: Usage, key: string): int {
    var x := Get(u, key);
    if x >= 0.0 then x.Floor else -((-x).Floor)
  }

  function Added(a: Usage, b: Usage): Usage {
    map k | k in a.Keys + b.Keys :: Get(a, k) + Get(b, k)
  }

  // ----- One budget -----

  /** An entry of a price list: so much per thousand tokens in, so much per thousand out. */
  datatype Price = Price(inPer1k: real, outPer1k: real)

  function Fee(p: Price, prompt: int, completion: int): real {
    (prompt as real / 1000.0) * p.inPer1k + (completion as real / 1000.0) * p.outPer1k
  }

  datatype Limits = Limits(
    maxInput: Option<int>, maxOutput: Option<int>, maxCost: Option<real>,
    pricing: Option<map<string, Price>>, requireCost: bool)

  datatype Reason =
    | InputExceeded(used: int, max: int)
    | OutputExceeded(used: int, max: int)
    | CostUnavailable(model: string)
    | CostExceeded(spent: real, limit: real)

  /** What has been charged; `unavailable` names a model whose cost was needed and unknown. */
  datatype Account = Account(input: int, output: int, cost: real, unavailable: Option<string>)

  datatype Budget = Budget(limits: Limits, account: Account, exceeded: Option<Reason>)

  const NOTHING := Account(0, 0, 0.0, None)

  /** Cache misses stand in for the prompt when only cache counts are reported. */
  function Prompt(u: Usage): int {
    var prompt := Whole(u, "prompt_tokens");
    if Whole(u, "prompt_cache_hit_tokens") > 0 && prompt == 0 then Whole(u, "prompt_cache_miss_tokens") else prompt
  }

  function Completion(u: Usage): int { Whole(u, "completion_tokens") }

  /** The cost of one call, if it is known: as reported, or from the price list. */
  function Cost(l: Limits, r: Record): Option<real> {
    if COST in r.usage && r.usage[COST] >= 0.0 then Some(r.usage[COST])
    else if l.pricing.Some? && r.model in l.pricing.value then
      Some(Fee(l.pricing.value[r.model], Prompt(r.usage), Completion(r.usage)))
    else None
  }

  function Accumulated(l: Limits, a: Account, r: Record): Account {
    var cost := Cost(l, r);
    Account(a.input + Prompt(r.usage), a.output + Completion(r.usage),
            a.cost + if cost.Some? then cost.value else 0.0,
            if cost.None? && l.requireCost && l.maxCost.Some? then Some(r.model) else a.unavailable)
  }

  function Verdict(l: Limits, a: Account): Option<Reason> {
    if l.maxInput.Some? && a.input > l.maxInput.value then Some(InputExceeded(a.input, l.maxInput.value))
    else if l.maxOutput.Some? && a.output > l.maxOutput.value then Some(OutputExceeded(a.output, l.maxOutput.value))
    else if a.unavailable.Some? then Some(CostUnavailable(a.unavailable.value))
    else if l.maxCost.Some? && a.cost > l.maxCost.value then Some(CostExceeded(a.cost, l.maxCost.value))
    else None
  }

  function Checked(b: Budget): Budget {
    if b.exceeded.Some? then b else b.(exceeded := Verdict(b.limits, b.account))
  }

  /** What a list of calls costs a budget with these limits. */
  function Charge(l: Limits, rs: seq<Record>): Account {
    if rs == [] then NOTHING else Accumulated(l, Charge(l, rs[..|rs| - 1]), rs[|rs| - 1])
  }

  /** The verdict after the first call that breaks a limit. */
  function FirstVerdict(l: Limits, rs: seq<Record>): Option<Reason> {
    if rs == [] then None
    else if FirstVerdict(l, rs[..|rs| - 1]).Some? then FirstVerdict(l, rs[..|rs| - 1])
    else Verdict(l, Charge(l, rs))
  }

  /** The budget that is left over when the calls from `start` on are charged to it. */
  function ChargedFrom(b: Budget, rs: seq<Record>, start: nat): Budget
    requires start <= |rs|
    decreases |rs| - start
  {
    if start == |rs| then b
    else ChargedFrom(b.(account := Accumulated(b.limits, b.account, rs[start])), rs, start + 1)
  }

  class TurnBudget {
    const limits: Limits
    var usedInput: int
    var usedOutput: int
    var usedCost: real
    var costUnavailableModel: Option<string>
    var exceededReason: Option<Reason>

    constructor (limits: Limits)
      ensures this.limits == limits && Value() == Budget(limits, NOTHING, None)
    {
      this.limits := limits;
      usedInput, usedOutput, usedCost, costUnavailableModel, exceededReason := 0, 0, 0.0, None, None;
    }

    function Value(): Budget
      reads this
    {
      Budget(limits, Account(usedInput, usedOutput, usedCost, costUnavailableModel), exceededReason)
    }

    method Accumulate(r: Record)
      modifies this
      ensures Value() == old(Value()).(account := Accumulated(limits, old(Value().account), r))
    {
      var prompt := Whole(r.usage, "prompt_tokens");
      var completion := Whole(r.usage, "completion_tokens");
      var cacheHit := Whole(r.usage, "prompt_cache_hit_tokens");
      if cacheHit > 0 && prompt == 0 { prompt := Whole(r.usage, "prompt_cache_miss_tokens"); }
      usedInput := usedInput + prompt;
      usedOutput := usedOutput + completion;
      if COST in r.usage && r.usage[COST] >= 0.0 {
        usedCost := usedCost + r.usage[COST];
      } else if limits.pricing.Some? && r.model in limits.pricing.value {
        var price := limits.pricing.value[r.model];
        usedCost := usedCost + (prompt as real / 1000.0) * price.inPer1k;
        usedCost := usedCost + (completion as real / 1000.0) * price.outPer1k;
      } else if limits.requireCost && limits.maxCost.Some? {
        costUnavailableModel := Some(r.model);
      }
    }

    method Check() returns (reason: Option<Reason>)
      modifies this
      ensures Value() == Checked(old(Value())) && reason == exceededReason
    {
      if exceededReason.Some? { return exceededReason; }
      if limits.maxInput.Some? && usedInput > limits.maxInput.value {
        exceededReason := Some(InputExceeded(usedInput, limits.maxInput.value));
      } else if limits.maxOutput.Some? && usedOutput > limits.maxOutput.value {
        exceededReason := Some(OutputExceeded(usedOutput, limits.maxOutput.value));
      } else if costUnavailableModel.Some? {
        exceededReason := Some(CostUnavailable(costUnavailableModel.value));
      } else if limits.maxCost.Some? && usedCost > limits.maxCost.value {
        exceededReason := Some(CostExceeded(usedCost, limits.maxCost.value));
      }
      return exceededReason;
    }
  }

  // ----- The ledger -----

  type BudgetId = nat
  type TaskId = nat

  /** `attached` is the budget given at construction; `budgets` are all budgets that anyone has; `spent` is
      the ledger's own cost counter. */
  datatype State = State(
    total: Usage, spent: real, last: Usage, byPurpose: map<Purpose, Usage>,
    records: seq<Record>, reason: Option<Reason>,
    attached: Option<BudgetId>, indices: map<BudgetId, nat>, budgets: map<BudgetId, Budget>,
    owner: Option<TaskId>, depth: nat, everBound: bool)

  datatype Label =
    | Note(record: Record, task: TaskId, child: bool)   // child: the task may write its parent's ledger
    | Check(target: Option<BudgetId>)
    | Activate(task: TaskId)
    | Deactivate

  function Initial(attached: Option<BudgetId>, limits: map<BudgetId, Limits>): State {
    State(map[], 0.0, map[], map[], [], None, attached, map[], map b | b in limits :: Budget(limits[b], NOTHING, None), None, 0, false)
  }

  predicate Accessible(s: State, task: TaskId, child: bool) {
    !s.everBound || (s.depth > 0 && (s.owner == Some(task) || child))
  }

  function PurposeCounts(s: State, p: Purpose): Usage {
    if p in s.byPurpose then s.byPurpose[p] else map[]
  }

  function Index(s: State, b: BudgetId): nat { if b in s.indices then s.indices[b] else 0 }

  function Counted(s: State, r: Record): State {
    s.(total := Added(s.total, r.usage), spent := s.spent + Get(r.usage, COST), last := r.usage,
       byPurpose := s.byPurpose[r.purpose := Added(PurposeCounts(s, r.purpose), r.usage)],
       records := s.records + [r])
  }

  function Noted(s: State, r: Record): State {
    if s.attached.Some? && s.attached.value in s.budgets then
      var b := s.budgets[s.attached.value];
      var charged := Checked(b.(account := Accumulated(b.limits, b.account, r)));
      Counted(s, r).(budgets := s.budgets[s.attached.value := charged], reason := charged.exceeded,
                     indices := s.indices[s.attached.value := |s.records| + 1])
    else Counted(s, r).(reason := None)
  }

  function CheckedBudget(s: State, target: Option<BudgetId>): State {
    var t := if target.Some? then target else s.attached;
    if t.None? || t.value !in s.budgets || Index(s, t.value) > |s.records| then s
    else if s.reason.Some? && t == s.attached then s
    else
      var charged := Checked(ChargedFrom(s.budgets[t.value], s.records, Index(s, t.value)));
      s.(budgets := s.budgets[t.value := charged], indices := s.indices[t.value := |s.records|], reason := charged.exceeded)
  }

  function Apply(s: State, l: Label): State {
    match l
    case Note(r, task, child) => if Accessible(s, task, child) then Noted(s, r) else s
    case Check(target) => CheckedBudget(s, target)
    case Activate(task) =>
      if s.depth > 0 && s.owner != Some(task) then s
      else s.(owner := Some(task), depth := s.depth + 1, everBound := true)
    case Deactivate =>
      s.(depth := if s.depth > 0 then s.depth - 1 else 0, owner := if s.depth <= 1 then None else s.owner)
  }

  function After(start: State, labels: seq<Label>): State {
    if labels == [] then start else Apply(After(start, labels[..|labels| - 1]), labels[|labels| - 1])
  }

  // ----- Exactly-once charging -----

  function TotalOf(rs: seq<Record>, key: string): real {
    if rs == [] then 0.0 else TotalOf(rs[..|rs| - 1], key) + Get(rs[|rs| - 1].usage, key)
  }

  function PurposeTotal(rs: seq<Record>, p: Purpose, key: string): real {
    if rs == [] then 0.0
    else PurposeTotal(rs[..|rs| - 1], p, key) + if rs[|rs| - 1].purpose == p then Get(rs[|rs| - 1].usage, key) else 0.0
  }

  predicate Totals(s: State, p: Purpose, key: string) {
    && Get(s.total, key) == TotalOf(s.records, key)
    && s.spent == TotalOf(s.records, COST)
    && Get(PurposeCounts(s, p), key) == PurposeTotal(s.records, p, key)
  }

  /** The budget has been charged for exactly the first `n` calls. */
  ghost predicate ChargedFirst(b: Budget, rs: seq<Record>, n: nat) {
    n <= |rs| && b.account == Charge(b.limits, rs[..n])
  }

  /** The budget has been charged for exactly the calls before its index, the attached one for all. */
  ghost predicate ChargedOnce(s: State, b: BudgetId) {
    b in s.budgets ==>
      ChargedFirst(s.budgets[b], s.records, Index(s, b)) && (s.attached == Some(b) ==> Index(s, b) == |s.records|)
  }

  lemma {:induction false} ChargeOneMore(l: Limits, rs: seq<Record>, n: nat)
    requires n < |rs|
    ensures Charge(l, rs[..n + 1]) == Accumulated(l, Charge(l, rs[..n]), rs[n])
  {
    assert rs[..n + 1][..n] == rs[..n];
  }

  lemma {:induction false} ChargedFromMeans(b: Budget, rs: seq<Record>, start: nat)
    requires start <= |rs| && b.account == Charge(b.limits, rs[..start])
    ensures ChargedFrom(b, rs, start) == b.(account := Charge(b.limits, rs))
    decreases |rs| - start
  {
    if start < |rs| {
      ChargeOneMore(b.limits, rs, start);
      ChargedFromMeans(b.(account := Accumulated(b.limits, b.account, rs[start])), rs, start + 1);
    } else {
      assert rs[..start] == rs;
    }
  }

  lemma {:induction false} ChargeNext(b: Budget, rs: seq<Record>, r: Record)
    requires ChargedFirst(b, rs, |rs|)
    ensures ChargedFirst(Checked(b.(account := Accumulated(b.limits, b.account, r))), rs + [r], |rs| + 1)
  {
    var more := rs + [r];
    assert rs[..|rs|] == rs && more[..|more|] == more && more[..|rs|] == rs;
  }

  lemma {:induction false} NoteChargesAttached(s: State, r: Record, b: BudgetId)
    requires ChargedOnce(s, b) && s.attached == Some(b)
    ensures ChargedOnce(Noted(s, r), b)
  {
    if b in s.budgets { ChargeNext(s.budgets[b], s.records, r); }
  }

  lemma {:induction false} NoteCharges(s: State, r: Record, b: BudgetId)
    requires ChargedOnce(s, b)
    ensures ChargedOnce(Noted(s, r), b)
  {
    if s.attached == Some(b) {
      NoteChargesAttached(s, r, b);
    } else if b in s.budgets {
      var t := Noted(s, r);
      assert t.budgets[b] == s.budgets[b] && Index(t, b) == Index(s, b);
      assert t.records[..Index(s, b)] == s.records[..Index(s, b)];
    }
  }

  lemma {:induction false} CheckChargesTarget(s: State, b: BudgetId, charged: Budget)
    requires ChargedOnce(s, b) && b in s.budgets
    requires charged == Checked(ChargedFrom(s.budgets[b], s.records, Index(s, b)))
    ensures ChargedOnce(s.(budgets := s.budgets[b := charged], indices := s.indices[b := |s.records|], reason := charged.exceeded), b)
  {
    ChargedFromMeans(s.budgets[b], s.records, Index(s, b));
    assert s.records[..|s.records|] == s.records;
  }

  lemma {:induction false} CheckSparesOthers(s: State, target: Option<BudgetId>, b: BudgetId)
    requires target != Some(b) && (target.None? ==> s.attached != Some(b)) && b in s.budgets
    ensures var t := CheckedBudget(s, target);
            b in t.budgets && t.budgets[b] == s.budgets[b] && Index(t, b) == Index(s, b)
            && t.records == s.records && t.attached == s.attached
  {
  }

  lemma {:induction false} CheckCharges(s: State, target: Option<BudgetId>, b: BudgetId)
    requires ChargedOnce(s, b)
    ensures ChargedOnce(CheckedBudget(s, target), b)
  {
    if b in s.budgets {
      if target == Some(b) || (target.None? && s.attached == Some(b)) {
        CheckChargesTarget(s, b, Checked(ChargedFrom(s.budgets[b], s.records, Index(s, b))));
      } else {
        CheckSparesOthers(s, target, b);
      }
    }
  }

  lemma {:induction false} AddedGet(a: Usage, b: Usage, key: string)
    ensures Get(Added(a, b), key) == Get(a, key) + Get(b, key)
  {
  }

  lemma {:induction false} CountedPurpose(s: State, r: Record, p: Purpose)
    ensures PurposeCounts(Counted(s, r), p) == if p == r.purpose then Added(PurposeCounts(s, p), r.usage) else PurposeCounts(s, p)
  {
  }

  lemma {:induction false} CountedTotals(s: State, r: Record, p: Purpose, key: string)
    requires Totals(s, p, key)
    ensures Totals(Counted(s, r), p, key)
  {
    assert (s.records + [r])[..|s.records|] == s.records;
    CountedPurpose(s, r, p);
    AddedGet(s.total, r.usage, key);
    AddedGet(PurposeCounts(s, p), r.usage, key);
  }

  lemma {:induction false} NotedIsCounted(s: State, r: Record)
    ensures var t, c := Noted(s, r), Counted(s, r);
            t.total == c.total && t.spent == c.spent && t.byPurpose == c.byPurpose && t.records == c.records
  {
  }

  lemma {:induction false} NoteCounts(s: State, r: Record, p: Purpose, key: string)
    requires Totals(s, p, key)
    ensures Totals(Noted(s, r), p, key)
  {
    CountedTotals(s, r, p, key);
    NotedIsCounted(s, r);
  }

  /** Whatever the order of recording, checking and binding, over any set of budgets: the totals are the
      sums over the recorded calls, and each budget has been charged for exactly the calls before its
      index, each of them once; the attached budget for all of them. */
  lemma {:induction false} ChargingIsExactlyOnce(attached: Option<BudgetId>, limits: map<BudgetId, Limits>, labels: seq<Label>, b: BudgetId, p: Purpose, key: string)
    ensures var s := After(Initial(attached, limits), labels); Totals(s, p, key) && ChargedOnce(s, b)
  {
    if labels != [] {
      var s := After(Initial(attached, limits), labels[..|labels| - 1]);
      ChargingIsExactlyOnce(attached, limits, labels[..|labels| - 1], b, p, key);
      match labels[|labels| - 1]
      case Note(r, task, child) =>
        NoteCharges(s, r, b);
        NoteCounts(s, r, p, key);
      case Check(target) => CheckCharges(s, target, b);
      case _ =>
    }
  }

  /** Every call counts under exactly one purpose. */
  lemma {:induction false} PurposesPartition(rs: seq<Record>, key: string)
    ensures TotalOf(rs, key)
      == PurposeTotal(rs, Executor, key) + PurposeTotal(rs, Planner, key) + PurposeTotal(rs, Replan, key)
       + PurposeTotal(rs, Reflection, key) + PurposeTotal(rs, Compact, key) + PurposeTotal(rs, Finalization, key)
       + PurposeTotal(rs, Memory, key) + PurposeTotal(rs, ToolCalls, key) + PurposeTotal(rs, Verifier, key)
       + PurposeTotal(rs, Unclassified, key)
  {
    if rs != [] { PurposesPartition(rs[..|rs| - 1], key); }
  }

  // ----- The reason for stopping -----

  /** Only the attached budget is ever checked, as in a turn. */
  predicate OneBudget(labels: seq<Label>, attached: Option<BudgetId>) {
    forall i | 0 <= i < |labels| :: labels[i].Check? ==> labels[i].target.None? || labels[i].target == attached
  }

  /** A check before any call: limits that nothing meets, negative ones, are broken already. */
  predicate EarlyCheck(start: State, labels: seq<Label>) {
    labels != [] &&
    (EarlyCheck(start, labels[..|labels| - 1])
     || (labels[|labels| - 1].Check? && After(start, labels[..|labels| - 1]).records == []))
  }

  function Opening(l: Limits, early: bool): Option<Reason> {
    if early then Verdict(l, NOTHING) else None
  }

  /** The first verdict: before any call, if it was asked for then, or after one of them. */
  function ReasonSoFar(l: Limits, rs: seq<Record>, early: bool): Option<Reason> {
    if Opening(l, early).Some? then Opening(l, early) else FirstVerdict(l, rs)
  }

  /** With one budget the ledger's reason is the budget's, and both are the first verdict. */
  ghost predicate OwnReason(s: State, b: BudgetId, early: bool) {
    && s.attached == Some(b) && b in s.budgets && ChargedOnce(s, b)
    && s.reason == s.budgets[b].exceeded == ReasonSoFar(s.budgets[b].limits, s.records, early)
  }

  lemma {:induction false} NextReason(l: Limits, rs: seq<Record>, r: Record, early: bool)
    ensures ReasonSoFar(l, rs + [r], early)
            == if ReasonSoFar(l, rs, early).Some? then ReasonSoFar(l, rs, early) else Verdict(l, Charge(l, rs + [r]))
    ensures Charge(l, rs + [r]) == Accumulated(l, Charge(l, rs), r)
  {
    assert (rs + [r])[..|rs|] == rs;
  }

  lemma {:induction false} OwnNote(s: State, r: Record, b: BudgetId, early: bool)
    requires OwnReason(s, b, early)
    ensures OwnReason(Noted(s, r), b, early)
  {
    NoteChargesAttached(s, r, b);
    assert s.records[..|s.records|] == s.records;
    NextReason(s.budgets[b].limits, s.records, r, early);
  }

  lemma {:induction false} OwnCheck(s: State, target: Option<BudgetId>, b: BudgetId, early: bool)
    requires OwnReason(s, b, early) && (target.None? || target == Some(b))
    ensures OwnReason(CheckedBudget(s, target), b, early || s.records == [])
    ensures s.reason.Some? || s.records != [] ==> CheckedBudget(s, target).reason == s.reason
  {
    CheckCharges(s, target, b);
    assert s.records[..|s.records|] == s.records;
    if s.reason.None? { ChargedFromMeans(s.budgets[b], s.records, |s.records|); }
  }

  /** In a turn the reason is set by the first call after which a limit is broken, and stays. If a check comes
      before any call, limits that are broken by then set it at once. */
  lemma {:induction false} ReasonIsTheFirstVerdict(limits: map<BudgetId, Limits>, b: BudgetId, labels: seq<Label>)
    requires b in limits && OneBudget(labels, Some(b))
    ensures var start := Initial(Some(b), limits);
            var s, early := After(start, labels), EarlyCheck(start, labels);
            OwnReason(s, b, early) && s.budgets[b].limits == limits[b] && s.reason == ReasonSoFar(limits[b], s.records, early)
  {
    var start := Initial(Some(b), limits);
    if labels == [] {
      assert start.records[..0] == [];
    } else {
      var front := labels[..|labels| - 1];
      assert OneBudget(front, Some(b)) by { assert forall i | 0 <= i < |front| :: front[i] == labels[i]; }
      ReasonIsTheFirstVerdict(limits, b, front);
      var s, early := After(start, front), EarlyCheck(start, front);
      match labels[|labels| - 1]
      case Note(r, task, child) => OwnNote(s, r, b, early);
      case Check(target) => OwnCheck(s, target, b, early);
      case _ =>
    }
  }

  lemma {:induction false} ReasonStays(l: Limits, rs: seq<Record>, r: Record, early: bool)
    requires ReasonSoFar(l, rs, early).Some?
    ensures ReasonSoFar(l, rs + [r], early) == ReasonSoFar(l, rs, early)
  {
    NextReason(l, rs, r, early);
  }

  /** In a turn no step ever clears or changes the reason. */
  lemma {:induction false} ReasonIsSticky(limits: map<BudgetId, Limits>, b: BudgetId, labels: seq<Label>, more: seq<Label>)
    requires b in limits && OneBudget(labels + more, Some(b))
    requires After(Initial(Some(b), limits), labels).reason.Some?
    ensures After(Initial(Some(b), limits), labels + more).reason == After(Initial(Some(b), limits), labels).reason
  {
    if more == [] {
      assert labels + more == labels;
    } else {
      var front := more[..|more| - 1];
      var all := labels + front;
      assert (labels + more)[..|labels + more| - 1] == all && (labels + more)[|labels + more| - 1] == more[|more| - 1];
      assert OneBudget(all, Some(b)) by { assert forall i | 0 <= i < |all| :: all[i] == (labels + more)[i]; }
      ReasonIsSticky(limits, b, labels, front);
      ReasonIsTheFirstVerdict(limits, b, all);
      ReasonIsTheFirstVerdict(limits, b, labels + more);
      var start := Initial(Some(b), limits);
      var s := After(start, all);
      match more[|more| - 1]
      case Note(r, _, _) => ReasonStays(limits[b], s.records, r, EarlyCheck(start, all));
      case Check(target) => OwnCheck(s, target, b, EarlyCheck(start, all));
      case _ =>
    }
  }

  /** Whether a step writes the reason: a record that is let in, and a check that is not answered from it. */
  predicate Rules(s: State, l: Label) {
    match l
    case Note(_, task, child) => Accessible(s, task, child)
    case Check(target) =>
      var t := if target.Some? then target else s.attached;
      t.Some? && t.value in s.budgets && !(s.reason.Some? && t == s.attached)
    case _ => false
  }

  /** What a step makes of a reason that is `b`'s verdict. */
  function JudgeAfter(s: State, l: Label, b: Option<BudgetId>): Option<BudgetId> {
    if !Rules(s, l) then b
    else if l.Check? && l.target.Some? then l.target
    else if s.attached.Some? && s.attached.value in s.budgets then s.attached
    else None
  }

  /** The budget that was last charged or asked, if the last step that wrote the reason had one. */
  function Judge(start: State, labels: seq<Label>): Option<BudgetId> {
    if labels == [] then None
    else JudgeAfter(After(start, labels[..|labels| - 1]), labels[|labels| - 1], Judge(start, labels[..|labels| - 1]))
  }

  ghost predicate Judged(s: State, b: Option<BudgetId>) {
    if b.Some? then b.value in s.budgets && s.reason == s.budgets[b.value].exceeded else s.reason.None?
  }

  lemma {:induction false} CheckIsJudged(s: State, target: Option<BudgetId>, b: Option<BudgetId>)
    requires Judged(s, b)
    requires var t := if target.Some? then target else s.attached; t.Some? ==> ChargedOnce(s, t.value)
    ensures Judged(CheckedBudget(s, target), JudgeAfter(s, Check(target), b))
  {
  }

  lemma {:induction false} NoteIsJudged(s: State, r: Record, task: TaskId, child: bool, b: Option<BudgetId>)
    requires Judged(s, b)
    ensures Judged(Apply(s, Note(r, task, child)), JudgeAfter(s, Note(r, task, child), b))
  {
  }

  /** Over any run and any budgets the reason is the verdict of the budget that was last charged or asked,
      whosever it is. */
  lemma {:induction false} ReasonIsTheLastVerdict(attached: Option<BudgetId>, limits: map<BudgetId, Limits>, labels: seq<Label>)
    ensures var start := Initial(attached, limits); Judged(After(start, labels), Judge(start, labels))
  {
    if labels != [] {
      var start, front := Initial(attached, limits), labels[..|labels| - 1];
      ReasonIsTheLastVerdict(attached, limits, front);
      var s := After(start, front);
      match labels[|labels| - 1]
      case Note(r, task, child) => NoteIsJudged(s, r, task, child, Judge(start, front));
      case Check(target) =>
        var t := if target.Some? then target else s.attached;
        if t.Some? { ChargingIsExactlyOnce(attached, limits, front, t.value, Executor, COST); }
        CheckIsJudged(s, target, Judge(start, front));
      case _ =>
    }
  }

  /** A check of another budget leaves its verdict in the place of the attached budget's. */
  lemma {:induction false} ForeignCheckReplacesReason(s: State, b: BudgetId)
    requires b in s.budgets && s.attached != Some(b) && ChargedOnce(s, b)
    ensures CheckedBudget(s, Some(b)).attached == s.attached
    ensures s.attached.Some? && s.attached.value in s.budgets ==>
              s.attached.value in CheckedBudget(s, Some(b)).budgets
              && CheckedBudget(s, Some(b)).budgets[s.attached.value] == s.budgets[s.attached.value]
    ensures CheckedBudget(s, Some(b)).reason
            == Checked(s.budgets[b].(account := Charge(s.budgets[b].limits, s.records))).exceeded
  {
    ChargedFromMeans(s.budgets[b], s.records, Index(s, b));
  }

  const UNLIMITED := Limits(None, None, None, None, false)
  const TEN := Limits(Some(10), None, None, None, false)
  const TWELVE := Record(Executor, "m", map["prompt_tokens" := 12.0])

  lemma {:induction false} ChargeTwelve(l: Limits)
    requires l.pricing.None? && !l.requireCost
    ensures Charge(l, [TWELVE]) == Account(12, 0, 0.0, None)
  {
    assert [TWELVE][..0] == [];
  }

  /** One call has been recorded, and only the attached budget 0 has been charged for it. */
  ghost predicate OneCall(s: State, own: Limits, other: Limits) {
    && s.records == [TWELVE] && s.attached == Some(0) && s.indices == map[0 := 1] && s.budgets.Keys == {0, 1}
    && s.budgets[0] == Checked(Budget(own, Account(12, 0, 0.0, None), None)) && s.reason == s.budgets[0].exceeded
    && s.budgets[1] == Budget(other, NOTHING, None)
  }

  ghost predicate Reachable(s: State, limits: map<BudgetId, Limits>) {
    exists labels :: s == After(Initial(Some(0), limits), labels)
  }

  lemma {:induction false} ReachTwelve(own: Limits, other: Limits) returns (s: State)
    requires own.pricing.None? && !own.requireCost
    ensures OneCall(s, own, other) && Reachable(s, map[0 := own, 1 := other])
  {
    var start, labels := Initial(Some(0), map[0 := own, 1 := other]), [Note(TWELVE, 0, false)];
    s := Noted(start, TWELVE);
    assert s == After(start, labels) by { assert labels[..0] == []; }
    assert Accumulated(own, NOTHING, TWELVE) == Account(12, 0, 0.0, None);
    assert [] + [TWELVE] == [TWELVE];
  }

  lemma {:induction false} ForeignCheck(s: State, own: Limits, other: Limits)
    requires OneCall(s, own, other) && other.pricing.None? && !other.requireCost
    ensures var t := CheckedBudget(s, Some(1));
            && t.reason == Verdict(other, Account(12, 0, 0.0, None))
            && t.attached == s.attached && 0 in t.budgets && t.budgets[0] == s.budgets[0]
  {
    assert s.records[..0] == [];
    ChargeTwelve(other);
    ForeignCheckReplacesReason(s, 1);
  }

  /** With two budgets the reason can be lost: the attached budget is exceeded, the other is not. */
  lemma {:induction false} ForeignCheckCanClearReason() returns (s: State)
    ensures Reachable(s, map[0 := TEN, 1 := UNLIMITED])
    ensures s.reason.Some? && Apply(s, Check(Some(1))).reason.None?
  {
    s := ReachTwelve(TEN, UNLIMITED);
    ForeignCheck(s, TEN, UNLIMITED);
  }

  /** And the attached budget can be reported as exceeded because the other one is. */
  lemma {:induction false} ForeignReasonCanStopTheTurn() returns (s: State)
    ensures Reachable(s, map[0 := UNLIMITED, 1 := TEN])
    ensures var t := Apply(s, Check(Some(1)));
            0 in t.budgets && t.budgets[0].exceeded.None? && Apply(t, Check(None)).reason.Some?
  {
    s := ReachTwelve(UNLIMITED, TEN);
    ForeignCheck(s, UNLIMITED, TEN);
  }

  // ----- The main loop of the runner -----

  /** `Spend` is any call made elsewhere in the turn (planner, compaction, a tool's own calls); `Gate` is
      the budget check; `Request` is the loop's own model call, which comes directly after a gate that
      let it through. */
  datatype Event = Spend(record: Record) | Gate | Request(record: Record)

  datatype Loop = Loop(ledger: State, open: bool, stopped: bool)

  predicate Possible(s: Loop, e: Event) {
    match e
    case Spend(_) => true
    case Gate => !s.stopped
    case Request(_) => s.open && !s.stopped
  }

  function Advance(s: Loop, e: Event): Loop {
    match e
    case Spend(r) => s.(ledger := Noted(s.ledger, r), open := false)
    case Request(r) => s.(ledger := Noted(s.ledger, r), open := false)
    case Gate =>
      var checked := CheckedBudget(s.ledger, None);
      s.(ledger := checked, open := checked.reason.None?, stopped := checked.reason.Some?)
  }

  ghost predicate Turn(start: State, states: seq<Loop>, events: seq<Event>) {
    && |states| == |events| + 1
    && states[0] == Loop(start, false, false)
    && forall k | 0 <= k < |events| :: Possible(states[k], events[k]) && states[k + 1] == Advance(states[k], events[k])
  }

  /** One of the first `k` events is a gate before any call. */
  predicate GatedEarly(states: seq<Loop>, events: seq<Event>, k: nat)
    requires k <= |events| <= |states|
  {
    k > 0 && (GatedEarly(states, events, k - 1) || (events[k - 1].Gate? && states[k - 1].ledger.records == []))
  }

  lemma {:induction false} TurnKeepsReason(limits: map<BudgetId, Limits>, b: BudgetId, states: seq<Loop>, events: seq<Event>, k: nat)
    requires b in limits && Turn(Initial(Some(b), limits), states, events) && k < |states|
    ensures OwnReason(states[k].ledger, b, GatedEarly(states, events, k)) && states[k].ledger.budgets[b].limits == limits[b]
    ensures states[k].open ==> states[k].ledger.reason.None?
    ensures k > 0 && states[k - 1].ledger.reason.Some? ==> states[k].ledger.reason.Some?
  {
    if k == 0 {
      assert states[0].ledger.records[..0] == [];
    } else {
      TurnKeepsReason(limits, b, states, events, k - 1);
      var s, early := states[k - 1].ledger, GatedEarly(states, events, k - 1);
      match events[k - 1]
      case Spend(r) =>
        OwnNote(s, r, b, early);
        if s.reason.Some? { ReasonStays(limits[b], s.records, r, early); }
      case Request(r) => OwnNote(s, r, b, early);
      case Gate => OwnCheck(s, None, b, early);
    }
  }

  lemma {:induction false} ReasonPersists(limits: map<BudgetId, Limits>, b: BudgetId, states: seq<Loop>, events: seq<Event>, i: nat, j: nat)
    requires b in limits && Turn(Initial(Some(b), limits), states, events) && i <= j < |states|
    requires states[i].ledger.reason.Some?
    ensures states[j].ledger.reason.Some?
    decreases j
  {
    if i < j {
      ReasonPersists(limits, b, states, events, i, j - 1);
      assert j > 0 && states[j - 1].ledger.reason.Some?;
      TurnKeepsReason(limits, b, states, events, j);
    }
  }

  /** Once the calls of a turn have broken a limit, or a gate before any call found one broken, its main loop
      makes no further model call. */
  lemma {:induction false} NoRequestAfterTheBudget(limits: map<BudgetId, Limits>, b: BudgetId, states: seq<Loop>, events: seq<Event>, i: nat, j: nat)
    requires b in limits && Turn(Initial(Some(b), limits), states, events) && i <= j < |events|
    requires ReasonSoFar(limits[b], states[i].ledger.records, GatedEarly(states, events, i)).Some?
    ensures !events[j].Request?
  {
    TurnKeepsReason(limits, b, states, events, i);
    ReasonPersists(limits, b, states, events, i, j);
    TurnKeepsReason(limits, b, states, events, j);
    assert Possible(states[j], events[j]);
  }

  // ----- The ledger object -----

  class CallLedger {
    const budget: TurnBudget?
    var totalUsage: Usage
    var costUsd: real
    var lastCallUsage: Usage
    var purposeUsage: map<Purpose, Usage>
    var records: seq<Record>
    var budgetExceededReason: Option<Reason>
    var budgetIndices: map<TurnBudget, nat>
    var owner: Option<TaskId>
    var bindingDepth: nat
    var everBound: bool

    constructor (budget: TurnBudget?)
      ensures this.budget == budget && records == [] && totalUsage == map[] && costUsd == 0.0 && purposeUsage == map[]
      ensures budgetExceededReason.None? && budgetIndices == map[] && !everBound && bindingDepth == 0 && owner.None?
    {
      this.budget := budget;
      totalUsage, costUsd, lastCallUsage, purposeUsage, records := map[], 0.0, map[], map[], [];
      budgetExceededReason, budgetIndices, owner, bindingDepth, everBound := None, map[], None, 0, false;
    }

    /** The budget has been charged for exactly the calls before its index; the attached one for all. */
    ghost predicate ChargedFor(b: TurnBudget)
      reads this, b
    {
      var n := if b in budgetIndices then budgetIndices[b] else 0;
      n <= |records| && b.Value().account == Charge(b.limits, records[..n]) && (b == budget ==> n == |records|)
    }

    predicate IsAccessible(task: TaskId, child: bool)
      reads this
    {
      !everBound || (bindingDepth > 0 && (owner == Some(task) || child))
    }

    /** The attached budget is charged at once; every other budget keeps its index and its charge. */
    method RecordCall(r: Record, task: TaskId, child: bool)
      requires budget != null ==> ChargedFor(budget)
      modifies this, budget
      ensures budget != null ==> ChargedFor(budget)
      ensures !old(IsAccessible(task, child)) ==>
                records == old(records) && totalUsage == old(totalUsage) && costUsd == old(costUsd) && purposeUsage == old(purposeUsage)
                && budgetIndices == old(budgetIndices)
                && budgetExceededReason == old(budgetExceededReason) && (budget != null ==> budget.Value() == old(budget.Value()))
      ensures old(IsAccessible(task, child)) ==>
                && records == old(records) + [r] && lastCallUsage == r.usage
                && budgetIndices == (if budget == null then old(budgetIndices) else old(budgetIndices)[budget := |records|])
                && totalUsage == Added(old(totalUsage), r.usage) && costUsd == old(costUsd) + Get(r.usage, COST)
                && (var before := if r.purpose in old(purposeUsage) then old(purposeUsage)[r.purpose] else map[];
                    purposeUsage == old(purposeUsage)[r.purpose := Added(before, r.usage)])
                && budgetExceededReason == (if budget == null then None else budget.exceededReason)
                && (budget != null ==>
                      budget.exceededReason == Checked(Budget(budget.limits, Charge(budget.limits, records), old(budget.exceededReason))).exceeded)
    {
      if !IsAccessible(task, child) { return; }
      CountUsage(r);
      records := records + [r];
      if budget != null {
        assert old(records)[..|old(records)|] == old(records) == records[..|records| - 1];
        ChargeLast();
        assert records[..|records|] == records;
      } else {
        budgetExceededReason := None;
      }
    }

    method CountUsage(r: Record)
      modifies this`lastCallUsage, this`totalUsage, this`costUsd, this`purposeUsage
      ensures lastCallUsage == r.usage && totalUsage == Added(old(totalUsage), r.usage)
      ensures costUsd == old(costUsd) + Get(r.usage, COST)
      ensures var before := if r.purpose in old(purposeUsage) then old(purposeUsage)[r.purpose] else map[];
              purposeUsage == old(purposeUsage)[r.purpose := Added(before, r.usage)]
    {
      lastCallUsage := r.usage;
      totalUsage := Added(totalUsage, r.usage);
      if COST in r.usage { costUsd := costUsd + r.usage[COST]; }
      if r.purpose !in purposeUsage { purposeUsage := purposeUsage[r.purpose := map[]]; }
      purposeUsage := purposeUsage[r.purpose := Added(purposeUsage[r.purpose], r.usage)];
    }

    method ChargeLast()
      requires budget != null && records != []
      requires budget.Value().account == Charge(budget.limits, records[..|records| - 1])
      modifies this`budgetExceededReason, this`budgetIndices, budget
      ensures budget.Value() == Checked(Budget(budget.limits, Charge(budget.limits, records), old(budget.exceededReason)))
      ensures budgetExceededReason == budget.exceededReason && budgetIndices == old(budgetIndices)[budget := |records|]
    {
      assert records[..|records|] == records;
      ChargeOneMore(budget.limits, records, |records| - 1);
      budget.Accumulate(records[|records| - 1]);
      budgetExceededReason := budget.Check();
      budgetIndices := budgetIndices[budget := |records|];
    }

    /** Charges the calls that the budget has not seen yet, and asks for its verdict. */
    method CheckBudget(target: TurnBudget?) returns (reason: Option<Reason>)
      requires target != null ==> ChargedFor(target)
      requires budget != null ==> ChargedFor(budget)
      modifies this`budgetExceededReason, this`budgetIndices, if target == null then budget else target
      ensures target != null ==> ChargedFor(target)
      ensures budget != null ==> ChargedFor(budget)
      ensures target == null && budget == null ==> reason.None? && budgetExceededReason == old(budgetExceededReason)
      ensures (target == null || target == budget) && budget != null && old(budgetExceededReason).Some? ==>
                reason == budgetExceededReason == old(budgetExceededReason) && budget.Value() == old(budget.Value())
      ensures var t := if target == null then budget else target;
              t != null && !(t == budget && old(budgetExceededReason).Some?) ==>
                && reason == budgetExceededReason == t.exceededReason
                && t.Value() == Checked(Budget(t.limits, Charge(t.limits, records), old(t.exceededReason)))
    {
      var t := if target == null then budget else target;
      if t == null { return None; }
      if budgetExceededReason.Some? && t == budget { return budgetExceededReason; }
      var start := if t in budgetIndices then budgetIndices[t] else 0;
      for i := start to |records|
        invariant t.Value() == Budget(t.limits, Charge(t.limits, records[..i]), old(t.exceededReason))
        modifies t
      {
        ChargeOneMore(t.limits, records, i);
        t.Accumulate(records[i]);
      }
      assert records[..|records|] == records;
      budgetIndices := budgetIndices[t := |records|];
      budgetExceededReason := t.Check();
      return budgetExceededReason;
    }

    /** Binding: one task at a time, nested bindings of that task included. */
    method Activate(task: TaskId) returns (ok: bool)
      modifies this`owner, this`bindingDepth, this`everBound
      ensures ok <==> old(bindingDepth) == 0 || old(owner) == Some(task)
      ensures ok ==> owner == Some(task) && bindingDepth == old(bindingDepth) + 1 && everBound
      ensures !ok ==> owner == old(owner) && bindingDepth == old(bindingDepth) && everBound == old(everBound)
    {
      if bindingDepth > 0 && owner != Some(task) { return false; }
      owner, bindingDepth, everBound := Some(task), bindingDepth + 1, true;
      return true;
    }

    method Deactivate()
      modifies this`owner, this`bindingDepth
      ensures bindingDepth == (if old(bindingDepth) > 0 then old(bindingDepth) - 1 else 0)
      ensures owner == if old(bindingDepth) <= 1 then None else old(owner)
    {
      bindingDepth := if bindingDepth > 0 then bindingDepth - 1 else 0;
      if bindingDepth == 0 { owner := None; }
    }
  }
}
