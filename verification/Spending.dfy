/** What a turn may spend: the ledger's reason in terms of the calls that were recorded. */
module Spending {
  import opened Messages
  import opened Ledger

  /** The prompt of one call: cache misses, if only cache counts are reported. */
  function Input(u: Usage): int {
    if Whole(u, "prompt_tokens") == 0 && Whole(u, "prompt_cache_hit_tokens") > 0
    then Whole(u, "prompt_cache_miss_tokens") else Whole(u, "prompt_tokens")
  }

  /** A cost is reported, or the price list has the model. */
  predicate Priced(l: Limits, r: Record) {
    Reported(r) || (l.pricing.Some? && r.model in l.pricing.value)
  }

  predicate Reported(r: Record) { "cost_usd" in r.usage && r.usage["cost_usd"] >= 0.0 }

  function Dollars(l: Limits, r: Record): real {
    if Reported(r) then r.usage["cost_usd"]
    else if !Priced(l, r) then 0.0
    else
      var price := l.pricing.value[r.model];
      (Input(r.usage) as real / 1000.0) * price.inPer1k
      + (Whole(r.usage, "completion_tokens") as real / 1000.0) * price.outPer1k
  }

  function InputTotal(rs: seq<Record>): int {
    if rs == [] then 0 else InputTotal(rs[..|rs| - 1]) + Input(rs[|rs| - 1].usage)
  }

  function OutputTotal(rs: seq<Record>): int {
    if rs == [] then 0 else OutputTotal(rs[..|rs| - 1]) + Whole(rs[|rs| - 1].usage, "completion_tokens")
  }

  function DollarTotal(l: Limits, rs: seq<Record>): real {
    if rs == [] then 0.0 else DollarTotal(l, rs[..|rs| - 1]) + Dollars(l, rs[|rs| - 1])
  }

  /** The cost of each call is needed. */
  predicate NeedsCost(l: Limits) { l.requireCost && l.maxCost.Some? }

  /** No limit is broken by these calls. */
  predicate Within(l: Limits, rs: seq<Record>) {
    && (l.maxInput.Some? ==> InputTotal(rs) <= l.maxInput.value)
    && (l.maxOutput.Some? ==> OutputTotal(rs) <= l.maxOutput.value)
    && (l.maxCost.Some? ==> DollarTotal(l, rs) <= l.maxCost.value)
    && (NeedsCost(l) ==> forall r | r in rs :: Priced(l, r))
  }

  /** The reason names the limit that was broken, with what was spent. */
  predicate Names(l: Limits, rs: seq<Record>, reason: Reason) {
    match reason
    case InputExceeded(used, max) => l.maxInput == Some(max) && used == InputTotal(rs) > max
    case OutputExceeded(used, max) =>
      && l.maxOutput == Some(max) && used == OutputTotal(rs) > max
      && (l.maxInput.Some? ==> InputTotal(rs) <= l.maxInput.value)
    case CostUnavailable(model) => NeedsCost(l) && exists r :: r in rs && r.model == model && !Priced(l, r)
    case CostExceeded(spent, limit) =>
      && l.maxCost == Some(limit) && spent == DollarTotal(l, rs) > limit
      && (NeedsCost(l) ==> forall r | r in rs :: Priced(l, r))
  }

  lemma {:induction false} OneCharge(l: Limits, a: Account, r: Record)
    ensures var b := Accumulated(l, a, r);
            && b.input == a.input + Input(r.usage) && b.output == a.output + Whole(r.usage, "completion_tokens")
            && b.cost == a.cost + Dollars(l, r)
            && b.unavailable == if NeedsCost(l) && !Priced(l, r) then Some(r.model) else a.unavailable
  {
  }

  /** What a budget has been charged is the sum over the calls. */
  lemma {:induction false} ChargeIsSum(l: Limits, rs: seq<Record>)
    ensures var a := Charge(l, rs);
            && a.input == InputTotal(rs) && a.output == OutputTotal(rs) && a.cost == DollarTotal(l, rs)
            && (a.unavailable.None? <==> (NeedsCost(l) ==> forall r | r in rs :: Priced(l, r)))
            && (a.unavailable.Some? ==> NeedsCost(l) && exists r :: r in rs && r.model == a.unavailable.value && !Priced(l, r))
  {
    if rs != [] {
      var front, last := rs[..|rs| - 1], rs[|rs| - 1];
      ChargeIsSum(l, front);
      OneCharge(l, Charge(l, front), last);
      assert last in rs && (forall r | r in rs :: r == last || r in front) && (forall r | r in front :: r in rs);
    }
  }

  lemma {:induction false} VerdictExactly(l: Limits, rs: seq<Record>)
    ensures var v := Verdict(l, Charge(l, rs)); (v.None? <==> Within(l, rs)) && (v.Some? ==> Names(l, rs, v.value))
  {
    ChargeIsSum(l, rs);
  }

  /** The first verdict is about the shortest beginning that breaks a limit. */
  lemma {:induction false} FirstVerdictExactly(l: Limits, rs: seq<Record>)
    ensures FirstVerdict(l, rs).None? <==> forall n | 0 < n <= |rs| :: Within(l, rs[..n])
    ensures FirstVerdict(l, rs).Some? ==>
              exists n | 0 < n <= |rs| ::
                Names(l, rs[..n], FirstVerdict(l, rs).value) && forall k | 0 < k < n :: Within(l, rs[..k])
  {
    if rs != [] {
      var front := rs[..|rs| - 1];
      FirstVerdictExactly(l, front);
      assert forall n | 0 < n < |rs| :: front[..n] == rs[..n];
      assert rs[..|rs|] == rs;
      VerdictExactly(l, rs);
      if FirstVerdict(l, front).Some? {
        var n :| 0 < n <= |front| && Names(l, front[..n], FirstVerdict(l, front).value) && forall k | 0 < k < n :: Within(l, front[..k]);
        assert Names(l, rs[..n], FirstVerdict(l, rs).value);
        assert !(forall n | 0 < n <= |front| :: Within(l, front[..n]));
      } else if FirstVerdict(l, rs).Some? {
        assert Names(l, rs[..|rs|], FirstVerdict(l, rs).value);
      }
    }
  }

  /** In a turn there is no reason to stop, if and only if no beginning of the calls breaks a limit, nor did
      none at all when a check came before any. */
  lemma {:induction false} NoReasonExactly(limits: map<BudgetId, Limits>, b: BudgetId, labels: seq<Label>)
    requires b in limits && OneBudget(labels, Some(b))
    ensures var start := Initial(Some(b), limits);
            var s := After(start, labels);
            s.reason.None? <==>
              && (forall n | 0 < n <= |s.records| :: Within(limits[b], s.records[..n]))
              && (EarlyCheck(start, labels) ==> Within(limits[b], []))
  {
    var start := Initial(Some(b), limits);
    ReasonIsTheFirstVerdict(limits, b, labels);
    FirstVerdictExactly(limits[b], After(start, labels).records);
    VerdictExactly(limits[b], []);
    assert Charge(limits[b], []) == NOTHING;
  }
}
