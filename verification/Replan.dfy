/** Replanning within a turn: how often a plan can be replaced, and what of it survives. */
module Replan {
  import opened Messages
  import opened Sublists

  datatype Status = Pending | InProgress | Completed | Failed | Skipped

  datatype Step = Step(id: int, action: string, status: Status)

  /** The limit of a plan unless the turn is configured otherwise. */
  const MAX_REPLANS: nat := 3

  datatype Plan = Plan(goal: string, steps: seq<Step>, replanCount: nat, maxReplans: nat)

  /** What the planner model answers: nothing, something that is no plan (an object may still have a goal),
      or steps. */
  datatype Response = NoResponse | Unusable(stated: Option<string>) | Proposed(goal: string, steps: seq<Step>)

  function CompletedSteps(steps: seq<Step>): seq<Step> {
    if steps == [] then []
    else CompletedSteps(steps[..|steps| - 1])
         + if steps[|steps| - 1].status.Completed? then [steps[|steps| - 1]] else []
  }

  predicate CanReplan(p: Plan) { p.replanCount < p.maxReplans }

  /** Parsed plans have at least one step, and none has begun. */
  predicate Usable(steps: seq<Step>) {
    steps != [] && forall i | 0 <= i < |steps| :: steps[i].status.Pending?
  }

  function FallbackPlan(goal: string): Plan {
    Plan(goal, [Step(1, goal, Pending)], 0, MAX_REPLANS)
  }

  /** `kept` is the plan handed in, after the call; `result` is what the call returns. */
  datatype Outcome = Outcome(kept: Plan, result: Plan, valid: bool)

  function Replanned(p: Plan, task: string, r: Response): Outcome {
    if !CanReplan(p) then Outcome(p, p, false)
    else
      var counted := p.(replanCount := p.replanCount + 1);
      match r
      case NoResponse => Outcome(counted, counted, false)
      case Unusable(stated) =>
        Outcome(counted, FallbackPlan(if stated.Some? then stated.value else task).(replanCount := counted.replanCount, maxReplans := p.maxReplans), false)
      case Proposed(goal, steps) =>
        Outcome(counted, Plan(goal, CompletedSteps(p.steps) + steps, counted.replanCount, p.maxReplans), true)
  }

  class PlanObject {
    var goal: string
    var steps: seq<Step>
    var replanCount: nat
    var maxReplans: nat

    constructor (goal: string, steps: seq<Step>)
      ensures Value() == Plan(goal, steps, 0, MAX_REPLANS)
    {
      this.goal, this.steps, replanCount, maxReplans := goal, steps, 0, MAX_REPLANS;
    }

    function Value(): Plan
      reads this
    {
      Plan(goal, steps, replanCount, maxReplans)
    }
  }

  method CollectCompleted(steps: seq<Step>) returns (done: seq<Step>)
    ensures done == CompletedSteps(steps)
  {
    done := [];
    for i := 0 to |steps|
      invariant done == CompletedSteps(steps[..i])
    {
      assert steps[..i + 1][..i] == steps[..i];
      if steps[i].status.Completed? { done := done + [steps[i]]; }
    }
    assert steps[..|steps|] == steps;
  }

  /** The planner's call; the plan handed in is charged, and the answer is a plan of its own if there is one. */
  method ReplanCall(plan: PlanObject, task: string, r: Response) returns (result: PlanObject, valid: bool)
    modifies plan
    ensures var o := Replanned(old(plan.Value()), task, r);
            plan.Value() == o.kept && result.Value() == o.result && valid == o.valid
    ensures result == plan || fresh(result)
  {
    if plan.replanCount >= plan.maxReplans { return plan, false; }
    plan.replanCount := plan.replanCount + 1;
    match r
    case NoResponse => return plan, false;
    case Unusable(stated) =>
      var goal := if stated.Some? then stated.value else task;
      result := new PlanObject(goal, [Step(1, goal, Pending)]);
      result.replanCount, result.maxReplans := plan.replanCount, plan.maxReplans;
      valid := false;
    case Proposed(goal, steps) =>
      result := new PlanObject(goal, steps);
      result.replanCount, result.maxReplans := plan.replanCount, plan.maxReplans;
      var history := CollectCompleted(plan.steps);
      result.steps := history + result.steps;
      valid := true;
  }

  // ----- A turn -----

  /** `iterations` is the limit of the turn's loop, and `used` how many of them have ended in a replan call,
      an activation, or otherwise. `limit` is configured for plans of the planner; `planner` says whether the
      turn has one. `calls` counts replan calls and activations over a plan, `drops` how often the turn lost
      its plan. */
  datatype State = State(
    iterations: nat, used: nat, limit: nat, plan: Option<Plan>, planner: bool, escalated: bool, over: bool, calls: nat, drops: nat)

  datatype Label =
    | Work(steps: seq<Step>)                     // step statuses move on
    | Iterate                                    // an iteration without any of the following
    | NoProgress(task: string, r: Response)      // the progress policy asks for a new plan
    /** A tool failed for good; `drained` when waiting messages keep a turn going that would end. */
    | FatalError(task: string, r: Response, drained: bool)
    | ActivatePlan(goal: string, steps: seq<Step>)
    | Escalate(goal: string, steps: seq<Step>)   // a turn without a plan becomes a managed one

  /** Steps get done; only a fatal error makes one fail. */
  predicate Progressed(a: seq<Step>, b: seq<Step>) {
    |a| == |b| && forall i | 0 <= i < |a| ::
      && a[i].id == b[i].id && a[i].action == b[i].action
      && (a[i].status.Completed? ==> b[i].status.Completed?) && (b[i].status.Failed? ==> a[i].status.Failed?)
  }

  function Failures(steps: seq<Step>): nat {
    if steps == [] then 0 else Failures(steps[1..]) + if steps[0].status.Failed? then 1 else 0
  }

  /** So many failed steps of a plan end the turn. */
  const MAX_FAILURES: nat := 2

  predicate Unfinished(steps: seq<Step>) {
    exists i :: 0 <= i < |steps| && (steps[i].status.Pending? || steps[i].status.InProgress?)
  }

  /** The first step that is not over, as failed. */
  function FailCurrent(steps: seq<Step>): seq<Step> {
    if steps == [] then []
    else if steps[0].status.Pending? || steps[0].status.InProgress? then [steps[0].(status := Failed)] + steps[1..]
    else [steps[0]] + FailCurrent(steps[1..])
  }

  predicate Proper(r: Response) { r.Proposed? ==> Usable(r.steps) }

  /** Each of these ends an iteration of the loop. */
  predicate EndsIteration(l: Label) { l.Iterate? || l.NoProgress? || l.FatalError? || l.ActivatePlan? }

  predicate Enabled(s: State, l: Label) {
    !s.over && (EndsIteration(l) ==> s.used < s.iterations) &&
    match l
    case Work(steps) => s.plan.Some? && Progressed(s.plan.value.steps, steps)
    case Iterate => true
    case NoProgress(_, r) => s.plan.Some? && Unfinished(s.plan.value.steps) && Proper(r)
    case FatalError(_, r, _) => s.plan.Some? && Unfinished(s.plan.value.steps) && Proper(r)
    case ActivatePlan(_, steps) => Usable(steps)
    case Escalate(_, steps) => s.plan.None? && !s.escalated && Usable(steps)
  }

  function Apply(s: State, l: Label): State
    requires Enabled(s, l)
  {
    Changed(s, l).(used := if EndsIteration(l) then s.used + 1 else s.used)
  }

  /** What a step does apart from the count of iterations. */
  function Changed(s: State, l: Label): State
    requires Enabled(s, l)
  {
    match l
    case Work(steps) => s.(plan := Some(s.plan.value.(steps := steps)))
    case Iterate => s
    case NoProgress(task, r) =>
      // a turn without a planner that may replan fails at the call
      if !s.planner || !CanReplan(s.plan.value) then s.(over := true)
      else
        var o := Replanned(s.plan.value, task, r);
        s.(plan := Some(if o.valid then o.result else o.kept), calls := s.calls + 1)
    case FatalError(task, r, drained) =>
      if !s.planner then s.(over := !drained)
      else
        var failed := s.plan.value.(steps := FailCurrent(s.plan.value.steps));
        if Failures(failed.steps) >= MAX_FAILURES || !CanReplan(failed) then s.(plan := Some(failed), over := !drained)
        else
          var o := Replanned(failed, task, r);
          if o.valid then s.(plan := Some(o.result), calls := s.calls + 1)
          else s.(plan := None, calls := s.calls + 1, drops := s.drops + 1)
    case ActivatePlan(goal, steps) =>
      if s.plan.None? then s.(plan := Some(Plan(goal, steps, 0, MAX_REPLANS)))
      else if !CanReplan(s.plan.value) then s
      else s.(plan := Some(Plan(goal, steps, s.plan.value.replanCount + 1, s.plan.value.maxReplans)), calls := s.calls + 1)
    case Escalate(goal, steps) => s.(plan := Some(Plan(goal, steps, 0, s.limit)), planner := true, escalated := true)
  }

  /** A turn begins with a plan and a planner, or with neither. */
  predicate Start(s: State) {
    && !s.over && s.used == 0 && s.calls == 0 && s.drops == 0 && (s.planner <==> s.plan.Some?)
    && (s.plan.Some? ==>
          s.plan.value.replanCount == 0 && s.plan.value.maxReplans == s.limit && Usable(s.plan.value.steps))
  }

  predicate Run(states: seq<State>, labels: seq<Label>) {
    && |states| == |labels| + 1
    && Start(states[0])
    && forall k | 0 <= k < |labels| :: Enabled(states[k], labels[k]) && states[k + 1] == Apply(states[k], labels[k])
  }

  // ----- Replanning ends -----

  function Room(s: State): nat {
    if s.plan.Some? && CanReplan(s.plan.value) then s.plan.value.maxReplans - s.plan.value.replanCount else 0
  }

  function Most(s: State): nat { if s.limit < MAX_REPLANS then MAX_REPLANS else s.limit }

  /** No plan is over its limit, and each loss of the plan allows at most `Most` calls more. */
  predicate Invariant(s: State) {
    && s.calls <= s.used <= s.iterations
    && (s.plan.Some? ==> s.plan.value.replanCount <= s.plan.value.maxReplans <= Most(s))
    && (s.plan.Some? ==> s.calls + Room(s) <= Most(s) * (s.drops + 1))
    && (s.plan.None? ==> s.calls <= Most(s) * s.drops)
  }

  lemma {:induction false} StepKeeps(s: State, l: Label)
    requires Invariant(s) && Enabled(s, l)
    ensures Invariant(Apply(s, l)) && Apply(s, l).limit == s.limit && Apply(s, l).iterations == s.iterations
  {
    if l.FatalError? { FatalKeeps(s, l); } else if l.NoProgress? || l.ActivatePlan? { CallsKeep(s, l); } else { OthersKeep(s, l); }
  }

  /** What these two steps do to calls and room. */
  lemma {:induction false} CallsAndRoom(s: State, l: Label)
    requires Invariant(s) && Enabled(s, l) && (l.NoProgress? || l.ActivatePlan?)
    ensures var t := Apply(s, l);
            && t.drops == s.drops && t.limit == s.limit && t.iterations == s.iterations
            && t.calls <= t.used <= t.iterations && t.plan.Some?
            && t.plan.value.replanCount <= t.plan.value.maxReplans <= Most(s)
            && t.calls + Room(t) <= s.calls + if s.plan.Some? then Room(s) else MAX_REPLANS
  {
  }

  lemma {:induction false} CallsKeep(s: State, l: Label)
    requires Invariant(s) && Enabled(s, l) && (l.NoProgress? || l.ActivatePlan?)
    ensures Invariant(Apply(s, l))
  {
    CallsAndRoom(s, l);
    var most := Most(s);
    assert most * (s.drops + 1) == most * s.drops + most;
    assert Most(Apply(s, l)) == most;
  }

  lemma {:induction false} OthersAndRoom(s: State, l: Label)
    requires Invariant(s) && Enabled(s, l) && (l.Work? || l.Iterate? || l.Escalate?)
    ensures var t := Apply(s, l);
            && t.drops == s.drops && t.limit == s.limit && t.iterations == s.iterations
            && t.calls == s.calls <= s.used <= t.used <= t.iterations && (t.plan.None? ==> s.plan.None?)
            && (t.plan.Some? ==>
                  && t.plan.value.replanCount <= t.plan.value.maxReplans <= Most(s)
                  && Room(t) <= if s.plan.Some? then Room(s) else Most(s))
  {
  }

  lemma {:induction false} OthersKeep(s: State, l: Label)
    requires Invariant(s) && Enabled(s, l) && (l.Work? || l.Iterate? || l.Escalate?)
    ensures Invariant(Apply(s, l))
  {
    OthersAndRoom(s, l);
    var most := Most(s);
    assert most * (s.drops + 1) == most * s.drops + most;
    assert Most(Apply(s, l)) == most;
  }

  lemma {:induction false} FatalKeeps(s: State, l: Label)
    requires Invariant(s) && Enabled(s, l) && l.FatalError?
    ensures Invariant(Apply(s, l))
  {
    assert Apply(s, l).drops == s.drops || Apply(s, l).plan.None?;
  }

  lemma {:induction false} RunKeepsInvariant(states: seq<State>, labels: seq<Label>, k: nat)
    requires Run(states, labels) && k < |states|
    ensures Invariant(states[k]) && states[k].limit == states[0].limit && states[k].iterations == states[0].iterations
  {
    if k > 0 {
      RunKeepsInvariant(states, labels, k - 1);
      StepKeeps(states[k - 1], labels[k - 1]);
    }
  }

  /** In every turn a plan is never replaced more often than it allows, and the turn makes at most as many
      replan calls and activations over a plan as the larger limit allows, for each time it starts out
      with none used: at the beginning and after each loss of the plan. It never makes more of them than its
      loop has iterations. */
  lemma {:induction false} ReplanningIsBounded(states: seq<State>, labels: seq<Label>, k: nat)
    requires Run(states, labels) && k < |states|
    ensures states[k].plan.Some? ==> states[k].plan.value.replanCount <= states[k].plan.value.maxReplans
    ensures states[k].calls <= Most(states[0]) * (states[k].drops + 1) && states[k].calls <= states[0].iterations
  {
    RunKeepsInvariant(states, labels, k);
  }

  /** Every replan call and every activation over a plan uses up room. */
  lemma {:induction false} CallsUseUpRoom(s: State, l: Label)
    requires Invariant(s) && Enabled(s, l) && Apply(s, l).calls > s.calls
    ensures Room(Apply(s, l)) < Room(s) && Apply(s, l).calls == s.calls + 1
  {
  }

  // ----- Failed steps -----

  predicate NoneFailed(steps: seq<Step>) {
    forall i | 0 <= i < |steps| :: !steps[i].status.Failed?
  }

  /** A plan that can still be replaced has no failed step. */
  predicate Unblemished(s: State) {
    s.plan.Some? && CanReplan(s.plan.value) ==> NoneFailed(s.plan.value.steps)
  }

  lemma {:induction false} CompletedNeverFailed(steps: seq<Step>)
    ensures forall i | 0 <= i < |CompletedSteps(steps)| :: CompletedSteps(steps)[i].status.Completed?
  {
    if steps != [] { CompletedNeverFailed(steps[..|steps| - 1]); }
  }

  lemma {:induction false} NoFailures(steps: seq<Step>)
    requires NoneFailed(steps)
    ensures Failures(steps) == 0
  {
    if steps != [] { NoFailures(steps[1..]); }
  }

  lemma {:induction false} OneMoreFailure(steps: seq<Step>)
    ensures Failures(FailCurrent(steps)) <= Failures(steps) + 1
  {
    if steps != [] {
      var r := FailCurrent(steps);
      assert r[1..] == if steps[0].status.Pending? || steps[0].status.InProgress? then steps[1..] else FailCurrent(steps[1..]);
      OneMoreFailure(steps[1..]);
    }
  }

  lemma {:induction false} StepKeepsUnblemished(s: State, l: Label)
    requires Unblemished(s) && Enabled(s, l)
    ensures Unblemished(Apply(s, l))
  {
    if l.NoProgress? { CompletedNeverFailed(s.plan.value.steps); }
    if l.FatalError? {
      var steps := s.plan.value.steps;
      CompletedNeverFailed(FailCurrent(steps));
      OneMoreFailure(steps);
      if CanReplan(s.plan.value) { NoFailures(steps); }
    }
  }

  lemma {:induction false} RunKeepsUnblemished(states: seq<State>, labels: seq<Label>, k: nat)
    requires Run(states, labels) && k < |states|
    ensures Unblemished(states[k])
  {
    if k > 0 {
      RunKeepsUnblemished(states, labels, k - 1);
      StepKeepsUnblemished(states[k - 1], labels[k - 1]);
    }
  }

  /** The rule that ends a turn after two failed steps of a plan never comes before the limit on replans: a
      fatal error always leads to a replan call as long as the plan can be replaced. */
  lemma {:induction false} FailuresNeverPreemptReplans(states: seq<State>, labels: seq<Label>, k: nat)
    requires Run(states, labels) && k < |labels| && labels[k].FatalError?
    requires states[k].planner && CanReplan(states[k].plan.value)
    ensures Failures(FailCurrent(states[k].plan.value.steps)) < MAX_FAILURES
    ensures states[k + 1].calls == states[k].calls + 1 && !states[k + 1].over
  {
    RunKeepsUnblemished(states, labels, k);
    assert Enabled(states[k], labels[k]) && states[k + 1] == Apply(states[k], labels[k]);
    NoFailures(states[k].plan.value.steps);
    OneMoreFailure(states[k].plan.value.steps);
  }

  // ----- The bound is reached -----

  const ONE_STEP := [Step(1, "work", Pending)]
  const PROPOSAL := Proposed("goal", ONE_STEP)

  /** A managed turn that has made `calls` calls, on a plan of which `count` are counted. */
  function Turn(iterations: nat, used: nat, count: nat, calls: nat, drops: nat): State {
    State(iterations, used, MAX_REPLANS, Some(Plan("goal", ONE_STEP, count, MAX_REPLANS)), true, false, false, calls, drops)
  }

  lemma {:induction false} Extend(states: seq<State>, labels: seq<Label>, l: Label) returns (more: seq<State>)
    requires Run(states, labels) && Enabled(states[|labels|], l)
    ensures Run(more, labels + [l]) && more[|labels| + 1] == Apply(states[|labels|], l)
  {
    more := states + [Apply(states[|labels|], l)];
    forall k | 0 <= k < |labels + [l]|
      ensures Enabled(more[k], (labels + [l])[k]) && more[k + 1] == Apply(more[k], (labels + [l])[k])
    {
      if k < |labels| { assert (labels + [l])[k] == labels[k] && more[k] == states[k] && more[k + 1] == states[k + 1]; }
    }
  }

  lemma {:induction false} FailOneStep()
    ensures var failed := FailCurrent(ONE_STEP);
            failed == [Step(1, "work", Failed)] && Failures(failed) == 1 && CompletedSteps(failed) + ONE_STEP == ONE_STEP
  {
    var failed := [Step(1, "work", Failed)];
    assert failed[1..] == [] && failed[..0] == [] && ONE_STEP[1..] == [];
    assert FailCurrent(ONE_STEP) == failed;
  }

  /** `n` fatal errors in a row, each of which yields a new plan. */
  lemma {:induction false} ReplanAgain(before: seq<State>, done: seq<Label>, n: nat) returns (states: seq<State>, labels: seq<Label>)
    requires Run(before, done) && n <= MAX_REPLANS
    requires var s := before[|done|]; s == Turn(s.iterations, s.used, 0, s.calls, s.drops) && s.used + n <= s.iterations
    ensures Run(states, labels)
    ensures var s := before[|done|]; states[|labels|] == Turn(s.iterations, s.used + n, n, s.calls + n, s.drops)
  {
    states, labels := before, done;
    if n > 0 {
      states, labels := ReplanAgain(before, done, n - 1);
      var s := states[|labels|];
      assert Unfinished(s.plan.value.steps) by { assert s.plan.value.steps[0].status.Pending?; }
      FailOneStep();
      states := Extend(states, labels, FatalError("goal", PROPOSAL, false));
      labels := labels + [FatalError("goal", PROPOSAL, false)];
    }
  }

  /** After the last call of a plan fails, the plan is gone, and an activated one starts counting from zero. */
  lemma {:induction false} LoseAndActivate(before: seq<State>, done: seq<Label>) returns (states: seq<State>, labels: seq<Label>)
    requires Run(before, done)
    requires var s := before[|done|]; s == Turn(s.iterations, s.used, 0, s.calls, s.drops) && s.used + 4 <= s.iterations
    ensures Run(states, labels)
    ensures var s := before[|done|]; states[|labels|] == Turn(s.iterations, s.used + 4, 0, s.calls + 3, s.drops + 1)
  {
    states, labels := ReplanAgain(before, done, 2);
    var s := states[|labels|];
    assert Unfinished(s.plan.value.steps) by { assert s.plan.value.steps[0].status.Pending?; }
    FailOneStep();
    states := Extend(states, labels, FatalError("goal", NoResponse, false));
    labels := labels + [FatalError("goal", NoResponse, false)];
    states := Extend(states, labels, ActivatePlan("goal", ONE_STEP));
    labels := labels + [ActivatePlan("goal", ONE_STEP)];
  }

  lemma {:induction false} LoseRepeatedly(iterations: nat, drops: nat) returns (states: seq<State>, labels: seq<Label>)
    requires 4 * drops <= iterations
    ensures Run(states, labels) && states[|labels|] == Turn(iterations, 4 * drops, 0, 3 * drops, drops)
  {
    if drops == 0 {
      states, labels := [Turn(iterations, 0, 0, 0, 0)], [];
    } else {
      states, labels := LoseRepeatedly(iterations, drops - 1);
      states, labels := LoseAndActivate(states, labels);
    }
  }

  /** For every number of losses that fits into the loop there is a turn that makes as many calls as the bound
      allows, more than a plan's limit: losing the plan resets the count. */
  lemma {:induction false} LosingThePlanResetsTheLimit(iterations: nat, drops: nat) returns (states: seq<State>, labels: seq<Label>)
    requires 4 * drops + 3 <= iterations
    ensures Run(states, labels)
    ensures var s := states[|labels|];
            s.iterations == iterations && s.drops == drops && s.limit == MAX_REPLANS && s.calls == Most(s) * (drops + 1)
  {
    states, labels := LoseRepeatedly(iterations, drops);
    states, labels := ReplanAgain(states, labels, 3);
  }

  // ----- New plans are adopted -----

  /** A plan that a step yields is the one that the turn goes on with: after a replan the completed steps and
      the proposed ones, after an activation or an escalation the steps given; each with its count. */
  lemma {:induction false} NewPlansAreAdopted(s: State, l: Label)
    requires Enabled(s, l)
    ensures l.NoProgress? && s.planner && CanReplan(s.plan.value) && l.r.Proposed? ==>
              var p := s.plan.value;
              Apply(s, l).plan == Some(Plan(l.r.goal, CompletedSteps(p.steps) + l.r.steps, p.replanCount + 1, p.maxReplans))
    ensures l.FatalError? && s.planner && CanReplan(s.plan.value) && l.r.Proposed? && Unblemished(s) ==>
              var p := s.plan.value;
              Apply(s, l).plan == Some(Plan(l.r.goal, CompletedSteps(p.steps) + l.r.steps, p.replanCount + 1, p.maxReplans))
    ensures l.ActivatePlan? && s.plan.None? ==> Apply(s, l).plan == Some(Plan(l.goal, l.steps, 0, 3))
    ensures l.ActivatePlan? && s.plan.Some? && s.plan.value.replanCount < s.plan.value.maxReplans ==>
              Apply(s, l).plan == Some(Plan(l.goal, l.steps, s.plan.value.replanCount + 1, s.plan.value.maxReplans))
    ensures l.ActivatePlan? && s.plan.Some? && s.plan.value.replanCount >= s.plan.value.maxReplans ==> Apply(s, l).plan == s.plan
    ensures l.Escalate? ==> Apply(s, l).plan == Some(Plan(l.goal, l.steps, 0, s.limit)) && Apply(s, l).planner && Apply(s, l).escalated
  {
    if l.FatalError? {
      var steps := s.plan.value.steps;
      FailingKeepsCompleted(steps);
      OneMoreFailure(steps);
      if Unblemished(s) && CanReplan(s.plan.value) { NoFailures(steps); }
    }
  }

  // ----- Completed work stays -----

  lemma {:induction false} CompletedAppend(a: seq<Step>, b: seq<Step>)
    ensures CompletedSteps(a + b) == CompletedSteps(a) + CompletedSteps(b)
  {
    if b == [] {
      assert a + b == a;
    } else {
      assert (a + b)[..|a + b| - 1] == a + b[..|b| - 1];
      CompletedAppend(a, b[..|b| - 1]);
    }
  }

  lemma {:induction false} CompletedOfCompleted(steps: seq<Step>)
    ensures CompletedSteps(CompletedSteps(steps)) == CompletedSteps(steps)
  {
    if steps != [] {
      CompletedOfCompleted(steps[..|steps| - 1]);
      var last := steps[|steps| - 1];
      var front := CompletedSteps(steps[..|steps| - 1]);
      if last.status.Completed? {
        CompletedAppend(front, [last]);
        assert [last][..0] == [];
      } else {
        assert front + [] == front;
      }
    }
  }

  lemma {:induction false} NoneCompleted(steps: seq<Step>)
    requires forall i | 0 <= i < |steps| :: steps[i].status.Pending?
    ensures CompletedSteps(steps) == []
  {
    if steps != [] { NoneCompleted(steps[..|steps| - 1]); }
  }

  /** A valid replan begins with the completed steps, in order; they are all that is completed in it, and
      everything after them is new. */
  lemma {:induction false} ValidReplanKeepsCompleted(p: Plan, task: string, r: Response)
    requires Proper(r) && Replanned(p, task, r).valid
    ensures var done, steps := CompletedSteps(p.steps), Replanned(p, task, r).result.steps;
            && done <= steps && CompletedSteps(steps) == done
            && Usable(steps[|done|..]) && steps[|done|..] == r.steps
            && Replanned(p, task, r).result.replanCount == p.replanCount + 1 <= p.maxReplans
  {
    var done := CompletedSteps(p.steps);
    CompletedAppend(done, r.steps);
    CompletedOfCompleted(p.steps);
    NoneCompleted(r.steps);
    assert (done + r.steps)[|done|..] == r.steps;
  }

  /** A call without a usable plan is charged all the same; it returns the plan it was given, or one pending
      step with the goal for its action. */
  lemma {:induction false} FallbackIsCharged(p: Plan, task: string, r: Response)
    requires CanReplan(p) && !r.Proposed?
    ensures var o := Replanned(p, task, r);
            && !o.valid && o.kept == p.(replanCount := p.replanCount + 1)
            && o.result.replanCount == p.replanCount + 1 && o.result.maxReplans == p.maxReplans
            && (r.NoResponse? ==> o.result == o.kept)
            && (r.Unusable? ==> var goal := if r.stated.Some? then r.stated.value else task;
                  o.result.goal == goal && o.result.steps == [Step(1, goal, Pending)])
  {
  }

  lemma {:induction false} FailingKeepsCompleted(steps: seq<Step>)
    ensures CompletedSteps(FailCurrent(steps)) == CompletedSteps(steps)
  {
    if steps != [] {
      assert steps == [steps[0]] + steps[1..];
      CompletedAppend([steps[0]], steps[1..]);
      if steps[0].status.Pending? || steps[0].status.InProgress? {
        CompletedAppend([steps[0].(status := Failed)], steps[1..]);
        assert [steps[0]][..0] == [] && [steps[0].(status := Failed)][..0] == [];
      } else {
        FailingKeepsCompleted(steps[1..]);
        CompletedAppend([steps[0]], FailCurrent(steps[1..]));
      }
    }
  }

  /** Failures and replans keep the completed steps, in order. */
  lemma {:induction false} ReplanKeepsCompleted(s: State, l: Label)
    requires Enabled(s, l) && (l.NoProgress? || l.FatalError?) && Apply(s, l).plan.Some?
    ensures CompletedSteps(Apply(s, l).plan.value.steps) == CompletedSteps(s.plan.value.steps)
  {
    var p := s.plan.value;
    if l.FatalError? {
      var failed := p.(steps := FailCurrent(p.steps));
      FailingKeepsCompleted(p.steps);
      if Replanned(failed, l.task, l.r).valid { ValidReplanKeepsCompleted(failed, l.task, l.r); }
    } else {
      if Replanned(p, l.task, l.r).valid { ValidReplanKeepsCompleted(p, l.task, l.r); }
    }
  }

  lemma {:induction false} WorkKeepsCompleted(a: seq<Step>, b: seq<Step>)
    requires Progressed(a, b)
    ensures Sublist(CompletedSteps(a), CompletedSteps(b))
  {
    if a != [] {
      var n := |a| - 1;
      assert forall i | 0 <= i < n :: a[..n][i] == a[i] && b[..n][i] == b[i];
      WorkKeepsCompleted(a[..n], b[..n]);
      var x, y := if a[n].status.Completed? then [a[n]] else [], if b[n].status.Completed? then [b[n]] else [];
      if a[n].status.Completed? { assert a[n] == b[n]; }
      SublistRefl(x);
      SublistOfNothing(y);
      SublistAppend(CompletedSteps(a[..n]), CompletedSteps(b[..n]), x, y);
    }
  }

  /** The plan stays, and no other is activated over it. */
  predicate KeepsPlan(s: State, l: Label)
    requires Enabled(s, l)
  {
    s.plan.Some? && Apply(s, l).plan.Some? && (l.ActivatePlan? ==> !CanReplan(s.plan.value))
  }

  /** Over any stretch of a turn in which the plan is neither lost nor activated over, the steps completed at
      its beginning are still completed at its end, in the same order, whatever failures and replans there
      were. */
  lemma {:induction false} CompletedWorkSurvives(states: seq<State>, labels: seq<Label>, i: nat, j: nat)
    requires Run(states, labels) && i <= j < |states| && states[i].plan.Some?
    requires forall k | i <= k < j :: KeepsPlan(states[k], labels[k])
    ensures states[j].plan.Some?
    ensures Sublist(CompletedSteps(states[i].plan.value.steps), CompletedSteps(states[j].plan.value.steps))
    decreases j
  {
    if i == j {
      SublistRefl(CompletedSteps(states[i].plan.value.steps));
    } else {
      CompletedWorkSurvives(states, labels, i, j - 1);
      var s, l := states[j - 1], labels[j - 1];
      assert KeepsPlan(s, l);
      var before, after := CompletedSteps(s.plan.value.steps), CompletedSteps(states[j].plan.value.steps);
      SublistRefl(before);
      if l.Work? { WorkKeepsCompleted(s.plan.value.steps, l.steps); }
      if l.NoProgress? || l.FatalError? { ReplanKeepsCompleted(s, l); }
      SublistTrans(CompletedSteps(states[i].plan.value.steps), before, after);
    }
  }
}
