/** The governance pipeline and its fallback (erza/agent/context_governor.py). */
module Governor {
  import opened Messages
  import opened ToolPairing
  import opened Backfill
  import opened Microcompact

  /** What a strategy call does: return a list, or raise. */
  datatype Outcome = Returned(messages: seq<Message>) | Raised

  /** The three repair passes of this project, or any other strategy known only by its name. */
  datatype Strategy =
    | DropOrphan
    | BackfillMissing
    | CompactResults
    | Foreign(title: string, apply: seq<Message> -> Outcome)
  {
    function Name(): string {
      match this
      case DropOrphan => "drop_orphan_tool_results"
      case BackfillMissing => "backfill_missing_tool_results"
      case CompactResults => "microcompact"
      case Foreign(title, _) => title
    }
  }

  /** The part of the governance context that the built-in passes read. */
  datatype Context = Context(green: bool, tools: Registry)

  ghost function Effect(s: Strategy, ms: seq<Message>, ctx: Context): Outcome {
    match s
    case DropOrphan => Returned(Dropped(ms))
    case BackfillMissing => Returned(Backfilled(ms))
    case CompactResults => Returned(if ctx.green then ms else Compacted(ms, ctx.tools))
    case Foreign(_, apply) => apply(ms)
  }

  /** The strategies in order; the first one that raises ends the run. */
  ghost function Pipeline(ss: seq<Strategy>, ms: seq<Message>, ctx: Context): Outcome {
    if ss == [] then Returned(ms)
    else
      match Effect(ss[0], ms, ctx)
      case Raised => Raised
      case Returned(next) => Pipeline(ss[1..], next, ctx)
  }

  /** The strategy a name leads to: a later one of the same name replaces an earlier one. */
  function Named(ss: seq<Strategy>, name: string): Option<Strategy> {
    if ss == [] then None
    else if ss[|ss| - 1].Name() == name then Some(ss[|ss| - 1])
    else Named(ss[..|ss| - 1], name)
  }

  ghost function Attempt(s: Option<Strategy>, ms: seq<Message>, ctx: Context): Outcome {
    if s.None? then Returned(ms) else Effect(s.value, ms, ctx)
  }

  /** The minimal repair of the original messages, or the original messages if that fails too. */
  ghost function Fallback(ss: seq<Strategy>, ms: seq<Message>, ctx: Context): seq<Message> {
    match Attempt(Named(ss, DropOrphan.Name()), ms, ctx)
    case Raised => ms
    case Returned(dropped) =>
      match Attempt(Named(ss, BackfillMissing.Name()), dropped, ctx)
      case Raised => ms
      case Returned(filled) => filled
  }

  ghost function Governed(ss: seq<Strategy>, ms: seq<Message>, ctx: Context): seq<Message> {
    match Pipeline(ss, ms, ctx)
    case Returned(out) => out
    case Raised => Fallback(ss, ms, ctx)
  }

  method Apply(s: Strategy, messages: seq<Message>, ctx: Context) returns (r: Outcome)
    ensures r == Effect(s, messages, ctx)
  {
    match s
    case DropOrphan =>
      var out := DropOrphanToolResults(messages);
      r := Returned(out);
    case BackfillMissing =>
      var out := BackfillMissingToolResults(messages);
      r := Returned(out);
    case CompactResults =>
      if ctx.green {
        r := Returned(messages);
      } else {
        var out := CompactOldResults(messages, ctx.tools);
        r := Returned(out);
      }
    case Foreign(_, apply) =>
      r := apply(messages);
  }

  class ContextGovernor {
    const strategies: seq<Strategy>
    var byName: map<string, Strategy>

    ghost predicate Valid()
      reads this
    {
      forall name: string :: (name in byName <==> Named(strategies, name).Some?)
                             && (name in byName ==> Named(strategies, name).value == byName[name])
    }

    constructor (strategies: seq<Strategy>)
      ensures Valid() && this.strategies == strategies
    {
      this.strategies := strategies;
      this.byName := map[];
      new;
      for k := 0 to |strategies|
        invariant forall name: string :: (name in byName <==> Named(strategies[..k], name).Some?)
                                         && (name in byName ==> Named(strategies[..k], name).value == byName[name])
      {
        assert strategies[..k + 1][..k] == strategies[..k];
        byName := byName[strategies[k].Name() := strategies[k]];
      }
      assert strategies[..|strategies|] == strategies;
    }

    method Govern(messages: seq<Message>, ctx: Context) returns (result: seq<Message>)
      requires Valid()
      ensures result == Governed(strategies, messages, ctx)
    {
      result := messages;
      var failed := false;
      var k := 0;
      while k < |strategies| && !failed
        invariant 0 <= k <= |strategies|
        invariant Pipeline(strategies, messages, ctx) ==
                  if failed then Raised else Pipeline(strategies[k..], result, ctx)
      {
        var outcome := Apply(strategies[k], result, ctx);
        match outcome {
          case Returned(next) => result := next;
          case Raised => failed := true;
        }
        k := k + 1;
      }
      if !failed {
        return;
      }
      result := messages;
      if DropOrphan.Name() in byName {
        var outcome := Apply(byName[DropOrphan.Name()], result, ctx);
        if outcome.Raised? {
          return messages;
        }
        result := outcome.messages;
      }
      if BackfillMissing.Name() in byName {
        var outcome := Apply(byName[BackfillMissing.Name()], result, ctx);
        if outcome.Raised? {
          return messages;
        }
        result := outcome.messages;
      }
    }
  }

  /** The built-in pipeline around three strategies about which nothing is known. */
  function Builtin(budget: seq<Message> -> Outcome, snip: seq<Message> -> Outcome, crop: seq<Message> -> Outcome)
    : seq<Strategy>
  {
    [DropOrphan, BackfillMissing, CompactResults,
     Foreign("apply_tool_result_budget", budget), Foreign("snip_history", snip), Foreign("schema_crop", crop),
     DropOrphan, BackfillMissing]
  }

  lemma {:induction false} PipelineAppend(a: seq<Strategy>, b: seq<Strategy>, ms: seq<Message>, ctx: Context)
    ensures Pipeline(a + b, ms, ctx) ==
            match Pipeline(a, ms, ctx) case Raised => Raised case Returned(mid) => Pipeline(b, mid, ctx)
  {
    if a == [] {
      assert a + b == b;
    } else {
      assert (a + b)[1..] == a[1..] + b;
      match Effect(a[0], ms, ctx)
      case Raised =>
      case Returned(next) => PipelineAppend(a[1..], b, next, ctx);
    }
  }

  lemma {:induction false} CleanupPairs(ms: seq<Message>, ctx: Context)
    ensures Pipeline([DropOrphan, BackfillMissing], ms, ctx) == Returned(Backfilled(Dropped(ms)))
    ensures Paired(Backfilled(Dropped(ms)))
  {
    var both, last := [DropOrphan, BackfillMissing], [BackfillMissing];
    assert both[1..] == last && last[1..] == [];
    assert Pipeline(last, Dropped(ms), ctx) == Pipeline([], Backfilled(Dropped(ms)), ctx);
    RepairPairs(ms);
  }

  lemma {:induction false} NamedAppend(a: seq<Strategy>, b: seq<Strategy>, name: string)
    requires forall s | s in b :: s.Name() != name
    ensures Named(a + b, name) == Named(a, name)
  {
    if b == [] {
      assert a + b == a;
    } else {
      assert (a + b)[..|a + b| - 1] == a + b[..|b| - 1];
      assert (a + b)[|a + b| - 1] == b[|b| - 1] && b[|b| - 1] in b;
      NamedAppend(a, b[..|b| - 1], name);
    }
  }

  lemma {:induction false} FallbackPairs(ss: seq<Strategy>, ms: seq<Message>, ctx: Context)
    requires Named(ss, DropOrphan.Name()) == Some(DropOrphan)
    requires Named(ss, BackfillMissing.Name()) == Some(BackfillMissing)
    ensures Fallback(ss, ms, ctx) == Backfilled(Dropped(ms)) && Paired(Fallback(ss, ms, ctx))
  {
    RepairPairs(ms);
  }

  lemma {:induction false} BuiltinNames(budget: seq<Message> -> Outcome, snip: seq<Message> -> Outcome, crop: seq<Message> -> Outcome)
    ensures Named(Builtin(budget, snip, crop), DropOrphan.Name()) == Some(DropOrphan)
    ensures Named(Builtin(budget, snip, crop), BackfillMissing.Name()) == Some(BackfillMissing)
  {
    var ss := Builtin(budget, snip, crop);
    assert ss[|ss| - 1] == BackfillMissing;
    assert BackfillMissing.Name()[0] == 'b' && DropOrphan.Name()[0] == 'd';
    var front := ss[..|ss| - 1];
    assert front[|front| - 1] == DropOrphan;
    assert Named(front, DropOrphan.Name()) == Some(DropOrphan);
  }

  lemma {:induction false} BuiltinPairs(
    budget: seq<Message> -> Outcome, snip: seq<Message> -> Outcome, crop: seq<Message> -> Outcome,
    ms: seq<Message>, ctx: Context)
    ensures var cleaned := Pipeline(Builtin(budget, snip, crop), ms, ctx); cleaned.Returned? ==> Paired(cleaned.messages)
  {
    var ss := Builtin(budget, snip, crop);
    var middle := ss[..6];
    assert ss == middle + [DropOrphan, BackfillMissing];
    PipelineAppend(middle, [DropOrphan, BackfillMissing], ms, ctx);
    if Pipeline(middle, ms, ctx).Returned? { CleanupPairs(Pipeline(middle, ms, ctx).messages, ctx); }
  }

  /** Whatever the middle strategies return, and whether or not one of them raises, the messages
      sent to the model have every identified result after its declaration and every declared
      identifier answered. */
  lemma {:induction false} GovernanceRestoresPairing(
    budget: seq<Message> -> Outcome, snip: seq<Message> -> Outcome, crop: seq<Message> -> Outcome,
    ms: seq<Message>, ctx: Context)
    ensures Paired(Governed(Builtin(budget, snip, crop), ms, ctx))
  {
    var ss := Builtin(budget, snip, crop);
    BuiltinNames(budget, snip, crop);
    FallbackPairs(ss, ms, ctx);
    BuiltinPairs(budget, snip, crop, ms, ctx);
  }

  ghost function Compact(ms: seq<Message>, ctx: Context): seq<Message> {
    if ctx.green then ms else Compacted(ms, ctx.tools)
  }

  lemma {:induction false} RepairThenCompact(ms: seq<Message>, ctx: Context)
    ensures Pipeline([DropOrphan, BackfillMissing, CompactResults], ms, ctx) == Returned(Compact(Backfilled(Dropped(ms)), ctx))
  {
    var all: seq<Strategy> := [DropOrphan, BackfillMissing];
    assert [DropOrphan, BackfillMissing, CompactResults] == all + [CompactResults];
    CleanupPairs(ms, ctx);
    PipelineAppend(all, [CompactResults], ms, ctx);
    assert [CompactResults][1..] == [];
  }

  lemma {:induction false} ForeignFirst(title: string, f: seq<Message> -> Outcome, rest: seq<Strategy>, ms: seq<Message>, ctx: Context)
    ensures Pipeline([Foreign(title, f)] + rest, ms, ctx) == if f(ms).Raised? then Raised else Pipeline(rest, f(ms).messages, ctx)
  {
    assert ([Foreign(title, f)] + rest)[1..] == rest;
  }

  /** What the built-in strategies make of a list, whatever the three in the middle do: repair, compaction
      unless the context is still small, the three in their order, and repair again; only the first repair if
      one of them raises. */
  lemma {:induction false} GovernedInOrder(
    budget: seq<Message> -> Outcome, snip: seq<Message> -> Outcome, crop: seq<Message> -> Outcome,
    ms: seq<Message>, ctx: Context)
    ensures var repaired := Backfilled(Dropped(ms));
            var a := budget(if ctx.green then repaired else Compacted(repaired, ctx.tools));
            var b := if a.Raised? then Raised else snip(a.messages);
            var c := if b.Raised? then Raised else crop(b.messages);
            Governed(Builtin(budget, snip, crop), ms, ctx)
            == if c.Raised? then repaired else Backfilled(Dropped(c.messages))
  {
    var last: seq<Strategy> := [DropOrphan, BackfillMissing];
    var third := [Foreign("schema_crop", crop)] + last;
    var second := [Foreign("snip_history", snip)] + third;
    var first := [Foreign("apply_tool_result_budget", budget)] + second;
    var repaired := Backfilled(Dropped(ms));
    var ss := Builtin(budget, snip, crop);
    assert ss == [DropOrphan, BackfillMissing, CompactResults] + first;
    PipelineAppend([DropOrphan, BackfillMissing, CompactResults], first, ms, ctx);
    RepairThenCompact(ms, ctx);
    var start := Compact(repaired, ctx);
    ForeignFirst("apply_tool_result_budget", budget, second, start, ctx);
    if budget(start).Returned? {
      var a := budget(start).messages;
      ForeignFirst("snip_history", snip, third, a, ctx);
      if snip(a).Returned? {
        var b := snip(a).messages;
        ForeignFirst("schema_crop", crop, last, b, ctx);
        if crop(b).Returned? { CleanupPairs(crop(b).messages, ctx); }
      }
    }
    BuiltinNames(budget, snip, crop);
    FallbackPairs(ss, ms, ctx);
  }

  /** If the three leave the list alone, it is repaired and, unless the context is small, compacted; nothing
      else. */
  lemma {:induction false} QuietGovernance(ms: seq<Message>, ctx: Context)
    ensures var repaired := Backfilled(Dropped(ms));
            Governed(Builtin(Keep, Keep, Keep), ms, ctx) == if ctx.green then repaired else Compacted(repaired, ctx.tools)
  {
    var repaired := Backfilled(Dropped(ms));
    var out := Compact(repaired, ctx);
    GovernedInOrder(Keep, Keep, Keep, ms, ctx);
    RepairPairs(ms);
    if !ctx.green { CompactedKeepsPairing(repaired, ctx.tools); }
    DroppedFixpoint(out);
    BackfillFixpoint(out);
  }

  /** Plugins run after the cleanup pass, on what it returns; if one of them raises, the fallback pairs. */
  lemma {:induction false} PluginsInheritPairing(
    budget: seq<Message> -> Outcome, snip: seq<Message> -> Outcome, crop: seq<Message> -> Outcome,
    plugins: seq<Strategy>, ms: seq<Message>, ctx: Context)
    requires forall s | s in plugins :: s.Name() != DropOrphan.Name() && s.Name() != BackfillMissing.Name()
    ensures var cleaned := Pipeline(Builtin(budget, snip, crop), ms, ctx);
            Paired(Governed(Builtin(budget, snip, crop) + plugins, ms, ctx)) <==>
            (cleaned.Returned? && Pipeline(plugins, cleaned.messages, ctx).Returned? ==>
               Paired(Pipeline(plugins, cleaned.messages, ctx).messages))
  {
    var ss := Builtin(budget, snip, crop);
    PipelineAppend(ss, plugins, ms, ctx);
    BuiltinNames(budget, snip, crop);
    NamedAppend(ss, plugins, DropOrphan.Name());
    NamedAppend(ss, plugins, BackfillMissing.Name());
    FallbackPairs(ss + plugins, ms, ctx);
  }

  /** Whatever paired list the plugins are given, they hand a paired list on, or raise. */
  ghost predicate PluginsPair(plugins: seq<Strategy>, ctx: Context) {
    forall p: seq<Message> | Paired(p) && Pipeline(plugins, p, ctx).Returned? :: Paired(Pipeline(plugins, p, ctx).messages)
  }

  /** Whatever the middle strategies do and whatever the input is, the governed list is paired. */
  ghost predicate GovernedPairs(plugins: seq<Strategy>, ctx: Context) {
    forall budget: seq<Message> -> Outcome, snip: seq<Message> -> Outcome, crop: seq<Message> -> Outcome, ms: seq<Message> ::
      Paired(Governed(Builtin(budget, snip, crop) + plugins, ms, ctx))
  }

  lemma {:induction false} CropReplaces(crop: seq<Message> -> Outcome, p: seq<Message>, ms: seq<Message>, ctx: Context)
    requires Paired(p) && crop(ms) == Returned(p)
    ensures Pipeline([Foreign("schema_crop", crop)] + [DropOrphan, BackfillMissing], ms, ctx) == Returned(p)
  {
    assert ([Foreign("schema_crop", crop)] + [DropOrphan, BackfillMissing])[1..] == [DropOrphan, BackfillMissing];
    CleanupPairs(p, ctx);
    DroppedFixpoint(p);
    BackfillFixpoint(p);
  }

  /** A middle strategy can hand any paired list to the plugins: the cleanup pass leaves it alone. */
  lemma {:induction false} CleanupHandsOver(p: seq<Message>, ctx: Context) returns (crop: seq<Message> -> Outcome)
    requires Paired(p)
    ensures Pipeline(Builtin(Keep, Keep, crop), [], ctx) == Returned(p)
  {
    crop := (_: seq<Message>) => Returned(p);
    var first: seq<Strategy> := [DropOrphan, BackfillMissing, CompactResults,
                                 Foreign("apply_tool_result_budget", Keep), Foreign("snip_history", Keep)];
    var last := [Foreign("schema_crop", crop)] + [DropOrphan, BackfillMissing];
    assert Builtin(Keep, Keep, crop) == first + last;
    PipelineAppend(first, last, [], ctx);
    NothingToRepair(first, ctx);
    CropReplaces(crop, p, [], ctx);
  }

  /** Plugins keep the governor's guarantee, for all inputs and middle strategies, if and only if they keep
      pairing of every paired list. */
  lemma {:induction false} PluginsKeepPairingExactly(plugins: seq<Strategy>, ctx: Context)
    requires forall s | s in plugins :: s.Name() != DropOrphan.Name() && s.Name() != BackfillMissing.Name()
    ensures GovernedPairs(plugins, ctx) <==> PluginsPair(plugins, ctx)
  {
    if PluginsPair(plugins, ctx) {
      forall budget: seq<Message> -> Outcome, snip: seq<Message> -> Outcome, crop: seq<Message> -> Outcome, ms: seq<Message>
        ensures Paired(Governed(Builtin(budget, snip, crop) + plugins, ms, ctx))
      {
        BuiltinPairs(budget, snip, crop, ms, ctx);
        PluginsInheritPairing(budget, snip, crop, plugins, ms, ctx);
      }
    }
    if GovernedPairs(plugins, ctx) {
      forall p: seq<Message> | Paired(p) && Pipeline(plugins, p, ctx).Returned?
        ensures Paired(Pipeline(plugins, p, ctx).messages)
      {
        var crop := CleanupHandsOver(p, ctx);
        assert Paired(Governed(Builtin(Keep, Keep, crop) + plugins, [], ctx));
        PluginsInheritPairing(Keep, Keep, crop, plugins, [], ctx);
      }
    }
  }

  function Keep(ms: seq<Message>): Outcome {
    Returned(ms)
  }

  const STRAY := ToolResult("x", "exec", Text("out"))

  function AddStray(ms: seq<Message>): Outcome {
    Returned(ms + [STRAY])
  }

  /** A plugin that appends a stray tool result gets it past the governor. */
  lemma {:induction false} PluginCanBreakPairing(ctx: Context)
    ensures !Paired(Governed(Builtin(Keep, Keep, Keep) + [Foreign("stray", AddStray)], [], ctx))
  {
    var ss, plugin := Builtin(Keep, Keep, Keep), Foreign("stray", AddStray);
    assert plugin.Name()[0] == 's' && BackfillMissing.Name()[0] == 'b' && DropOrphan.Name()[0] == 'd';
    PluginsInheritPairing(Keep, Keep, Keep, [plugin], [], ctx);
    NothingToRepair(ss, ctx);
    StrayPlugin(plugin, STRAY, Pipeline(ss, [], ctx).messages, ctx);
  }

  lemma {:induction false} NothingToRepair(ss: seq<Strategy>, ctx: Context)
    requires forall s | s in ss && s.Foreign? :: s.apply([]) == Returned([])
    ensures Pipeline(ss, [], ctx) == Returned([])
  {
    if ss != [] {
      assert ss[0] in ss;
      BackfillFixpoint([]);
      assert Effect(ss[0], [], ctx) == Returned([]);
      NothingToRepair(ss[1..], ctx);
    }
  }

  lemma {:induction false} StrayPlugin(plugin: Strategy, stray: Message, ms: seq<Message>, ctx: Context)
    requires plugin.Foreign? && plugin.apply(ms) == Returned([stray]) && Identified(stray)
    ensures Pipeline([plugin], ms, ctx) == Returned([stray]) && !Paired([stray])
  {
    assert [plugin][1..] == [];
    assert Effect(plugin, ms, ctx) == Returned([stray]);
    assert Orphan([stray], 0);
  }
}
