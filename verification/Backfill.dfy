/** Inserting synthetic results for unanswered tool calls
    (`backfill_missing_tool_results` in erza/agent/runner_strategies.py). */
module Backfill {
  import opened Messages
  import opened ToolPairing

  const BACKFILL_CONTENT := "[Tool result unavailable \U{2014} call was interrupted or lost]"

  /** A declared tool call: the index of the declaring entry, the identifier and the tool name. */
  datatype Declaration = Declaration(at: nat, id: string, name: string)

  function Synthetic(d: Declaration): Message {
    ToolResult(d.id, d.name, Text(BACKFILL_CONTENT))
  }

  /** The identified calls of one entry, in call order. */
  function CallsOf(calls: seq<ToolCall>, at: nat): seq<Declaration> {
    if calls == [] then []
    else
      var front := CallsOf(calls[..|calls| - 1], at);
      match calls[|calls| - 1]
      case NotADict => front
      case Call(id, name) => if id != "" then front + [Declaration(at, id, name)] else front
  }

  function DeclarationsAt(ms: seq<Message>, i: nat): seq<Declaration>
    requires i < |ms|
  {
    if ms[i].role.Assistant? then CallsOf(ms[i].toolCalls, i) else []
  }

  /** The declarations of the first `n` entries, in order. */
  function Declarations(ms: seq<Message>, n: nat): seq<Declaration>
    requires n <= |ms|
  {
    if n == 0 then [] else Declarations(ms, n - 1) + DeclarationsAt(ms, n - 1)
  }

  function Unanswered(ds: seq<Declaration>, fulfilled: set<string>): seq<Declaration> {
    if ds == [] then []
    else
      var front := Unanswered(ds[..|ds| - 1], fulfilled);
      if ds[|ds| - 1].id in fulfilled then front else front + [ds[|ds| - 1]]
  }

  /** The declarations that no tool result of the list answers. */
  function Missing(ms: seq<Message>): (r: seq<Declaration>)
    ensures Within(ms, r) && InOrder(r) && Declared(ms, r)
  {
    UnansweredWithin(ms, Fulfilled(ms));
    Unanswered(Declarations(ms, |ms|), Fulfilled(ms))
  }

  /** End of the contiguous run of tool results that starts at `k`. */
  function RunEnd(ms: seq<Message>, k: nat): (e: nat)
    requires k <= |ms|
    ensures k <= e <= |ms|
    ensures e < |ms| ==> !ms[e].role.Tool?
    decreases |ms| - k
  {
    if k < |ms| && ms[k].role.Tool? then RunEnd(ms, k + 1) else k
  }

  lemma {:induction false} RunIsTools(ms: seq<Message>, k: nat, i: nat)
    requires k <= |ms| && k <= i < RunEnd(ms, k)
    ensures ms[i].role.Tool?
    decreases |ms| - k
  {
    if k < i { RunIsTools(ms, k + 1, i); }
  }

  /** Where the input says the result of `d` belongs: after the results that follow its entry. */
  function Home(ms: seq<Message>, d: Declaration): nat
    requires d.at < |ms|
  {
    RunEnd(ms, d.at + 1)
  }

  ghost predicate Within(ms: seq<Message>, ds: seq<Declaration>) {
    forall k | 0 <= k < |ds| :: ds[k].at < |ms|
  }

  /** Each element names an identifier that the entry it points at really declares. */
  ghost predicate Declared(ms: seq<Message>, ds: seq<Declaration>)
    requires Within(ms, ds)
  {
    forall d | d in ds :: d.id != "" && d.id in DeclaredBy(ms[d.at])
  }

  ghost predicate InOrder(ds: seq<Declaration>) {
    forall j, k | 0 <= j < k < |ds| :: ds[j].at <= ds[k].at
  }

  /** The input with one result per declaration: the k-th lands k places after its home. */
  ghost function Filled(ms: seq<Message>, ds: seq<Declaration>): seq<Message>
    requires Within(ms, ds)
    ensures |Filled(ms, ds)| == |ms| + |ds|
  {
    if ds == [] then ms
    else
      var front := Filled(ms, ds[..|ds| - 1]);
      var p := Home(ms, ds[|ds| - 1]) + |ds| - 1;
      front[..p] + [Synthetic(ds[|ds| - 1])] + front[p..]
  }

  /** How many of the results land before the entry that stood at index `i` of the input. */
  ghost function Shift(ms: seq<Message>, ds: seq<Declaration>, i: nat): (n: nat)
    requires Within(ms, ds)
    ensures n <= |ds|
  {
    if ds == [] then 0
    else Shift(ms, ds[..|ds| - 1], i) + if Home(ms, ds[|ds| - 1]) <= i then 1 else 0
  }

  /** The list with one result inserted per missing declaration. */
  ghost function Backfilled(ms: seq<Message>): seq<Message> {
    Filled(ms, Missing(ms))
  }

  // ----- Facts about the list of declarations -----

  lemma {:induction false} CallsOfDeclared(calls: seq<ToolCall>, at: nat)
    ensures forall d | d in CallsOf(calls, at) :: d.at == at && d.id != "" && Call(d.id, d.name) in calls
    ensures forall c | c in calls && c.Call? && c.id != "" :: Declaration(at, c.id, c.name) in CallsOf(calls, at)
  {
    if calls != [] {
      CallsOfDeclared(calls[..|calls| - 1], at);
      assert calls == calls[..|calls| - 1] + [calls[|calls| - 1]];
    }
  }

  lemma {:induction false} DeclarationsWithin(ms: seq<Message>, n: nat)
    requires n <= |ms|
    ensures Within(ms, Declarations(ms, n)) && InOrder(Declarations(ms, n))
    ensures forall k | 0 <= k < |Declarations(ms, n)| :: Declarations(ms, n)[k].at < n
  {
    if n > 0 {
      DeclarationsWithin(ms, n - 1);
      CallsOfDeclared(ms[n - 1].toolCalls, n - 1);
      var rest := DeclarationsAt(ms, n - 1);
      forall k | 0 <= k < |rest| ensures rest[k].at == n - 1 {
        assert rest[k] in rest;
      }
    }
  }

  lemma {:induction false} DeclarationsDeclared(ms: seq<Message>, n: nat, d: Declaration)
    requires n <= |ms| && d in Declarations(ms, n)
    ensures d.at < n && d.id != "" && d.id in DeclaredBy(ms[d.at])
  {
    if d in Declarations(ms, n - 1) {
      DeclarationsDeclared(ms, n - 1, d);
    } else {
      CallsOfDeclared(ms[n - 1].toolCalls, n - 1);
      assert Call(d.id, d.name) in ms[n - 1].toolCalls;
    }
  }

  lemma {:induction false} DeclarationsComplete(ms: seq<Message>, n: nat, id: string)
    requires n <= |ms| && id in DeclaredIn(ms[..n])
    ensures exists d :: d in Declarations(ms, n) && d.id == id
  {
    DeclaredInSnoc(ms, n - 1);
    if id in DeclaredIn(ms[..n - 1]) {
      DeclarationsComplete(ms, n - 1, id);
      var d :| d in Declarations(ms, n - 1) && d.id == id;
      assert d in Declarations(ms, n);
    } else {
      CallsOfDeclared(ms[n - 1].toolCalls, n - 1);
      var c :| c in ms[n - 1].toolCalls && c.Call? && c.id == id;
      assert Declaration(n - 1, c.id, c.name) in DeclarationsAt(ms, n - 1);
      assert Declaration(n - 1, c.id, c.name) in Declarations(ms, n);
    }
  }

  lemma {:induction false} UnansweredSound(ds: seq<Declaration>, fulfilled: set<string>)
    ensures forall d :: d in Unanswered(ds, fulfilled) <==> d in ds && d.id !in fulfilled
    ensures InOrder(ds) ==> InOrder(Unanswered(ds, fulfilled))
  {
    if ds != [] {
      var front, last := ds[..|ds| - 1], ds[|ds| - 1];
      UnansweredSound(front, fulfilled);
      assert ds == front + [last];
      var u := Unanswered(front, fulfilled);
      if InOrder(ds) && last.id !in fulfilled {
        forall k | 0 <= k < |u| ensures u[k].at <= last.at {
          assert u[k] in front;
        }
      }
    }
  }

  lemma {:induction false} UnansweredWithin(ms: seq<Message>, fulfilled: set<string>)
    ensures var u := Unanswered(Declarations(ms, |ms|), fulfilled); Within(ms, u) && InOrder(u) && Declared(ms, u)
  {
    var ds := Declarations(ms, |ms|);
    DeclarationsWithin(ms, |ms|);
    UnansweredSound(ds, fulfilled);
    var u := Unanswered(ds, fulfilled);
    forall k | 0 <= k < |u| ensures u[k].at < |ms| {
      assert u[k] in u;
      DeclarationsDeclared(ms, |ms|, u[k]);
    }
    forall d | d in u ensures d.id != "" && d.id in DeclaredBy(ms[d.at]) {
      DeclarationsDeclared(ms, |ms|, d);
    }
  }

  /** A result is inserted for an identifier exactly when it is declared and not answered. */
  lemma {:induction false} MissingIds(ms: seq<Message>, id: string)
    ensures (exists d :: d in Missing(ms) && d.id == id) <==> id in DeclaredIn(ms) && id !in Fulfilled(ms)
  {
    var ds := Declarations(ms, |ms|);
    UnansweredSound(ds, Fulfilled(ms));
    if d :| d in Missing(ms) && d.id == id {
      DeclaredInMember(ms, d.at);
    }
    if id in DeclaredIn(ms) && id !in Fulfilled(ms) {
      assert ms[..|ms|] == ms;
      DeclarationsComplete(ms, |ms|, id);
      var d :| d in ds && d.id == id;
      assert d in Missing(ms);
    }
  }

  // ----- Where everything lands -----

  lemma {:induction false} HomeMonotone(ms: seq<Message>, j: nat, k: nat)
    requires j <= k <= |ms|
    ensures RunEnd(ms, j) <= RunEnd(ms, k)
  {
    if RunEnd(ms, k) < RunEnd(ms, j) {
      RunIsTools(ms, j, RunEnd(ms, k));
    }
  }

  lemma {:induction false} ShiftAll(ms: seq<Message>, ds: seq<Declaration>, i: nat)
    requires Within(ms, ds)
    requires forall k | 0 <= k < |ds| :: Home(ms, ds[k]) <= i
    ensures Shift(ms, ds, i) == |ds|
  {
    if ds != [] { ShiftAll(ms, ds[..|ds| - 1], i); }
  }

  lemma {:induction false} ShiftMonotone(ms: seq<Message>, ds: seq<Declaration>, i: nat, j: nat)
    requires Within(ms, ds) && i <= j
    ensures Shift(ms, ds, i) <= Shift(ms, ds, j)
  {
    if ds != [] { ShiftMonotone(ms, ds[..|ds| - 1], i, j); }
  }

  lemma {:induction false} HomesInOrder(ms: seq<Message>, ds: seq<Declaration>, i: nat)
    requires Within(ms, ds) && InOrder(ds) && ds != [] && Home(ms, ds[|ds| - 1]) <= i
    ensures forall k | 0 <= k < |ds| :: Home(ms, ds[k]) <= i
  {
    forall k | 0 <= k < |ds| ensures Home(ms, ds[k]) <= i {
      HomeMonotone(ms, ds[k].at + 1, ds[|ds| - 1].at + 1);
    }
  }

  /** An entry moves right by the number of results placed before it. */
  lemma {:induction false} EntriesMove(ms: seq<Message>, ds: seq<Declaration>, i: nat)
    requires Within(ms, ds) && InOrder(ds) && i < |ms|
    ensures Filled(ms, ds)[i + Shift(ms, ds, i)] == ms[i]
  {
    if ds != [] {
      var front, last := ds[..|ds| - 1], ds[|ds| - 1];
      EntriesMove(ms, front, i);
      var before, p := Filled(ms, front), Home(ms, last) + |front|;
      if Home(ms, last) <= i {
        HomesInOrder(ms, ds, i);
        ShiftAll(ms, front, i);
        assert (before[..p] + [Synthetic(last)] + before[p..])[i + |front| + 1] == before[i + |front|];
      } else {
        assert i + Shift(ms, front, i) < p;
      }
    }
  }

  /** The k-th result stands k places after the end of the tool run that follows its entry. */
  lemma {:induction false} ResultsLand(ms: seq<Message>, ds: seq<Declaration>, k: nat)
    requires Within(ms, ds) && InOrder(ds) && k < |ds|
    ensures Filled(ms, ds)[Home(ms, ds[k]) + k] == Synthetic(ds[k]) == ToolResult(ds[k].id, ds[k].name, Text(BACKFILL_CONTENT))
  {
    var front, last := ds[..|ds| - 1], ds[|ds| - 1];
    if k < |front| {
      assert front[k] == ds[k];
      ResultsLand(ms, front, k);
      HomesInOrder(ms, ds, Home(ms, last));
    }
  }

  /** Every place of the result is accounted for: it holds a moved entry or an inserted result. */
  lemma {:induction false} Cover(ms: seq<Message>, ds: seq<Declaration>, q: nat) returns (fromInput: bool, i: nat)
    requires Within(ms, ds) && InOrder(ds) && q < |ms| + |ds|
    ensures fromInput ==> i < |ms| && q == i + Shift(ms, ds, i)
    ensures !fromInput ==> i < |ds| && q == Home(ms, ds[i]) + i
  {
    if ds == [] {
      return true, q;
    }
    var front, last := ds[..|ds| - 1], ds[|ds| - 1];
    var p := Home(ms, last) + |front|;
    if q == p {
      return false, |front|;
    }
    fromInput, i := Cover(ms, front, if q < p then q else q - 1);
    if fromInput {
      if Home(ms, last) <= i {
        HomesInOrder(ms, ds, i);
        ShiftAll(ms, front, i);
      } else {
        assert i + Shift(ms, front, i) < p;
      }
    } else {
      HomesInOrder(ms, ds, Home(ms, last));
      assert front[i] == ds[i];
    }
  }

  /** The entries at the places that hold input entries. */
  ghost function WithoutResults(ms: seq<Message>, ds: seq<Declaration>): seq<Message>
    requires Within(ms, ds)
  {
    seq(|ms|, i requires 0 <= i < |ms| => Filled(ms, ds)[i + Shift(ms, ds, i)])
  }

  /** Taking the inserted results out again gives back the input, entry for entry: the places that
      hold input entries are strictly increasing, and none of them holds an inserted result. */
  lemma {:induction false} RemovingResultsRestoresInput(ms: seq<Message>, ds: seq<Declaration>)
    requires Within(ms, ds) && InOrder(ds)
    ensures WithoutResults(ms, ds) == ms
    ensures forall i: nat, j: nat | i < j < |ms| :: i + Shift(ms, ds, i) < j + Shift(ms, ds, j)
    ensures forall i: nat, k: nat | i < |ms| && k < |ds| :: i + Shift(ms, ds, i) != Home(ms, ds[k]) + k
  {
    var back := WithoutResults(ms, ds);
    forall i: nat | i < |ms| ensures back[i] == ms[i] {
      EntriesMove(ms, ds, i);
    }
    forall i: nat, j: nat | i < j < |ms| ensures i + Shift(ms, ds, i) < j + Shift(ms, ds, j) {
      ShiftMonotone(ms, ds, i, j);
    }
    forall i: nat, k: nat | i < |ms| && k < |ds| ensures i + Shift(ms, ds, i) != Home(ms, ds[k]) + k {
      Apart(ms, ds, i, k);
    }
  }

  lemma {:induction false} Apart(ms: seq<Message>, ds: seq<Declaration>, i: nat, k: nat)
    requires Within(ms, ds) && InOrder(ds) && i < |ms| && k < |ds|
    ensures i + Shift(ms, ds, i) != Home(ms, ds[k]) + k
  {
    var front, last := ds[..|ds| - 1], ds[|ds| - 1];
    if Home(ms, last) <= i {
      HomesInOrder(ms, ds, i);
      ShiftAll(ms, ds, i);
    } else if k < |front| {
      assert front[k] == ds[k];
      Apart(ms, front, i, k);
    }
  }

  // ----- The pass itself -----

  lemma {:induction false} HomesBefore(ms: seq<Message>, ds: seq<Declaration>, d: Declaration, i: nat)
    requires Within(ms, ds) && d.at < |ms| && Home(ms, d) <= i
    requires forall k | 0 <= k < |ds| :: ds[k].at <= d.at
    ensures Shift(ms, ds, i) == |ds|
  {
    forall k | 0 <= k < |ds| ensures Home(ms, ds[k]) <= i {
      HomeMonotone(ms, ds[k].at + 1, d.at + 1);
    }
    ShiftAll(ms, ds, i);
  }

  /** Between the scan's starting point and the place where it should stop there are only tool
      results, whatever was inserted before. */
  lemma {:induction false} ScanPasses(ms: seq<Message>, ds: seq<Declaration>, d: Declaration, q: nat)
    requires Within(ms, ds) && InOrder(ds) && d.at < |ms|
    requires forall k | 0 <= k < |ds| :: ds[k].at <= d.at
    requires d.at + 1 + |ds| <= q < Home(ms, d) + |ds|
    ensures Filled(ms, ds)[q].role.Tool?
  {
    var fromInput, i := Cover(ms, ds, q);
    if !fromInput {
      ResultsLand(ms, ds, i);
    } else {
      EntriesMove(ms, ds, i);
      assert Home(ms, d) > i by {
        if Home(ms, d) <= i { HomesBefore(ms, ds, d, i); }
      }
      RunIsTools(ms, d.at + 1, i);
    }
  }

  /** At the place where the scan should stop there is no tool result. */
  lemma {:induction false} ScanStops(ms: seq<Message>, ds: seq<Declaration>, d: Declaration)
    requires Within(ms, ds) && InOrder(ds) && d.at < |ms| && Home(ms, d) < |ms|
    requires forall k | 0 <= k < |ds| :: ds[k].at <= d.at
    ensures !Filled(ms, ds)[Home(ms, d) + |ds|].role.Tool?
  {
    HomesBefore(ms, ds, d, Home(ms, d));
    EntriesMove(ms, ds, Home(ms, d));
  }

  /** First half of the pass: the declared calls and the answered identifiers. */
  method Collect(messages: seq<Message>) returns (declared: seq<Declaration>, fulfilled: set<string>)
    ensures declared == Declarations(messages, |messages|)
    ensures fulfilled == Fulfilled(messages)
  {
    declared, fulfilled := [], {};
    for idx := 0 to |messages|
      invariant declared == Declarations(messages, idx)
      invariant fulfilled == Fulfilled(messages[..idx])
    {
      var msg := messages[idx];
      assert messages[..idx + 1] == messages[..idx] + [messages[idx]];
      if msg.role.Assistant? {
        ghost var start := declared;
        for c := 0 to |msg.toolCalls|
          invariant declared == start + CallsOf(msg.toolCalls[..c], idx)
        {
          assert msg.toolCalls[..c + 1][..c] == msg.toolCalls[..c];
          var tc := msg.toolCalls[c];
          if tc.Call? && tc.id != "" {
            declared := declared + [Declaration(idx, tc.id, tc.name)];
          }
        }
        assert msg.toolCalls[..|msg.toolCalls|] == msg.toolCalls;
      } else if msg.role.Tool? {
        if msg.toolCallId != "" {
          fulfilled := fulfilled + {msg.toolCallId};
        }
      }
    }
    assert messages[..|messages|] == messages;
  }

  /** The scan over `updated` stops at the place that the input determines. */
  lemma {:induction false} ScanFindsHome(ms: seq<Message>, ds: seq<Declaration>, d: Declaration, p: nat)
    requires Within(ms, ds) && InOrder(ds) && d.at < |ms|
    requires forall k | 0 <= k < |ds| :: ds[k].at <= d.at
    requires d.at + 1 + |ds| <= p <= |ms| + |ds|
    requires forall q | d.at + 1 + |ds| <= q < p :: Filled(ms, ds)[q].role.Tool?
    requires p < |ms| + |ds| ==> !Filled(ms, ds)[p].role.Tool?
    ensures p == Home(ms, d) + |ds|
  {
    if p < Home(ms, d) + |ds| {
      ScanPasses(ms, ds, d, p);
    } else if Home(ms, d) + |ds| < p {
      ScanStops(ms, ds, d);
    }
  }

  lemma {:induction false} InsertStep(ms: seq<Message>, ds: seq<Declaration>, k: nat, p: nat)
    requires Within(ms, ds) && InOrder(ds) && k < |ds| && Within(ms, ds[..k])
    requires ds[k].at + 1 + k <= p <= |ms| + k
    requires forall q | ds[k].at + 1 + k <= q < p :: Filled(ms, ds[..k])[q].role.Tool?
    requires p < |ms| + k ==> !Filled(ms, ds[..k])[p].role.Tool?
    ensures Within(ms, ds[..k + 1])
    ensures Filled(ms, ds[..k + 1]) == Filled(ms, ds[..k])[..p] + [Synthetic(ds[k])] + Filled(ms, ds[..k])[p..]
  {
    ScanFindsHome(ms, ds[..k], ds[k], p);
    assert ds[..k + 1][..k] == ds[..k];
  }

  /** The forward scan over the tool results that start at `start`. */
  method SkipResults(updated: seq<Message>, start: nat) returns (insertAt: nat)
    requires start <= |updated|
    ensures start <= insertAt <= |updated|
    ensures forall q | start <= q < insertAt :: updated[q].role.Tool?
    ensures insertAt < |updated| ==> !updated[insertAt].role.Tool?
  {
    insertAt := start;
    while insertAt < |updated| && updated[insertAt].role.Tool?
      invariant start <= insertAt <= |updated|
      invariant forall q | start <= q < insertAt :: updated[q].role.Tool?
    {
      insertAt := insertAt + 1;
    }
  }

  /** Second half: insertion into a copy, with a running offset and a forward scan. */
  method Insert(messages: seq<Message>, missing: seq<Declaration>) returns (updated: seq<Message>)
    requires Within(messages, missing) && InOrder(missing)
    ensures updated == Filled(messages, missing)
  {
    updated := messages;
    var offset := 0;
    while offset < |missing|
      invariant 0 <= offset <= |missing|
      invariant Within(messages, missing[..offset])
      invariant updated == Filled(messages, missing[..offset])
    {
      var d := missing[offset];
      var insertAt := SkipResults(updated, d.at + 1 + offset);
      InsertStep(messages, missing, offset, insertAt);
      updated := updated[..insertAt] + [Synthetic(d)] + updated[insertAt..];
      offset := offset + 1;
    }
    assert missing[..|missing|] == missing;
  }

  method BackfillMissingToolResults(messages: seq<Message>) returns (result: seq<Message>)
    ensures result == Backfilled(messages)
  {
    var declared, fulfilled := Collect(messages);
    var missing := Unanswered(declared, fulfilled);
    if missing == [] {
      return messages;
    }
    UnansweredWithin(messages, fulfilled);
    result := Insert(messages, missing);
  }

  // ----- What the pass repairs -----

  lemma {:induction false} FilledMembers(ms: seq<Message>, ds: seq<Declaration>, m: Message)
    requires Within(ms, ds)
    ensures m in Filled(ms, ds) <==> m in ms || (exists d :: d in ds && m == Synthetic(d))
  {
    if ds != [] {
      var front, last := ds[..|ds| - 1], ds[|ds| - 1];
      FilledMembers(ms, front, m);
      assert ds == front + [last];
      var before, p := Filled(ms, front), Home(ms, last) + |front|;
      assert before == before[..p] + before[p..];
    }
  }

  lemma {:induction false} InsertDeclares(ms: seq<Message>, p: nat, m: Message)
    requires p <= |ms| && DeclaredBy(m) == {}
    ensures DeclaredIn(ms[..p] + [m] + ms[p..]) == DeclaredIn(ms)
  {
    var a, b := ms[..p], ms[p..];
    assert ms == a + b;
    DeclaredInAppend(a, b);
    DeclaredInAppend(a + [m], b);
    assert (a + [m])[..|a|] == a;
  }

  lemma {:induction false} FilledDeclares(ms: seq<Message>, ds: seq<Declaration>)
    requires Within(ms, ds)
    ensures DeclaredIn(Filled(ms, ds)) == DeclaredIn(ms)
  {
    if ds != [] {
      var front, last := ds[..|ds| - 1], ds[|ds| - 1];
      FilledDeclares(ms, front);
      InsertDeclares(Filled(ms, front), Home(ms, last) + |front|, Synthetic(last));
    }
  }

  lemma {:induction false} PrecededInsert(ms: seq<Message>, p: nat, m: Message)
    requires Preceded(ms) && p <= |ms|
    requires Identified(m) && m.toolCallId in DeclaredIn(ms[..p])
    ensures Preceded(ms[..p] + [m] + ms[p..])
  {
    var out := ms[..p] + [m] + ms[p..];
    forall i: nat | i < |out| ensures !Orphan(out, i) {
      if i <= p {
        assert out[..i] == ms[..i];
        if i < p { assert !Orphan(ms, i); }
      } else {
        assert !Orphan(ms, i - 1);
        assert out[..i] == ms[..p] + [m] + ms[p..i - 1];
        assert ms[..i - 1] == ms[..p] + ms[p..i - 1];
        DeclaredInAppend(ms[..p], ms[p..i - 1]);
        DeclaredInAppend(ms[..p] + [m], ms[p..i - 1]);
        DeclaredInAppend(ms[..p], [m]);
      }
    }
  }

  lemma {:induction false} HomeIsAfterDeclaration(ms: seq<Message>, ds: seq<Declaration>, d: Declaration)
    requires Within(ms, ds) && InOrder(ds) && d.at < |ms| && d.id in DeclaredBy(ms[d.at])
    ensures d.id in DeclaredIn(Filled(ms, ds)[..Home(ms, d) + |ds|])
  {
    var before, p := Filled(ms, ds), Home(ms, d) + |ds|;
    var a := d.at + Shift(ms, ds, d.at);
    EntriesMove(ms, ds, d.at);
    assert before[..p][a] == ms[d.at];
    DeclaredInMember(before[..p], a);
  }

  /** Inserted results stand after their declarations, and push no other result before its own. */
  lemma {:induction false} FilledIsPreceded(ms: seq<Message>, ds: seq<Declaration>)
    requires Within(ms, ds) && InOrder(ds) && Declared(ms, ds) && Preceded(ms)
    ensures Preceded(Filled(ms, ds))
  {
    if ds != [] {
      var front, last := ds[..|ds| - 1], ds[|ds| - 1];
      assert last in ds && Declared(ms, front);
      FilledIsPreceded(ms, front);
      HomeIsAfterDeclaration(ms, front, last);
      PrecededInsert(Filled(ms, front), Home(ms, last) + |front|, Synthetic(last));
    }
  }

  /** After the pass every declared identifier has a result, for every input. */
  lemma {:induction false} BackfillAnswers(ms: seq<Message>)
    ensures Answered(Backfilled(ms))
    ensures Preceded(ms) ==> Preceded(Backfilled(ms))
  {
    var out := Backfilled(ms);
    FilledDeclares(ms, Missing(ms));
    forall id | id in DeclaredIn(out) ensures id in Fulfilled(out) {
      MissingIds(ms, id);
      if id in Fulfilled(ms) {
        var m :| m in ms && Identified(m) && m.toolCallId == id;
        FilledMembers(ms, Missing(ms), m);
      } else {
        var d :| d in Missing(ms) && d.id == id;
        FilledMembers(ms, Missing(ms), Synthetic(d));
      }
    }
    if Preceded(ms) { FilledIsPreceded(ms, Missing(ms)); }
  }

  /** Backfilling changes nothing exactly when every declared identifier has a result. */
  lemma {:induction false} BackfillFixpoint(ms: seq<Message>)
    ensures Backfilled(ms) == ms <==> Answered(ms)
  {
    BackfillAnswers(ms);
    if Missing(ms) != [] {
      MissingIds(ms, Missing(ms)[0].id);
    }
  }

  lemma {:induction false} BackfillIsIdempotent(ms: seq<Message>)
    ensures Backfilled(Backfilled(ms)) == Backfilled(ms)
  {
    BackfillAnswers(ms);
    BackfillFixpoint(Backfilled(ms));
  }

  /** Both repair passes in pipeline order: for every input they leave results and declarations
      paired, and running either pass again changes nothing. */
  lemma {:induction false} RepairPairs(ms: seq<Message>)
    ensures var repaired := Backfilled(Dropped(ms));
            && Paired(repaired)
            && Dropped(repaired) == repaired
            && Backfilled(repaired) == repaired
  {
    var repaired := Backfilled(Dropped(ms));
    DroppedIsPreceded(ms);
    BackfillAnswers(Dropped(ms));
    DroppedFixpoint(repaired);
    BackfillFixpoint(repaired);
  }

  // ----- Position -----

  /** Each declaration of the identifier has a later result. */
  ghost predicate Follows(ms: seq<Message>, id: string) {
    forall i: nat | i < |ms| && id in DeclaredBy(ms[i]) :: HasLater(ms, id, i)
  }

  ghost predicate HasLater(ms: seq<Message>, id: string, i: nat) {
    exists k: nat :: i < k < |ms| && Answers(ms[k], id)
  }

  predicate Answers(m: Message, id: string) {
    Identified(m) && m.toolCallId == id
  }

  /** The last declaration of the identifier has no later result. */
  predicate Open(ms: seq<Message>, id: string) {
    ms != [] &&
    (var last := ms[|ms| - 1];
     !Answers(last, id) && (id in DeclaredBy(last) || Open(ms[..|ms| - 1], id)))
  }

  lemma {:induction false} OpenMeans(ms: seq<Message>, id: string)
    ensures Open(ms, id) <==> !Follows(ms, id)
  {
    if ms != [] {
      var front, last := ms[..|ms| - 1], ms[|ms| - 1];
      OpenMeans(front, id);
      if Answers(last, id) {
        forall i: nat | i < |ms| && id in DeclaredBy(ms[i]) ensures HasLater(ms, id, i) {
          assert i < |ms| - 1 && Answers(ms[|ms| - 1], id);
        }
      } else if id in DeclaredBy(last) {
        assert !HasLater(ms, id, |ms| - 1);
      } else {
        forall i: nat | i < |front| ensures HasLater(ms, id, i) <==> HasLater(front, id, i) {
          if HasLater(ms, id, i) {
            var k: nat :| i < k < |ms| && Answers(ms[k], id);
            assert Answers(front[k], id);
          }
          if HasLater(front, id, i) {
            var k: nat :| i < k < |front| && Answers(front[k], id);
            assert Answers(ms[k], id);
          }
        }
        assert forall i: nat | i < |front| :: front[i] == ms[i];
      }
    }
  }

  /** Dropping orphans does not change which declarations are answered later: an orphan stands before all
      declarations of its identifier. */
  lemma {:induction false} DroppingKeepsOpen(ms: seq<Message>, id: string)
    ensures Open(Dropped(ms), id) <==> Open(ms, id)
    ensures Open(ms, id) ==> id in DeclaredIn(ms)
  {
    if ms != [] {
      var front, last := ms[..|ms| - 1], ms[|ms| - 1];
      DroppingKeepsOpen(front, id);
      if !Orphan(ms, |ms| - 1) { assert (Dropped(front) + [last])[..|Dropped(front)|] == Dropped(front); }
    }
  }

  /** Some result of the identifier stands after a declaration of it. */
  ghost predicate AnsweredOnce(ms: seq<Message>, id: string) {
    exists k: nat :: k < |ms| && Answers(ms[k], id) && !Orphan(ms, k)
  }

  lemma {:induction false} DroppedAnswers(ms: seq<Message>, id: string)
    ensures id in Fulfilled(Dropped(ms)) <==> AnsweredOnce(ms, id)
  {
    if ms != [] {
      var n, front, last := |ms| - 1, ms[..|ms| - 1], ms[|ms| - 1];
      DroppedAnswers(front, id);
      forall k: nat | k < n ensures Orphan(ms, k) <==> Orphan(front, k) { assert ms[..k] == front[..k]; }
      if AnsweredOnce(front, id) {
        var k: nat :| k < |front| && Answers(front[k], id) && !Orphan(front, k);
        assert Answers(ms[k], id) && !Orphan(ms, k);
      }
      if AnsweredOnce(ms, id) {
        var k: nat :| k < |ms| && Answers(ms[k], id) && !Orphan(ms, k);
        if k < n { assert Answers(front[k], id) && !Orphan(front, k); }
      }
      FulfilledSnoc(Dropped(front), last);
    }
  }

  lemma {:induction false} FulfilledSnoc(ms: seq<Message>, m: Message)
    ensures Fulfilled(ms + [m]) == Fulfilled(ms) + if Identified(m) then {m.toolCallId} else {}
  {
  }

  /** Where the entry at `i` of the input stands after the pass. */
  ghost function Moved(ms: seq<Message>, i: nat): nat { i + Shift(ms, Missing(ms), i) }

  lemma {:induction false} MovedAt(ms: seq<Message>, i: nat, j: nat)
    requires i < |ms|
    ensures Moved(ms, i) < |Backfilled(ms)| && Backfilled(ms)[Moved(ms, i)] == ms[i]
    ensures i < j < |ms| ==> Moved(ms, i) < Moved(ms, j)
  {
    EntriesMove(ms, Missing(ms), i);
    RemovingResultsRestoresInput(ms, Missing(ms));
  }

  lemma {:induction false} MissingDiffers(ms: seq<Message>, id: string, k: nat)
    requires id in Fulfilled(ms) && k < |Missing(ms)|
    ensures Missing(ms)[k].id != id
  {
    MissingIds(ms, Missing(ms)[k].id);
    assert Missing(ms)[k] in Missing(ms);
  }

  /** Where an entry about an answered identifier comes from. */
  lemma {:induction false} Origin(ms: seq<Message>, id: string, q: nat) returns (i: nat)
    requires id in Fulfilled(ms) && q < |Backfilled(ms)|
    requires Answers(Backfilled(ms)[q], id) || id in DeclaredBy(Backfilled(ms)[q])
    ensures i < |ms| && q == Moved(ms, i) && Backfilled(ms)[q] == ms[i]
  {
    var fromInput;
    fromInput, i := Cover(ms, Missing(ms), q);
    if fromInput {
      MovedAt(ms, i, i);
    } else {
      ResultsLand(ms, Missing(ms), i);
      MissingDiffers(ms, id, i);
      assert false;
    }
  }

  lemma {:induction false} LaterMoves(ms: seq<Message>, id: string, i: nat)
    requires id in Fulfilled(ms) && i < |ms|
    ensures HasLater(Backfilled(ms), id, Moved(ms, i)) <==> HasLater(ms, id, i)
  {
    var out := Backfilled(ms);
    if HasLater(ms, id, i) {
      var k: nat :| i < k < |ms| && Answers(ms[k], id);
      MovedAt(ms, i, k);
      MovedAt(ms, k, k);
    }
    if HasLater(out, id, Moved(ms, i)) {
      var q: nat :| Moved(ms, i) < q < |out| && Answers(out[q], id);
      var k := Origin(ms, id, q);
      MovedAt(ms, k, i);
      assert i < k && Answers(ms[k], id);
    }
  }

  /** If the identifier has a result already, none is inserted, and the order of entries stays. */
  lemma {:induction false} FilledKeepsPosition(ms: seq<Message>, id: string)
    requires id in Fulfilled(ms)
    ensures Follows(Backfilled(ms), id) <==> Follows(ms, id)
  {
    if Follows(ms, id) {
      forall q: nat | q < |Backfilled(ms)| && id in DeclaredBy(Backfilled(ms)[q]) ensures HasLater(Backfilled(ms), id, q) {
        var i := Origin(ms, id, q);
        LaterMoves(ms, id, i);
      }
    }
    if Follows(Backfilled(ms), id) {
      forall i: nat | i < |ms| && id in DeclaredBy(ms[i]) ensures HasLater(ms, id, i) {
        MovedAt(ms, i, i);
        LaterMoves(ms, id, i);
      }
    }
  }

  lemma {:induction false} DeclarationListed(ms: seq<Message>, n: nat, i: nat, id: string) returns (d: Declaration)
    requires i < n <= |ms| && id in DeclaredBy(ms[i])
    ensures d in Declarations(ms, n) && d.at == i && d.id == id
  {
    if i < n - 1 {
      d := DeclarationListed(ms, n - 1, i, id);
    } else {
      CallsOfDeclared(ms[i].toolCalls, i);
      var c :| c in ms[i].toolCalls && c.Call? && c.id == id && c.id != "";
      d := Declaration(i, c.id, c.name);
    }
  }

  /** Results for declarations from the k-th on land after an entry that stands before their declarations. */
  lemma {:induction false} ShiftBelow(ms: seq<Message>, ds: seq<Declaration>, i: nat, k: nat)
    requires Within(ms, ds) && k <= |ds| && forall j | k <= j < |ds| :: ds[j].at >= i
    ensures Shift(ms, ds, i) <= k
  {
    if k < |ds| {
      var front := ds[..|ds| - 1];
      assert forall j | 0 <= j < |front| :: front[j] == ds[j];
      ShiftBelow(ms, front, i, k);
    }
  }

  lemma {:induction false} DeclarationIsMissing(ms: seq<Message>, i: nat, id: string) returns (k: nat)
    requires id !in Fulfilled(ms) && i < |ms| && id in DeclaredBy(ms[i])
    ensures k < |Missing(ms)| && Missing(ms)[k].at == i && Missing(ms)[k].id == id
  {
    var d := DeclarationListed(ms, |ms|, i, id);
    UnansweredSound(Declarations(ms, |ms|), Fulfilled(ms));
    assert d in Missing(ms);
    k :| 0 <= k < |Missing(ms)| && Missing(ms)[k] == d;
  }

  lemma {:induction false} MovedBefore(ms: seq<Message>, ds: seq<Declaration>, k: nat)
    requires Within(ms, ds) && InOrder(ds) && k < |ds|
    ensures ds[k].at + Shift(ms, ds, ds[k].at) < Home(ms, ds[k]) + k
  {
    ShiftBelow(ms, ds, ds[k].at, k);
  }

  lemma {:induction false} OwnResultFollows(ms: seq<Message>, i: nat, id: string)
    requires id !in Fulfilled(ms) && i < |ms| && id in DeclaredBy(ms[i])
    ensures HasLater(Backfilled(ms), id, Moved(ms, i))
  {
    var k := DeclarationIsMissing(ms, i, id);
    ResultsLand(ms, Missing(ms), k);
    MovedBefore(ms, Missing(ms), k);
    assert Answers(Backfilled(ms)[Home(ms, Missing(ms)[k]) + k], id);
  }

  /** If it has none, every declaration of it gets one of its own. */
  lemma {:induction false} FilledAnswersEach(ms: seq<Message>, id: string)
    requires id !in Fulfilled(ms)
    ensures Follows(Backfilled(ms), id)
  {
    forall q: nat | q < |Backfilled(ms)| && id in DeclaredBy(Backfilled(ms)[q]) ensures HasLater(Backfilled(ms), id, q) {
      var fromInput, i := Cover(ms, Missing(ms), q);
      if fromInput {
        MovedAt(ms, i, i);
        OwnResultFollows(ms, i, id);
      } else {
        ResultsLand(ms, Missing(ms), i);
      }
    }
  }

  /** Backfilling makes every declaration of an identifier precede a result of it, if and only if either no
      result of it was there or they did so before. */
  lemma {:induction false} BackfillFollowsExactly(ms: seq<Message>, id: string)
    ensures Follows(Backfilled(ms), id) <==> (id in Fulfilled(ms) ==> Follows(ms, id))
  {
    if id in Fulfilled(ms) { FilledKeepsPosition(ms, id); } else { FilledAnswersEach(ms, id); }
  }

  /** Pairing is positional in the repaired list, if and only if in the input either no result of the
      identifier stands after a declaration of it, or a result stands after each. */
  lemma {:induction false} RepairFollowsExactly(ms: seq<Message>, id: string)
    ensures Follows(Backfilled(Dropped(ms)), id) <==> (AnsweredOnce(ms, id) ==> Follows(ms, id))
  {
    BackfillFollowsExactly(Dropped(ms), id);
    DroppedAnswers(ms, id);
    DroppingKeepsOpen(ms, id);
    OpenMeans(ms, id);
    OpenMeans(Dropped(ms), id);
  }

  /** When no two entries of the input declare the same identifier, pairing is positional after the repair:
      the answer to a call comes after the entry that declares it. */
  lemma {:induction false} AnswerFollowsDeclaration(ms: seq<Message>, id: string)
    requires UniqueIds(ms)
    ensures Follows(Backfilled(Dropped(ms)), id)
  {
    if AnsweredOnce(ms, id) {
      var k: nat :| k < |ms| && Answers(ms[k], id) && !Orphan(ms, k);
      var j := DeclaredInWitness(ms[..k], id);
      forall i: nat | i < |ms| && id in DeclaredBy(ms[i]) ensures HasLater(ms, id, i) {
        assert i == j && Answers(ms[k], id);
      }
    }
    RepairFollowsExactly(ms, id);
  }

  const CALL_A := Plain(Assistant, NoContent).(toolCalls := [Call("a", "exec")])
  const ANSWER_A := ToolResult("a", "exec", Text("ok"))

  /** With repeated identifiers a later declaration may be answered only by an earlier result; the repair
      leaves such a list alone. */
  lemma {:induction false} RepeatedIdsBreakPosition()
    ensures var ms := [CALL_A, ANSWER_A, CALL_A];
            && Paired(ms) && Backfilled(Dropped(ms)) == ms
            && "a" in DeclaredBy(ms[2]) && !Follows(ms, "a")
  {
    var ms := [CALL_A, ANSWER_A, CALL_A];
    assert DeclaredBy(CALL_A) == {"a"} by { assert Call("a", "exec") in CALL_A.toolCalls; }
    assert ms[..1] == [CALL_A] && ms[..2] == [CALL_A, ANSWER_A];
    assert [CALL_A][..0] == [] && [CALL_A, ANSWER_A][..1] == [CALL_A];
    assert DeclaredIn([CALL_A]) == {"a"};
    assert DeclaredIn([CALL_A, ANSWER_A]) == {"a"};
    assert ms[..3 - 1] == [CALL_A, ANSWER_A];
    assert DeclaredIn(ms) == {"a"};
    assert ANSWER_A in ms && Identified(ANSWER_A);
    assert forall i: nat | i < 3 :: !Orphan(ms, i);
    DroppedFixpoint(ms);
    BackfillFixpoint(ms);
    assert !HasLater(ms, "a", 2);
  }
}
