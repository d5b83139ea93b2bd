/** Replacing old tool results with one-line summaries (`microcompact` in
    erza/agent/runner_strategies.py). */
module Microcompact {
  import opened Messages
  import opened ToolPairing

  const KEEP_RECENT: nat := 10
  const MIN_CHARS: nat := 500
  const COMPACTABLE_TOOLS: set<string> :=
    {"read_file", "exec", "grep", "find_files", "web_fetch", "list_dir", "list_exec_sessions"}

  datatype ToolInfo = ToolInfo(compactable: bool, importance: real)

  type Registry = Option<map<string, ToolInfo>>

  /** The registry decides when it knows the tool; otherwise the fixed list of names does. */
  predicate Compactable(m: Message, tools: Registry) {
    m.role.Tool? && m.name != "" &&
    if tools.Some? && m.name in tools.value
    then tools.value[m.name].compactable && tools.value[m.name].importance < 1.0
    else m.name in COMPACTABLE_TOOLS
  }

  function Summary(name: string): Content {
    Text("[" + name + " result omitted from context]")
  }

  predicate Long(content: Content) {
    content.Text? && |content.text| >= MIN_CHARS
  }

  /** Number of compactable results among the first `n` entries. */
  function Count(ms: seq<Message>, tools: Registry, n: nat): nat
    requires n <= |ms|
  {
    if n == 0 then 0 else Count(ms, tools, n - 1) + if Compactable(ms[n - 1], tools) then 1 else 0
  }

  /** Number of compactable results after index `i`. */
  function Later(ms: seq<Message>, tools: Registry, i: nat): int
    requires i < |ms|
  {
    Count(ms, tools, |ms|) - Count(ms, tools, i + 1)
  }

  /** An entry is summarised when it is compactable, at least ten compactable results follow it,
      and its text is long; everything else is left as it is. */
  function CompactedAt(ms: seq<Message>, tools: Registry, i: nat): Message
    requires i < |ms|
  {
    if Compactable(ms[i], tools) && Later(ms, tools, i) >= KEEP_RECENT && Long(ms[i].content)
    then ms[i].(content := Summary(ms[i].name))
    else ms[i]
  }

  function Compacted(ms: seq<Message>, tools: Registry): seq<Message> {
    seq(|ms|, i requires 0 <= i < |ms| => CompactedAt(ms, tools, i))
  }

  lemma {:induction false} CountMonotone(ms: seq<Message>, tools: Registry, i: nat, j: nat)
    requires i <= j <= |ms|
    ensures Count(ms, tools, i) <= Count(ms, tools, j) <= Count(ms, tools, i) + (j - i)
  {
    if i < j { CountMonotone(ms, tools, i, j - 1); }
  }

  lemma {:induction false} CountSame(a: seq<Message>, b: seq<Message>, tools: Registry, n: nat)
    requires n <= |a| && n <= |b|
    requires forall i | 0 <= i < n :: a[i].role == b[i].role && a[i].name == b[i].name
    ensures Count(a, tools, n) == Count(b, tools, n)
  {
    if n > 0 { CountSame(a, b, tools, n - 1); }
  }

  /** The compactable indices below `n`, in order. */
  function Indices(ms: seq<Message>, tools: Registry, n: nat): (r: seq<nat>)
    requires n <= |ms|
    ensures |r| == Count(ms, tools, n)
  {
    if n == 0 then []
    else Indices(ms, tools, n - 1) + if Compactable(ms[n - 1], tools) then [n - 1] else []
  }

  lemma {:induction false} IndexAt(ms: seq<Message>, tools: Registry, n: nat, k: nat)
    requires n <= |ms| && k < Count(ms, tools, n)
    ensures var i := Indices(ms, tools, n)[k]; i < n && Compactable(ms[i], tools) && Count(ms, tools, i) == k
  {
    if k < Count(ms, tools, n - 1) { IndexAt(ms, tools, n - 1, k); }
  }

  method CompactableIndices(messages: seq<Message>, tools: Registry) returns (indices: seq<nat>)
    ensures indices == Indices(messages, tools, |messages|)
  {
    indices := [];
    for idx := 0 to |messages|
      invariant indices == Indices(messages, tools, idx)
    {
      var msg := messages[idx];
      if !msg.role.Tool? || msg.name == "" {
        continue;
      }
      if tools.Some? && msg.name in tools.value {
        var tool := tools.value[msg.name];
        if !tool.compactable || tool.importance >= 1.0 {
          continue;
        }
      } else if msg.name !in COMPACTABLE_TOOLS {
        continue;
      }
      indices := indices + [idx];
    }
  }

  /** Entry `i` once the first `k` compactable results have been looked at. */
  function Looked(ms: seq<Message>, tools: Registry, k: nat, i: nat): Message
    requires i < |ms|
  {
    if Compactable(ms[i], tools) && Count(ms, tools, i) < k && Long(ms[i].content)
    then ms[i].(content := Summary(ms[i].name)) else ms[i]
  }

  lemma {:induction false} CountInjective(ms: seq<Message>, tools: Registry, i: nat, j: nat)
    requires i < |ms| && j < |ms| && Compactable(ms[i], tools) && Compactable(ms[j], tools)
    requires Count(ms, tools, i) == Count(ms, tools, j)
    ensures i == j
  {
    if i < j { CountMonotone(ms, tools, i + 1, j); }
    if j < i { CountMonotone(ms, tools, j + 1, i); }
  }

  lemma {:induction false} LookedStep(ms: seq<Message>, tools: Registry, k: nat, idx: nat, i: nat)
    requires i < |ms| && idx < |ms| && Compactable(ms[idx], tools) && Count(ms, tools, idx) == k
    ensures i != idx ==> Looked(ms, tools, k + 1, i) == Looked(ms, tools, k, i)
    ensures Looked(ms, tools, k + 1, idx) ==
            if Long(ms[idx].content) then ms[idx].(content := Summary(ms[idx].name)) else Looked(ms, tools, k, idx)
  {
    if Compactable(ms[i], tools) && Count(ms, tools, i) == k {
      CountInjective(ms, tools, i, idx);
    }
  }

  lemma {:induction false} LookedAll(ms: seq<Message>, tools: Registry, k: nat, i: nat)
    requires i < |ms|
    requires k == if Count(ms, tools, |ms|) <= KEEP_RECENT then 0 else Count(ms, tools, |ms|) - KEEP_RECENT
    ensures Looked(ms, tools, k, i) == CompactedAt(ms, tools, i)
  {
    CountMonotone(ms, tools, i + 1, |ms|);
  }

  method CompactOldResults(messages: seq<Message>, tools: Registry) returns (result: seq<Message>)
    ensures result == Compacted(messages, tools)
  {
    var indices := CompactableIndices(messages, tools);
    var stale := if |indices| <= KEEP_RECENT then 0 else |indices| - KEEP_RECENT;
    result := messages;
    for k := 0 to stale
      invariant |result| == |messages|
      invariant forall i: nat | i < |messages| :: result[i] == Looked(messages, tools, k, i)
    {
      var idx := indices[k];
      IndexAt(messages, tools, |messages|, k);
      forall i: nat | i < |messages| { LookedStep(messages, tools, k, idx, i); }
      if Long(messages[idx].content) {
        result := result[idx := messages[idx].(content := Summary(messages[idx].name))];
      }
    }
    forall i: nat | i < |messages| ensures result[i] == CompactedAt(messages, tools, i) {
      LookedAll(messages, tools, stale, i);
    }
  }

  /** Only contents change. */
  lemma {:induction false} CompactedKeepsShape(ms: seq<Message>, tools: Registry)
    ensures |Compacted(ms, tools)| == |ms|
    ensures forall i: nat | i < |ms| :: Compacted(ms, tools)[i].(content := ms[i].content) == ms[i]
  {
  }

  /** None of the last ten compactable results is touched, nor anything after the first of them. */
  lemma {:induction false} RecentResultsUntouched(ms: seq<Message>, tools: Registry, i: nat)
    requires i < |ms| && Later(ms, tools, i) < KEEP_RECENT
    ensures Compacted(ms, tools)[i..] == ms[i..]
  {
    forall j: nat | i <= j < |ms| ensures Compacted(ms, tools)[j] == ms[j] {
      CountMonotone(ms, tools, i + 1, j + 1);
    }
  }

  /** What changes is a long compactable result before the last ten compactable ones; anything else, and every
      entry that is not compactable, is left as it is. */
  lemma {:induction false} OnlyStaleResultsChange(ms: seq<Message>, tools: Registry, i: nat)
    requires i < |ms| && Compacted(ms, tools)[i] != ms[i]
    ensures Compactable(ms[i], tools) && Long(ms[i].content)
    ensures var all := Indices(ms, tools, |ms|); |all| > KEEP_RECENT && i < all[|all| - KEEP_RECENT]
  {
    var n := Count(ms, tools, |ms|);
    CountMonotone(ms, tools, 0, i + 1);
    IndexAt(ms, tools, |ms|, n - KEEP_RECENT);
    var stale := Indices(ms, tools, |ms|)[n - KEEP_RECENT];
    if stale <= i { CountMonotone(ms, tools, stale, i); }
  }

  /** Each compactable result but the last ten, if its text has 500 characters or more, is replaced by a line
      that names the tool. */
  lemma {:induction false} StaleResultsAreSummarised(ms: seq<Message>, tools: Registry, k: nat)
    requires k + KEEP_RECENT < |Indices(ms, tools, |ms|)|
    ensures var i := Indices(ms, tools, |ms|)[k];
            && i < |ms| && ms[i].role.Tool?
            && (ms[i].content.Text? && |ms[i].content.text| >= 500 ==>
                  Compacted(ms, tools)[i] == ms[i].(content := Text("[" + ms[i].name + " result omitted from context]")))
  {
    IndexAt(ms, tools, |ms|, k);
  }

  lemma {:induction false} CompactIsIdempotent(ms: seq<Message>, tools: Registry)
    ensures Compacted(Compacted(ms, tools), tools) == Compacted(ms, tools)
  {
    var once := Compacted(ms, tools);
    forall i: nat | i < |ms| ensures CompactedAt(once, tools, i) == once[i] {
      CountSame(ms, once, tools, |ms|);
      CountSame(ms, once, tools, i + 1);
    }
  }

  lemma {:induction false} SameShapeDeclares(a: seq<Message>, b: seq<Message>)
    requires |a| == |b| && forall i: nat | i < |a| :: b[i].(content := a[i].content) == a[i]
    ensures DeclaredIn(a) == DeclaredIn(b)
  {
    if a != [] {
      assert forall i: nat | i < |a| - 1 :: a[..|a| - 1][i] == a[i] && b[..|b| - 1][i] == b[i];
      SameShapeDeclares(a[..|a| - 1], b[..|b| - 1]);
      assert DeclaredBy(b[|b| - 1]) == DeclaredBy(a[|a| - 1]) by {
        assert b[|b| - 1].toolCalls == a[|a| - 1].toolCalls && b[|b| - 1].role == a[|a| - 1].role;
      }
    }
  }

  /** Compaction neither repairs nor breaks pairing. */
  lemma {:induction false} CompactedKeepsPairing(ms: seq<Message>, tools: Registry)
    ensures Preceded(Compacted(ms, tools)) <==> Preceded(ms)
    ensures Answered(Compacted(ms, tools)) <==> Answered(ms)
  {
    var out := Compacted(ms, tools);
    CompactedKeepsShape(ms, tools);
    SameShapeDeclares(ms, out);
    forall i: nat | i < |ms| ensures Orphan(out, i) <==> Orphan(ms, i) {
      SameShapeDeclares(ms[..i], out[..i]);
      assert out[i].(content := ms[i].content) == ms[i];
    }
    forall id ensures id in Fulfilled(out) <==> id in Fulfilled(ms) {
      if m :| m in ms && Identified(m) && m.toolCallId == id {
        var i :| 0 <= i < |ms| && ms[i] == m;
        assert out[i] in out;
      }
      if m :| m in out && Identified(m) && m.toolCallId == id {
        var i :| 0 <= i < |out| && out[i] == m;
        assert ms[i] in ms;
      }
    }
  }
}
