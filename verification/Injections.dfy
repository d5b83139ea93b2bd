/** Follow-up messages that reach a turn while it runs: how many are taken at a time, and how they enter
    the conversation. */
module Injections {
  import opened Messages
  import opened SaveTurn

  const LIMIT: nat := 3
  const CYCLES: nat := 5

  function Min(a: nat, b: nat): nat { if a <= b then a else b }

  /** Queued follow-ups, already turned into message content. */
  function AsUsers(contents: seq<Content>): seq<Message> {
    seq(|contents|, i requires 0 <= i < |contents| => Plain(User, contents[i]))
  }

  // ----- Taking messages from the queue -----

  /** `arrived` is what the queue holds when a wait for subagents ends; None if the wait times out. */
  datatype Wait = NoSubagents | TimedOut | Woken(arrived: seq<Content>)

  /** What a drain has to choose from. */
  function Offered(queue: seq<Content>, wait: Wait): seq<Content> {
    if queue == [] && wait.Woken? then wait.arrived else queue
  }

  /** At most three messages, oldest first; only an empty queue is waited for. */
  method DrainPendingMessages(queue: seq<Content>, wait: Wait) returns (items: seq<Message>, rest: seq<Content>)
    requires wait.Woken? ==> wait.arrived != []
    ensures var all := Offered(queue, wait); var n := Min(LIMIT, |all|);
            items == AsUsers(all[..n]) && rest == all[n..]
    ensures |items| <= 3 && forall i | 0 <= i < |items| :: items[i] == Plain(User, Offered(queue, wait)[i])
  {
    items, rest := [], queue;
    while |items| < LIMIT && rest != []
      invariant |items| <= LIMIT && |items| + |rest| == |queue|
      invariant items == AsUsers(queue[..|items|]) && rest == queue[|items|..]
      decreases |rest|
    {
      items, rest := items + [Plain(User, rest[0])], rest[1..];
    }
    if items != [] || !wait.Woken? { return; }
    rest := wait.arrived;
    items, rest := items + [Plain(User, rest[0])], rest[1..];
    while |items| < LIMIT && rest != []
      invariant 1 <= |items| <= LIMIT && |items| + |rest| == |wait.arrived|
      invariant items == AsUsers(wait.arrived[..|items|]) && rest == wait.arrived[|items|..]
      decreases |rest|
    {
      items, rest := items + [Plain(User, rest[0])], rest[1..];
    }
  }

  /** The runner's own cap on what the callback returns: the oldest stay, and nothing goes that fits. */
  method CapInjections(items: seq<Message>) returns (kept: seq<Message>)
    ensures kept <= items && |kept| == Min(LIMIT, |items|)
    ensures |items| <= LIMIT ==> kept == items
  {
    kept := items;
    if |kept| > LIMIT { kept := kept[..LIMIT]; }
  }

  // ----- Entering the conversation -----

  function Appended(messages: seq<Message>, injections: seq<Message>): seq<Message>
    decreases |injections|
  {
    if injections == [] then messages
    else
      var before := Appended(messages, injections[..|injections| - 1]);
      var next := injections[|injections| - 1];
      if before != [] && next.role.User? && before[|before| - 1].role.User? then
        var last := before[|before| - 1];
        before[..|before| - 1] + [last.(content := MergeContent(last.content, next.content))]
      else before + [next]
  }

  method AppendInjectedMessages(messages: seq<Message>, injections: seq<Message>) returns (out: seq<Message>)
    ensures out == Appended(messages, injections)
  {
    out := messages;
    for i := 0 to |injections|
      invariant out == Appended(messages, injections[..i])
    {
      assert injections[..i + 1][..i] == injections[..i];
      var next := injections[i];
      if out != [] && next.role.User? && out[|out| - 1].role.User? {
        var merged := out[|out| - 1];
        merged := merged.(content := MergeContent(merged.content, next.content));
        out := out[..|out| - 1] + [merged];
      } else {
        out := out + [next];
      }
    }
    assert injections[..|injections|] == injections;
  }

  predicate AllUsers(ms: seq<Message>) {
    forall i | 0 <= i < |ms| :: ms[i].role.User?
  }

  /** The contents of several messages as the content of one. */
  function MergedContent(first: Content, more: seq<Message>): Content {
    if more == [] then first
    else MergeContent(MergedContent(first, more[..|more| - 1]), more[|more| - 1].content)
  }

  predicate NoAdjacentUsers(ms: seq<Message>) {
    forall i | 0 <= i < |ms| - 1 :: !(ms[i].role.User? && ms[i + 1].role.User?)
  }

  /** However many follow-ups are injected, they make one user message, in order: a new one, or the end of
      the one that the conversation ends in. */
  lemma {:induction false} InjectionsMakeOneMessage(messages: seq<Message>, injections: seq<Message>)
    requires injections != [] && AllUsers(injections)
    ensures Appended(messages, injections)
      == if messages != [] && messages[|messages| - 1].role.User?
         then messages[..|messages| - 1]
              + [messages[|messages| - 1].(content := MergedContent(messages[|messages| - 1].content, injections))]
         else messages + [injections[0].(content := MergedContent(injections[0].content, injections[1..]))]
  {
    var front, next := injections[..|injections| - 1], injections[|injections| - 1];
    if front == [] {
      assert injections[1..] == [];
      assert injections[..0] == [];
    } else {
      InjectionsMakeOneMessage(messages, front);
      assert injections[1..][..|injections[1..]| - 1] == front[1..];
    }
  }

  /** The whole shows the parts one after the other, with nothing or an empty line between two of them. */
  predicate InOrder(parts: seq<seq<Atom>>, whole: seq<Atom>)
    decreases |parts|
  {
    if parts == [] then whole == []
    else if |parts| == 1 then whole == parts[0]
    else
      var front, last := parts[..|parts| - 1], parts[|parts| - 1];
      var n := |whole| - |last|;
      && n >= 0 && whole[n..] == last
      && (InOrder(front, whole[..n]) || (n >= 2 && whole[n - 2..n] == Letters("\n\n") && InOrder(front, whole[..n - 2])))
  }

  function ShownAll(first: Content, more: seq<Message>): seq<seq<Atom>> {
    [Shown(first)] + seq(|more|, i requires 0 <= i < |more| => Shown(more[i].content))
  }

  lemma {:induction false} InOrderSnoc(parts: seq<seq<Atom>>, whole: seq<Atom>, last: seq<Atom>, between: seq<Atom>)
    requires parts != [] && InOrder(parts, whole) && (between == [] || between == Letters("\n\n"))
    ensures InOrder(parts + [last], whole + between + last)
  {
    var all, more := whole + between + last, parts + [last];
    var n := |all| - |last|;
    assert more[..|more| - 1] == parts && all[n..] == last && all[..n] == whole + between;
    if between == [] { assert all[..n] == whole; } else { assert all[n - 2..n] == between && all[..n - 2] == whole; }
  }

  /** The one user message shows what it ended in and then every injection, oldest first. */
  lemma {:induction false} InjectionsAreShownInOrder(first: Content, more: seq<Message>)
    ensures InOrder(ShownAll(first, more), Shown(MergedContent(first, more)))
  {
    if more != [] {
      var front, last := more[..|more| - 1], more[|more| - 1];
      InjectionsAreShownInOrder(first, front);
      MergeShowsBoth(MergedContent(first, front), last.content);
      assert ShownAll(first, more) == ShownAll(first, front) + [Shown(last.content)];
      var sofar := MergedContent(first, front);
      var between := if sofar.Text? && last.content.Text? && sofar.text != "" then Letters("\n\n") else [];
      InOrderSnoc(ShownAll(first, front), Shown(sofar), Shown(last.content), between);
    } else {
      assert ShownAll(first, more) == [Shown(first)];
    }
  }

  /** Roles keep alternating: a conversation without two user messages in a row stays one. */
  lemma {:induction false} InjectionKeepsAlternation(messages: seq<Message>, injections: seq<Message>)
    requires NoAdjacentUsers(messages) && AllUsers(injections)
    ensures NoAdjacentUsers(Appended(messages, injections))
  {
    if injections != [] {
      InjectionsMakeOneMessage(messages, injections);
      var out := Appended(messages, injections);
      var n := if messages != [] && messages[|messages| - 1].role.User? then |messages| - 1 else |messages|;
      assert forall i | 0 <= i < n :: out[i] == messages[i];
    }
  }

  // ----- One attempt -----

  /** An attempt takes from the queue only while fewer than five have, never loses what it takes, and lets
      the loop go on exactly when it has something to add; a goal reminder is free. */
  method TryDrainInjections(messages: seq<Message>, queue: seq<Content>, wait: Wait, cycles: nat, assistant: Option<Message>, goal: Option<Message>)
    returns (go: bool, cyclesAfter: nat, out: seq<Message>, rest: seq<Content>)
    requires wait.Woken? ==> wait.arrived != []
    ensures cycles >= CYCLES ==> rest == queue && cyclesAfter == cycles
    ensures cycles < CYCLES ==>
              var all := Offered(queue, wait);
              rest == all[Min(LIMIT, |all|)..] && cyclesAfter == if all == [] then cycles else cycles + 1
    ensures var all := if cycles < CYCLES then Offered(queue, wait) else [];
            var taken := if all != [] then AsUsers(all[..Min(LIMIT, |all|)])
                         else if goal.Some? && assistant.Some? then [goal.value] else [];
            && (go <==> taken != [])
            && out == if !go then messages else Appended(messages + (if assistant.Some? then [assistant.value] else []), taken)
  {
    var injections: seq<Message>;
    injections, rest, cyclesAfter, out := [], queue, cycles, messages;
    if cycles < CYCLES {
      var items;
      items, rest := DrainPendingMessages(queue, wait);
      injections := CapInjections(items);
    }
    var drained := injections != [];
    if !drained && goal.Some? && assistant.Some? { injections := [goal.value]; }
    if injections == [] { return false, cyclesAfter, out, rest; }
    if drained { cyclesAfter := cyclesAfter + 1; }
    if assistant.Some? { out := out + [assistant.value]; }
    assert out == messages + (if assistant.Some? then [assistant.value] else []);
    out := AppendInjectedMessages(out, injections);
    go := true;
  }
}
