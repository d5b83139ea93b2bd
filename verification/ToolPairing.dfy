/** Tool calls and their results in a message list, and the pass that drops results without a call
    (`drop_orphan_tool_results` in erza/agent/runner_strategies.py). */
module ToolPairing {
  import opened Messages
  import opened Sublists

  // ----- Declarations and answers -----

  /** The identifiers that one entry declares. */
  function DeclaredBy(m: Message): set<string> {
    if m.role.Assistant? then set c | c in m.toolCalls && c.Call? && c.id != "" :: c.id else {}
  }

  function DeclaredIn(ms: seq<Message>): set<string> {
    if ms == [] then {} else DeclaredIn(ms[..|ms| - 1]) + DeclaredBy(ms[|ms| - 1])
  }

  predicate Identified(m: Message) {
    m.role.Tool? && m.toolCallId != ""
  }

  /** The identifiers answered by some tool result of the list. */
  function Fulfilled(ms: seq<Message>): set<string> {
    set m | m in ms && Identified(m) :: m.toolCallId
  }

  predicate Orphan(ms: seq<Message>, i: nat)
    requires i < |ms|
  {
    Identified(ms[i]) && ms[i].toolCallId !in DeclaredIn(ms[..i])
  }

  /** Every identified tool result stands after an entry that declares it. */
  ghost predicate Preceded(ms: seq<Message>) {
    forall i: nat | i < |ms| :: !Orphan(ms, i)
  }

  /** Every declared identifier has a result somewhere in the list. */
  ghost predicate Answered(ms: seq<Message>) {
    DeclaredIn(ms) <= Fulfilled(ms)
  }

  ghost predicate Paired(ms: seq<Message>) {
    Preceded(ms) && Answered(ms)
  }

  /** No identifier is declared by two entries. */
  ghost predicate UniqueIds(ms: seq<Message>) {
    forall i: nat, j: nat | i < j < |ms| :: DeclaredBy(ms[i]) !! DeclaredBy(ms[j])
  }

  lemma {:induction false} DeclaredInAppend(a: seq<Message>, b: seq<Message>)
    ensures DeclaredIn(a + b) == DeclaredIn(a) + DeclaredIn(b)
  {
    if b == [] {
      assert a + b == a;
    } else {
      assert (a + b)[..|a + b| - 1] == a + b[..|b| - 1];
      DeclaredInAppend(a, b[..|b| - 1]);
    }
  }

  lemma {:induction false} DeclaredInWitness(ms: seq<Message>, id: string) returns (i: nat)
    requires id in DeclaredIn(ms)
    ensures i < |ms| && id in DeclaredBy(ms[i])
  {
    if id in DeclaredBy(ms[|ms| - 1]) {
      i := |ms| - 1;
    } else {
      i := DeclaredInWitness(ms[..|ms| - 1], id);
    }
  }

  lemma {:induction false} DeclaredInMember(ms: seq<Message>, i: nat)
    requires i < |ms|
    ensures DeclaredBy(ms[i]) <= DeclaredIn(ms)
  {
    assert ms == ms[..i] + [ms[i]] + ms[i + 1..];
    DeclaredInAppend(ms[..i] + [ms[i]], ms[i + 1..]);
    DeclaredInAppend(ms[..i], [ms[i]]);
    assert [ms[i]][..0] == [];
  }

  lemma {:induction false} DeclaredInSnoc(ms: seq<Message>, i: nat)
    requires i < |ms|
    ensures DeclaredIn(ms[..i + 1]) == DeclaredIn(ms[..i]) + DeclaredBy(ms[i])
  {
    assert ms[..i + 1][..i] == ms[..i];
  }

  // ----- Dropping orphaned results -----

  /** The list without its orphaned tool results. */
  function Dropped(ms: seq<Message>): seq<Message> {
    if ms == [] then []
    else
      var front := Dropped(ms[..|ms| - 1]);
      if Orphan(ms, |ms| - 1) then front else front + [ms[|ms| - 1]]
  }

  lemma {:induction false} DroppedSnoc(ms: seq<Message>, i: nat)
    requires i < |ms|
    ensures Dropped(ms[..i + 1]) == Dropped(ms[..i]) + if Orphan(ms, i) then [] else [ms[i]]
  {
    assert ms[..i + 1][..i] == ms[..i];
  }

  /** One more entry, with what is declared up to and including it. */
  lemma {:induction false} DroppedNext(ms: seq<Message>, i: nat)
    requires i < |ms|
    ensures var m, declared := ms[i], DeclaredIn(ms[..i + 1]);
            && declared == (if m.role.Assistant? then DeclaredIn(ms[..i]) + DeclaredBy(m) else DeclaredIn(ms[..i]))
            && Dropped(ms[..i + 1])
               == (if m.role.Tool? && m.toolCallId != "" && m.toolCallId !in declared then Dropped(ms[..i]) else Dropped(ms[..i]) + [m])
  {
    DeclaredInSnoc(ms, i);
    DroppedSnoc(ms, i);
  }

  method DropOrphanToolResults(messages: seq<Message>) returns (result: seq<Message>)
    ensures result == Dropped(messages)
  {
    var declared: set<string> := {};
    var updated: Option<seq<Message>> := None;
    for idx := 0 to |messages|
      invariant declared == DeclaredIn(messages[..idx])
      invariant Dropped(messages[..idx]) == if updated.Some? then updated.value else messages[..idx]
    {
      var msg := messages[idx];
      DroppedNext(messages, idx);
      assert messages[..idx + 1] == messages[..idx] + [msg];
      if msg.role.Assistant? {
        declared := declared + DeclaredBy(msg);
      }
      if msg.role.Tool? && msg.toolCallId != "" && msg.toolCallId !in declared {
        if updated.None? {
          updated := Some(messages[..idx]);
        }
        continue;
      }
      if updated.Some? {
        updated := Some(updated.value + [msg]);
      }
    }
    assert messages[..|messages|] == messages;
    result := if updated.Some? then updated.value else messages;
  }

  lemma {:induction false} DroppedKeepsDeclarations(ms: seq<Message>)
    ensures DeclaredIn(Dropped(ms)) == DeclaredIn(ms)
  {
    if ms != [] {
      DroppedKeepsDeclarations(ms[..|ms| - 1]);
      var front := Dropped(ms[..|ms| - 1]);
      if !Orphan(ms, |ms| - 1) {
        DeclaredInAppend(front, [ms[|ms| - 1]]);
        DeclaredInAppend(ms[..|ms| - 1], [ms[|ms| - 1]]);
        assert ms == ms[..|ms| - 1] + [ms[|ms| - 1]];
      }
    }
  }

  lemma {:induction false} PrecededAppend(ms: seq<Message>, m: Message)
    requires Preceded(ms)
    requires Identified(m) ==> m.toolCallId in DeclaredIn(ms)
    ensures Preceded(ms + [m])
  {
    forall i: nat | i < |ms + [m]| ensures !Orphan(ms + [m], i) {
      assert (ms + [m])[..i] == ms[..i];
      if i < |ms| {
        assert !Orphan(ms, i);
      } else {
        assert ms[..i] == ms;
      }
    }
  }

  lemma {:induction false} PrecededPrefix(ms: seq<Message>, n: nat)
    requires Preceded(ms) && n <= |ms|
    ensures Preceded(ms[..n])
  {
    forall i: nat | i < n ensures !Orphan(ms[..n], i) {
      assert ms[..n][..i] == ms[..i];
      assert !Orphan(ms, i);
    }
  }

  /** Every tool result that survives stands after its declaration. */
  lemma {:induction false} DroppedIsPreceded(ms: seq<Message>)
    ensures Preceded(Dropped(ms))
  {
    if ms != [] {
      var front := ms[..|ms| - 1];
      DroppedIsPreceded(front);
      DroppedKeepsDeclarations(front);
      if !Orphan(ms, |ms| - 1) {
        PrecededAppend(Dropped(front), ms[|ms| - 1]);
      }
    }
  }

  /** Dropping changes nothing exactly when no result is orphaned. */
  lemma {:induction false} DroppedFixpoint(ms: seq<Message>)
    ensures Dropped(ms) == ms <==> Preceded(ms)
  {
    if Dropped(ms) == ms {
      DroppedIsPreceded(ms);
    }
    if Preceded(ms) && ms != [] {
      PrecededPrefix(ms, |ms| - 1);
      DroppedFixpoint(ms[..|ms| - 1]);
      assert !Orphan(ms, |ms| - 1);
    }
  }

  lemma {:induction false} DropIsIdempotent(ms: seq<Message>)
    ensures Dropped(Dropped(ms)) == Dropped(ms)
  {
    DroppedIsPreceded(ms);
    DroppedFixpoint(Dropped(ms));
  }

  lemma {:induction false} SublistDeclares(sub: seq<Message>, ms: seq<Message>)
    requires Sublist(sub, ms)
    ensures DeclaredIn(sub) <= DeclaredIn(ms)
  {
    if ms != [] {
      if Sublist(sub, ms[..|ms| - 1]) {
        SublistDeclares(sub, ms[..|ms| - 1]);
      } else {
        SublistDeclares(sub[..|sub| - 1], ms[..|ms| - 1]);
      }
    }
  }

  /** Nothing is dropped needlessly: the result is itself obtained by deleting entries, and it
      contains every sub-list in which all results stand after their declarations. */
  lemma {:induction false} DroppedIsLargest(sub: seq<Message>, ms: seq<Message>)
    requires Sublist(sub, ms) && Preceded(sub)
    ensures Sublist(Dropped(ms), ms) && Sublist(sub, Dropped(ms))
  {
    if ms != [] {
      var front := ms[..|ms| - 1];
      var last := ms[|ms| - 1];
      if Sublist(sub, front) {
        DroppedIsLargest(sub, front);
        if !Orphan(ms, |ms| - 1) {
          assert Dropped(ms)[..|Dropped(ms)| - 1] == Dropped(front);
        }
      } else {
        var init := sub[..|sub| - 1];
        PrecededPrefix(sub, |sub| - 1);
        DroppedIsLargest(init, front);
        SublistDeclares(init, front);
        assert !Orphan(sub, |sub| - 1);
        assert !Orphan(ms, |ms| - 1);
        assert Dropped(ms)[..|Dropped(ms)| - 1] == Dropped(front);
      }
    }
  }
}
