/** Which entry the bounded lock map gives up: the idle one that was used longest ago. */
module LockRecency {
  import opened Messages
  import opened LockCache

  /** The latest step at which a request for the key came in, or -1. */
  function LastUse(labels: seq<Label>, key: Key): int {
    if labels == [] then -1
    else if labels[|labels| - 1] == Enter(key) then |labels| - 1
    else LastUse(labels[..|labels| - 1], key)
  }

  function KeyAt(s: State, i: nat): Key
    requires WellFormed(s) && i < |s.cache|
  {
    s.entries[s.cache[i]].key
  }

  /** The entries of the map stand in the order of their latest use. */
  ghost predicate ByRecency(s: State, labels: seq<Label>)
    requires WellFormed(s)
  {
    forall i, j | 0 <= i < j < |s.cache| :: LastUse(labels, KeyAt(s, i)) < LastUse(labels, KeyAt(s, j))
  }

  lemma {:induction false} LastUseBelow(labels: seq<Label>, key: Key)
    ensures LastUse(labels, key) < |labels|
  {
    if labels != [] { LastUseBelow(labels[..|labels| - 1], key); }
  }

  lemma {:induction false} LastUseNext(labels: seq<Label>, l: Label, key: Key)
    ensures LastUse(labels + [l], key) == if l == Enter(key) then |labels| else LastUse(labels, key)
  {
    assert (labels + [l])[..|labels|] == labels;
  }

  /** The map after a request for `key`: the entries that stay, in their order, and the key's entry last. */
  ghost predicate MovedBack(s: State, t: State, key: Key, kept: seq<nat>)
    requires WellFormed(s) && WellFormed(t)
  {
    && (forall i | 0 <= i < |kept| :: kept[i] < |s.cache| && KeyAt(s, kept[i]) != key)
    && (forall i, j | 0 <= i < j < |kept| :: kept[i] < kept[j])
    && |kept| <= |t.cache| <= |kept| + 1
    && (forall i | 0 <= i < |kept| :: t.cache[i] == s.cache[kept[i]] && KeyAt(t, i) == KeyAt(s, kept[i]))
    && (|t.cache| == |kept| + 1 ==> KeyAt(t, |kept|) == key)
  }

  lemma {:induction false} MovingKeepsRecency(s: State, t: State, key: Key, kept: seq<nat>, labels: seq<Label>)
    requires WellFormed(s) && WellFormed(t) && ByRecency(s, labels) && MovedBack(s, t, key, kept)
    ensures ByRecency(t, labels + [Enter(key)])
  {
    forall i, j | 0 <= i < j < |t.cache|
      ensures LastUse(labels + [Enter(key)], KeyAt(t, i)) < LastUse(labels + [Enter(key)], KeyAt(t, j))
    {
      LastUseNext(labels, Enter(key), KeyAt(t, i));
      LastUseNext(labels, Enter(key), KeyAt(t, j));
      LastUseBelow(labels, KeyAt(t, i));
    }
  }

  function All(n: nat): seq<nat> {
    seq(n, j requires 0 <= j < n => j)
  }

  /** All indices but one. */
  function Others(n: nat, i: nat): seq<nat>
    requires i < n
  {
    seq(n - 1, j requires 0 <= j < n - 1 => if j < i then j else j + 1)
  }

  lemma {:induction false} TakenOut(cache: seq<nat>, at: nat)
    requires at < |cache|
    ensures var moved := Without(cache, at) + [cache[at]];
            && |moved| == |cache| && moved[|cache| - 1] == cache[at]
            && forall i | 0 <= i < |cache| - 1 :: moved[i] == cache[Others(|cache|, at)[i]]
  {
  }

  lemma {:induction false} KnownMoves(s: State, key: Key, cap: nat) returns (kept: seq<nat>)
    requires WellFormed(s) && UniqueKeys(s) && Lookup(s, key) >= 0
    ensures WellFormed(Entered(s, key, cap)) && MovedBack(s, Entered(s, key, cap), key, kept)
  {
    kept := Others(|s.cache|, Lookup(s, key));
    TakenOut(s.cache, Lookup(s, key));
  }

  /** The entry that goes if the map is full: the first idle one, the new one included. */
  function Gone(s: State, key: Key): nat
    requires WellFormed(s)
  {
    FirstIdle(s.cache + [|s.entries|], s.entries + [Entry(key, 0, None)], 0)
  }

  lemma {:induction false} GoneIsFirstIdle(s: State, key: Key)
    requires WellFormed(s)
    ensures var gone := Gone(s, key);
            && gone <= |s.cache| && (gone < |s.cache| ==> Idle(s.entries[s.cache[gone]]))
            && forall j | 0 <= j < gone :: !Idle(s.entries[s.cache[j]])
  {
    var cache, entries := s.cache + [|s.entries|], s.entries + [Entry(key, 0, None)];
    assert Idle(entries[cache[|s.cache|]]);
    assert forall j | 0 <= j < |s.cache| :: entries[cache[j]] == s.entries[s.cache[j]];
  }

  /** A request for a new key puts it last; something goes if the map is full. */
  lemma {:induction false} NewEnters(s: State, key: Key, cap: nat)
    requires WellFormed(s) && |s.cache| <= cap && Lookup(s, key) < 0
    ensures var t := Entered(s, key, cap);
            && |t.entries| == |s.entries| + 1 && t.entries[|s.entries|].key == key
            && (forall e | 0 <= e < |s.entries| :: t.entries[e] == s.entries[e])
            && Gone(s, key) <= |s.cache|
            && t.cache == if |s.cache| < cap then s.cache + [|s.entries|] else Without(s.cache + [|s.entries|], Gone(s, key))
  {
    GoneIsFirstIdle(s, key);
    var entries, cache := s.entries + [Entry(key, 0, None)], s.cache + [|s.entries|];
    if |s.cache| == cap {
      assert Idle(entries[cache[cap]]);
      EnforcedOnce(cache, entries, cap);
    }
  }

  /** What stays of a list with a new element at its end when one is taken out. */
  lemma {:induction false} Dropping(cache: seq<nat>, x: nat, gone: nat)
    requires gone <= |cache|
    ensures var left := Without(cache + [x], gone);
            && (gone == |cache| ==> left == cache)
            && (gone < |cache| ==>
                  && |left| == |cache| && left[|cache| - 1] == x
                  && forall i | 0 <= i < |cache| - 1 :: left[i] == cache[Others(|cache|, gone)[i]])
  {
  }

  lemma {:induction false} NewMoves(s: State, t: State, key: Key, gone: Option<nat>) returns (kept: seq<nat>)
    requires WellFormed(s) && WellFormed(t) && Lookup(s, key) < 0
    requires |t.entries| == |s.entries| + 1 && t.entries[|s.entries|].key == key
    requires forall e | 0 <= e < |s.entries| :: t.entries[e] == s.entries[e]
    requires gone.Some? ==> gone.value <= |s.cache|
    requires t.cache == if gone.None? then s.cache + [|s.entries|] else Without(s.cache + [|s.entries|], gone.value)
    ensures MovedBack(s, t, key, kept)
  {
    if gone.Some? { Dropping(s.cache, |s.entries|, gone.value); }
    if gone.Some? && gone.value < |s.cache| {
      kept := Others(|s.cache|, gone.value);
    } else {
      kept := All(|s.cache|);
    }
    Keeping(s, t, key, kept);
  }

  /** Only the places have to be looked at: no entry that stays changes its key. */
  lemma {:induction false} Keeping(s: State, t: State, key: Key, kept: seq<nat>)
    requires WellFormed(s) && WellFormed(t) && Lookup(s, key) < 0
    requires |t.entries| == |s.entries| + 1 && t.entries[|s.entries|].key == key
    requires forall e | 0 <= e < |s.entries| :: t.entries[e] == s.entries[e]
    requires (forall i | 0 <= i < |kept| :: kept[i] < |s.cache|) && (forall i, j | 0 <= i < j < |kept| :: kept[i] < kept[j])
    requires |kept| <= |t.cache| <= |kept| + 1 && forall i | 0 <= i < |kept| :: t.cache[i] == s.cache[kept[i]]
    requires |t.cache| == |kept| + 1 ==> t.cache[|kept|] == |s.entries|
    ensures MovedBack(s, t, key, kept)
  {
  }

  lemma {:induction false} QuietSteps(s: State, l: Label, cap: nat)
    requires WellFormed(s) && Enabled(s, l) && !l.Enter?
    ensures var t := Apply(s, l, cap);
            WellFormed(t) && t.cache == s.cache && |t.entries| == |s.entries| && forall e | 0 <= e < |s.entries| :: t.entries[e].key == s.entries[e].key
  {
  }

  ghost predicate Shape(s: State, cap: nat) { WellFormed(s) && UniqueKeys(s) && |s.cache| <= cap }

  lemma {:induction false} RunHasShape(states: seq<State>, labels: seq<Label>, cap: nat, k: nat)
    requires Run(states, labels, cap) && k < |states|
    ensures Shape(states[k], cap)
  {
    RunKeepsInvariant(states, labels, cap, k);
  }

  lemma {:induction false} RunStep(states: seq<State>, labels: seq<Label>, cap: nat, k: nat)
    requires Run(states, labels, cap) && k < |labels|
    ensures WellFormed(states[k]) && Enabled(states[k], labels[k]) && states[k + 1] == Apply(states[k], labels[k], cap)
  {
  }

  lemma {:induction false} StepKeepsRecency(s: State, l: Label, labels: seq<Label>, cap: nat)
    requires Shape(s, cap) && Enabled(s, l) && ByRecency(s, labels) && WellFormed(Apply(s, l, cap))
    ensures ByRecency(Apply(s, l, cap), labels + [l])
  {
    if l.Enter? {
      var kept;
      if Lookup(s, l.key) >= 0 {
        kept := KnownMoves(s, l.key, cap);
      } else {
        NewEnters(s, l.key, cap);
        kept := NewMoves(s, Entered(s, l.key, cap), l.key, if |s.cache| < cap then None else Some(Gone(s, l.key)));
      }
      MovingKeepsRecency(s, Entered(s, l.key, cap), l.key, kept, labels);
    } else {
      var t := Apply(s, l, cap);
      QuietSteps(s, l, cap);
      forall i, j | 0 <= i < j < |t.cache| ensures LastUse(labels + [l], KeyAt(t, i)) < LastUse(labels + [l], KeyAt(t, j)) {
        LastUseNext(labels, l, KeyAt(t, i));
        LastUseNext(labels, l, KeyAt(t, j));
        assert KeyAt(t, i) == KeyAt(s, i) && KeyAt(t, j) == KeyAt(s, j);
      }
    }
  }

  ghost predicate Recent(s: State, labels: seq<Label>) { WellFormed(s) && ByRecency(s, labels) }

  lemma {:induction false} NextIsRecent(states: seq<State>, labels: seq<Label>, cap: nat, k: nat, before: seq<Label>, after: seq<Label>)
    requires Run(states, labels, cap) && k < |labels| && Recent(states[k], before) && after == before + [labels[k]]
    ensures Recent(states[k + 1], after)
  {
    RunHasShape(states, labels, cap, k);
    RunHasShape(states, labels, cap, k + 1);
    RunStep(states, labels, cap, k);
    StepKeepsRecency(states[k], labels[k], before, cap);
  }

  /** In every run the entries of the map stand in the order of their latest use. */
  lemma {:induction false} MapIsByRecency(states: seq<State>, labels: seq<Label>, cap: nat, k: nat)
    requires Run(states, labels, cap) && k < |states|
    ensures Recent(states[k], labels[..k])
  {
    if k > 0 {
      MapIsByRecency(states, labels, cap, k - 1);
      assert labels[..k] == labels[..k - 1] + [labels[k - 1]];
      NextIsRecent(states, labels, cap, k - 1, labels[..k - 1], labels[..k]);
    } else {
      assert states[0] == EMPTY;
    }
  }

  /** What a request pushes out of the map is idle, and each entry that was used longer ago is not. */
  lemma {:induction false} LeastRecentIdleGoes(states: seq<State>, labels: seq<Label>, cap: nat, k: nat, i: nat)
    requires Run(states, labels, cap) && k < |labels| && i < |states[k].cache| && states[k].cache[i] !in states[k + 1].cache
    ensures var s := states[k];
            && WellFormed(s) && Idle(s.entries[s.cache[i]])
            && forall j | 0 <= j < |s.cache| && LastUse(labels[..k], KeyAt(s, j)) < LastUse(labels[..k], KeyAt(s, i)) :: !Idle(s.entries[s.cache[j]])
  {
    var s, l := states[k], labels[k];
    RunHasShape(states, labels, cap, k);
    MapIsByRecency(states, labels, cap, k);
    assert states[k + 1] == Apply(s, l, cap);
    if l.Enter? {
      if Lookup(s, l.key) >= 0 {
        KnownStay(s, l.key, cap, i);
        assert false;
      } else {
        NewEnters(s, l.key, cap);
        GoneIsFirstIdle(s, l.key);
        OnlyGone(s.cache + [|s.entries|], Gone(s, l.key), i);
        OnlyOlder(s, labels[..k], i);
      }
    } else {
      QuietSteps(s, l, cap);
      assert false;
    }
  }

  lemma {:induction false} KnownStay(s: State, key: Key, cap: nat, i: nat)
    requires WellFormed(s) && Lookup(s, key) >= 0 && i < |s.cache|
    ensures s.cache[i] in Entered(s, key, cap).cache
  {
    var at := Lookup(s, key);
    var moved := Without(s.cache, at) + [s.cache[at]];
    if i < at { assert moved[i] == s.cache[i]; } else if i > at { assert moved[i - 1] == s.cache[i]; } else { assert moved[|s.cache| - 1] == s.cache[i]; }
  }

  lemma {:induction false} OnlyGone(cache: seq<nat>, gone: nat, i: nat)
    requires gone < |cache| && i < |cache|
    ensures cache[i] in cache && (i != gone ==> cache[i] in Without(cache, gone))
  {
    if i < gone { assert Without(cache, gone)[i] == cache[i]; }
    if i > gone { assert Without(cache, gone)[i - 1] == cache[i]; }
  }

  lemma {:induction false} OnlyOlder(s: State, labels: seq<Label>, i: nat)
    requires WellFormed(s) && ByRecency(s, labels) && i < |s.cache|
    ensures forall j | 0 <= j < |s.cache| && LastUse(labels, KeyAt(s, j)) < LastUse(labels, KeyAt(s, i)) :: j < i
  {
  }
}
