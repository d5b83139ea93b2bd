/** The session locks of the HTTP interface: a bounded, least-recently-used map of counted locks. */
module LockCache {
  import opened Messages

  type Key = string

  const MAX_SESSION_LOCKS: nat := 1000

  /** `users` counts the requests that hold a reference; `holder` is the request that holds the lock. */
  datatype Entry = Entry(key: Key, users: nat, holder: Option<nat>)

  datatype Stage = Waiting | Processing | Closing | Gone

  datatype Request = Request(key: Key, entry: nat, stage: Stage)

  /** `cache` lists the entries of the map, least recently used first; entries and requests are numbered. */
  datatype State = State(cache: seq<nat>, entries: seq<Entry>, requests: seq<Request>)

  datatype Label =
    | Enter(key: Key)
    | Acquire(r: nat)
    | Release(r: nat)
    | Leave(r: nat)       // also when a request is cancelled while it waits

  const EMPTY := State([], [], [])

  predicate Idle(e: Entry) { e.users == 0 && e.holder.None? }

  /** The position of the key in the map, or -1. */
  function Lookup(s: State, key: Key): (i: int)
    requires forall j | 0 <= j < |s.cache| :: s.cache[j] < |s.entries|
    ensures -1 <= i < |s.cache|
    ensures 0 <= i ==> s.entries[s.cache[i]].key == key
    ensures i < 0 ==> forall j | 0 <= j < |s.cache| :: s.entries[s.cache[j]].key != key
    decreases |s.cache|
  {
    if s.cache == [] then -1
    else if s.entries[s.cache[|s.cache| - 1]].key == key then |s.cache| - 1
    else Lookup(s.(cache := s.cache[..|s.cache| - 1]), key)
  }

  predicate WellFormed(s: State) {
    && (forall j | 0 <= j < |s.cache| :: s.cache[j] < |s.entries|)
    && (forall r | 0 <= r < |s.requests| :: s.requests[r].entry < |s.entries|)
  }

  /** The first idle entry of the map, or its length. */
  function FirstIdle(cache: seq<nat>, entries: seq<Entry>, from: nat): (i: nat)
    requires from <= |cache| && forall j | 0 <= j < |cache| :: cache[j] < |entries|
    ensures from <= i <= |cache|
    ensures i < |cache| ==> Idle(entries[cache[i]])
    ensures forall j | from <= j < i :: !Idle(entries[cache[j]])
    decreases |cache| - from
  {
    if from == |cache| || Idle(entries[cache[from]]) then from else FirstIdle(cache, entries, from + 1)
  }

  function Without(cache: seq<nat>, i: nat): seq<nat>
    requires i < |cache|
  {
    cache[..i] + cache[i + 1..]
  }

  /** The oldest idle entry goes while the map is too large; if none is idle nothing goes. */
  function Enforced(cache: seq<nat>, entries: seq<Entry>, cap: nat): seq<nat>
    requires forall j | 0 <= j < |cache| :: cache[j] < |entries|
    decreases |cache|
  {
    if |cache| <= cap then cache
    else
      var i := FirstIdle(cache, entries, 0);
      if i == |cache| then cache else Enforced(Without(cache, i), entries, cap)
  }

  function Joined(s: State, e: nat, key: Key): State
    requires e < |s.entries|
  {
    s.(entries := s.entries[e := s.entries[e].(users := s.entries[e].users + 1)],
       requests := s.requests + [Request(key, e, Waiting)])
  }

  function Entered(s: State, key: Key, cap: nat): State
    requires WellFormed(s)
  {
    var i := Lookup(s, key);
    if i >= 0 then
      Joined(s.(cache := Without(s.cache, i) + [s.cache[i]]), s.cache[i], key)
    else
      var e := |s.entries|;
      var entries := s.entries + [Entry(key, 0, None)];
      Joined(s.(cache := Enforced(s.cache + [e], entries, cap), entries := entries), e, key)
  }

  predicate Enabled(s: State, l: Label)
    requires WellFormed(s)
  {
    match l
    case Enter(_) => true
    case Acquire(r) => r < |s.requests| && s.requests[r].stage.Waiting? && s.entries[s.requests[r].entry].holder.None?
    case Release(r) => r < |s.requests| && s.requests[r].stage.Processing?
    case Leave(r) => r < |s.requests| && (s.requests[r].stage.Waiting? || s.requests[r].stage.Closing?)
  }

  function Apply(s: State, l: Label, cap: nat): State
    requires WellFormed(s) && Enabled(s, l)
  {
    match l
    case Enter(key) => Entered(s, key, cap)
    case Acquire(r) => Moved(s, r, Processing, s.entries[s.requests[r].entry].(holder := Some(r)))
    case Release(r) => Moved(s, r, Closing, s.entries[s.requests[r].entry].(holder := None))
    case Leave(r) => Moved(s, r, Gone, s.entries[s.requests[r].entry].(users := NonNegative(s.entries[s.requests[r].entry].users - 1)))
  }

  function NonNegative(n: int): nat { if n < 0 then 0 else n }

  function Moved(s: State, r: nat, stage: Stage, entry: Entry): State
    requires r < |s.requests| && s.requests[r].entry < |s.entries|
  {
    s.(requests := s.requests[r := s.requests[r].(stage := stage)], entries := s.entries[s.requests[r].entry := entry])
  }

  // ----- The map object -----

  class SessionLocks {
    var cache: seq<nat>
    var entries: seq<Entry>
    var requests: seq<Request>

    constructor ()
      ensures Snapshot() == EMPTY
    {
      cache, entries, requests := [], [], [];
    }

    function Snapshot(): State
      reads this
    {
      State(cache, entries, requests)
    }

    method EnforceLimit()
      requires WellFormed(Snapshot())
      modifies this`cache
      ensures cache == Enforced(old(cache), entries, MAX_SESSION_LOCKS)
    {
      while |cache| > MAX_SESSION_LOCKS
        invariant forall j | 0 <= j < |cache| :: cache[j] < |entries|
        invariant Enforced(cache, entries, MAX_SESSION_LOCKS) == Enforced(old(cache), entries, MAX_SESSION_LOCKS)
        decreases |cache|
      {
        var i := 0;
        while i < |cache| && !Idle(entries[cache[i]])
          invariant 0 <= i <= |cache|
          invariant FirstIdle(cache, entries, i) == FirstIdle(cache, entries, 0)
        {
          i := i + 1;
        }
        if i == |cache| { break; }
        cache := Without(cache, i);
      }
    }

    /** A request finds or makes its entry and holds on to it before it waits for the lock. */
    method EnterRequest(key: Key) returns (r: nat)
      requires WellFormed(Snapshot())
      modifies this
      ensures Snapshot() == Apply(old(Snapshot()), Enter(key), MAX_SESSION_LOCKS) && r == |old(requests)|
    {
      var i := Lookup(Snapshot(), key);
      var e: nat;
      if i < 0 {
        e := |entries|;
        entries := entries + [Entry(key, 0, None)];
        cache := cache + [e];
        EnforceLimit();
      } else {
        e := cache[i];
        cache := Without(cache, i) + [e];
      }
      entries := entries[e := entries[e].(users := entries[e].users + 1)];
      r := |requests|;
      requests := requests + [Request(key, e, Waiting)];
    }
  }

  // ----- Invariant -----

  predicate InFlight(r: Request) { !r.stage.Gone? }

  function Users(requests: seq<Request>, e: nat): nat {
    if requests == [] then 0
    else Users(requests[..|requests| - 1], e)
         + if requests[|requests| - 1].entry == e && InFlight(requests[|requests| - 1]) then 1 else 0
  }

  lemma {:induction false} UsersMoved(requests: seq<Request>, r: nat, stage: Stage, e: nat)
    requires r < |requests|
    ensures Users(requests[r := requests[r].(stage := stage)], e)
            + (if requests[r].entry == e && InFlight(requests[r]) then 1 else 0)
            == Users(requests, e) + (if requests[r].entry == e && !stage.Gone? then 1 else 0)
  {
    var n, moved := |requests| - 1, requests[r := requests[r].(stage := stage)];
    if r == n {
      assert moved[..n] == requests[..n];
    } else {
      assert moved[..n] == requests[..n][r := requests[r].(stage := stage)];
      UsersMoved(requests[..n], r, stage, e);
    }
  }

  lemma {:induction false} UsersSnoc(requests: seq<Request>, r: Request, e: nat)
    ensures Users(requests + [r], e) == Users(requests, e) + if r.entry == e && InFlight(r) then 1 else 0
  {
    assert (requests + [r])[..|requests|] == requests;
  }

  lemma {:induction false} NoUsers(requests: seq<Request>, e: nat)
    requires forall r | 0 <= r < |requests| :: requests[r].entry != e
    ensures Users(requests, e) == 0
  {
    if requests != [] { NoUsers(requests[..|requests| - 1], e); }
  }

  /** A counted entry has a request in flight, and an entry that is not counted has none. */
  lemma {:induction false} SomeUser(requests: seq<Request>, e: nat) returns (r: nat)
    requires Users(requests, e) > 0
    ensures r < |requests| && requests[r].entry == e && InFlight(requests[r])
  {
    r := |requests| - 1;
    if !(requests[r].entry == e && InFlight(requests[r])) { r := SomeUser(requests[..r], e); }
  }

  lemma {:induction false} UserCounts(requests: seq<Request>, r: nat)
    requires r < |requests| && InFlight(requests[r])
    ensures Users(requests, requests[r].entry) > 0
  {
    if r < |requests| - 1 { UserCounts(requests[..|requests| - 1], r); }
  }

  predicate UniqueKeys(s: State)
    requires WellFormed(s)
  {
    forall i, j | 0 <= i < j < |s.cache| :: s.entries[s.cache[i]].key != s.entries[s.cache[j]].key
  }

  ghost predicate Locking(s: State)
    requires WellFormed(s)
  {
    && (forall r | 0 <= r < |s.requests| :: s.entries[s.requests[r].entry].key == s.requests[r].key)
    && (forall r | 0 <= r < |s.requests| :: s.requests[r].stage.Processing? ==> s.entries[s.requests[r].entry].holder == Some(r))
    && (forall e | 0 <= e < |s.entries| :: s.entries[e].holder.Some? ==>
          s.entries[e].holder.value < |s.requests| && s.requests[s.entries[e].holder.value].stage.Processing?
          && s.requests[s.entries[e].holder.value].entry == e)
  }

  ghost predicate Counted(s: State) {
    forall e | 0 <= e < |s.entries| :: s.entries[e].users == Users(s.requests, e)
  }

  ghost predicate Invariant(s: State, cap: nat) {
    WellFormed(s) && |s.cache| <= cap && UniqueKeys(s) && Locking(s) && Counted(s)
  }

  /** Every request in flight uses the entry that the map has for its key. */
  ghost predicate Covered(s: State) {
    forall r | 0 <= r < |s.requests| :: InFlight(s.requests[r]) ==> s.requests[r].entry in s.cache
  }

  lemma {:induction false} MoveKeeps(s: State, l: Label, cap: nat)
    requires Invariant(s, cap) && Enabled(s, l) && !l.Enter?
    ensures Invariant(Apply(s, l, cap), cap)
    ensures Covered(s) ==> Covered(Apply(s, l, cap))
  {
    var r, t := l.r, Apply(s, l, cap);
    if l.Leave? { UserCounts(s.requests, r); }
    forall e | 0 <= e < |t.entries| ensures t.entries[e].users == Users(t.requests, e) {
      UsersMoved(s.requests, r, t.requests[r].stage, e);
    }
  }

  /** The one eviction that a new entry can cause. */
  lemma {:induction false} EnforcedOnce(cache: seq<nat>, entries: seq<Entry>, cap: nat)
    requires forall j | 0 <= j < |cache| :: cache[j] < |entries|
    requires |cache| == cap + 1 && Idle(entries[cache[cap]])
    ensures var i := FirstIdle(cache, entries, 0); i <= cap && Enforced(cache, entries, cap) == Without(cache, i)
  {
  }

  lemma {:induction false} JoinKeeps(s: State, e: nat, key: Key, cap: nat)
    requires Invariant(s, cap) && e < |s.entries| && s.entries[e].key == key
    ensures Invariant(Joined(s, e, key), cap)
    ensures Covered(s) ==> (Covered(Joined(s, e, key)) <==> e in s.cache)
  {
    var t := Joined(s, e, key);
    forall d | 0 <= d < |t.entries| ensures t.entries[d].users == Users(t.requests, d) {
      UsersSnoc(s.requests, Request(key, e, Waiting), d);
    }
    assert forall r | 0 <= r < |s.requests| :: t.requests[r] == s.requests[r];
    assert t.requests[|s.requests|] == Request(key, e, Waiting);
  }

  lemma {:induction false} TouchKeeps(s: State, i: nat, cap: nat)
    requires Invariant(s, cap) && i < |s.cache|
    ensures Invariant(s.(cache := Without(s.cache, i) + [s.cache[i]]), cap)
    ensures Covered(s) ==> Covered(s.(cache := Without(s.cache, i) + [s.cache[i]]))
  {
    var touched := Without(s.cache, i) + [s.cache[i]];
    forall e | e in s.cache ensures e in touched {
      var j :| 0 <= j < |s.cache| && s.cache[j] == e;
      assert touched[if j < i then j else if j == i then |s.cache| - 1 else j - 1] == e;
    }
  }

  function Grown(s: State, key: Key): State {
    s.(cache := s.cache + [|s.entries|], entries := s.entries + [Entry(key, 0, None)])
  }

  lemma {:induction false} GrowKeeps(s: State, key: Key, cap: nat)
    requires Invariant(s, cap) && Lookup(s, key) < 0
    ensures Invariant(Grown(s, key), cap + 1) && (Covered(s) ==> Covered(Grown(s, key)))
  {
    NoUsers(s.requests, |s.entries|);
  }

  /** Evicting an idle entry leaves every request in flight its own. */
  lemma {:induction false} EvictKeeps(s: State, i: nat, cap: nat)
    requires Invariant(s, cap + 1) && |s.cache| == cap + 1 && i < |s.cache| && Idle(s.entries[s.cache[i]])
    ensures Invariant(s.(cache := Without(s.cache, i)), cap)
    ensures Covered(s) ==> Covered(s.(cache := Without(s.cache, i)))
  {
    if Covered(s) {
      forall r | 0 <= r < |s.requests| && InFlight(s.requests[r]) ensures s.requests[r].entry in Without(s.cache, i) {
        UserCounts(s.requests, r);
        var j :| 0 <= j < |s.cache| && s.cache[j] == s.requests[r].entry;
        assert Without(s.cache, i)[if j < i then j else j - 1] == s.cache[j];
      }
    }
  }

  lemma {:induction false} MissWithRoom(s: State, key: Key, cap: nat)
    requires Invariant(s, cap) && Lookup(s, key) < 0 && |s.cache| < cap
    ensures Invariant(Entered(s, key, cap), cap) && (Covered(s) ==> Covered(Entered(s, key, cap)))
  {
    var g := Grown(s, key);
    GrowKeeps(s, key, cap);
    JoinKeeps(g, |s.entries|, key, cap);
    assert g.cache[|s.cache|] == |s.entries|;
  }

  lemma {:induction false} MissWhenFull(s: State, key: Key, cap: nat)
    requires Invariant(s, cap) && Lookup(s, key) < 0 && |s.cache| == cap
    ensures Invariant(Entered(s, key, cap), cap)
    ensures Covered(s) ==> (Covered(Entered(s, key, cap)) <==> FirstIdle(s.cache, s.entries, 0) < |s.cache|)
  {
    var e, g := |s.entries|, Grown(s, key);
    GrowKeeps(s, key, cap);
    EnforcedOnce(g.cache, g.entries, cap);
    var i := FirstIdle(g.cache, g.entries, 0);
    EvictKeeps(g, i, cap);
    JoinKeeps(g.(cache := Without(g.cache, i)), e, key, cap);
    SameFirstIdle(s, key, 0);
    LastAfterEviction(s.cache, e, i);
  }

  lemma {:induction false} LastAfterEviction(cache: seq<nat>, e: nat, i: nat)
    requires i <= |cache| && e !in cache
    ensures e in Without(cache + [e], i) <==> i < |cache|
  {
    if i < |cache| { assert Without(cache + [e], i)[|cache| - 1] == e; } else { assert Without(cache + [e], i) == cache; }
  }

  lemma {:induction false} SameFirstIdle(s: State, key: Key, from: nat)
    requires WellFormed(s) && from <= |s.cache|
    ensures FirstIdle(Grown(s, key).cache, Grown(s, key).entries, from) == FirstIdle(s.cache, s.entries, from)
    decreases |s.cache| - from
  {
    if from < |s.cache| { SameFirstIdle(s, key, from + 1); }
  }

  /** A new request keeps the map complete if and only if its key is there, or there is room, or another
      entry is idle. Otherwise the new entry is itself the only idle one, and is evicted at once. */
  lemma {:induction false} EnterKeepsCoverExactly(s: State, key: Key, cap: nat)
    requires Invariant(s, cap)
    ensures Invariant(Entered(s, key, cap), cap)
    ensures Covered(s) ==> (Covered(Entered(s, key, cap)) <==>
                            Lookup(s, key) >= 0 || |s.cache| < cap || FirstIdle(s.cache, s.entries, 0) < |s.cache|)
  {
    var i := Lookup(s, key);
    if i < 0 {
      if |s.cache| < cap { MissWithRoom(s, key, cap); } else { MissWhenFull(s, key, cap); }
    } else {
      TouchKeeps(s, i, cap);
      var t := s.(cache := Without(s.cache, i) + [s.cache[i]]);
      assert t.cache[|t.cache| - 1] == s.cache[i];
      JoinKeeps(t, s.cache[i], key, cap);
    }
  }

  // ----- Counting the keys in flight -----

  function KeysInFlight(s: State): set<Key> {
    set r | 0 <= r < |s.requests| && InFlight(s.requests[r]) :: s.requests[r].key
  }

  function KeysOf(s: State, n: nat): set<Key>
    requires WellFormed(s) && n <= |s.cache|
  {
    if n == 0 then {} else KeysOf(s, n - 1) + {s.entries[s.cache[n - 1]].key}
  }

  lemma {:induction false} KeysOfMembers(s: State, n: nat, key: Key)
    requires WellFormed(s) && n <= |s.cache| && key in KeysOf(s, n)
    ensures exists i :: 0 <= i < n && s.entries[s.cache[i]].key == key
  {
    if s.entries[s.cache[n - 1]].key != key { KeysOfMembers(s, n - 1, key); }
  }

  lemma {:induction false} KeysOfCount(s: State, n: nat)
    requires WellFormed(s) && UniqueKeys(s) && n <= |s.cache|
    ensures |KeysOf(s, n)| == n
  {
    if n > 0 {
      KeysOfCount(s, n - 1);
      var key := s.entries[s.cache[n - 1]].key;
      if key in KeysOf(s, n - 1) { KeysOfMembers(s, n - 1, key); }
    }
  }

  /** A full map without an idle entry has as many keys in flight as it has entries. */
  lemma {:induction false} BusyCacheNeedsKeys(s: State, cap: nat)
    requires Invariant(s, cap) && FirstIdle(s.cache, s.entries, 0) == |s.cache|
    ensures |KeysInFlight(s)| >= |s.cache|
  {
    forall key | key in KeysOf(s, |s.cache|) ensures key in KeysInFlight(s) {
      KeysOfMembers(s, |s.cache|, key);
      var i :| 0 <= i < |s.cache| && s.entries[s.cache[i]].key == key;
      var e := s.cache[i];
      assert !Idle(s.entries[e]);
      var r := if s.entries[e].holder.Some? then s.entries[e].holder.value else 0;
      if s.entries[e].holder.None? { r := SomeUser(s.requests, e); }
      assert InFlight(s.requests[r]) && s.requests[r].key == key;
    }
    KeysOfCount(s, |s.cache|);
    assert KeysInFlight(s) == KeysOf(s, |s.cache|) + (KeysInFlight(s) - KeysOf(s, |s.cache|));
  }

  // ----- Whole runs -----

  ghost predicate Run(states: seq<State>, labels: seq<Label>, cap: nat) {
    && |states| == |labels| + 1
    && states[0] == EMPTY
    && forall k | 0 <= k < |labels| :: WellFormed(states[k]) && Enabled(states[k], labels[k]) && states[k + 1] == Apply(states[k], labels[k], cap)
  }

  lemma {:induction false} RunKeepsInvariant(states: seq<State>, labels: seq<Label>, cap: nat, k: nat)
    requires Run(states, labels, cap) && k < |states|
    ensures Invariant(states[k], cap)
  {
    if k > 0 {
      RunKeepsInvariant(states, labels, cap, k - 1);
      if labels[k - 1].Enter? {
        EnterKeepsCoverExactly(states[k - 1], labels[k - 1].key, cap);
      } else {
        MoveKeeps(states[k - 1], labels[k - 1], cap);
      }
    }
  }

  /** The map never exceeds its limit, not even for a moment between two steps. */
  lemma {:induction false} CacheStaysWithinLimit(states: seq<State>, labels: seq<Label>, k: nat)
    requires Run(states, labels, MAX_SESSION_LOCKS) && k < |states|
    ensures |states[k].cache| <= 1000
  {
    RunKeepsInvariant(states, labels, MAX_SESSION_LOCKS, k);
  }

  /** Whenever a request comes in, fewer than `cap` keys are in flight. */
  ghost predicate FewKeys(states: seq<State>, labels: seq<Label>, cap: nat)
    requires |states| == |labels| + 1
  {
    forall k | 0 <= k < |labels| :: labels[k].Enter? ==> |KeysInFlight(states[k])| < cap
  }

  lemma {:induction false} RunStaysCovered(states: seq<State>, labels: seq<Label>, cap: nat, k: nat)
    requires Run(states, labels, cap) && FewKeys(states, labels, cap) && k < |states|
    ensures Covered(states[k])
  {
    if k > 0 {
      RunStaysCovered(states, labels, cap, k - 1);
      RunKeepsInvariant(states, labels, cap, k - 1);
      if labels[k - 1].Enter? {
        EnterKeepsCoverExactly(states[k - 1], labels[k - 1].key, cap);
        if FirstIdle(states[k - 1].cache, states[k - 1].entries, 0) == |states[k - 1].cache| {
          BusyCacheNeedsKeys(states[k - 1], cap);
        }
      } else {
        MoveKeeps(states[k - 1], labels[k - 1], cap);
      }
    }
  }

  /** While fewer than a thousand keys are in flight, no entry in use is evicted, all requests in flight of
      one key share one lock, and at most one of them is being processed. */
  lemma {:induction false} SessionsAreSerialised(states: seq<State>, labels: seq<Label>, k: nat, r: nat, q: nat)
    requires Run(states, labels, MAX_SESSION_LOCKS) && FewKeys(states, labels, MAX_SESSION_LOCKS) && k < |states|
    requires r < |states[k].requests| && q < |states[k].requests| && states[k].requests[r].key == states[k].requests[q].key
    requires InFlight(states[k].requests[r]) && InFlight(states[k].requests[q])
    ensures states[k].requests[r].entry == states[k].requests[q].entry && states[k].requests[r].entry in states[k].cache
    ensures states[k].requests[r].stage.Processing? && states[k].requests[q].stage.Processing? ==> r == q
  {
    RunKeepsInvariant(states, labels, MAX_SESSION_LOCKS, k);
    RunStaysCovered(states, labels, MAX_SESSION_LOCKS, k);
    var s := states[k];
    var i :| 0 <= i < |s.cache| && s.cache[i] == s.requests[r].entry;
    var j :| 0 <= j < |s.cache| && s.cache[j] == s.requests[q].entry;
  }

  /** No room, and no idle entry. */
  ghost predicate Full(s: State, key: Key, cap: nat) {
    Invariant(s, cap) && |s.cache| == cap && FirstIdle(s.cache, s.entries, 0) == cap && Lookup(s, key) < 0
  }

  /** A request for the key comes in and gets the lock of its entry at once. */
  ghost predicate EntersAndRuns(s: State, key: Key, cap: nat, t: State) {
    WellFormed(s) &&
    var s1 := Entered(s, key, cap);
    WellFormed(s1) && Enabled(s1, Acquire(|s.requests|)) && t == Apply(s1, Acquire(|s.requests|), cap)
  }

  /** The request gets a lock that nobody else can find. */
  lemma {:induction false} FullCacheGivesPrivateLock(s: State, key: Key, cap: nat) returns (t: State)
    requires Full(s, key, cap)
    ensures EntersAndRuns(s, key, cap, t)
    ensures Full(t, key, cap) && t.requests == s.requests + [Request(key, |s.entries|, Processing)]
  {
    var n := |s.requests|;
    MissWhenFull(s, key, cap);
    FullMiss(s, key, cap);
    var s1 := Apply(s, Enter(key), cap);
    MoveKeeps(s1, Acquire(n), cap);
    t := Apply(s1, Acquire(n), cap);
    FullStays(s, t, key, cap);
  }

  /** From any full state: two requests of one new key run at the same time. */
  lemma {:induction false} FullCacheBreaks(s: State, key: Key, cap: nat) returns (u: State, t: State)
    requires Full(s, key, cap)
    ensures EntersAndRuns(s, key, cap, u) && EntersAndRuns(u, key, cap, t)
    ensures |t.requests| == |s.requests| + 2
    ensures forall i | |s.requests| <= i < |t.requests| :: t.requests[i].key == key && t.requests[i].stage.Processing?
  {
    u := FullCacheGivesPrivateLock(s, key, cap);
    t := FullCacheGivesPrivateLock(u, key, cap);
  }

  lemma {:induction false} FullMiss(s: State, key: Key, cap: nat)
    requires Invariant(s, cap) && |s.cache| == cap && FirstIdle(s.cache, s.entries, 0) == cap && Lookup(s, key) < 0
    ensures Entered(s, key, cap)
            == State(s.cache, s.entries + [Entry(key, 1, None)], s.requests + [Request(key, |s.entries|, Waiting)])
  {
    var g := Grown(s, key);
    EnforcedOnce(g.cache, g.entries, cap);
    SameFirstIdle(s, key, 0);
    assert Without(g.cache, cap) == s.cache;
    assert g.entries[|s.entries| := Entry(key, 1, None)] == s.entries + [Entry(key, 1, None)];
  }

  /** More entries outside the map do not make it less full. */
  lemma {:induction false} FullStays(s: State, t: State, key: Key, cap: nat)
    requires WellFormed(s) && WellFormed(t) && t.cache == s.cache && |s.cache| == cap
    requires |t.entries| >= |s.entries| && forall e | 0 <= e < |s.entries| :: t.entries[e] == s.entries[e]
    requires FirstIdle(s.cache, s.entries, 0) == cap && Lookup(s, key) < 0
    ensures FirstIdle(t.cache, t.entries, 0) == cap && Lookup(t, key) < 0
  {
    assert forall j | 0 <= j < cap :: t.entries[t.cache[j]] == s.entries[s.cache[j]];
  }

  // ----- A full map is reached -----

  function KeyOf(i: nat): Key { seq(i + 1, _ => 'k') }

  /** `n` requests of as many keys wait, each for the entry of its own. */
  function Busy(n: nat): State {
    State(seq(n, i requires 0 <= i < n => i as nat),
          seq(n, i requires 0 <= i < n => Entry(KeyOf(i), 1, None)),
          seq(n, i requires 0 <= i < n => Request(KeyOf(i), i, Waiting)))
  }

  lemma {:induction false} BusyLookup(n: nat, key: Key)
    requires key == "" || |key| > n
    ensures Lookup(Busy(n), key) < 0
  {
    var s := Busy(n);
    assert forall j | 0 <= j < n :: |s.entries[s.cache[j]].key| == j + 1;
  }

  lemma {:induction false} BusyEnter(n: nat, cap: nat)
    requires n < cap
    ensures WellFormed(Busy(n)) && Entered(Busy(n), KeyOf(n), cap) == Busy(n + 1)
  {
    BusyLookup(n, KeyOf(n));
    var r := Entered(Busy(n), KeyOf(n), cap);
    assert r.cache == Busy(n + 1).cache && r.entries == Busy(n + 1).entries && r.requests == Busy(n + 1).requests;
  }

  lemma {:induction false} BusyIsFull(cap: nat)
    requires Invariant(Busy(cap), cap)
    ensures Full(Busy(cap), "", cap)
  {
    var s := Busy(cap);
    BusyLookup(cap, "");
    assert forall j | 0 <= j < cap :: !Idle(s.entries[s.cache[j]]);
  }

  lemma {:induction false} Extend(states: seq<State>, labels: seq<Label>, cap: nat, l: Label) returns (more: seq<State>)
    requires Run(states, labels, cap) && WellFormed(states[|labels|]) && Enabled(states[|labels|], l)
    ensures Run(more, labels + [l], cap) && more[|labels| + 1] == Apply(states[|labels|], l, cap)
  {
    more := states + [Apply(states[|labels|], l, cap)];
    forall k | 0 <= k < |labels + [l]|
      ensures WellFormed(more[k]) && Enabled(more[k], (labels + [l])[k]) && more[k + 1] == Apply(more[k], (labels + [l])[k], cap)
    {
      if k < |labels| { assert (labels + [l])[k] == labels[k] && more[k] == states[k] && more[k + 1] == states[k + 1]; }
    }
  }

  lemma {:induction false} ReachBusy(n: nat, cap: nat) returns (states: seq<State>, labels: seq<Label>)
    requires n <= cap
    ensures Run(states, labels, cap) && |labels| == n && states[n] == Busy(n)
  {
    if n == 0 {
      states, labels := [EMPTY], [];
    } else {
      states, labels := ReachBusy(n - 1, cap);
      BusyEnter(n - 1, cap);
      states := Extend(states, labels, cap, Enter(KeyOf(n - 1)));
      labels := labels + [Enter(KeyOf(n - 1))];
    }
  }

  lemma {:induction false} RunPrivately(states: seq<State>, labels: seq<Label>, key: Key, cap: nat) returns (more: seq<State>, done: seq<Label>)
    requires Run(states, labels, cap) && Full(states[|labels|], key, cap)
    ensures Run(more, done, cap) && Full(more[|done|], key, cap)
    ensures more[|done|].requests
            == states[|labels|].requests + [Request(key, |states[|labels|].entries|, Processing)]
  {
    var s := states[|labels|];
    var t := FullCacheGivesPrivateLock(s, key, cap);
    more := Extend(states, labels, cap, Enter(key));
    more := Extend(more, labels + [Enter(key)], cap, Acquire(|s.requests|));
    done := labels + [Enter(key)] + [Acquire(|s.requests|)];
  }

  /** For every limit there is a run in which two requests of one key are being processed: as many other keys
      as the map has places are in flight when they come in. */
  lemma {:induction false} FullCacheBreaksSerialisation(cap: nat) returns (states: seq<State>, labels: seq<Label>)
    ensures Run(states, labels, cap)
    ensures var rs := states[|labels|].requests;
            && |rs| == cap + 2 && rs[cap].key == rs[cap + 1].key
            && rs[cap].stage.Processing? && rs[cap + 1].stage.Processing?
  {
    states, labels := ReachBusy(cap, cap);
    RunKeepsInvariant(states, labels, cap, cap);
    BusyIsFull(cap);
    states, labels := RunPrivately(states, labels, "", cap);
    states, labels := RunPrivately(states, labels, "", cap);
  }
}
