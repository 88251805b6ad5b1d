/** A run on which the staleness bound of the cache is met to the millisecond. */
module CacheWitness {
  import opened Wrappers
  import opened Pipeline
  import opened Runs
  import opened Cache
  import W = Witnesses

  const NEW := Copy(1, W.PENDING, 0)
  const NEWER := Copy(1, W.PROCESSING, 0)

  /** What the cache and its writers hold after each step of `StaleRun`. */
  function Memories(ttl: nat, d: nat): seq<Memory> {
    var one := Memory(map[], map[0 := NEW]);
    var newest := Memory(map[1 := Entry(Some(W.PROCESSING), ttl, 0)], map[0 := NEW]);
    var stale := Memory(map[1 := Entry(Some(W.PENDING), d + ttl, 0)], map[]);
    [Memory(map[], map[]), one, one, one, one, Memory(map[], map[0 := NEW, 1 := NEWER]), newest, newest, stale, stale]
  }

  const OPS := [Load(0, 1), Idle, Idle, Idle, Load(1, 1), Put(1), Idle, Put(0), Idle]

  lemma Wait(states0: seq<State>, acts0: seq<Action>, s: State, dt: nat) returns (states: seq<State>, acts: seq<Action>)
    requires Ends(W.CFG, states0, acts0, s)
    ensures Ends(W.CFG, states, acts, s.(now := s.now + dt)) && states0 <= states && |states| == |states0| + 1
  {
    states, acts := Extend(W.CFG, states0, acts0, s, Tick(dt), s.(now := s.now + dt));
  }

  lemma StandsStill(states: seq<State>, acts: seq<Action>)
    requires IsRun(W.CFG, states, acts) && |states| == 6 && states[0].now == 0 && states[5].now == 0
    ensures forall k :: 0 <= k <= 5 ==> states[k].now == 0
  {
    forall k | 0 <= k <= 5
      ensures states[k].now == 0
    {
      RunGrows(W.CFG, states, acts, 0, k);
      RunGrows(W.CFG, states, acts, k, 5);
    }
  }

  const WORKING := W.Stage(0, W.PROCESSING, W.LOCK, W.FIRST, map[0 := W.JobAt(0, 0, 10, Fulfil)], 1, {})

  /** The order is created and a consumer moves it on, all at time 0. */
  lemma Opening() returns (states: seq<State>, acts: seq<Action>)
    ensures Ends(W.CFG, states, acts, WORKING) && |states| == 6
    ensures states[0].orders == map[] && states[1].orders == map[1 := W.PENDING]
    ensures forall k :: 0 <= k <= 5 ==> states[k].now == 0
  {
    var r0 := W.Published();
    var r := W.Started(r0);
    states, acts := r.0, r.1;
    assert states[0] == r0.0[0] && states[1] == r0.0[1];
    StandsStill(states, acts);
  }

  predicate Setting(ttl: nat, d: nat, states: seq<State>) {
    && |states| == 10
    && states[0].orders == map[] && states[1].orders == map[1 := W.PENDING]
    && (forall k :: 0 <= k <= 5 ==> states[k].now == 0)
    && (forall k :: 5 <= k <= 9 ==> states[k].orders == map[1 := W.PROCESSING])
    && states[6].now == 0 && states[7].now == d && states[8].now == d && states[9].now == d + ttl - 1
  }

  /** Four waits, with nothing else going on. */
  lemma Linger(states0: seq<State>, acts0: seq<Action>, s: State, ttl: nat, d: nat)
    returns (states: seq<State>, acts: seq<Action>)
    requires 1 <= ttl && Ends(W.CFG, states0, acts0, s) && |states0| == 6 && s.now == 0
    ensures IsRun(W.CFG, states, acts) && states0 <= states && |states| == 10
    ensures states[6] == s && states[7] == s.(now := d) && states[8] == s.(now := d)
    ensures states[9] == s.(now := d + ttl - 1)
  {
    var states6, acts6 := Wait(states0, acts0, s, 0);
    var states7, acts7 := Wait(states6, acts6, s, d);
    var states8, acts8 := Wait(states7, acts7, s.(now := d), 0);
    states, acts := Wait(states8, acts8, s.(now := d), ttl - 1);
  }

  /** The request that created the order keeps its copy for `d`, while a consumer moves the order on and
      refreshes the cache; then the old copy is written and is served until just before it expires. */
  lemma StaleRun(ttl: nat, d: nat) returns (states: seq<State>, acts: seq<Action>)
    requires 1 <= ttl
    ensures IsRun(W.CFG, states, acts) && Setting(ttl, d, states)
  {
    var states0, acts0 := Opening();
    states, acts := Linger(states0, acts0, WORKING, ttl, d);
    assert forall k :: 0 <= k <= 5 ==> states[k] == states0[k];
  }

  lemma MemoriesFollow(ttl: nat, d: nat, states: seq<State>, k: nat)
    requires Setting(ttl, d, states) && k < 9
    ensures Memories(ttl, d)[k + 1] == Step(ttl, states[k + 1], Memories(ttl, d)[k], OPS[k])
    ensures OPS[k] != Idle ==> states[k + 1].now == states[k].now
  {
    assert map[0 := NEW, 1 := NEWER] - {1} == map[0 := NEW];
    assert map[0 := NEW] - {0} == map[];
  }

  /** The bound cannot be improved, and a late write takes the cache back in time: for every time to
      live and every delay, the newer copy is served, then the older one, at age ttl + d - 1. */
  lemma StalenessIsTight(ttl: nat, d: nat)
    returns (states: seq<State>, acts: seq<Action>, stores: seq<Memory>, ops: seq<Op>)
    requires 1 <= ttl
    ensures IsCachedRun(W.CFG, ttl, states, acts, stores, ops) && Prompt(d, states, stores) && |states| == 10
    ensures Lookup(states[6], stores[6], 1) == Some(W.PROCESSING)
    ensures Lookup(states[9], stores[9], 1) == Some(W.PENDING)
    ensures forall k :: 0 <= k < |states| && CommittedAt(states[k], 1, W.PENDING) ==>
              states[k].now == states[9].now - ttl - d + 1
  {
    states, acts := StaleRun(ttl, d);
    stores, ops := Memories(ttl, d), OPS;
    forall k | 0 <= k < 9
      ensures stores[k + 1] == Step(ttl, states[k + 1], stores[k], ops[k])
      ensures ops[k] != Idle ==> states[k + 1].now == states[k].now
    {
      MemoriesFollow(ttl, d, states, k);
    }
    assert |W.PENDING.trail| != |W.PROCESSING.trail|;
  }
}
