/** Each premise of `OneOrderPerKey` is needed: runs that break just one of them and make two orders. */
module ClientWitnesses {
  import opened Wrappers
  import opened Pipeline
  import opened ClientKeys
  import opened ClientTheorems
  import Witnesses

  const CFG := Witnesses.CFG
  const TTL: nat := 100
  const KEY := "k"

  datatype Film = Film(states: seq<State>, acts: seq<Action>, desks: seq<Desk>, ops: seq<Op>)

  /** Which premises a run keeps. */
  datatype Kept = Kept(alone: bool, unexpired: bool, unharmed: bool)

  ghost predicate Shows(f: Film, now: Time, rows: set<Id>, m: Desk, kept: Kept) {
    && IsClientRun(CFG, TTL, f.states, f.acts, f.desks, f.ops)
    && (var s := f.states[|f.states| - 1];
        s.now == now && s.orders.Keys == rows && s.foreign == {} && f.desks[|f.desks| - 1] == m)
    && (kept.alone ==> forall k :: 0 <= k < |f.desks| ==> Alone(f.desks[k], KEY))
    && (kept.unexpired ==> forall k :: 0 <= k < |f.desks| ==> Unexpired(f.states[k].now, f.desks[k], KEY))
    && (kept.unharmed ==> forall k :: 0 <= k < |f.ops| ==> !Harms(f.desks[k], f.ops[k], KEY))
  }

  /** The client runs that end at time `now` with these orders and this desk. */
  ghost function Films(now: Time, rows: set<Id>, m: Desk, kept: Kept): iset<Film> {
    iset f | Shows(f, now, rows, m, kept)
  }

  lemma Start(kept: Kept) returns (f: Film)
    ensures f in Films(0, {}, Opening, kept)
  {
    f := Film([State(0, map[], map[], map[], map[], [], 0, {}, {}, {}, map[], {})], [], [Opening], []);
  }

  function Later(now: Time, a: Action): Time { if a.Tick? then now + a.dt else now }
  function Rows(rows: set<Id>, a: Action): set<Id> { if a.Create? then rows + {a.i} else rows }

  lemma Shot(f: Film, now: Time, rows: set<Id>, m: Desk, a: Action, op: Op, m': Desk, kept: Kept) returns (g: Film)
    requires f in Films(now, rows, m, kept) && (a.Tick? || (a.Create? && a.i !in rows))
    requires Ready(m, a, op) && m' == Step(TTL, now, rows, a, m, op)
    ensures f.states <= g.states && |g.states| == |f.states| + 1
    ensures g.desks == f.desks + [m'] && g.ops == f.ops + [op]
    ensures IsClientRun(CFG, TTL, g.states, g.acts, g.desks, g.ops)
    ensures g.states[|f.states|] == Perform(f.states[|f.states| - 1], a)
  {
    var s := f.states[|f.states| - 1];
    var t := Perform(s, a);
    g := Film(f.states + [t], f.acts + [a], f.desks + [m'], f.ops + [op]);
    forall k | 0 <= k < |g.ops|
      ensures StepAt(CFG, g.states, g.acts, k)
      ensures Ready(g.desks[k], g.acts[k], g.ops[k])
      ensures g.desks[k + 1] == Step(TTL, g.states[k].now, g.states[k].orders.Keys, g.acts[k], g.desks[k], g.ops[k])
    {
      if k < |f.ops| {
        assert StepAt(CFG, f.states, f.acts, k);
        assert g.states[k] == f.states[k] && g.states[k + 1] == f.states[k + 1] && g.acts[k] == f.acts[k];
        assert g.desks[k] == f.desks[k] && g.desks[k + 1] == f.desks[k + 1] && g.ops[k] == f.ops[k];
      }
    }
  }

  lemma Next(f: Film, now: Time, rows: set<Id>, m: Desk, a: Action, op: Op, m': Desk, kept: Kept) returns (g: Film)
    requires f in Films(now, rows, m, kept) && (a.Tick? || (a.Create? && a.i !in rows))
    requires Ready(m, a, op) && m' == Step(TTL, now, rows, a, m, op)
    requires (kept.alone ==> Alone(m', KEY)) && (kept.unexpired ==> Unexpired(Later(now, a), m', KEY))
    requires kept.unharmed ==> !Harms(m, op, KEY)
    ensures g in Films(Later(now, a), Rows(rows, a), m', kept)
  {
    g := Shot(f, now, rows, m, a, op, m', kept);
  }

  /** Two orders exist for the key. */
  predicate Twice(f: Film) {
    && |f.desks| == |f.states| && 0 < |f.desks|
    && 1 in f.states[|f.states| - 1].orders && 2 in f.states[|f.states| - 1].orders
    && MadeWith(f.desks[|f.desks| - 1], 1, Some(KEY)) && MadeWith(f.desks[|f.desks| - 1], 2, Some(KEY))
  }

  lemma MadeTwo(f: Film, now: Time, m: Desk, kept: Kept)
    requires f in Films(now, {1, 2}, m, kept) && m.makers == MADE2
    ensures IsClientRun(CFG, TTL, f.states, f.acts, f.desks, f.ops) && Twice(f)
    ensures kept.alone ==> forall k :: 0 <= k < |f.desks| ==> Alone(f.desks[k], KEY)
    ensures kept.unexpired ==> forall k :: 0 <= k < |f.desks| ==> Unexpired(f.states[k].now, f.desks[k], KEY)
    ensures kept.unharmed ==> forall k :: 0 <= k < |f.ops| ==> !Harms(f.desks[k], f.ops[k], KEY)
  {
    assert Shows(f, now, {1, 2}, m, kept);
  }

  // ---------------------------------------------------------------- scripts

  /** A moment of a run, and what happens next. */
  datatype Scene = Scene(now: Time, rows: set<Id>, m: Desk, a: Action, op: Op)

  ghost predicate Follows(x: Scene, y: Scene, kept: Kept) {
    && (x.a.Tick? || (x.a.Create? && x.a.i !in x.rows))
    && y.now == Later(x.now, x.a) && y.rows == Rows(x.rows, x.a)
    && Ready(x.m, x.a, x.op) && y.m == Step(TTL, x.now, x.rows, x.a, x.m, x.op)
    && (kept.alone ==> Alone(y.m, KEY)) && (kept.unexpired ==> Unexpired(y.now, y.m, KEY))
    && (kept.unharmed ==> !Harms(x.m, x.op, KEY))
  }

  lemma {:induction false} Play(script: seq<Scene>, kept: Kept) returns (f: Film)
    requires script != [] && script[0].now == 0 && script[0].rows == {} && script[0].m == Opening
    requires forall k :: 0 < k < |script| ==> Follows(script[k - 1], script[k], kept)
    ensures var z := script[|script| - 1]; f in Films(z.now, z.rows, z.m, kept)
  {
    if |script| == 1 {
      f := Start(kept);
    } else {
      var init := script[..|script| - 1];
      f := Play(init, kept);
      var x, z := init[|init| - 1], script[|script| - 1];
      assert Follows(x, z, kept);
      f := Next(f, x.now, x.rows, x.m, x.a, x.op, z.m, kept);
    }
  }

  function At(stage: Stage): Ask { Ask(Some(KEY), stage) }

  const MADE1 := map[1 := Maker(0, Some(KEY))]
  const MADE2 := map[1 := Maker(0, Some(KEY)), 2 := Maker(1, Some(KEY))]

  const OVERLAP := [
    Scene(0, {}, Opening, Tick(0), Arrive(0, Some(KEY))),
    Scene(0, {}, Desk(map[], map[0 := At(Resolve)], map[], map[], {0}), Tick(0), Arrive(1, Some(KEY))),
    Scene(0, {}, Desk(map[], map[0 := At(Resolve), 1 := At(Resolve)], map[], map[], {0, 1}), Tick(0), Serve(0)),
    Scene(0, {}, Desk(map[], map[0 := At(Insert), 1 := At(Resolve)], map[], map[], {0, 1}), Tick(0), Serve(1)),
    Scene(0, {}, Desk(map[], map[0 := At(Insert), 1 := At(Insert)], map[], map[], {0, 1}), Create(1, ""), Serve(0)),
    Scene(0, {1}, Desk(map[], map[0 := At(Remember(1)), 1 := At(Insert)], map[], MADE1, {0, 1}), Create(2, ""),
        Serve(1)),
    Scene(0, {1, 2}, Desk(map[], map[0 := At(Remember(1)), 1 := At(Remember(2))], map[], MADE2, {0, 1}), Tick(0), Idle)]

  const FAILURE := [
    Scene(0, {}, Opening, Tick(0), Arrive(0, Some(KEY))),
    Scene(0, {}, Desk(map[], map[0 := At(Resolve)], map[], map[], {0}), Tick(0), Serve(0)),
    Scene(0, {}, Desk(map[], map[0 := At(Insert)], map[], map[], {0}), Create(1, ""), Break(0, true)),
    Scene(0, {1}, Desk(map[], map[], map[], MADE1, {0}), Tick(0), Arrive(1, Some(KEY))),
    Scene(0, {1}, Desk(map[], map[1 := At(Resolve)], map[], MADE1, {0, 1}), Tick(0), Serve(1)),
    Scene(0, {1}, Desk(map[], map[1 := At(Insert)], map[], MADE1, {0, 1}), Create(2, ""), Serve(1)),
    Scene(0, {1, 2}, Desk(map[], map[1 := At(Remember(2))], map[], MADE2, {0, 1}), Tick(0), Idle)]

  const SLOTS := map[KEY := Slot(Some(1), TTL)]

  const EXPIRY := [
    Scene(0, {}, Opening, Tick(0), Arrive(0, Some(KEY))),
    Scene(0, {}, Desk(map[], map[0 := At(Resolve)], map[], map[], {0}), Tick(0), Serve(0)),
    Scene(0, {}, Desk(map[], map[0 := At(Insert)], map[], map[], {0}), Create(1, ""), Serve(0)),
    Scene(0, {1}, Desk(map[], map[0 := At(Remember(1))], map[], MADE1, {0}), Tick(0), Break(0, true)),
    Scene(0, {1}, Desk(SLOTS, map[], map[], MADE1, {0}), Tick(TTL), Arrive(1, Some(KEY))),
    Scene(TTL, {1}, Desk(SLOTS, map[1 := At(Resolve)], map[], MADE1, {0, 1}), Tick(0), Serve(1)),
    Scene(TTL, {1}, Desk(SLOTS, map[1 := At(Insert)], map[], MADE1, {0, 1}), Create(2, ""), Serve(1)),
    Scene(TTL, {1, 2}, Desk(SLOTS, map[1 := At(Remember(2))], map[], MADE2, {0, 1}), Tick(0), Idle)]

  lemma FailureFollows(k: nat)
    requires 0 < k < |FAILURE|
    ensures Follows(FAILURE[k - 1], FAILURE[k], Kept(true, true, false))
  {
    assert map[0 := At(Remember(1))] - {0} == map[];
  }

  lemma AfterExpiry(k: nat)
    requires 4 < k < |EXPIRY|
    ensures Follows(EXPIRY[k - 1], EXPIRY[k], Kept(true, false, true))
  {
  }

  lemma ExpiryFollows(k: nat)
    requires 0 < k < |EXPIRY|
    ensures Follows(EXPIRY[k - 1], EXPIRY[k], Kept(true, false, true))
  {
    if k < 4 {
    } else if k == 4 {
      assert map[0 := At(Announce(1))] - {0} == map[];
    } else {
      AfterExpiry(k);
    }
  }

  /** Two overlapping requests: both GET before either SETs. Nothing fails and nothing expires. */
  lemma OverlapMakesTwo() returns (f: Film)
    ensures IsClientRun(CFG, TTL, f.states, f.acts, f.desks, f.ops) && Twice(f)
    ensures forall k :: 0 <= k < |f.desks| ==> Unexpired(f.states[k].now, f.desks[k], KEY)
    ensures forall k :: 0 <= k < |f.ops| ==> !Harms(f.desks[k], f.ops[k], KEY)
  {
    forall k | 0 < k < |OVERLAP|
      ensures Follows(OVERLAP[k - 1], OVERLAP[k], Kept(false, true, true))
    {
    }
    f := Play(OVERLAP, Kept(false, true, true));
    MadeTwo(f, OVERLAP[6].now, OVERLAP[6].m, Kept(false, true, true));
  }

  /** A request that dies between the commit and the key write, retried by its client. */
  lemma FailureMakesTwo() returns (f: Film)
    ensures IsClientRun(CFG, TTL, f.states, f.acts, f.desks, f.ops) && Twice(f)
    ensures forall k :: 0 <= k < |f.desks| ==> Alone(f.desks[k], KEY) && Unexpired(f.states[k].now, f.desks[k], KEY)
  {
    forall k | 0 < k < |FAILURE|
      ensures Follows(FAILURE[k - 1], FAILURE[k], Kept(true, true, false))
    {
      FailureFollows(k);
    }
    f := Play(FAILURE, Kept(true, true, false));
    MadeTwo(f, FAILURE[6].now, FAILURE[6].m, Kept(true, true, false));
  }

  /** A client that retries after the key has run out. Nothing overlaps and nothing fails in between. */
  lemma ExpiryMakesTwo() returns (f: Film)
    ensures IsClientRun(CFG, TTL, f.states, f.acts, f.desks, f.ops) && Twice(f)
    ensures forall k :: 0 <= k < |f.desks| ==> Alone(f.desks[k], KEY)
    ensures forall k :: 0 <= k < |f.ops| ==> !Harms(f.desks[k], f.ops[k], KEY)
  {
    forall k | 0 < k < |EXPIRY|
      ensures Follows(EXPIRY[k - 1], EXPIRY[k], Kept(true, false, true))
    {
      ExpiryFollows(k);
    }
    f := Play(EXPIRY, Kept(true, false, true));
    MadeTwo(f, EXPIRY[7].now, EXPIRY[7].m, Kept(true, false, true));
  }
}
