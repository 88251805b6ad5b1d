/** Runs that show why the premises are there: each stronger claim fails on a concrete run. */
module Witnesses {
  import opened Wrappers
  import opened Orders
  import opened Pipeline
  import opened Invariant
  import opened Runs
  import Headers
  import Backoff

  const CFG := Config(10, 1000, 2, Backoff.Params(2.0, 60.0))
  const TP := Tp(Created, 0)

  type Run = (seq<State>, seq<Action>)

  /** The runs that end in `s`; if `punctual`, those that keep the lock premise of event `i`. */
  ghost function RunsTo(s: State, i: Id, punctual: bool): iset<Run> {
    iset r: Run | Ends(CFG, r.0, r.1, s) && (punctual ==> PunctualRun(r.0, i))
  }

  lemma Go(r: Run, s: State, i: Id, punctual: bool, a: Action, t: State) returns (r': Run)
    requires r in RunsTo(s, i, punctual) && a in Moves(CFG, s) && t == Perform(s, a)
    requires punctual ==> Punctual(t, i)
    ensures r' in RunsTo(t, i, punctual) && r.0 <= r'.0 && |r'.0| == |r.0| + 1
  {
    var states, acts := Extend(CFG, r.0, r.1, s, a, t);
    r' := (states, acts);
  }

  lemma Begin(i: Id) returns (r: Run)
    ensures r in RunsTo(EMPTY, i, true) && r.0 == [EMPTY]
  {
    r := ([EMPTY], []);
    assert Ends(CFG, r.0, r.1, EMPTY);
  }

  /** The premise may be dropped. */
  lemma Unpunctual(r: Run, s: State, i: Id)
    requires r in RunsTo(s, i, true)
    ensures r in RunsTo(s, i, false)
  {
  }

  const EMPTY := State(0, map[], map[], map[], map[], [], 0, {}, {}, {}, map[], {})

  // ---------------------------------------------------------------- one order, one record

  const VALUE := Event(1, "")
  const REC := EventRecord(1, VALUE)

  const PENDING := NewRow
  const PROCESSING := Moved(PENDING, Processing, Some(1), None)

  function JobAt(lease: nat, token: Token, expiry: Time, pc: Pc): Job {
    Job(TP, 0, lease, REC, token, expiry, pc)
  }

  /** Order 1 published as the only record of one partition. */
  function Stage(now: Time, row: Row, guard: map<Id, Key>, log: Log, jobs: map<Agent, Job>, next: Token,
                 slipped: set<Id>): State {
    State(now, map[1 := row], guard, map[TP := log], jobs, [], next, {}, {1}, {}, map[1 := VALUE], slipped)
  }

  const FIRST := Log([REC], 0, 0, 0)   // owned by consumer 0, nothing committed
  const MOVED := Log([REC], 0, 1, 1)   // reassigned to consumer 1
  const SPENT := Log([REC], 1, 0, 0)   // owned by consumer 0, committed

  const LOCK := map[1 := Held(0, 10)]
  const RELOCK := map[1 := Held(1, 20)]
  const TOMB := map[1 := Done(1010)]

  /** Order 1 is created and its event published. */
  lemma Published() returns (r: Run)
    ensures r in RunsTo(Stage(0, PENDING, map[], FIRST, map[], 0, {}), 1, true) && |r.0| == 3
    ensures r.0[0] == EMPTY && r.0[1].now == 0 && r.0[1].orders == map[1 := PENDING]
  {
    r := Begin(1);
    var s := Perform(EMPTY, Create(1, ""));
    var t := Stage(0, PENDING, map[], FIRST, map[], 0, {});
    r := Go(r, EMPTY, 1, true, Create(1, ""), s);
    assert LogOf(s, TP).recs + [REC] == [REC];
    assert t.topics == Perform(s, PublishEvent(1, 0)).topics;
    r := Go(r, s, 1, true, PublishEvent(1, 0), t);
  }

  lemma Claimed(r0: Run) returns (r: Run)
    requires r0 in RunsTo(Stage(0, PENDING, map[], FIRST, map[], 0, {}), 1, true)
    ensures r in RunsTo(Stage(0, PENDING, LOCK, FIRST, map[0 := JobAt(0, 0, 10, Check)], 1, {}), 1, true)
    ensures r0.0 <= r.0 && |r.0| == |r0.0| + 2
  {
    r := Go(r0, Stage(0, PENDING, map[], FIRST, map[], 0, {}), 1, true, Take(0, TP, 0, 0),
            Stage(0, PENDING, map[], FIRST, map[0 := JobAt(0, 0, 0, ClaimSet)], 1, {}));
    r := Go(r, Stage(0, PENDING, map[], FIRST, map[0 := JobAt(0, 0, 0, ClaimSet)], 1, {}), 1, true,
            Work(0, PutKey(1, Held(0, 10)), Some(JobAt(0, 0, 10, Check)), false),
            Stage(0, PENDING, LOCK, FIRST, map[0 := JobAt(0, 0, 10, Check)], 1, {}));
  }

  /** It marks the order processing. */
  lemma Started(r0: Run) returns (r: Run)
    requires r0 in RunsTo(Stage(0, PENDING, map[], FIRST, map[], 0, {}), 1, true)
    ensures r in RunsTo(Stage(0, PROCESSING, LOCK, FIRST, map[0 := JobAt(0, 0, 10, Fulfil)], 1, {}), 1, true)
    ensures r0.0 <= r.0 && |r.0| == |r0.0| + 3
  {
    r := Claimed(r0);
    r := Go(r, Stage(0, PENDING, LOCK, FIRST, map[0 := JobAt(0, 0, 10, Check)], 1, {}), 1, true,
            Work(0, PutRow(1, PROCESSING), Some(JobAt(0, 0, 10, Fulfil)), false),
            Stage(0, PROCESSING, LOCK, FIRST, map[0 := JobAt(0, 0, 10, Fulfil)], 1, {}));
  }

  lemma AtWork() returns (r: Run)
    ensures r in RunsTo(Stage(0, PROCESSING, LOCK, FIRST, map[0 := JobAt(0, 0, 10, Fulfil)], 1, {}), 1, true)
  {
    var r0 := Published();
    r := Started(r0);
  }

  const REFUSAL := JobAt(0, 0, 10, FailTx(false, "x"))

  /** It decides to fail the order. */
  lemma Refused() returns (r: Run)
    ensures r in RunsTo(Stage(0, PROCESSING, LOCK, FIRST, map[0 := REFUSAL], 1, {}), 1, true)
  {
    r := AtWork();
    r := Go(r, Stage(0, PROCESSING, LOCK, FIRST, map[0 := JobAt(0, 0, 10, Fulfil)], 1, {}), 1, true,
            Work(0, Quiet, Some(REFUSAL), false),
            Stage(0, PROCESSING, LOCK, FIRST, map[0 := REFUSAL], 1, {}));
  }

  // ---------------------------------------------------------------- without the lock premise

  const REENTERED := Moved(PROCESSING, Processing, Some(1), None)
  const COMPLETED := Moved(REENTERED, Completed, Some(1), None)
  const OVERWRITTEN := Moved(COMPLETED, Failed, Some(1), Some("x"))

  function Both(pc: Pc, expiry: Time): map<Agent, Job> {
    map[0 := REFUSAL, 1 := JobAt(1, 1, expiry, pc)]
  }

  /** Consumer 0 stalls past its lock; the partition moves to consumer 1. */
  lemma Stalled() returns (r: Run)
    ensures r in RunsTo(Stage(10, PROCESSING, LOCK, MOVED, map[0 := REFUSAL], 1, {}), 1, false)
  {
    r := Refused();
    Unpunctual(r, Stage(0, PROCESSING, LOCK, FIRST, map[0 := REFUSAL], 1, {}), 1);
    r := Go(r, Stage(0, PROCESSING, LOCK, FIRST, map[0 := REFUSAL], 1, {}), 1, false, Tick(10),
            Stage(10, PROCESSING, LOCK, FIRST, map[0 := REFUSAL], 1, {}));
    r := Go(r, Stage(10, PROCESSING, LOCK, FIRST, map[0 := REFUSAL], 1, {}), 1, false, Assign(TP, 1),
            Stage(10, PROCESSING, LOCK, MOVED, map[0 := REFUSAL], 1, {}));
  }

  lemma SecondClaim() returns (r: Run)
    ensures r in RunsTo(Stage(10, PROCESSING, RELOCK, MOVED, Both(Check, 20), 2, {}), 1, false)
  {
    r := Stalled();
    r := Go(r, Stage(10, PROCESSING, LOCK, MOVED, map[0 := REFUSAL], 1, {}), 1, false, Take(1, TP, 0, 1),
            Stage(10, PROCESSING, LOCK, MOVED, Both(ClaimSet, 0), 2, {}));
    r := Go(r, Stage(10, PROCESSING, LOCK, MOVED, Both(ClaimSet, 0), 2, {}), 1, false,
            Work(1, PutKey(1, Held(1, 20)), Some(JobAt(1, 1, 20, Check)), false),
            Stage(10, PROCESSING, RELOCK, MOVED, Both(Check, 20), 2, {}));
  }

  lemma SecondWriter() returns (r: Run)
    ensures r in RunsTo(Stage(10, REENTERED, RELOCK, MOVED, Both(CompleteTx, 20), 2, {}), 1, false)
  {
    r := SecondClaim();
    r := Go(r, Stage(10, PROCESSING, RELOCK, MOVED, Both(Check, 20), 2, {}), 1, false,
            Work(1, PutRow(1, REENTERED), Some(JobAt(1, 1, 20, Fulfil)), false),
            Stage(10, REENTERED, RELOCK, MOVED, Both(Fulfil, 20), 2, {}));
    r := Go(r, Stage(10, REENTERED, RELOCK, MOVED, Both(Fulfil, 20), 2, {}), 1, false,
            Work(1, Quiet, Some(JobAt(1, 1, 20, CompleteTx)), false),
            Stage(10, REENTERED, RELOCK, MOVED, Both(CompleteTx, 20), 2, {}));
  }

  /** and completes the order. */
  lemma SecondCompletes() returns (r: Run)
    ensures r in RunsTo(Stage(10, COMPLETED, RELOCK, MOVED, Both(CompleteMark, 20), 2, {}), 1, false)
  {
    r := SecondWriter();
    r := Go(r, Stage(10, REENTERED, RELOCK, MOVED, Both(CompleteTx, 20), 2, {}), 1, false,
            Work(1, PutRow(1, COMPLETED), Some(JobAt(1, 1, 20, CompleteMark)), false),
            Stage(10, COMPLETED, RELOCK, MOVED, Both(CompleteMark, 20), 2, {}));
  }

  /** A holder that outlives its lock breaks terminal absorption: the order completes and is then
      overwritten by the stalled consumer's verdict, leaving two terminal hops in its trail. */
  lemma LateWriterOverwrites() returns (states: seq<State>, acts: seq<Action>, m: nat)
    ensures IsRun(CFG, states, acts) && m + 1 < |states|
    ensures 1 in states[m].orders && states[m].orders[1].status == Completed
    ensures 1 in states[m + 1].orders && states[m + 1].orders[1].status == Failed
    ensures TerminalHops(states[m + 1].orders[1].trail) == 2
  {
    var r := SecondCompletes();
    var late := JobAt(0, 0, 10, FailDlq(false, "x"));
    m := |r.0| - 1;
    r := Go(r, Stage(10, COMPLETED, RELOCK, MOVED, Both(CompleteMark, 20), 2, {}), 1, false,
            Work(0, PutRow(1, OVERWRITTEN), Some(late), false),
            Stage(10, OVERWRITTEN, RELOCK, MOVED, map[0 := late, 1 := JobAt(1, 1, 20, CompleteMark)], 2, {}));
    states, acts := r.0, r.1;
    TwoTerminalHops();
  }

  lemma TwoTerminalHops()
    ensures TerminalHops(OVERWRITTEN.trail) == 2
  {
    HopsAppend(PENDING.trail, Hop(Some(Pending), Processing));
    HopsAppend(PROCESSING.trail, Hop(Some(Processing), Processing));
    HopsAppend(REENTERED.trail, Hop(Some(Processing), Completed));
    HopsAppend(COMPLETED.trail, Hop(Some(Completed), Failed));
    HopsAppend([], Hop(None, Pending));
    assert [] + [Hop(None, Pending)] == PENDING.trail;
  }

  lemma HopsAppend(trail: seq<Hop>, hop: Hop)
    ensures TerminalHops(trail + [hop]) == TerminalHops(trail) + if Terminal(hop.target) then 1 else 0
  {
    assert (trail + [hop])[..|trail|] == trail;
  }

  // ---------------------------------------------------------------- crashes

  /** Consumer 0 crashes in the middle of its work. */
  lemma Crashed() returns (r: Run)
    ensures r in RunsTo(Stage(0, PROCESSING, LOCK, FIRST, map[], 1, {}), 1, true)
  {
    r := AtWork();
    var s := Stage(0, PROCESSING, LOCK, FIRST, map[0 := JobAt(0, 0, 10, Fulfil)], 1, {});
    assert s.jobs - {0} == map[];
    r := Go(r, s, 1, true, Work(0, Quiet, None, true), Stage(0, PROCESSING, LOCK, FIRST, map[], 1, {}));
  }

  /** It is claimed again. */
  lemma Reclaimed(r0: Run, row: Row, slipped: set<Id>) returns (r: Run)
    requires r0 in RunsTo(Stage(0, row, LOCK, FIRST, map[], 1, slipped), 1, true)
    ensures r in RunsTo(Stage(10, row, RELOCK, FIRST, map[0 := JobAt(0, 1, 20, Check)], 2, slipped), 1, true)
  {
    r := Go(r0, Stage(0, row, LOCK, FIRST, map[], 1, slipped), 1, true, Tick(10),
            Stage(10, row, LOCK, FIRST, map[], 1, slipped));
    r := Go(r, Stage(10, row, LOCK, FIRST, map[], 1, slipped), 1, true, Take(0, TP, 0, 0),
            Stage(10, row, LOCK, FIRST, map[0 := JobAt(0, 1, 0, ClaimSet)], 2, slipped));
    r := Go(r, Stage(10, row, LOCK, FIRST, map[0 := JobAt(0, 1, 0, ClaimSet)], 2, slipped), 1, true,
            Work(0, PutKey(1, Held(1, 20)), Some(JobAt(0, 1, 20, Check)), false),
            Stage(10, row, RELOCK, FIRST, map[0 := JobAt(0, 1, 20, Check)], 2, slipped));
  }

  /** A redelivery after a crash records a processing to processing hop, since only terminal rows are
      refused; the run keeps the lock premise. */
  lemma CrashReentersProcessing() returns (states: seq<State>, acts: seq<Action>)
    ensures IsRun(CFG, states, acts) && PunctualRun(states, 1)
    ensures var s := states[|states| - 1];
            1 in s.orders && |s.orders[1].trail| == 3 && s.orders[1].trail[2] == Hop(Some(Processing), Processing)
  {
    var r := Crashed();
    r := Reclaimed(r, PROCESSING, {});
    r := Go(r, Stage(10, PROCESSING, RELOCK, FIRST, map[0 := JobAt(0, 1, 20, Check)], 2, {}), 1, true,
            Work(0, PutRow(1, REENTERED), Some(JobAt(0, 1, 20, Fulfil)), false),
            Stage(10, REENTERED, RELOCK, FIRST, map[0 := JobAt(0, 1, 20, Fulfil)], 2, {}));
    states, acts := r.0, r.1;
  }

  // ---------------------------------------------------------------- lost dead letters

  const FAILED := Moved(PROCESSING, Failed, Some(1), Some("x"))

  lemma FailedOnce() returns (r: Run)
    ensures r in RunsTo(Stage(0, FAILED, LOCK, FIRST, map[0 := JobAt(0, 0, 10, FailDlq(false, "x"))], 1, {}), 1, true)
  {
    r := Refused();
    r := Go(r, Stage(0, PROCESSING, LOCK, FIRST, map[0 := REFUSAL], 1, {}), 1, true,
            Work(0, PutRow(1, FAILED), Some(JobAt(0, 0, 10, FailDlq(false, "x"))), false),
            Stage(0, FAILED, LOCK, FIRST, map[0 := JobAt(0, 0, 10, FailDlq(false, "x"))], 1, {}));
  }

  /** The order fails and the consumer crashes before it publishes the dead letter. */
  lemma CrashedBeforeLetter() returns (r: Run)
    ensures r in RunsTo(Stage(0, FAILED, LOCK, FIRST, map[], 1, {1}), 1, true)
  {
    r := FailedOnce();
    var s := Stage(0, FAILED, LOCK, FIRST, map[0 := JobAt(0, 0, 10, FailDlq(false, "x"))], 1, {});
    assert s.jobs - {0} == map[];
    r := Go(r, s, 1, true, Work(0, Quiet, None, true), Stage(0, FAILED, LOCK, FIRST, map[], 1, {1}));
  }

  /** The redelivery finds the order terminal, */
  lemma SeenFailed() returns (r: Run)
    ensures r in RunsTo(Stage(10, FAILED, RELOCK, FIRST, map[0 := JobAt(0, 1, 20, SeenMark)], 2, {1}), 1, true)
  {
    r := CrashedBeforeLetter();
    r := Reclaimed(r, FAILED, {1});
    r := Go(r, Stage(10, FAILED, RELOCK, FIRST, map[0 := JobAt(0, 1, 20, Check)], 2, {1}), 1, true,
            Work(0, Quiet, Some(JobAt(0, 1, 20, SeenMark)), false),
            Stage(10, FAILED, RELOCK, FIRST, map[0 := JobAt(0, 1, 20, SeenMark)], 2, {1}));
  }

  /** leaves the tombstone, */
  lemma Skipped() returns (r: Run)
    ensures r in RunsTo(Stage(10, FAILED, TOMB, FIRST, map[0 := JobAt(0, 1, 20, Ack)], 2, {1}), 1, true)
  {
    r := SeenFailed();
    r := Go(r, Stage(10, FAILED, RELOCK, FIRST, map[0 := JobAt(0, 1, 20, SeenMark)], 2, {1}), 1, true,
            Work(0, PutKey(1, Done(1010)), Some(JobAt(0, 1, 20, Ack)), false),
            Stage(10, FAILED, TOMB, FIRST, map[0 := JobAt(0, 1, 20, Ack)], 2, {1}));
  }

  /** and commits the record. So a failure between the FAILED commit and the publish loses the dead letter
      for good. The run keeps the lock premise. */
  lemma LostDeadLetter() returns (states: seq<State>, acts: seq<Action>)
    ensures IsRun(CFG, states, acts) && PunctualRun(states, 1)
    ensures var s := states[|states| - 1];
            FailedOrder(s, 1) && !Lettered(s, 1) && s.jobs == map[] && LogOf(s, TP).done == |LogOf(s, TP).recs|
  {
    var r := Skipped();
    var s := Stage(10, FAILED, TOMB, FIRST, map[0 := JobAt(0, 1, 20, Ack)], 2, {1});
    assert s.jobs - {0} == map[];
    r := Go(r, s, 1, true, Work(0, Commit(TP, 1), None, false), Stage(10, FAILED, TOMB, SPENT, map[], 2, {1}));
    states, acts := r.0, r.1;
  }

  // ---------------------------------------------------------------- an event without an order

  const LONE := Record(Some(2), Event(2, ""), Headers.Wire(1, None, None, None))

  function LoneJob(token: Token, expiry: Time, pc: Pc): Job {
    Job(TP, 0, 0, LONE, token, expiry, pc)
  }

  function LoneStage(guard: map<Id, Key>, done: nat, jobs: map<Agent, Job>, next: Token): State {
    State(0, map[], guard, map[TP := Log([LONE], done, 0, 0)], jobs, [], next, {}, {}, {2}, map[], {})
  }

  const LONE_LOCK := map[2 := Held(0, 10)]
  const LONE_TOMB := map[2 := Done(1000)]

  lemma LoneClaimed() returns (r: Run)
    ensures r in RunsTo(LoneStage(LONE_LOCK, 0, map[0 := LoneJob(0, 10, Check)], 1), 2, true)
  {
    r := Begin(2);
    assert [] + [LONE] == [LONE];
    r := Go(r, EMPTY, 2, true, Foreign(0, LONE), LoneStage(map[], 0, map[], 0));
    r := Go(r, LoneStage(map[], 0, map[], 0), 2, true, Take(0, TP, 0, 0),
            LoneStage(map[], 0, map[0 := LoneJob(0, 0, ClaimSet)], 1));
    r := Go(r, LoneStage(map[], 0, map[0 := LoneJob(0, 0, ClaimSet)], 1), 2, true,
            Work(0, PutKey(2, Held(0, 10)), Some(LoneJob(0, 10, Check)), false),
            LoneStage(LONE_LOCK, 0, map[0 := LoneJob(0, 10, Check)], 1));
  }

  lemma LoneMarked() returns (r: Run)
    ensures r in RunsTo(LoneStage(LONE_TOMB, 0, map[0 := LoneJob(0, 10, MissingDlq)], 1), 2, true)
  {
    r := LoneClaimed();
    r := Go(r, LoneStage(LONE_LOCK, 0, map[0 := LoneJob(0, 10, Check)], 1), 2, true,
            Work(0, Quiet, Some(LoneJob(0, 10, MissingMark)), false),
            LoneStage(LONE_LOCK, 0, map[0 := LoneJob(0, 10, MissingMark)], 1));
    r := Go(r, LoneStage(LONE_LOCK, 0, map[0 := LoneJob(0, 10, MissingMark)], 1), 2, true,
            Work(0, PutKey(2, Done(1000)), Some(LoneJob(0, 10, MissingDlq)), false),
            LoneStage(LONE_TOMB, 0, map[0 := LoneJob(0, 10, MissingDlq)], 1));
  }

  lemma LoneCrashed() returns (r: Run)
    ensures r in RunsTo(LoneStage(LONE_TOMB, 0, map[0 := LoneJob(1, 0, ClaimSet)], 2), 2, true)
  {
    r := LoneMarked();
    assert map[0 := LoneJob(0, 10, MissingDlq)] - {0} == map[];
    r := Go(r, LoneStage(LONE_TOMB, 0, map[0 := LoneJob(0, 10, MissingDlq)], 1), 2, true,
            Work(0, Quiet, None, true), LoneStage(LONE_TOMB, 0, map[], 1));
    r := Go(r, LoneStage(LONE_TOMB, 0, map[], 1), 2, true, Take(0, TP, 0, 0),
            LoneStage(LONE_TOMB, 0, map[0 := LoneJob(1, 0, ClaimSet)], 2));
  }

  lemma LoneFound() returns (r: Run)
    ensures r in RunsTo(LoneStage(LONE_TOMB, 0, map[0 := LoneJob(1, 0, ClaimGet)], 2), 2, true)
  {
    r := LoneCrashed();
    r := Go(r, LoneStage(LONE_TOMB, 0, map[0 := LoneJob(1, 0, ClaimSet)], 2), 2, true,
            Work(0, Quiet, Some(LoneJob(1, 0, ClaimGet)), false),
            LoneStage(LONE_TOMB, 0, map[0 := LoneJob(1, 0, ClaimGet)], 2));
  }

  lemma LoneSkipped() returns (r: Run)
    ensures r in RunsTo(LoneStage(LONE_TOMB, 0, map[0 := LoneJob(1, 0, Ack)], 2), 2, true)
  {
    r := LoneFound();
    r := Go(r, LoneStage(LONE_TOMB, 0, map[0 := LoneJob(1, 0, ClaimGet)], 2), 2, true,
            Work(0, Quiet, Some(LoneJob(1, 0, Ack)), false),
            LoneStage(LONE_TOMB, 0, map[0 := LoneJob(1, 0, Ack)], 2));
  }

  /** An event without an order is tombstoned first, so a crash before the publish loses its letter too:
      the redelivery finds the tombstone and commits the record. The run keeps the lock premise. */
  lemma LostMissingLetter() returns (states: seq<State>, acts: seq<Action>)
    ensures IsRun(CFG, states, acts) && PunctualRun(states, 2)
    ensures var s := states[|states| - 1];
            2 !in s.orders && !Lettered(s, 2) && s.jobs == map[] && LogOf(s, TP).done == |LogOf(s, TP).recs| == 1
  {
    var r := LoneSkipped();
    assert map[0 := LoneJob(1, 0, Ack)] - {0} == map[];
    r := Go(r, LoneStage(LONE_TOMB, 0, map[0 := LoneJob(1, 0, Ack)], 2), 2, true,
            Work(0, Commit(TP, 1), None, false), LoneStage(LONE_TOMB, 1, map[], 2));
    states, acts := r.0, r.1;
  }
}
