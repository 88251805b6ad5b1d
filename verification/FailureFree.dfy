/** Failure-free runs refine a recursive specification of one order's fate.

    A failure-free run has no failing call, no crash, no stale delivery; partitions move only when
    idle; every holder keeps its lock until it releases or completes it; and the outcome of each
    attempt is given by an oracle. */
module FailureFree {
  import opened Wrappers
  import opened Orders
  import opened Pipeline
  import opened Invariant

  datatype Outcome = Succeeds | FailsForGood | FailsForNow

  type Oracle = (Id, nat) -> Outcome

  // ---------------------------------------------------------------- the specification

  datatype Fate = Fate(status: Status, attempts: nat)

  /** What becomes of order `i` from attempt `k` on: the first outcome that is not transient decides,
      and so does exhaustion. */
  function FateFrom(c: Config, o: Oracle, i: Id, k: nat): Fate
    requires 1 <= k <= c.maxAttempts
    decreases c.maxAttempts - k
  {
    match o(i, k)
    case Succeeds => Fate(Completed, k)
    case FailsForGood => Fate(Failed, k)
    case FailsForNow => if k < c.maxAttempts then FateFrom(c, o, i, k + 1) else Fate(Failed, k)
  }

  /** Attempts 1..k-1 all failed transiently. */
  ghost predicate Climbed(o: Oracle, i: Id, k: nat) {
    forall m :: 1 <= m < k ==> o(i, m) == FailsForNow
  }

  lemma {:induction false} ClimbedFate(c: Config, o: Oracle, i: Id, k: nat)
    requires 1 <= k <= c.maxAttempts && Climbed(o, i, k)
    ensures FateFrom(c, o, i, 1) == FateFrom(c, o, i, k)
  {
    if 1 < k {
      ClimbedFate(c, o, i, k - 1);
      assert o(i, k - 1) == FailsForNow;
    }
  }

  // ---------------------------------------------------------------- failure-free runs

  /** fulfil and _fail follow the oracle. */
  predicate Follows(c: Config, o: Oracle, j: Job, after: Option<Job>) {
    j.rec.value.Event? && after.Some? &&
    match o(j.rec.value.id, j.rec.meta.attempt)
    case Succeeds => after.value.pc == CompleteTx
    case FailsForGood => after.value.pc.FailTx? && !after.value.pc.retryable
    case FailsForNow =>
      if j.rec.meta.attempt < c.maxAttempts then after.value.pc.RetryTx?
      else after.value.pc.FailTx? && after.value.pc.retryable
  }

  predicate Holds(s: State, w: Agent, tp: Tp, off: nat) {
    w in s.jobs && s.jobs[w].tp == tp && s.jobs[w].off == off
  }

  ghost predicate Clean(c: Config, o: Oracle, s: State, a: Action) {
    match a
    case Work(w, _, after, fault) => !fault && (w in s.jobs && s.jobs[w].pc == Fulfil ==>
        Follows(c, o, s.jobs[w], after))
    case Take(_, tp, _, lease) => lease == LogOf(s, tp).epoch
    case Assign(tp, _) => forall w :: w in s.jobs ==> s.jobs[w].tp != tp
    case _ => true
  }

  ghost predicate LocksKept(s: State) {
    forall w :: w in s.jobs && Holding(s.jobs[w].pc) ==> s.now < s.jobs[w].expiry
  }

  ghost predicate IsCleanRun(c: Config, o: Oracle, states: seq<State>, acts: seq<Action>) {
    && IsRun(c, states, acts)
    && (forall k :: 0 <= k < |acts| ==> Clean(c, o, states[k], acts[k]))
    && (forall k :: 0 <= k < |states| ==> LocksKept(states[k]))
  }

  // ---------------------------------------------------------------- the position of one event

  datatype Pos = Pos(tp: Tp, off: nat)

  predicate IdAt(s: State, i: Id, tp: Tp, off: nat) {
    && tp.topic != Dlq && off < |LogOf(s, tp).recs|
    && LogOf(s, tp).recs[off].value.Event? && LogOf(s, tp).recs[off].value.id == i
  }

  function RankAt(s: State, tp: Tp, off: nat): int {
    if off < |LogOf(s, tp).recs| then Rank(tp.topic, LogOf(s, tp).recs[off].meta.attempt) else 0
  }

  /** The event's records are one per rung of the ladder, from the first up to the front. */
  ghost predicate Rungs(s: State, i: Id, front: Pos) {
    && IdAt(s, i, front.tp, front.off)
    && (forall tp, off :: IdAt(s, i, tp, off) ==> 2 <= RankAt(s, tp, off) <= RankAt(s, front.tp, front.off))
    && (forall tp, off, q, k :: IdAt(s, i, tp, off) && IdAt(s, i, q, k) && RankAt(s, tp, off) == RankAt(s, q, k) ==>
         tp == q && off == k)
    && (forall r :: 2 <= r <= RankAt(s, front.tp, front.off) ==> HasRung(s, i, r))
  }

  ghost predicate HasRung(s: State, i: Id, r: int) {
    exists tp, off :: IdAt(s, i, tp, off) && RankAt(s, tp, off) == r
  }

  /** The job has handed its event over to a higher record and only cleans up. */
  predicate Handed(pc: Pc) {
    pc == RetryRelease || pc == Ack
  }

  ghost predicate HandedOver(s: State, tp: Tp, off: nat) {
    exists w :: Holds(s, w, tp, off) && Handed(s.jobs[w].pc)
  }

  /** Every record below the front is committed or in the hands of a job that is done with it. */
  ghost predicate Spent(s: State, i: Id, front: Pos) {
    && (forall tp, off: nat :: IdAt(s, i, tp, off) && RankAt(s, tp, off) < RankAt(s, front.tp, front.off) ==>
      off < LogOf(s, tp).done || HandedOver(s, tp, off))
    && (forall w, tp, off: nat ::
         Holds(s, w, tp, off) && IdAt(s, i, tp, off) && RankAt(s, tp, off) < RankAt(s, front.tp, front.off) ==>
      Handed(s.jobs[w].pc))
  }

  // ---------------------------------------------------------------- the row at each phase

  ghost predicate Waiting(o: Oracle, i: Id, row: Row, k: nat) {
    1 <= k && row.status == Pending && row.attempts == k - 1 && |row.trail| == 2 * k - 1 && Climbed(o, i, k)
  }

  ghost predicate Underway(o: Oracle, i: Id, row: Row, k: nat) {
    1 <= k && row.status == Processing && row.attempts == k && |row.trail| == 2 * k && Climbed(o, i, k)
  }

  /** Decided at attempt k, by its outcome or by exhaustion. */
  ghost predicate Over(c: Config, o: Oracle, i: Id, row: Row, k: nat) {
    && 1 <= k && row.attempts == k && |row.trail| == 2 * k + 1 && Climbed(o, i, k)
    && match o(i, k)
       case Succeeds => row.status == Completed
       case FailsForGood => row.status == Failed
       case FailsForNow => c.maxAttempts <= k && row.status == Failed
  }

  ghost predicate Phase(c: Config, o: Oracle, i: Id, row: Row, k: nat, topic: Topic, pc: Pc) {
    match pc
    case ClaimSet | ClaimGet | ClaimSetAgain | ClaimGetAgain | Check => Waiting(o, i, row, k)
    case Hold | Replay(_) => Waiting(o, i, row, k)
    case Redeliver => Waiting(o, i, row, k)
    case Fulfil => Underway(o, i, row, k)
    case CompleteTx => Underway(o, i, row, k) && o(i, k) == Succeeds
    case RetryTx(_, _) => Underway(o, i, row, k) && o(i, k) == FailsForNow && k < c.maxAttempts
    case FailTx(retryable, _) =>
      Underway(o, i, row, k) && (if retryable then o(i, k) == FailsForNow && c.maxAttempts <= k
          else o(i, k) == FailsForGood)
    case RetryStamp(_, _) | RetryPublish(_, _, _) =>
        row.status == Pending && row.attempts == k && |row.trail| == 2 * k + 1 && Climbed(o, i, k + 1)
    case CompleteMark => Over(c, o, i, row, k) && row.status == Completed
    case FailDlq(_, _) | FailMark => Over(c, o, i, row, k) && row.status == Failed
    case Ack => topic == Created && Over(c, o, i, row, k)
    case _ => false
  }

  function AttemptAt(s: State, tp: Tp, off: nat): nat {
    if off < |LogOf(s, tp).recs| then LogOf(s, tp).recs[off].meta.attempt else 0
  }

  /** The row is what the recursive specification says at the front's attempt and phase. */
  ghost predicate Front(c: Config, o: Oracle, s: State, i: Id, front: Pos) {
    && i in s.orders
    && (forall w :: Holds(s, w, front.tp, front.off) ==>
      Phase(c, o, i, s.orders[i], AttemptAt(s, front.tp, front.off), front.tp.topic, s.jobs[w].pc))
    && ((forall w :: !Holds(s, w, front.tp, front.off)) ==>
      if front.off < LogOf(s, front.tp).done then
        front.tp.topic == Created && Over(c, o, i, s.orders[i], AttemptAt(s, front.tp, front.off))
      else Waiting(o, i, s.orders[i], AttemptAt(s, front.tp, front.off)))
  }

  ghost predicate Traced(c: Config, o: Oracle, s: State, i: Id, front: Pos) {
    Rungs(s, i, front) && Spent(s, i, front) && Front(c, o, s, i, front)
  }

  ghost predicate AllTraced(c: Config, o: Oracle, s: State, fronts: map<Id, Pos>) {
    forall i :: i in fronts ==> Traced(c, o, s, i, fronts[i])
  }

  /** Nothing has happened yet to an order whose event is not published. */
  ghost predicate Untouched(s: State, i: Id) {
    i in s.orders && s.orders[i] == NewRow && forall tp, off :: !IdAt(s, i, tp, off)
  }

  ghost predicate Tombstones(s: State) {
    forall i :: TombstoneOk(s, i)
  }

  ghost predicate LeasesLive(s: State) {
    forall w :: w in s.jobs ==> s.jobs[w].lease == LogOf(s, s.jobs[w].tp).epoch
  }

  ghost predicate Ordered(c: Config, o: Oracle, s: State, fronts: map<Id, Pos>) {
    && fronts.Keys == s.published
    && LeasesLive(s)
    && AllTraced(c, o, s, fronts)
    && (forall i :: i in s.orders && i !in s.published ==> Untouched(s, i))
    && s.awaiting !! s.published
    && s.slipped == {}
  }
}
