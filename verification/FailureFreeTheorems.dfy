/** What failure-free runs establish: the recursive specification, and conservation. */
module FailureFreeTheorems {
  import opened Orders
  import opened Pipeline
  import opened Invariant
  import opened FailureFree
  import opened FailureFreeProof
  import opened FailureFreeSteps
  import opened FailureFreeRuns

  // ---------------------------------------------------------------- refinement

  /** A terminal row can only be found at the end of its event's trace. */
  lemma TerminalIsOver(c: Config, o: Oracle, s: State, i: Id, front: Pos)
    requires JobsWf(c, s) && Traced(c, o, s, i, front) && Terminal(s.orders[i].status)
    ensures front.tp.topic == Created
    ensures Over(c, o, i, s.orders[i], AttemptAt(s, front.tp, front.off))
  {
    if w :| Holds(s, w, front.tp, front.off) {
      assert JobWf(c, s, w, s.jobs[w]);
    }
  }

  lemma OverIsFate(c: Config, o: Oracle, i: Id, row: Row, k: nat)
    requires Over(c, o, i, row, k) && k <= c.maxAttempts
    ensures Fate(row.status, row.attempts) == FateFrom(c, o, i, 1)
  {
    ClimbedFate(c, o, i, k);
  }

  /** In every failure-free run the first non-transient outcome, or exhaustion, decides an order:
      its status and attempts are those of the recursive specification, and its trail has exactly
      1 + 2k entries for the k attempts made. */
  lemma RefinesFate(c: Config, o: Oracle, states: seq<State>, acts: seq<Action>, n: nat, i: Id)
    requires 1 <= c.maxAttempts && IsCleanRun(c, o, states, acts) && n < |states|
    requires i in states[n].published && Finished(states[n], i)
    ensures var row := states[n].orders[i];
            Fate(row.status, row.attempts) == FateFrom(c, o, i, 1) && |row.trail| == 1 + 2 * row.attempts
  {
    var s := states[n];
    var fronts := RunKeepsOrdered(c, o, states, acts, n);
    var front := fronts[i];
    assert Traced(c, o, s, i, front);
    TerminalIsOver(c, o, s, i, front);
    assert RecordOk(c, s, front.tp.topic, LogOf(s, front.tp).recs[front.off]);
    OverIsFate(c, o, i, s.orders[i], AttemptAt(s, front.tp, front.off));
  }

  predicate RetryAt(s: State, i: Id, attempt: nat, tp: Tp, off: nat) {
    IdAt(s, i, tp, off) && tp.topic == Retry && AttemptAt(s, tp, off) == attempt
  }

  ghost predicate Retried(s: State, i: Id, attempt: nat) {
    exists tp, off: nat :: RetryAt(s, i, attempt, tp, off)
  }

  /** It left exactly k - 1 retry records behind: one for each attempt 2..k and no other. */
  lemma OneRetryPerAttempt(c: Config, o: Oracle, states: seq<State>, acts: seq<Action>, n: nat, i: Id, attempt: nat)
    requires 1 <= c.maxAttempts && IsCleanRun(c, o, states, acts) && n < |states|
    requires i in states[n].published && Finished(states[n], i)
    ensures Retried(states[n], i, attempt) <==> 2 <= attempt <= states[n].orders[i].attempts
    ensures forall tp, off: nat, q, k: nat ::
              RetryAt(states[n], i, attempt, tp, off) && RetryAt(states[n], i, attempt, q, k) ==> tp == q && off == k
  {
    var s := states[n];
    var fronts := RunKeepsOrdered(c, o, states, acts, n);
    var front := fronts[i];
    assert Traced(c, o, s, i, front);
    TerminalIsOver(c, o, s, i, front);
    RetriesBelowFront(c, s, i, front, attempt);
  }

  lemma RetriesBelowFront(c: Config, s: State, i: Id, front: Pos, attempt: nat)
    requires Rungs(s, i, front) && front.tp.topic == Created
    ensures Retried(s, i, attempt) <==> 2 <= attempt <= AttemptAt(s, front.tp, front.off)
    ensures forall tp, off: nat, q, k: nat :: RetryAt(s, i, attempt, tp, off) && RetryAt(s, i, attempt, q, k) ==>
              tp == q && off == k
  {
    if Retried(s, i, attempt) {
      var tp, off: nat :| RetryAt(s, i, attempt, tp, off);
      assert 2 <= RankAt(s, tp, off) <= RankAt(s, front.tp, front.off);
    }
    if 2 <= attempt <= AttemptAt(s, front.tp, front.off) {
      assert HasRung(s, i, 2 * attempt - 1);
      var tp, off: nat :| IdAt(s, i, tp, off) && RankAt(s, tp, off) == 2 * attempt - 1;
      assert RetryAt(s, i, attempt, tp, off);
    }
    forall tp, off: nat, q, k: nat | RetryAt(s, i, attempt, tp, off) && RetryAt(s, i, attempt, q, k)
      ensures tp == q && off == k
    {
      assert RankAt(s, tp, off) == RankAt(s, q, k);
    }
  }

  // ---------------------------------------------------------------- conservation

  /** The job has made its event's outcome durable, or handed the event to a higher record. */
  predicate Settled(pc: Pc) {
    Handed(pc) || pc == CompleteMark || pc == FailMark
  }

  /** An uncommitted record that still has its event's work in front of it. A record in a consumer's
      hand and the copy that consumer republished count as one. */
  ghost predicate ActiveAt(s: State, i: Id, tp: Tp, off: nat) {
    && IdAt(s, i, tp, off) && LogOf(s, tp).done <= off
    && forall w :: Holds(s, w, tp, off) ==> !Settled(s.jobs[w].pc)
  }

  ghost predicate InFlight(s: State, i: Id) {
    exists tp, off: nat :: ActiveAt(s, i, tp, off)
  }

  predicate CompletedOrder(s: State, i: Id) {
    i in s.orders && s.orders[i].status == Completed
  }

  lemma OnlyFrontActive(c: Config, o: Oracle, s: State, i: Id, front: Pos, tp: Tp, off: nat)
    requires Traced(c, o, s, i, front) && ActiveAt(s, i, tp, off)
    ensures tp == front.tp && off == front.off
  {
    assert !HandedOver(s, tp, off);
  }

  /** The author of a dead letter can only be the job at the front. */
  lemma AuthorAtFront(c: Config, o: Oracle, s: State, i: Id, front: Pos, w: Agent)
    requires JobsWf(c, s) && LeasesLive(s) && Traced(c, o, s, i, front) && AboutToLetter(s, i, w)
    ensures Holds(s, w, front.tp, front.off)
  {
    var j := s.jobs[w];
    assert JobWf(c, s, w, j);
    assert IdAt(s, i, j.tp, j.off) && Holds(s, w, j.tp, j.off);
  }

  /** Which of the three an event is, read off its trace. */
  lemma FrontDecides(c: Config, o: Oracle, s: State, i: Id, front: Pos)
    requires Base(c, s) && Sound(s, i) && LeasesLive(s) && s.slipped == {} && Traced(c, o, s, i, front)
    ensures ActiveAt(s, i, front.tp, front.off) <==> !CompletedOrder(s, i) && !Lettered(s, i)
    ensures !(CompletedOrder(s, i) && Lettered(s, i))
  {
    LiveOneHolder(c, s);
    if w :| Holds(s, w, front.tp, front.off) {
      assert JobWf(c, s, w, s.jobs[w]);
      HeldFrontDecides(c, o, s, i, front, w);
    } else {
      assert forall w :: !Holds(s, w, front.tp, front.off);
      FreeFrontDecides(c, o, s, i, front);
    }
  }

  lemma FailedIsLettered(c: Config, o: Oracle, s: State, i: Id, front: Pos)
    requires JobsWf(c, s) && LeasesLive(s) && LetterOrSlip(s, i) && s.slipped == {} && Traced(c, o, s, i, front)
    requires FailedOrder(s, i)
    requires forall w :: Holds(s, w, front.tp, front.off) ==> !s.jobs[w].pc.FailDlq?
    ensures Lettered(s, i)
  {
    if !Lettered(s, i) {
      var w :| AboutToLetter(s, i, w);
      AuthorAtFront(c, o, s, i, front, w);
      assert false;
    }
  }

  lemma HeldFrontDecides(c: Config, o: Oracle, s: State, i: Id, front: Pos, w: Agent)
    requires JobsWf(c, s) && LeasesLive(s) && OneHolder(s) && OneAuthor(s, i) && LetterOrSlip(s, i) && s.slipped == {}
    requires Traced(c, o, s, i, front) && Holds(s, w, front.tp, front.off)
    requires Lettered(s, i) ==> FailedOrder(s, i)
    ensures ActiveAt(s, i, front.tp, front.off) <==> !CompletedOrder(s, i) && !Lettered(s, i)
  {
    var j := s.jobs[w];
    assert JobWf(c, s, w, j);
    assert ActiveAt(s, i, front.tp, front.off) <==> !Settled(j.pc);
    if j.pc.FailDlq? {
      assert AboutToLetter(s, i, w);
    } else if FailedOrder(s, i) {
      FailedIsLettered(c, o, s, i, front);
    }
  }

  lemma FreeFrontDecides(c: Config, o: Oracle, s: State, i: Id, front: Pos)
    requires JobsWf(c, s) && LeasesLive(s) && LetterOrSlip(s, i) && s.slipped == {}
    requires Traced(c, o, s, i, front) && forall w :: !Holds(s, w, front.tp, front.off)
    requires Lettered(s, i) ==> FailedOrder(s, i)
    ensures ActiveAt(s, i, front.tp, front.off) <==> !CompletedOrder(s, i) && !Lettered(s, i)
  {
    if FailedOrder(s, i) {
      FailedIsLettered(c, o, s, i, front);
    }
  }

  /** Every published event is completed, dead-lettered or in flight, exactly one of them, and an
      event in flight has exactly one active carrier. */
  lemma ExactlyOne(c: Config, o: Oracle, states: seq<State>, acts: seq<Action>, n: nat, i: Id)
    requires 1 <= c.maxAttempts && IsCleanRun(c, o, states, acts) && n < |states|
    requires i in states[n].published
    ensures var s := states[n];
            && (InFlight(s, i) <==> !CompletedOrder(s, i) && !Lettered(s, i))
            && !(CompletedOrder(s, i) && Lettered(s, i))
            && (forall tp, off: nat, q, k: nat :: ActiveAt(s, i, tp, off) && ActiveAt(s, i, q, k) ==>
                 tp == q && off == k)
  {
    var s := states[n];
    var fronts := RunKeepsOrdered(c, o, states, acts, n);
    CleanRunIsSound(c, o, states, acts, n, i);
    assert Traced(c, o, s, i, fronts[i]);
    FrontDecides(c, o, s, i, fronts[i]);
    OneActive(c, o, s, i, fronts[i]);
  }

  lemma OneActive(c: Config, o: Oracle, s: State, i: Id, front: Pos)
    requires Traced(c, o, s, i, front)
    ensures InFlight(s, i) <==> ActiveAt(s, i, front.tp, front.off)
    ensures forall tp, off: nat, q, k: nat :: ActiveAt(s, i, tp, off) && ActiveAt(s, i, q, k) ==> tp == q && off == k
  {
    forall tp, off: nat | ActiveAt(s, i, tp, off)
      ensures tp == front.tp && off == front.off
    {
      OnlyFrontActive(c, o, s, i, front, tp, off);
    }
  }

  ghost function CompletedIds(s: State): set<Id> { set i | i in s.published && CompletedOrder(s, i) }
  ghost function LetteredIds(s: State): set<Id> { set i | i in s.published && Lettered(s, i) }
  ghost function FlyingIds(s: State): set<Id> { set i | i in s.published && InFlight(s, i) }

  lemma SizesAdd<T>(all: set<T>, a: set<T>, b: set<T>, d: set<T>)
    requires all == a + b + d && a !! b && (a + b) !! d
    ensures |all| == |a| + |b| + |d|
  {
  }

  /** Conservation: submitted events are completed, dead-lettered or in flight, and nothing else. */
  lemma Conservation(c: Config, o: Oracle, states: seq<State>, acts: seq<Action>, n: nat)
    requires 1 <= c.maxAttempts && IsCleanRun(c, o, states, acts) && n < |states|
    ensures var s := states[n]; |s.published| == |CompletedIds(s)| + |LetteredIds(s)| + |FlyingIds(s)|
  {
    var s := states[n];
    forall i | i in s.published
      ensures (i in FlyingIds(s) <==> i !in CompletedIds(s) && i !in LetteredIds(s))
      ensures !(i in CompletedIds(s) && i in LetteredIds(s))
    {
      ExactlyOne(c, o, states, acts, n, i);
    }
    SizesAdd(s.published, CompletedIds(s), LetteredIds(s), FlyingIds(s));
  }
}
