/** When a trail records a processing to processing hop (app/kafka/consumers.py, the first transaction of
    _process): the documented status diagram has no such hop, and the code records one exactly here. */
module Reentry {
  import opened Wrappers
  import opened Orders
  import opened Pipeline
  import opened Invariant
  import opened BaseProof
  import opened BaseRuns
  import opened SoundProof
  import opened SoundRuns
  import opened Frames

  const SELF_HOP := Hop(Some(Processing), Processing)

  /** The action appends a processing to processing hop to the trail of order `i`. */
  predicate Reenters(s: State, a: Action, i: Id) {
    && i in s.orders && i in Perform(s, a).orders
    && Perform(s, a).orders[i].trail == s.orders[i].trail + [SELF_HOP]
  }

  predicate Checking(s: State, i: Id, w: Agent) {
    w in s.jobs && JobOf(s.jobs[w], i) && s.jobs[w].pc == Check
  }

  predicate OwnerOf(s: State, i: Id, w: Agent) {
    w in s.jobs && JobOf(s.jobs[w], i) && Owner(s.jobs[w].pc)
  }

  predicate Underway(s: State, i: Id) {
    i in s.orders && s.orders[i].status == Processing
  }

  // ---------------------------------------------------------------- exactly when a step records it

  lemma ReentryIsCheck(c: Config, s: State, a: Action, i: Id)
    requires Base(c, s) && a in Moves(c, s) && Reenters(s, a, i)
    ensures Underway(s, i) && a.Work? && Checking(s, i, a.w)
  {
    var row, row' := s.orders[i], Perform(s, a).orders[i];
    assert row'.trail[|row.trail|] == SELF_HOP;
    if a.Work? {
      assert JobWf(c, s, a.w, s.jobs[a.w]);
      WorkShape(c, s, a.w, a.e, a.after, a.fault);
      WorkKind(c, s, a.w, a.e, a.after, a.fault);
      PerformView(s, a.w, a.e, a.after, a.fault);
    }
  }

  lemma CheckReenters(c: Config, s: State, i: Id, w: Agent) returns (a: Action)
    requires Underway(s, i) && Checking(s, i, w)
    ensures a in Moves(c, s) && Reenters(s, a, i)
  {
    var j := s.jobs[w];
    var row := Moved(s.orders[i], Processing, Some(j.rec.meta.attempt), None);
    a := Work(w, PutRow(i, row), Some(j.(pc := Fulfil)), false);
    PerformView(s, w, a.e, a.after, false);
  }

  /** In every reachable state, the next step can record the hop if and only if the row is processing and
      a consumer of the event stands before the first transaction. */
  lemma ReentryIff(c: Config, states: seq<State>, acts: seq<Action>, n: nat, i: Id)
    requires 1 <= c.maxAttempts && IsRun(c, states, acts) && n < |states|
    ensures (exists a :: a in Moves(c, states[n]) && Reenters(states[n], a, i))
            <==> Underway(states[n], i) && exists w :: Checking(states[n], i, w)
  {
    var s := states[n];
    RunKeepsBase(c, states, acts, n);
    if a :| a in Moves(c, s) && Reenters(s, a, i) {
      ReentryIsCheck(c, s, a, i);
    }
    if w :| Underway(s, i) && Checking(s, i, w) {
      var a := CheckReenters(c, s, i, w);
    }
  }

  /** Under the lock premise nobody else is then at work on the order. */
  lemma ReentryIsAlone(c: Config, states: seq<State>, acts: seq<Action>, n: nat, i: Id, w: Agent, v: Agent)
    requires 1 <= c.maxAttempts && IsRun(c, states, acts) && n < |states| && Punctual(states[n], i)
    requires Checking(states[n], i, w)
    ensures !OwnerOf(states[n], i, v)
  {
    if OwnerOf(states[n], i, v) {
      RunKeepsBase(c, states, acts, n);
      OneWriter(c, states[n], w, v, i);
      assert false;
    }
  }

  // ---------------------------------------------------------------- why the row was left processing

  /** A consumer that had marked the order processing, or is doing so, fails before it commits a verdict. */
  predicate Abandons(s: State, a: Action, i: Id) {
    && a.Work? && a.fault && a.w in s.jobs && JobOf(s.jobs[a.w], i)
    && (Owner(s.jobs[a.w].pc) || (s.jobs[a.w].pc == Check && a.e.PutRow?))
  }

  predicate AbandonedBefore(states: seq<State>, acts: seq<Action>, n: nat, i: Id) {
    exists k :: 0 <= k < n && k < |states| && k < |acts| && Abandons(states[k], acts[k], i)
  }

  /** A processing row has somebody at work on it, or was abandoned. */
  ghost predicate Attended(s: State, i: Id, abandoned: bool) {
    Underway(s, i) ==> abandoned || exists w :: OwnerOf(s, i, w)
  }

  predicate OwnerShape(j: Job, e: Effect, after: Option<Job>) {
    && (Owner(j.pc) && !e.PutRow? ==> after.Some? && Owner(after.value.pc))
    && (e.PutRow? && e.row.status == Processing ==> j.pc == Check && after.Some? && after.value.pc == Fulfil)
  }

  lemma OkOwner(c: Config, s: State, j: Job, e: Effect, after: Option<Job>, i: Id)
    requires JobOf(j, i) && i in s.orders && OkStep(c, s, j, e, after)
    ensures OwnerShape(j, e, after)
  {
  }

  lemma CallKeepsAttended(c: Config, s: State, t: State, w: Agent, e: Effect, after: Option<Job>, fault: bool, i: Id,
                          abandoned: bool)
    requires w in s.jobs && CallView(s, t, w, e, after)
    requires EffectOk(c, s, s.jobs[w], e) && AfterOk(c, s, s.jobs[w], e, after) && EffectKind(s, s.jobs[w], e)
    requires !fault && JobOf(s.jobs[w], i) && i in s.orders ==> OwnerShape(s.jobs[w], e, after)
    requires Attended(s, i, abandoned)
    ensures Attended(t, i, abandoned || Abandons(s, Work(w, e, after, fault), i))
  {
    if Underway(t, i) && !abandoned && !Abandons(s, Work(w, e, after, fault), i) {
      if e.PutRow? && e.i == i {
        assert OwnerOf(t, i, w);
      } else {
        var v :| OwnerOf(s, i, v);
        assert OwnerOf(t, i, v);
      }
    }
  }

  lemma WorkKeepsAttended(c: Config, s: State, a: Action, i: Id, abandoned: bool)
    requires Base(c, s) && Attended(s, i, abandoned) && a.Work? && a in Moves(c, s)
    ensures Attended(Perform(s, a), i, abandoned || Abandons(s, a, i))
  {
    var j := s.jobs[a.w];
    assert JobWf(c, s, a.w, j);
    WorkShape(c, s, a.w, a.e, a.after, a.fault);
    WorkKind(c, s, a.w, a.e, a.after, a.fault);
    PerformView(s, a.w, a.e, a.after, a.fault);
    if !a.fault && JobOf(j, i) && i in s.orders {
      OkOwner(c, s, j, a.e, a.after, i);
    }
    CallKeepsAttended(c, s, Perform(s, a), a.w, a.e, a.after, a.fault, i, abandoned);
  }

  lemma StepKeepsAttended(c: Config, s: State, a: Action, i: Id, abandoned: bool)
    requires Base(c, s) && Attended(s, i, abandoned) && a in Moves(c, s)
    ensures Attended(Perform(s, a), i, abandoned || Abandons(s, a, i))
  {
    if a.Work? {
      WorkKeepsAttended(c, s, a, i, abandoned);
    } else {
      EnvStepExtends(c, s, a);
      if w :| OwnerOf(s, i, w) {
        assert OwnerOf(Perform(s, a), i, w);
      }
    }
  }

  lemma {:induction false} RunKeepsAttended(c: Config, states: seq<State>, acts: seq<Action>, n: nat, i: Id)
    requires 1 <= c.maxAttempts && IsRun(c, states, acts) && n < |states|
    ensures Attended(states[n], i, AbandonedBefore(states, acts, n, i))
  {
    if 0 < n {
      assert StepAt(c, states, acts, n - 1);
      RunKeepsAttended(c, states, acts, n - 1, i);
      RunKeepsBase(c, states, acts, n - 1);
      StepKeepsAttended(c, states[n - 1], acts[n - 1], i, AbandonedBefore(states, acts, n - 1, i));
      assert Abandons(states[n - 1], acts[n - 1], i) ==> AbandonedBefore(states, acts, n, i);
    }
  }

  /** Under the lock premise the hop is only ever recorded after a former owner of the order failed. */
  lemma ReentryNeedsFailure(c: Config, states: seq<State>, acts: seq<Action>, n: nat, i: Id)
    requires 1 <= c.maxAttempts && IsRun(c, states, acts) && n < |acts| && Punctual(states[n], i)
    requires Reenters(states[n], acts[n], i)
    ensures AbandonedBefore(states, acts, n, i)
  {
    assert StepAt(c, states, acts, n);
    RunKeepsAttended(c, states, acts, n, i);
    RunKeepsBase(c, states, acts, n);
    ReentryIsCheck(c, states[n], acts[n], i);
    if v :| OwnerOf(states[n], i, v) {
      ReentryIsAlone(c, states, acts, n, i, acts[n].w, v);
    }
  }
}
