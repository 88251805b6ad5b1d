/** Every clean step keeps every event on its trace. */
module FailureFreeSteps {
  import opened Wrappers
  import opened Orders
  import opened Pipeline
  import opened Invariant
  import opened BaseProof
  import opened FailureFree
  import opened FailureFreeProof
  import opened Frames

  // ---------------------------------------------------------------- the call of the job at the front

  /** The successful calls possible for a job, following the oracle. */
  ghost function Calls(c: Config, o: Oracle, s: State, j: Job): iset<(Effect, Option<Job>)> {
    iset x: (Effect, Option<Job>) | OkStep(c, s, j, x.0, x.1) && (j.pc == Fulfil ==> Follows(c, o, j, x.1))
  }

  function RowAfter(row: Row, e: Effect): Row {
    if e.PutRow? then e.row else row
  }

  predicate Advances(j: Job, e: Effect, after: Option<Job>) {
    && after.Some? && SameJob(j, after.value) && !e.Commit?
    && (e.Publish? ==> e.tp.topic == Dlq)
    && (e.PutRow? ==> j.rec.value.Event? && e.i == j.rec.value.id)
  }

  ghost predicate Climbs(o: Oracle, j: Job, e: Effect, after: Option<Job>, i: Id, row: Row) {
    && after.Some? && SameJob(j, after.value) && Handed(after.value.pc)
    && e.Publish? && e.tp.topic != Dlq && e.rec.value == j.rec.value
    && Rank(e.tp.topic, e.rec.meta.attempt) == Rank(j.tp.topic, j.rec.meta.attempt) + 1
    && Waiting(o, i, row, e.rec.meta.attempt)
  }

  ghost predicate Leaves(c: Config, o: Oracle, j: Job, e: Effect, after: Option<Job>, i: Id, row: Row) {
    && after.None?
    && if e.Commit?
       then e == Commit(j.tp, j.off + 1) && j.tp.topic == Created && Over(c, o, i, row, j.rec.meta.attempt)
       else e == Quiet && Waiting(o, i, row, j.rec.meta.attempt)
  }

  /** The three things the job at the front can do, with the phase it ends in. */
  ghost predicate FrontCall(c: Config, o: Oracle, j: Job, e: Effect, after: Option<Job>, i: Id, row: Row) {
    || (Advances(j, e, after) && Phase(c, o, i, RowAfter(row, e), j.rec.meta.attempt, j.tp.topic, after.value.pc))
    || Climbs(o, j, e, after, i, row)
    || Leaves(c, o, j, e, after, i, row)
  }

  ghost predicate FrontPre(c: Config, o: Oracle, s: State, j: Job, i: Id) {
    && j.rec.value.Event? && j.rec.value.id == i && i in s.orders
    && PcFits(j.tp.topic, j.pc, j.rec) && j.tp.topic != Dlq && j.lease == LogOf(s, j.tp).epoch
    && 1 <= j.rec.meta.attempt <= c.maxAttempts
    && Phase(c, o, i, s.orders[i], j.rec.meta.attempt, j.tp.topic, j.pc)
    && (i in s.guard && s.guard[i].Done? ==> Terminal(s.orders[i].status))
  }

  lemma ClaimCall(c: Config, o: Oracle, s: State, j: Job, e: Effect, after: Option<Job>, i: Id)
    requires FrontPre(c, o, s, j, i) && OrderStep(c, s, j, e, after)
    requires j.pc == ClaimSet || j.pc == ClaimGet || j.pc == ClaimSetAgain || j.pc == ClaimGetAgain || j.pc == Check
    ensures FrontCall(c, o, j, e, after, i, s.orders[i])
  {
  }

  lemma HandoverCall(c: Config, o: Oracle, s: State, j: Job, e: Effect, after: Option<Job>, i: Id)
    requires FrontPre(c, o, s, j, i) && OrderStep(c, s, j, e, after)
    requires j.pc.RetryStamp? || j.pc.RetryPublish? || j.pc == CompleteMark || j.pc.FailDlq? || j.pc == FailMark
    ensures FrontCall(c, o, j, e, after, i, s.orders[i])
  {
  }

  lemma LoopCall(c: Config, o: Oracle, s: State, j: Job, e: Effect, after: Option<Job>, i: Id)
    requires FrontPre(c, o, s, j, i) && OkStep(c, s, j, e, after)
    requires j.pc == Hold || j.pc.Replay? || j.pc == Ack || j.pc == Redeliver
    ensures FrontCall(c, o, j, e, after, i, s.orders[i])
  {
  }

  lemma AnyFrontCall(c: Config, o: Oracle, s: State, j: Job, e: Effect, after: Option<Job>, i: Id)
    requires FrontPre(c, o, s, j, i) && (e, after) in Calls(c, o, s, j)
    ensures FrontCall(c, o, j, e, after, i, s.orders[i])
  {
    if j.pc == Hold || j.pc.Replay? || j.pc == Ack || j.pc == Redeliver {
      LoopCall(c, o, s, j, e, after, i);
    } else if j.pc == Fulfil || j.pc == CompleteTx || j.pc.RetryTx? || j.pc.FailTx? {
    } else if j.pc.RetryStamp? || j.pc.RetryPublish? || j.pc == CompleteMark || j.pc.FailDlq? || j.pc == FailMark {
      HandoverCall(c, o, s, j, e, after, i);
    } else {
      ClaimCall(c, o, s, j, e, after, i);
    }
  }

  // ---------------------------------------------------------------- what a call does to logs and jobs

  lemma OthersHold(s: State, t: State, w: Agent, e: Effect, after: Option<Job>)
    requires CallView(s, t, w, e, after)
    ensures forall v, tp, off: nat :: v != w ==> SameHold(s, t, v, tp, off)
  {
  }

  lemma CallLog(s: State, t: State, w: Agent, e: Effect, after: Option<Job>, tp: Tp)
    requires CallView(s, t, w, e, after)
    ensures LogOf(t, tp).epoch == LogOf(s, tp).epoch
    ensures LogOf(t, tp).done == if e.Commit? && e.tp == tp then e.off else LogOf(s, tp).done
    ensures LogOf(t, tp).recs == if e.Publish? && e.tp == tp then LogOf(s, tp).recs + [e.rec] else LogOf(s, tp).recs
  {
  }

  predicate AddsRecord(e: Effect, i: Id) {
    e.Publish? && e.tp.topic != Dlq && e.rec.value.Event? && e.rec.value.id == i
  }

  lemma CallSameRecs(s: State, t: State, w: Agent, e: Effect, after: Option<Job>, i: Id)
    requires CallView(s, t, w, e, after) && !AddsRecord(e, i)
    ensures SameRecs(s, t, i)
  {
    forall tp, off: nat
      ensures IdAt(s, i, tp, off) <==> IdAt(t, i, tp, off)
      ensures IdAt(s, i, tp, off) ==> LogOf(s, tp).recs[off] == LogOf(t, tp).recs[off]
    {
      CallLog(s, t, w, e, after, tp);
    }
  }

  lemma CallOneNew(s: State, t: State, w: Agent, e: Effect, after: Option<Job>, i: Id)
    requires CallView(s, t, w, e, after) && AddsRecord(e, i)
    ensures OneNew(s, t, i, Pos(e.tp, |LogOf(s, e.tp).recs|))
    ensures RankAt(t, e.tp, |LogOf(s, e.tp).recs|) == Rank(e.tp.topic, e.rec.meta.attempt)
    ensures AttemptAt(t, e.tp, |LogOf(s, e.tp).recs|) == e.rec.meta.attempt
  {
    var at := Pos(e.tp, |LogOf(s, e.tp).recs|);
    CallLog(s, t, w, e, after, e.tp);
    forall tp, off: nat
      ensures IdAt(t, i, tp, off) <==> (IdAt(s, i, tp, off) || (tp == at.tp && off == at.off))
      ensures IdAt(s, i, tp, off) ==> LogOf(s, tp).recs[off] == LogOf(t, tp).recs[off]
    {
      CallLog(s, t, w, e, after, tp);
    }
  }

  lemma CallSameDone(s: State, t: State, w: Agent, e: Effect, after: Option<Job>, i: Id)
    requires CallView(s, t, w, e, after) && !e.Commit?
    ensures SameDone(s, t, i)
  {
    forall tp, off: nat | IdAt(s, i, tp, off)
      ensures off < LogOf(s, tp).done <==> off < LogOf(t, tp).done
    {
      CallLog(s, t, w, e, after, tp);
    }
  }

  /** A commit moves past exactly one record. */
  lemma CommitSameDone(s: State, t: State, w: Agent, e: Effect, after: Option<Job>, tp: Tp, off: nat)
    requires CallView(s, t, w, e, after)
    requires e.Commit? ==> e.off == LogOf(s, e.tp).done + 1
    requires e.Commit? ==> tp != e.tp || off + 1 != e.off
    ensures off < LogOf(s, tp).done <==> off < LogOf(t, tp).done
  {
    CallLog(s, t, w, e, after, tp);
  }

  lemma LiveOneHolder(c: Config, s: State)
    requires JobsWf(c, s) && LeasesLive(s)
    ensures OneHolder(s)
  {
    forall w, v, tp, off: nat | Holds(s, w, tp, off) && Holds(s, v, tp, off)
      ensures w == v
    {
      assert JobWf(c, s, w, s.jobs[w]) && JobWf(c, s, v, s.jobs[v]);
    }
  }

  // ---------------------------------------------------------------- one event over one call

  /** A commit is by a live job, at the committed offset. */
  lemma CommitAtDone(c: Config, s: State, w: Agent, j: Job, e: Effect)
    requires JobWf(c, s, w, j) && EffectOk(c, s, j, e) && e.Commit?
    ensures e.tp == j.tp && e.off == j.off + 1 == LogOf(s, e.tp).done + 1
  {
  }

  /** A job of another event, or of the dead-letter topic, leaves this event alone. */
  lemma OtherEventKept(c: Config, o: Oracle, s: State, t: State, w: Agent, e: Effect, after: Option<Job>, i: Id,
                       front: Pos)
    requires w in s.jobs && JobWf(c, s, w, s.jobs[w]) && EffectOk(c, s, s.jobs[w], e)
    requires AfterOk(c, s, s.jobs[w], e, after)
    requires Traced(c, o, s, i, front) && CallView(s, t, w, e, after)
    requires !IdAt(s, i, s.jobs[w].tp, s.jobs[w].off) && !AddsRecord(e, i)
    requires e.PutRow? ==> e.i != i
    ensures Traced(c, o, t, i, front)
  {
    var j := s.jobs[w];
    CallSameRecs(s, t, w, e, after, i);
    OthersHold(s, t, w, e, after);
    if e.Commit? {
      CommitAtDone(c, s, w, j, e);
    }
    forall tp, off: nat | IdAt(s, i, tp, off)
      ensures off < LogOf(s, tp).done <==> off < LogOf(t, tp).done
    {
      CommitSameDone(s, t, w, e, after, tp, off);
    }
    forall v, tp, off: nat | IdAt(s, i, tp, off)
      ensures SameHold(s, t, v, tp, off)
    {
      if v == w {
        assert !Holds(s, w, tp, off) && !Holds(t, w, tp, off);
      }
    }
    TraceKept(c, o, s, t, i, front);
  }

  lemma FrontEventKept(c: Config, o: Oracle, s: State, t: State, w: Agent, e: Effect, after: Option<Job>, i: Id,
                       front: Pos)
    returns (next: Pos)
    requires JobsWf(c, s) && LeasesLive(s) && w in s.jobs && EffectOk(c, s, s.jobs[w], e)
    requires Traced(c, o, s, i, front) && CallView(s, t, w, e, after) && LogOk(s, front.tp)
    requires e.Publish? ==> LogOk(s, e.tp)
    requires Holds(s, w, front.tp, front.off) && s.jobs[w].rec.value.Event? && s.jobs[w].rec.value.id == i
    requires FrontCall(c, o, s.jobs[w], e, after, i, s.orders[i])
    ensures Traced(c, o, t, i, next)
  {
    var j := s.jobs[w];
    assert JobWf(c, s, w, j);
    LiveOneHolder(c, s);
    OthersHold(s, t, w, e, after);
    next := front;
    if Climbs(o, j, e, after, i, s.orders[i]) {
      next := Pos(e.tp, |LogOf(s, e.tp).recs|);
      CallOneNew(s, t, w, e, after, i);
      CallSameDone(s, t, w, e, after, i);
      CallLog(s, t, w, e, after, e.tp);
      NobodyHoldsNew(c, s, t, w, e, after);
      TraceClimbs(c, o, s, t, i, front, next, w);
    } else if Leaves(c, o, j, e, after, i, s.orders[i]) {
      CallSameRecs(s, t, w, e, after, i);
      FrontLeft(c, o, s, t, w, e, after, i, front);
    } else {
      CallSameRecs(s, t, w, e, after, i);
      CallSameDone(s, t, w, e, after, i);
      FrontMoves(c, o, s, t, i, front, w);
    }
  }

  lemma NobodyHoldsNew(c: Config, s: State, t: State, w: Agent, e: Effect, after: Option<Job>)
    requires JobsWf(c, s) && w in s.jobs && CallView(s, t, w, e, after) && e.Publish?
    requires after.Some? ==> SameJob(s.jobs[w], after.value)
    ensures forall v :: !Holds(t, v, e.tp, |LogOf(s, e.tp).recs|)
  {
    forall v | v in t.jobs
      ensures t.jobs[v].off < |LogOf(s, t.jobs[v].tp).recs|
    {
      assert JobWf(c, s, v, s.jobs[v]);
    }
  }

  lemma FrontLeft(c: Config, o: Oracle, s: State, t: State, w: Agent, e: Effect, after: Option<Job>, i: Id, front: Pos)
    requires JobsWf(c, s) && LeasesLive(s) && w in s.jobs && EffectOk(c, s, s.jobs[w], e)
    requires Traced(c, o, s, i, front) && CallView(s, t, w, e, after)
    requires Holds(s, w, front.tp, front.off) && Leaves(c, o, s.jobs[w], e, after, i, s.orders[i])
    requires SameRecs(s, t, i)
    ensures Traced(c, o, t, i, front)
  {
    var j := s.jobs[w];
    assert JobWf(c, s, w, j);
    LiveOneHolder(c, s);
    OthersHold(s, t, w, e, after);
    if e.Commit? {
      CommitAtDone(c, s, w, j, e);
    }
    forall tp, off: nat | IdAt(s, i, tp, off) && (tp != front.tp || off != front.off)
      ensures off < LogOf(s, tp).done <==> off < LogOf(t, tp).done
    {
      CommitSameDone(s, t, w, e, after, tp, off);
    }
    CallLog(s, t, w, e, after, front.tp);
    FrontLeaves(c, o, s, t, i, front, w);
  }

  /** A job below the front only releases its key or commits its record. */
  lemma SpentCall(c: Config, o: Oracle, s: State, w: Agent, j: Job, e: Effect, after: Option<Job>)
    requires JobWf(c, s, w, j) && j.lease == LogOf(s, j.tp).epoch && j.tp.topic != Dlq
    requires (e, after) in Calls(c, o, s, j) && Handed(j.pc)
    ensures !e.PutRow? && !e.Publish?
    ensures if after.Some? then SameJob(j, after.value) && Handed(after.value.pc) && !e.Commit?
              else e == Commit(j.tp, j.off + 1)
  {
  }

  lemma SpentEventKept(c: Config, o: Oracle, s: State, t: State, w: Agent, e: Effect, after: Option<Job>, i: Id,
                       front: Pos)
    requires JobsWf(c, s) && LeasesLive(s) && w in s.jobs
    requires Traced(c, o, s, i, front) && CallView(s, t, w, e, after)
    requires IdAt(s, i, s.jobs[w].tp, s.jobs[w].off) && !Holds(s, w, front.tp, front.off)
    requires (e, after) in Calls(c, o, s, s.jobs[w]) && EffectOk(c, s, s.jobs[w], e)
    ensures Traced(c, o, t, i, front)
  {
    var j := s.jobs[w];
    var at := Pos(j.tp, j.off);
    assert JobWf(c, s, w, j);
    assert Holds(s, w, at.tp, at.off);
    assert RankAt(s, at.tp, at.off) != RankAt(s, front.tp, front.off);
    SpentCall(c, o, s, w, j, e, after);
    LiveOneHolder(c, s);
    OthersHold(s, t, w, e, after);
    CallSameRecs(s, t, w, e, after, i);
    if e.Commit? {
      CommitAtDone(c, s, w, j, e);
    }
    forall tp, off: nat | IdAt(s, i, tp, off) && (tp != at.tp || off != at.off)
      ensures off < LogOf(s, tp).done <==> off < LogOf(t, tp).done
    {
      CommitSameDone(s, t, w, e, after, tp, off);
    }
    CallLog(s, t, w, e, after, at.tp);
    SpentMoves(c, o, s, t, i, front, w, at);
  }
}
