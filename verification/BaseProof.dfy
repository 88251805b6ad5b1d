/** The unconditional half of the invariant: every action of every run preserves `Base`. */
module BaseProof {
  import opened Wrappers
  import opened Orders
  import opened Pipeline
  import opened Invariant

  // ---------------------------------------------------------------- what one call can do

  predicate SameJob(j: Job, k: Job) {
    k.tp == j.tp && k.off == j.off && k.lease == j.lease && k.rec == j.rec && k.token == j.token
  }

  /** The effect of a call, described without the program counter. */
  predicate EffectOk(c: Config, s: State, j: Job, e: Effect) {
    match e
    case Quiet => true
    case PutKey(i, key) =>
      && j.rec.value.Event? && i == j.rec.value.id
      && if key.Held? then Visible(s, i).None? && key == Held(j.token, s.now + c.lockTtl)
         else Holding(j.pc) && Owns(s, i, j.token) && key.expiry == s.now + c.doneTtl
    case DropKey(i) =>
      j.rec.value.Event? && i == j.rec.value.id && Owns(s, i, j.token)
    case PutRow(i, row) =>
      && j.rec.value.Event? && i == j.rec.value.id && i in s.orders && Writing(j.pc)
      && row == Moved(s.orders[i], row.status, Some(j.rec.meta.attempt), row.reason)
    case Publish(tp, rec) =>
      && rec.value == j.rec.value
      && (rec.key == j.rec.key || (rec.value.Event? && rec.key == Some(rec.value.id)))
      && (1 <= j.rec.meta.attempt ==>
        && 1 <= rec.meta.attempt
        && (rec.meta.attempt == j.rec.meta.attempt || (j.pc.RetryPublish?
             && rec.meta.attempt == j.rec.meta.attempt + 1)))
    case Commit(tp, off) => j.pc == Ack && tp == j.tp && off == j.off + 1 && j.lease == LogOf(s, tp).epoch
    case Store(entry) => j.pc == Archive && entry == ArchiveEntry(j.tp, j.off, j.rec)
  }

  predicate AfterOk(c: Config, s: State, j: Job, e: Effect, after: Option<Job>) {
    after.Some? ==>
      && SameJob(j, after.value)
      && !e.Commit?
      && PcFits(j.tp.topic, after.value.pc, j.rec)
      && (Retrying(after.value.pc) ==> j.rec.meta.attempt < c.maxAttempts)
      && (after.value.pc == Ack && j.tp.topic == Dlq ==> e == Store(ArchiveEntry(j.tp, j.off, j.rec)))
      && (Holding(after.value.pc) ==>
        || (Holding(j.pc) && after.value.expiry == j.expiry && !e.DropKey? && !e.PutKey?)
        || (e.PutKey? && e.key == Held(j.token, after.value.expiry)))
  }

  lemma OrderStepShape(c: Config, s: State, j: Job, e: Effect, after: Option<Job>)
    requires PcFits(j.tp.topic, j.pc, j.rec) && j.rec.value.Event?
    requires Retrying(j.pc) ==> j.rec.meta.attempt < c.maxAttempts
    requires OrderStep(c, s, j, e, after)
    ensures EffectOk(c, s, j, e)
    ensures AfterOk(c, s, j, e, after)
  {
  }

  lemma OkShape(c: Config, s: State, j: Job, e: Effect, after: Option<Job>)
    requires PcFits(j.tp.topic, j.pc, j.rec)
    requires Retrying(j.pc) ==> j.rec.meta.attempt < c.maxAttempts
    requires OkStep(c, s, j, e, after)
    ensures EffectOk(c, s, j, e)
    ensures AfterOk(c, s, j, e, after)
  {
    if j.pc.PoisonDlq? || j.pc.Hold? || j.pc.Replay? || j.pc.Archive? || j.pc.Ack? || j.pc.Redeliver? {
    } else {
      OrderStepShape(c, s, j, e, after);
    }
  }

  /** Failing calls add nothing new: the same effects, and a job that hands back or gives up. */
  lemma FaultShape(c: Config, s: State, j: Job, e: Effect, after: Option<Job>)
    requires PcFits(j.tp.topic, j.pc, j.rec)
    requires Retrying(j.pc) ==> j.rec.meta.attempt < c.maxAttempts
    requires FaultStep(c, s, j, e, after)
    ensures EffectOk(c, s, j, e)
  {
    if e != Quiet {
      var ok :| OkStep(c, s, j, e, ok);
      OkShape(c, s, j, e, ok);
    }
  }

  lemma WorkShape(c: Config, s: State, w: Agent, e: Effect, after: Option<Job>, fault: bool)
    requires w in s.jobs && JobWf(c, s, w, s.jobs[w])
    requires Work(w, e, after, fault) in Moves(c, s)
    ensures EffectOk(c, s, s.jobs[w], e)
    ensures AfterOk(c, s, s.jobs[w], e, after)
  {
    if fault {
      FaultShape(c, s, s.jobs[w], e, after);
    } else {
      OkShape(c, s, s.jobs[w], e, after);
    }
  }

  /** The state after a call, before the history update. */
  function Mid(s: State, w: Agent, e: Effect, after: Option<Job>): State {
    SetJob(Apply(s, e), w, after)
  }

  /** A call leaves every partition's records, epoch and owner in place; only a commit moves `done`. */
  lemma ApplyKeepsLog(s: State, e: Effect, tp: Tp)
    ensures LogOf(s, tp).recs <= LogOf(Apply(s, e), tp).recs
    ensures LogOf(s, tp).epoch == LogOf(Apply(s, e), tp).epoch
    ensures LogOf(s, tp).owner == LogOf(Apply(s, e), tp).owner
    ensures LogOf(s, tp).done == LogOf(Apply(s, e), tp).done || (e.Commit? && e.tp == tp)
  {
  }

  lemma OtherJobKept(c: Config, s: State, w: Agent, j: Job, e: Effect, v: Agent, k: Job)
    requires JobWf(c, s, w, j) && JobWf(c, s, v, k) && v != w
    requires EffectOk(c, s, j, e)
    ensures JobWf(c, Apply(s, e), v, k)
  {
    ApplyKeepsLog(s, e, k.tp);
  }

  lemma OwnJobKept(c: Config, s: State, w: Agent, j: Job, e: Effect, after: Option<Job>)
    requires JobWf(c, s, w, j) && after.Some?
    requires AfterOk(c, s, j, e, after)
    ensures JobWf(c, Apply(s, e), w, after.value)
  {
    ApplyKeepsLog(s, e, j.tp);
  }

  lemma SetJobKeepsWf(c: Config, s: State, w: Agent, after: Option<Job>, v: Agent, k: Job)
    requires JobWf(c, s, v, k)
    ensures JobWf(c, SetJob(s, w, after), v, k)
  {
  }

  lemma WorkKeepsJobs(c: Config, s: State, w: Agent, e: Effect, after: Option<Job>)
    requires JobsWf(c, s) && w in s.jobs
    requires EffectOk(c, s, s.jobs[w], e) && AfterOk(c, s, s.jobs[w], e, after)
    ensures JobsWf(c, Mid(s, w, e, after))
  {
    var t := Mid(s, w, e, after);
    forall v | v in t.jobs
      ensures JobWf(c, t, v, t.jobs[v])
    {
      if v == w {
        OwnJobKept(c, s, w, s.jobs[w], e, after);
      } else {
        OtherJobKept(c, s, w, s.jobs[w], e, v, s.jobs[v]);
      }
      SetJobKeepsWf(c, Apply(s, e), w, after, v, t.jobs[v]);
    }
  }

  lemma WorkKeepsTokens(c: Config, s: State, w: Agent, e: Effect, after: Option<Job>)
    requires TokensDistinct(s) && w in s.jobs
    requires AfterOk(c, s, s.jobs[w], e, after)
    ensures TokensDistinct(Mid(s, w, e, after))
  {
    var t := Mid(s, w, e, after);
    forall u, v | u in t.jobs && v in t.jobs && t.jobs[u].token == t.jobs[v].token
      ensures u == v
    {
      assert t.jobs[u].token == s.jobs[u].token && t.jobs[v].token == s.jobs[v].token;
    }
  }

  lemma WorkKeepsKeys(c: Config, s: State, w: Agent, e: Effect, after: Option<Job>)
    requires JobsWf(c, s) && TokensDistinct(s) && KeysHeld(s) && w in s.jobs
    requires EffectOk(c, s, s.jobs[w], e) && AfterOk(c, s, s.jobs[w], e, after)
    ensures KeysHeld(Mid(s, w, e, after))
  {
    var t := Mid(s, w, e, after);
    forall v | v in t.jobs
      ensures HoldsKey(t, t.jobs[v])
    {
      assert HoldsKey(s, s.jobs[v]) && HoldsKey(s, s.jobs[w]);
      assert JobWf(c, s, w, s.jobs[w]);
    }
  }

  lemma WorkKeepsRecords(c: Config, s: State, w: Agent, e: Effect, after: Option<Job>)
    requires JobsWf(c, s) && RecordsOk(c, s) && w in s.jobs
    requires EffectOk(c, s, s.jobs[w], e)
    ensures RecordsOk(c, Mid(s, w, e, after))
  {
    var j := s.jobs[w];
    var t := Mid(s, w, e, after);
    assert JobWf(c, s, w, j);
    assert RecordOk(c, s, j.tp.topic, LogOf(s, j.tp).recs[j.off]);
    forall tp, off | 0 <= off < |LogOf(t, tp).recs|
      ensures RecordOk(c, t, tp.topic, LogOf(t, tp).recs[off])
    {
      if off < |LogOf(s, tp).recs| {
        assert LogOf(t, tp).recs[off] == LogOf(s, tp).recs[off];
        assert RecordOk(c, s, tp.topic, LogOf(s, tp).recs[off]);
      }
    }
  }

  lemma WorkKeepsAcks(c: Config, s: State, w: Agent, e: Effect, after: Option<Job>)
    requires ArchiveAcks(s) && w in s.jobs
    requires AfterOk(c, s, s.jobs[w], e, after)
    ensures ArchiveAcks(Mid(s, w, e, after))
  {
    var t := Mid(s, w, e, after);
    forall v | v in t.jobs
      ensures ArchiveAck(t, t.jobs[v])
    {
      assert ArchiveAck(s, s.jobs[v]);
    }
  }

  lemma WorkKeepsLog(c: Config, s: State, w: Agent, j: Job, e: Effect, tp: Tp)
    requires LogOk(s, tp) && JobWf(c, s, w, j) && ArchiveAck(s, j)
    requires EffectOk(c, s, j, e)
    ensures LogOk(Apply(s, e), tp)
  {
    var t := Apply(s, e);
    ApplyKeepsLog(s, e, tp);
    if tp.topic == Dlq {
      forall off | 0 <= off < LogOf(t, tp).done
        ensures Archived(t, tp, off)
      {
        if off < LogOf(s, tp).done {
          assert Archived(s, tp, off);
        }
      }
    }
  }

  lemma WorkKeepsOffsets(c: Config, s: State, w: Agent, e: Effect, after: Option<Job>)
    requires JobsWf(c, s) && OffsetsOk(s) && ArchiveAcks(s) && w in s.jobs
    requires EffectOk(c, s, s.jobs[w], e)
    ensures OffsetsOk(Mid(s, w, e, after))
  {
    var t := Mid(s, w, e, after);
    forall tp
      ensures LogOk(t, tp)
    {
      WorkKeepsLog(c, s, w, s.jobs[w], e, tp);
      assert LogOf(t, tp) == LogOf(Apply(s, e), tp) && t.archive == Apply(s, e).archive;
      forall off | 0 <= off < |LogOf(t, tp).recs| && Archived(Apply(s, e), tp, off)
        ensures Archived(t, tp, off)
      {
      }
    }
  }

  lemma WorkKeepsIds(c: Config, s: State, w: Agent, e: Effect, after: Option<Job>)
    requires JobsWf(c, s) && RecordsOk(c, s) && Ids(s) && w in s.jobs
    requires EffectOk(c, s, s.jobs[w], e)
    ensures Ids(Mid(s, w, e, after))
  {
    var j := s.jobs[w];
    assert JobWf(c, s, w, j);
    assert RecordOk(c, s, j.tp.topic, LogOf(s, j.tp).recs[j.off]);
  }

  lemma MidBase(c: Config, s: State, w: Agent, e: Effect, after: Option<Job>)
    requires Base(c, s) && w in s.jobs
    requires EffectOk(c, s, s.jobs[w], e) && AfterOk(c, s, s.jobs[w], e, after)
    ensures Base(c, Mid(s, w, e, after))
  {
    WorkKeepsJobs(c, s, w, e, after);
    WorkKeepsTokens(c, s, w, e, after);
    WorkKeepsKeys(c, s, w, e, after);
    WorkKeepsRecords(c, s, w, e, after);
    WorkKeepsIds(c, s, w, e, after);
    WorkKeepsAcks(c, s, w, e, after);
    WorkKeepsOffsets(c, s, w, e, after);
  }

  lemma WorkKeepsBase(c: Config, s: State, w: Agent, e: Effect, after: Option<Job>, fault: bool)
    requires Base(c, s)
    requires Work(w, e, after, fault) in Moves(c, s)
    ensures Base(c, Perform(s, Work(w, e, after, fault)))
  {
    assert JobWf(c, s, w, s.jobs[w]);
    WorkShape(c, s, w, e, after, fault);
    MidBase(c, s, w, e, after);
    HistoryKeepsBase(c, Mid(s, w, e, after), Perform(s, Work(w, e, after, fault)).slipped);
  }

  lemma HistoryKeepsBase(c: Config, s: State, slipped: set<Id>)
    requires Base(c, s)
    ensures Base(c, s.(slipped := slipped))
  {
    var t := s.(slipped := slipped);
    forall w | w in t.jobs
      ensures JobWf(c, t, w, t.jobs[w]) && HoldsKey(t, t.jobs[w]) && ArchiveAck(t, t.jobs[w])
    {
      assert JobWf(c, s, w, s.jobs[w]) && HoldsKey(s, s.jobs[w]) && ArchiveAck(s, s.jobs[w]);
    }
    forall tp, off | 0 <= off < |LogOf(t, tp).recs|
      ensures RecordOk(c, t, tp.topic, LogOf(t, tp).recs[off])
    {
      assert RecordOk(c, s, tp.topic, LogOf(s, tp).recs[off]);
    }
    forall tp
      ensures LogOk(t, tp)
    {
      assert LogOk(s, tp);
      forall off | 0 <= off < |LogOf(s, tp).recs| && Archived(s, tp, off)
        ensures Archived(t, tp, off)
      {
      }
    }
  }
}
