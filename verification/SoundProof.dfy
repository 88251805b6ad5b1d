/** The half of the invariant that rests on the lock premise: one consumer call preserves `Sound`
    when nobody about to write a row has outlived its lock. */
module SoundProof {
  import opened Wrappers
  import opened Orders
  import opened Pipeline
  import opened Invariant
  import opened BaseProof

  // ---------------------------------------------------------------- which call has which effect

  function Verdict(pc: Pc): Status {
    match pc
    case CompleteTx => Completed
    case RetryTx(_, _) => Pending
    case FailTx(_, _) => Failed
    case _ => Processing
  }

  predicate Marking(pc: Pc) {
    pc == MissingMark || pc == SeenMark || pc == CompleteMark || pc == FailMark
  }

  /** Ties each effect to the calls that can have it. */
  predicate EffectKind(s: State, j: Job, e: Effect) {
    match e
    case PutKey(_, key) => key.Done? ==> Marking(j.pc)
    case PutRow(i, row) =>
      && i in s.orders && row.status == Verdict(j.pc)
      && if j.pc == Check then !Terminal(s.orders[i].status) else j.pc == CompleteTx || j.pc.RetryTx? || j.pc.FailTx?
    case Publish(tp, rec) =>
      && (tp.topic == Dlq ==> j.pc == PoisonDlq || j.pc == MissingDlq || j.pc.FailDlq?)
      && (tp.topic == Retry ==> j.pc.RetryPublish? && rec.meta.attempt == j.rec.meta.attempt + 1)
      && (tp.topic == Created ==> j.pc.Replay? && rec.meta == ReplayRecord(j).meta)
    case _ => true
  }

  lemma OkKind(c: Config, s: State, j: Job, e: Effect, after: Option<Job>)
    requires OkStep(c, s, j, e, after)
    ensures EffectKind(s, j, e)
  {
  }

  lemma FaultKind(c: Config, s: State, j: Job, e: Effect, after: Option<Job>)
    requires FaultStep(c, s, j, e, after)
    ensures EffectKind(s, j, e)
  {
    if e != Quiet {
      var ok :| OkStep(c, s, j, e, ok);
      OkKind(c, s, j, e, ok);
    }
  }

  lemma WorkKind(c: Config, s: State, w: Agent, e: Effect, after: Option<Job>, fault: bool)
    requires w in s.jobs
    requires Work(w, e, after, fault) in Moves(c, s)
    ensures EffectKind(s, s.jobs[w], e)
  {
    if fault {
      FaultKind(c, s, s.jobs[w], e, after);
    } else {
      OkKind(c, s, s.jobs[w], e, after);
    }
  }

  // ---------------------------------------------------------------- carriers

  lemma PublishKeepsCarried(s: State, tp: Tp, rec: Record, i: Id, floor: int)
    requires Carried(s, i, floor)
    ensures Carried(Apply(s, Publish(tp, rec)), i, floor)
  {
    var q, off :| Carries(s, i, floor, q, off);
    assert Carries(Apply(s, Publish(tp, rec)), i, floor, q, off);
  }

  lemma PublishCarries(s: State, tp: Tp, rec: Record, i: Id, floor: int)
    requires tp.topic != Dlq && rec.value.Event? && rec.value.id == i
    requires floor < Rank(tp.topic, rec.meta.attempt)
    requires LogOk(s, tp)
    ensures Carried(Apply(s, Publish(tp, rec)), i, floor)
  {
    assert Carries(Apply(s, Publish(tp, rec)), i, floor, tp, |LogOf(s, tp).recs|);
  }

  /** Committing a record never removes the last carrier: the committing job knows of a higher one. */
  lemma CommitKeepsCarried(c: Config, s: State, w: Agent, j: Job, i: Id, floor: int)
    requires JobWf(c, s, w, j) && j.pc == Ack && j.lease == LogOf(s, j.tp).epoch
    requires (JobOf(j, i) ==> JobKnows(s, j)) && i in s.orders
    requires Carried(s, i, floor)
    ensures Finished(s, i) || Carried(Apply(s, Commit(j.tp, j.off + 1)), i, floor)
  {
    var t := Apply(s, Commit(j.tp, j.off + 1));
    var tp, off :| Carries(s, i, floor, tp, off);
    if tp == j.tp && off == j.off {
      if !Finished(s, i) {
        var rank := Rank(j.tp.topic, j.rec.meta.attempt);
        var q, k :| Carries(s, i, rank, q, k);
        assert Carries(t, i, floor, q, k);
      }
    } else {
      assert Carries(t, i, floor, tp, off);
    }
  }

  lemma EffectKeepsCarried(c: Config, s: State, w: Agent, j: Job, e: Effect, i: Id, floor: int)
    requires JobWf(c, s, w, j) && EffectOk(c, s, j, e) && (JobOf(j, i) ==> JobKnows(s, j))
    requires i in s.orders && Carried(s, i, floor)
    ensures Finished(s, i) || Carried(Apply(s, e), i, floor)
  {
    if e.Publish? {
      PublishKeepsCarried(s, e.tp, e.rec, i, floor);
    } else if e.Commit? {
      CommitKeepsCarried(c, s, w, j, i, floor);
    } else {
      var tp, off :| Carries(s, i, floor, tp, off);
      assert Carries(Apply(s, e), i, floor, tp, off);
    }
  }

  // ---------------------------------------------------------------- rows

  /** Two jobs that may both still write one row, both inside their lock, are the same job. */
  lemma OneWriter(c: Config, s: State, w: Agent, v: Agent, i: Id)
    requires KeysHeld(s) && TokensDistinct(s) && Punctual(s, i)
    requires w in s.jobs && v in s.jobs && Writing(s.jobs[w].pc) && Writing(s.jobs[v].pc)
    requires JobOf(s.jobs[w], i) && JobOf(s.jobs[v], i)
    ensures w == v
  {
    assert HoldsKey(s, s.jobs[w]) && HoldsKey(s, s.jobs[v]);
  }

  /** A row is only written while it is not terminal, and by an allowed hop. */
  lemma WriteIsAllowed(c: Config, s: State, j: Job, e: Effect)
    requires e.PutRow? && EffectOk(c, s, j, e) && EffectKind(s, j, e) && JobKnows(s, j)
    ensures e.i in s.orders && !Terminal(s.orders[e.i].status)
    ensures Allowed(Hop(Some(s.orders[e.i].status), e.row.status))
    ensures e.row == Moved(s.orders[e.i], e.row.status, Some(j.rec.meta.attempt), e.row.reason)
  {
  }

  lemma EffectKeepsFinished(c: Config, s: State, j: Job, e: Effect, i: Id)
    requires EffectOk(c, s, j, e) && EffectKind(s, j, e) && (JobOf(j, i) ==> JobKnows(s, j))
    requires Finished(s, i)
    ensures Finished(Apply(s, e), i) && Apply(s, e).orders[i] == s.orders[i]
  {
    if e.PutRow? && e.i == i {
      WriteIsAllowed(c, s, j, e);
    }
  }

  lemma OtherRowKnown(c: Config, s: State, w: Agent, e: Effect, v: Agent, i: Id)
    requires KeysHeld(s) && TokensDistinct(s) && Punctual(s, i)
    requires w in s.jobs && v in s.jobs && w != v && JobOf(s.jobs[v], i)
    requires EffectOk(c, s, s.jobs[w], e) && EffectKind(s, s.jobs[w], e)
    requires (JobOf(s.jobs[w], i) ==> JobKnows(s, s.jobs[w])) && RowKnown(s, s.jobs[v])
    ensures RowKnown(Apply(s, e), s.jobs[v])
  {
    if e.PutRow? && e.i == i {
      WriteIsAllowed(c, s, s.jobs[w], e);
      if Owner(s.jobs[v].pc) {
        OneWriter(c, s, w, v, i);
      }
    }
  }

  lemma CarrierSurvives(c: Config, s: State, w: Agent, j: Job, e: Effect, k: Job, i: Id)
    requires JobWf(c, s, w, j) && JobOf(k, i)
    requires EffectOk(c, s, j, e) && EffectKind(s, j, e)
    requires (JobOf(j, i) ==> JobKnows(s, j)) && CarrierKnown(s, k)
    ensures CarrierKnown(Apply(s, e), k)
  {
    if (k.pc == Ack || k.pc == RetryRelease) && k.tp.topic != Dlq && i in s.orders {
      if !Finished(s, i) {
        EffectKeepsCarried(c, s, w, j, e, i, Rank(k.tp.topic, k.rec.meta.attempt));
      }
      if Finished(s, i) {
        EffectKeepsFinished(c, s, j, e, i);
      }
    }
  }

  // ---------------------------------------------------------------- the job that makes the call

  lemma OwnRowKnown(c: Config, s: State, w: Agent, j: Job, e: Effect, k: Job)
    requires JobWf(c, s, w, j) && RecordOk(c, s, j.tp.topic, j.rec)
    requires j.rec.value.Event? && OrderStep(c, s, j, e, Some(k)) && RowKnown(s, j)
    ensures RowKnown(Apply(s, e), k)
  {
  }

  /** A successful call that ends in an acknowledgement, or in the release after a retry publish. */
  lemma OwnCarrier(c: Config, s: State, w: Agent, j: Job, e: Effect, k: Job)
    requires JobWf(c, s, w, j) && RecordOk(c, s, j.tp.topic, j.rec) && OffsetsOk(s)
    requires j.rec.value.Event? && TombstoneOk(s, j.rec.value.id) && OrderStep(c, s, j, e, Some(k)) && JobKnows(s, j)
    ensures CarrierKnown(Apply(s, e), k)
  {
    var i := j.rec.value.id;
    if j.pc.RetryPublish? {
      assert LogOk(s, e.tp);
      PublishCarries(s, e.tp, e.rec, i, Rank(j.tp.topic, j.rec.meta.attempt));
    } else if j.pc == RetryRelease && i in s.orders && !Finished(s, i) {
      EffectKeepsCarried(c, s, w, j, e, i, Rank(j.tp.topic, j.rec.meta.attempt));
    }
  }

  lemma OwnKnows(c: Config, s: State, w: Agent, j: Job, e: Effect, after: Option<Job>, i: Id)
    requires JobWf(c, s, w, j) && RecordOk(c, s, j.tp.topic, j.rec) && OffsetsOk(s)
    requires JobOf(j, i) && TombstoneOk(s, i)
    requires OkStep(c, s, j, e, after) && JobKnows(s, j) && after.Some?
    ensures JobKnows(Apply(s, e), after.value)
  {
    if j.pc.PoisonDlq? || j.pc.Hold? || j.pc.Archive? || j.pc.Ack? || j.pc.Redeliver? {
    } else if j.pc.Replay? {
      assert LogOk(s, e.tp);
      PublishCarries(s, e.tp, e.rec, i, Rank(j.tp.topic, j.rec.meta.attempt));
    } else {
      OwnRowKnown(c, s, w, j, e, after.value);
      OwnCarrier(c, s, w, j, e, after.value);
    }
  }

  /** What a job knows depends only on rows, logs and foreign ids. */
  lemma SameViewKnows(s: State, t: State, j: Job)
    requires JobKnows(s, j)
    requires t.orders == s.orders && t.topics == s.topics && t.foreign == s.foreign
    ensures JobKnows(t, j)
  {
    if j.rec.value.Event? && Carried(s, j.rec.value.id, Rank(j.tp.topic, j.rec.meta.attempt)) {
      SameViewCarried(s, t, j.rec.value.id, Rank(j.tp.topic, j.rec.meta.attempt));
    }
  }

  lemma SameViewCarried(s: State, t: State, i: Id, floor: int)
    requires Carried(s, i, floor) && t.topics == s.topics
    ensures Carried(t, i, floor)
  {
    var tp, off :| Carries(s, i, floor, tp, off);
    assert Carries(t, i, floor, tp, off);
  }

  lemma AfterKnows(c: Config, s: State, w: Agent, e: Effect, after: Option<Job>, fault: bool, i: Id)
    requires Base(c, s) && TombstoneOk(s, i)
    requires w in s.jobs && JobOf(s.jobs[w], i) && JobKnows(s, s.jobs[w]) && after.Some?
    requires Work(w, e, after, fault) in Moves(c, s)
    ensures JobKnows(Apply(s, e), after.value)
  {
    var j := s.jobs[w];
    if !fault {
      assert JobWf(c, s, w, j);
      assert RecordOk(c, s, j.tp.topic, LogOf(s, j.tp).recs[j.off]);
      OwnKnows(c, s, w, j, e, after, i);
    }
  }

  lemma WorkKeepsKnowledge(c: Config, s: State, w: Agent, e: Effect, after: Option<Job>, fault: bool, i: Id)
    requires Base(c, s) && Punctual(s, i) && TombstoneOk(s, i) && JobsKnow(s, i)
    requires w in s.jobs && (after.Some? ==> SameJob(s.jobs[w], after.value))
    requires EffectOk(c, s, s.jobs[w], e) && EffectKind(s, s.jobs[w], e)
    requires Work(w, e, after, fault) in Moves(c, s)
    ensures JobsKnow(Mid(s, w, e, after), i)
  {
    var t := Mid(s, w, e, after);
    forall v | v in t.jobs && JobOf(t.jobs[v], i)
      ensures JobKnows(t, t.jobs[v])
    {
      if v == w {
        AfterKnows(c, s, w, e, after, fault, i);
      } else {
        assert JobWf(c, s, w, s.jobs[w]);
        OtherRowKnown(c, s, w, e, v, i);
        CarrierSurvives(c, s, w, s.jobs[w], e, s.jobs[v], i);
      }
      SameViewKnows(Apply(s, e), t, t.jobs[v]);
    }
  }

  // ---------------------------------------------------------------- rows, tombstones, no loss

  lemma WorkKeepsTrails(c: Config, s: State, w: Agent, e: Effect, after: Option<Job>, i: Id)
    requires TrailsOk(s, i) && w in s.jobs && (JobOf(s.jobs[w], i) ==> JobKnows(s, s.jobs[w]))
    requires EffectOk(c, s, s.jobs[w], e) && EffectKind(s, s.jobs[w], e)
    ensures TrailsOk(Mid(s, w, e, after), i)
  {
    if e.PutRow? && e.i == i {
      WriteIsAllowed(c, s, s.jobs[w], e);
      MovedKeepsRowOk(s.orders[i], e.row.status, Some(s.jobs[w].rec.meta.attempt), e.row.reason);
    }
  }

  lemma WorkKeepsTombstone(c: Config, s: State, w: Agent, e: Effect, after: Option<Job>, i: Id)
    requires TombstoneOk(s, i) && w in s.jobs && (JobOf(s.jobs[w], i) ==> JobKnows(s, s.jobs[w]))
    requires EffectOk(c, s, s.jobs[w], e) && EffectKind(s, s.jobs[w], e)
    ensures TombstoneOk(Mid(s, w, e, after), i)
  {
    if e.PutRow? && e.i == i {
      WriteIsAllowed(c, s, s.jobs[w], e);
    }
  }

  lemma WorkKeepsNoLoss(c: Config, s: State, w: Agent, e: Effect, after: Option<Job>, i: Id)
    requires NoLoss(s, i) && s.published <= s.orders.Keys
    requires w in s.jobs && JobWf(c, s, w, s.jobs[w]) && (JobOf(s.jobs[w], i) ==> JobKnows(s, s.jobs[w]))
    requires EffectOk(c, s, s.jobs[w], e) && EffectKind(s, s.jobs[w], e)
    ensures NoLoss(Mid(s, w, e, after), i)
  {
    var t := Mid(s, w, e, after);
    if i in s.published {
      if Finished(s, i) {
        EffectKeepsFinished(c, s, s.jobs[w], e, i);
      } else {
        EffectKeepsCarried(c, s, w, s.jobs[w], e, i, 0);
        if Carried(Apply(s, e), i, 0) {
          SameViewCarried(Apply(s, e), t, i, 0);
        }
      }
    }
  }
}
