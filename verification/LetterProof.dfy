/** Dead letters: at most one per failed order, exactly one unless a failure falls between the
    FAILED commit and the publish. One consumer call preserves this part of `Sound`. */
module LetterProof {
  import opened Wrappers
  import opened Orders
  import opened Pipeline
  import opened Invariant
  import opened BaseProof
  import opened Frames

  /** How one call touches the dead letters of event `i`. */
  predicate LetterShape(s: State, j: Job, e: Effect, after: Option<Job>, i: Id) {
    && (e.Publish? ==> e.rec.value == j.rec.value)
    && (e.PutRow? ==> j.rec.value.Event? && e.i == j.rec.value.id)
    && (after.Some? ==> after.value.rec == j.rec)
    && (JobOf(j, i) ==> OwnShape(s, j, e, after, i))
  }

  predicate OwnShape(s: State, j: Job, e: Effect, after: Option<Job>, i: Id) {
    && (e.Publish? && e.tp.topic == Dlq && i in s.orders ==> j.pc.FailDlq? && Quotes(e.rec, j))
    && (after.Some? && after.value.pc.FailDlq? ==> j.pc.FailTx? && e.PutRow?)
    && (j.pc.FailDlq? ==> e == Quiet || (e.Publish? && e.tp.topic == Dlq))
    && (e.PutRow? ==>
      && i in s.orders && !Terminal(s.orders[i].status)
      && (e.row.status == Failed <==> j.pc.FailTx?))
  }

  /** The letter carries the attempt, the topic and the error of the job. */
  predicate Quotes(rec: Record, j: Job)
    requires j.pc.FailDlq?
  {
    && rec.meta.attempt == j.rec.meta.attempt && rec.meta.origin == Some(Created)
    && rec.meta.error.Some? && Explains(rec.meta.error.value, j.pc.error)
  }

  lemma OkLetter(c: Config, s: State, w: Agent, j: Job, e: Effect, after: Option<Job>, i: Id)
    requires JobWf(c, s, w, j) && JobOf(j, i) && OkStep(c, s, j, e, after) && RowKnown(s, j) && 1 <= j.rec.meta.attempt
    ensures OwnShape(s, j, e, after, i)
  {
  }

  lemma FaultLetter(c: Config, s: State, w: Agent, j: Job, e: Effect, after: Option<Job>, i: Id)
    requires JobWf(c, s, w, j) && JobOf(j, i) && FaultStep(c, s, j, e, after) && RowKnown(s, j)
    requires 1 <= j.rec.meta.attempt
    ensures OwnShape(s, j, e, after, i)
  {
    if e != Quiet {
      var ok :| OkStep(c, s, j, e, ok);
      OkLetter(c, s, w, j, e, ok, i);
    }
  }

  lemma WorkLetter(c: Config, s: State, w: Agent, e: Effect, after: Option<Job>, fault: bool, i: Id)
    requires w in s.jobs && JobWf(c, s, w, s.jobs[w]) && (JobOf(s.jobs[w], i) ==> RowKnown(s, s.jobs[w]))
    requires 1 <= s.jobs[w].rec.meta.attempt
    requires EffectOk(c, s, s.jobs[w], e) && AfterOk(c, s, s.jobs[w], e, after)
    requires Work(w, e, after, fault) in Moves(c, s)
    ensures LetterShape(s, s.jobs[w], e, after, i)
  {
    if JobOf(s.jobs[w], i) {
      if fault {
        FaultLetter(c, s, w, s.jobs[w], e, after, i);
      } else {
        OkLetter(c, s, w, s.jobs[w], e, after, i);
      }
    }
  }

  // ---------------------------------------------------------------- letters over one call

  /** The call's effect on what matters here: rows, logs, jobs and the history of lost letters. */
  predicate LetterView(s: State, t: State, w: Agent, e: Effect, after: Option<Job>) {
    && w in s.jobs && CallView(s, t, w, e, after)
    && t.slipped == Slipped(s.slipped, s.jobs[w], e, after)
  }

  /** A letter found after the call was there before, or is the one this call published. */
  lemma LetterBefore(s: State, t: State, w: Agent, e: Effect, after: Option<Job>, i: Id, tp: Tp, off: nat)
    requires LetterView(s, t, w, e, after) && LetterShape(s, s.jobs[w], e, after, i)
    requires DlqAt(t, i, tp, off)
    ensures || (DlqAt(s, i, tp, off) && LogOf(t, tp).recs[off] == LogOf(s, tp).recs[off])
            || (&& e.Publish? && e.tp == tp && off == |LogOf(s, tp).recs| && JobOf(s.jobs[w], i)
                && LogOf(t, tp).recs[off] == e.rec)
  {
  }

  lemma LetterAfter(s: State, t: State, w: Agent, e: Effect, after: Option<Job>, i: Id)
    requires LetterView(s, t, w, e, after) && Lettered(s, i)
    ensures Lettered(t, i)
  {
    var tp, off :| DlqAt(s, i, tp, off);
    assert DlqAt(t, i, tp, off);
  }

  lemma FailedStays(s: State, t: State, w: Agent, e: Effect, after: Option<Job>, i: Id)
    requires LetterView(s, t, w, e, after) && LetterShape(s, s.jobs[w], e, after, i) && FailedOrder(s, i)
    ensures FailedOrder(t, i) && t.orders[i] == s.orders[i]
  {
  }

  lemma WorkKeepsOneLetter(s: State, t: State, w: Agent, e: Effect, after: Option<Job>, i: Id)
    requires OneLetter(s, i) && OneAuthor(s, i)
    requires LetterView(s, t, w, e, after) && LetterShape(s, s.jobs[w], e, after, i)
    requires JobOf(s.jobs[w], i) ==> RowKnown(s, s.jobs[w])
    ensures OneLetter(t, i)
  {
    if i in t.orders {
      forall tp, off: nat | DlqAt(t, i, tp, off)
        ensures Tells(LogOf(t, tp).recs[off], t.orders[i])
      {
        LetterBefore(s, t, w, e, after, i, tp, off);
        assert DlqAt(s, i, tp, off) || AboutToLetter(s, i, w);
        FailedStays(s, t, w, e, after, i);
      }
      forall tp, off, q, k | DlqAt(t, i, tp, off) && DlqAt(t, i, q, k)
        ensures tp == q && off == k
      {
        LetterBefore(s, t, w, e, after, i, tp, off);
        LetterBefore(s, t, w, e, after, i, q, k);
        assert e.Publish? && JobOf(s.jobs[w], i) && e.tp.topic == Dlq ==> AboutToLetter(s, i, w);
      }
    }
  }

  lemma WorkKeepsOneAuthor(s: State, t: State, w: Agent, e: Effect, after: Option<Job>, i: Id)
    requires OneLetter(s, i) && OneAuthor(s, i) && LetterOrSlip(s, i)
    requires LetterView(s, t, w, e, after) && LetterShape(s, s.jobs[w], e, after, i)
    ensures OneAuthor(t, i)
  {
    forall v | AboutToLetter(t, i, v)
      ensures FailedOrder(t, i) && i !in t.slipped && !Lettered(t, i)
    {
      AuthorKept(s, t, w, e, after, i, v);
    }
    forall u, v | AboutToLetter(t, i, u) && AboutToLetter(t, i, v)
      ensures u == v
    {
      assert u != w ==> AboutToLetter(s, i, u);
      assert v != w ==> AboutToLetter(s, i, v);
    }
  }

  lemma AuthorKept(s: State, t: State, w: Agent, e: Effect, after: Option<Job>, i: Id, v: Agent)
    requires OneLetter(s, i) && OneAuthor(s, i) && LetterOrSlip(s, i)
    requires LetterView(s, t, w, e, after) && LetterShape(s, s.jobs[w], e, after, i)
    requires AboutToLetter(t, i, v)
    ensures FailedOrder(t, i) && i !in t.slipped && !Lettered(t, i)
  {
    if v != w {
      assert AboutToLetter(s, i, v);
      FailedStays(s, t, w, e, after, i);
      assert !AboutToLetter(s, i, w);
    }
    if Lettered(t, i) {
      var tp, off :| DlqAt(t, i, tp, off);
      LetterBefore(s, t, w, e, after, i, tp, off);
      assert false;
    }
  }

  lemma WorkKeepsLetterOrSlip(s: State, t: State, w: Agent, e: Effect, after: Option<Job>, i: Id)
    requires OneLetter(s, i) && OneAuthor(s, i) && LetterOrSlip(s, i)
    requires LetterView(s, t, w, e, after) && LetterShape(s, s.jobs[w], e, after, i)
    ensures LetterOrSlip(t, i)
  {
    if i in t.slipped {
      SlipKept(s, t, w, e, after, i);
    }
    if FailedOrder(t, i) {
      FailedAccounted(s, t, w, e, after, i);
    }
  }

  lemma SlipKept(s: State, t: State, w: Agent, e: Effect, after: Option<Job>, i: Id)
    requires OneLetter(s, i) && OneAuthor(s, i) && LetterOrSlip(s, i)
    requires LetterView(s, t, w, e, after) && LetterShape(s, s.jobs[w], e, after, i)
    requires i in t.slipped
    ensures FailedOrder(t, i) && !Lettered(t, i)
  {
    assert s.jobs[w].pc.FailDlq? && JobOf(s.jobs[w], i) ==> AboutToLetter(s, i, w);
    if FailedOrder(s, i) {
      FailedStays(s, t, w, e, after, i);
    }
    if Lettered(t, i) {
      var tp, off :| DlqAt(t, i, tp, off);
      LetterBefore(s, t, w, e, after, i, tp, off);
      assert false;
    }
  }

  lemma FailedAccounted(s: State, t: State, w: Agent, e: Effect, after: Option<Job>, i: Id)
    requires LetterOrSlip(s, i)
    requires LetterView(s, t, w, e, after) && LetterShape(s, s.jobs[w], e, after, i)
    requires FailedOrder(t, i)
    ensures i in t.slipped || Lettered(t, i) || exists v :: AboutToLetter(t, i, v)
  {
    if FailedOrder(s, i) {
      if Lettered(s, i) {
        LetterAfter(s, t, w, e, after, i);
      } else if i !in s.slipped {
        var v :| AboutToLetter(s, i, v);
        if v != w {
          assert AboutToLetter(t, i, v);
        } else if e.Publish? {
          assert DlqAt(t, i, e.tp, |LogOf(s, e.tp).recs|);
        }
      }
    } else if i !in t.slipped {
      assert AboutToLetter(t, i, w);
    }
  }
}
