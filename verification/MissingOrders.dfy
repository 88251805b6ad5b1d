/** Events whose order does not exist (app/kafka/consumers.py, the first branch of _process): the
    tombstone is written before the dead letter, so a failure in between loses the letter. In every run,
    with or without the lock premise, nothing else does. */
module MissingOrders {
  import opened Wrappers
  import opened Pipeline
  import opened Invariant
  import opened BaseProof
  import opened Frames
  import opened BaseRuns
  import opened SoundRuns
  import Theorems

  /** The calls a handler can make without an order. */
  predicate Orderless(pc: Pc) {
    match pc
    case SeenMark | Fulfil | CompleteTx | CompleteMark => false
    case RetryTx(_, _) | RetryStamp(_, _) | RetryPublish(_, _, _) | RetryRelease => false
    case FailTx(_, _) | FailDlq(_, _) | FailMark => false
    case _ => true
  }

  /** The consumer has written the tombstone and is about to publish the letter. */
  predicate Reporting(s: State, i: Id, w: Agent) {
    w in s.jobs && s.jobs[w].pc == MissingDlq && JobOf(s.jobs[w], i)
  }

  /** The step after which that consumer will not publish the letter. */
  predicate Loses(j: Job, e: Effect, after: Option<Job>) {
    || (j.pc == MissingDlq && !e.Publish?)
    || (j.pc == MissingMark && e.PutKey? && !(after.Some? && after.value.pc == MissingDlq))
  }

  predicate LosesAt(s: State, a: Action, i: Id) {
    a.Work? && a.w in s.jobs && JobOf(s.jobs[a.w], i) && Loses(s.jobs[a.w], a.e, a.after)
  }

  /** The letter is there, on its way, or was lost. */
  ghost predicate Accounted(s: State, i: Id, lost: bool) {
    lost || Lettered(s, i) || exists w :: Reporting(s, i, w)
  }

  /** A trace that makes the consumers skip the event: a tombstone, an acknowledgement under way, or a
      committed offset. */
  predicate Acknowledging(s: State, i: Id, w: Agent) {
    w in s.jobs && s.jobs[w].pc == Ack && s.jobs[w].tp.topic == Created && JobOf(s.jobs[w], i)
  }

  predicate CommittedAt(s: State, i: Id, part: nat, off: nat) {
    var log := LogOf(s, Tp(Created, part));
    off < log.done && off < |log.recs| && log.recs[off].value.Event? && log.recs[off].value.id == i
  }

  ghost predicate Skipped(s: State, i: Id) {
    || (i in s.guard && s.guard[i].Done?)
    || (exists w :: Acknowledging(s, i, w))
    || (exists part, off :: CommittedAt(s, i, part, off))
  }

  ghost predicate Kept(s: State, i: Id, lost: bool) {
    && (forall w :: w in s.jobs && JobOf(s.jobs[w], i) ==> Orderless(s.jobs[w].pc))
    && (Skipped(s, i) ==> Accounted(s, i, lost))
  }

  // ---------------------------------------------------------------- one call

  predicate ReportShape(s: State, j: Job, e: Effect, after: Option<Job>, i: Id) {
    && (after.Some? ==> Orderless(after.value.pc) && after.value.rec == j.rec && after.value.tp == j.tp)
    && (e.PutKey? ==> e.i == i && (e.key.Done? ==> j.pc == MissingMark))
    && (j.pc == MissingDlq ==> e == Quiet || (e.Publish? && e.tp.topic == Dlq && e.rec.value == j.rec.value))
    && (after.Some? && after.value.pc == Ack && j.tp.topic == Created ==>
         (i in s.guard && s.guard[i].Done?) || (j.pc == MissingDlq && e.Publish?))
  }

  lemma OkReport(c: Config, s: State, j: Job, e: Effect, after: Option<Job>, i: Id)
    requires JobOf(j, i) && i !in s.orders && Orderless(j.pc) && PcFits(j.tp.topic, j.pc, j.rec)
    requires OkStep(c, s, j, e, after)
    ensures ReportShape(s, j, e, after, i)
  {
  }

  lemma FaultReport(c: Config, s: State, j: Job, e: Effect, after: Option<Job>, i: Id)
    requires JobOf(j, i) && i !in s.orders && Orderless(j.pc) && PcFits(j.tp.topic, j.pc, j.rec)
    requires FaultStep(c, s, j, e, after)
    ensures ReportShape(s, j, e, after, i)
  {
    if e != Quiet {
      var ok :| OkStep(c, s, j, e, ok);
      OkReport(c, s, j, e, ok, i);
    }
  }

  lemma WorkReport(c: Config, s: State, w: Agent, e: Effect, after: Option<Job>, fault: bool, i: Id)
    requires w in s.jobs && JobWf(c, s, w, s.jobs[w]) && JobOf(s.jobs[w], i) && i !in s.orders
    requires Orderless(s.jobs[w].pc)
    requires Work(w, e, after, fault) in Moves(c, s)
    ensures ReportShape(s, s.jobs[w], e, after, i)
  {
    if fault {
      FaultReport(c, s, s.jobs[w], e, after, i);
    } else {
      OkReport(c, s, s.jobs[w], e, after, i);
    }
  }

  lemma LetteredStays(s: State, t: State, w: Agent, e: Effect, after: Option<Job>, i: Id)
    requires w in s.jobs && CallView(s, t, w, e, after) && Lettered(s, i)
    ensures Lettered(t, i)
  {
    var tp, off :| DlqAt(s, i, tp, off);
    ApplyKeepsLog(s, e, tp);
    assert DlqAt(t, i, tp, off);
  }

  lemma LetterPublished(s: State, t: State, w: Agent, e: Effect, after: Option<Job>, i: Id)
    requires w in s.jobs && CallView(s, t, w, e, after) && JobOf(s.jobs[w], i)
    requires e.Publish? && e.tp.topic == Dlq && e.rec.value == s.jobs[w].rec.value
    ensures Lettered(t, i)
  {
    assert DlqAt(t, i, e.tp, |LogOf(s, e.tp).recs|);
  }

  /** An account stays open through every call: a report is delivered or lost. */
  lemma AccountStays(s: State, t: State, w: Agent, e: Effect, after: Option<Job>, i: Id, lost: bool)
    requires w in s.jobs && CallView(s, t, w, e, after) && Accounted(s, i, lost)
    requires JobOf(s.jobs[w], i) ==> ReportShape(s, s.jobs[w], e, after, i)
    ensures Accounted(t, i, lost || (JobOf(s.jobs[w], i) && Loses(s.jobs[w], e, after)))
  {
    if Lettered(s, i) {
      LetteredStays(s, t, w, e, after, i);
    } else if !lost {
      var v :| Reporting(s, i, v);
      if v != w {
        assert Reporting(t, i, v);
      } else if e.Publish? {
        LetterPublished(s, t, w, e, after, i);
      }
    }
  }

  /** The other consumers' calls never touch the event's key, and committing needs an acknowledgement. */
  lemma OtherSkips(c: Config, s: State, t: State, w: Agent, e: Effect, after: Option<Job>, i: Id)
    requires w in s.jobs && JobWf(c, s, w, s.jobs[w]) && CallView(s, t, w, e, after)
    requires EffectOk(c, s, s.jobs[w], e) && OffsetsOk(s)
    requires !JobOf(s.jobs[w], i) && (after.Some? ==> after.value.rec == s.jobs[w].rec) && Skipped(t, i)
    ensures Skipped(s, i)
  {
    var j := s.jobs[w];
    if v :| Acknowledging(t, i, v) {
      assert v != w;
      assert Acknowledging(s, i, v);
    } else if part, off :| CommittedAt(t, i, part, off) {
      CommitBefore(c, s, t, w, e, after, i, part, off);
      assert CommittedAt(s, i, part, off);
    }
  }

  /** A newly committed record is the one its consumer was acknowledging. */
  lemma CommitBefore(c: Config, s: State, t: State, w: Agent, e: Effect, after: Option<Job>, i: Id, part: nat, off: nat)
    requires w in s.jobs && JobWf(c, s, w, s.jobs[w]) && CallView(s, t, w, e, after)
    requires EffectOk(c, s, s.jobs[w], e) && OffsetsOk(s)
    requires CommittedAt(t, i, part, off)
    ensures CommittedAt(s, i, part, off) || Acknowledging(s, i, w)
  {
    ApplyKeepsLog(s, e, Tp(Created, part));
    assert LogOk(s, Tp(Created, part));
  }

  /** A call on the event itself that leaves a new reason to skip it accounts for it. */
  lemma OwnSkips(c: Config, s: State, t: State, w: Agent, e: Effect, after: Option<Job>, i: Id)
    requires w in s.jobs && JobWf(c, s, w, s.jobs[w]) && CallView(s, t, w, e, after)
    requires EffectOk(c, s, s.jobs[w], e) && OffsetsOk(s)
    requires JobOf(s.jobs[w], i) && ReportShape(s, s.jobs[w], e, after, i) && Skipped(t, i)
    ensures Skipped(s, i) || Lettered(t, i) || Reporting(t, i, w) || Loses(s.jobs[w], e, after)
  {
    var j := s.jobs[w];
    if j.pc == MissingDlq && e.Publish? {
      LetterPublished(s, t, w, e, after, i);
    } else if i in t.guard && t.guard[i].Done? {
      assert (i in s.guard && s.guard[i].Done?) || (e.PutKey? && e.key.Done?);
    } else if v :| Acknowledging(t, i, v) {
      assert v != w ==> Acknowledging(s, i, v);
    } else {
      var part, off :| CommittedAt(t, i, part, off);
      CommitBefore(c, s, t, w, e, after, i, part, off);
    }
  }

  lemma WorkKeepsKept(c: Config, s: State, w: Agent, e: Effect, after: Option<Job>, fault: bool, i: Id, lost: bool)
    requires Base(c, s) && Kept(s, i, lost) && i !in s.orders && w in s.jobs && Work(w, e, after, fault) in Moves(c, s)
    ensures Kept(AfterWork(s, w, s.jobs[w], e, after), i, lost || (JobOf(s.jobs[w], i) && Loses(s.jobs[w], e, after)))
  {
    var j := s.jobs[w];
    var t := AfterWork(s, w, j, e, after);
    assert JobWf(c, s, w, j);
    WorkShape(c, s, w, e, after, fault);
    AfterWorkView(s, w, j, e, after);
    if JobOf(j, i) {
      WorkReport(c, s, w, e, after, fault, i);
    }
    CallKeepsKept(c, s, t, w, e, after, i, lost);
  }

  lemma CallKeepsKept(c: Config, s: State, t: State, w: Agent, e: Effect, after: Option<Job>, i: Id, lost: bool)
    requires w in s.jobs && JobWf(c, s, w, s.jobs[w]) && CallView(s, t, w, e, after)
    requires EffectOk(c, s, s.jobs[w], e) && OffsetsOk(s)
    requires after.Some? ==> after.value.rec == s.jobs[w].rec
    requires Kept(s, i, lost) && (JobOf(s.jobs[w], i) ==> ReportShape(s, s.jobs[w], e, after, i))
    ensures Kept(t, i, lost || (JobOf(s.jobs[w], i) && Loses(s.jobs[w], e, after)))
  {
    if Skipped(t, i) {
      if JobOf(s.jobs[w], i) {
        OwnSkips(c, s, t, w, e, after, i);
      } else {
        OtherSkips(c, s, t, w, e, after, i);
      }
      if Skipped(s, i) {
        AccountStays(s, t, w, e, after, i, lost);
      }
    }
  }

  // ---------------------------------------------------------------- the environment

  lemma EnvKeepsKept(c: Config, s: State, t: State, i: Id, lost: bool)
    requires Base(c, s) && Kept(s, i, lost) && EnvExtends(s, t) && JobsExtend(s, t)
    ensures Kept(t, i, lost)
  {
    if Skipped(t, i) {
      EnvSkips(c, s, t, i);
      if Lettered(s, i) {
        ExtendKeepsLettered(s, t, i);
      } else if w :| Reporting(s, i, w) {
        assert Reporting(t, i, w);
      }
    }
  }

  lemma EnvSkips(c: Config, s: State, t: State, i: Id)
    requires Base(c, s) && EnvExtends(s, t) && JobsExtend(s, t) && Skipped(t, i)
    ensures Skipped(s, i)
  {
    if w :| Acknowledging(t, i, w) {
      assert Acknowledging(s, i, w);
    } else if part, off :| CommittedAt(t, i, part, off) {
      var tp := Tp(Created, part);
      assert LogOk(s, tp) && LogOf(s, tp).recs <= LogOf(t, tp).recs && LogOf(s, tp).done == LogOf(t, tp).done;
      assert CommittedAt(s, i, part, off);
    }
  }

  // ---------------------------------------------------------------- whole runs

  /** Did a step before state `n` lose the letter of event `i`? */
  predicate LostBefore(states: seq<State>, acts: seq<Action>, n: nat, i: Id) {
    exists k :: 0 <= k < n && k < |states| && k < |acts| && LosesAt(states[k], acts[k], i)
  }

  lemma StepKeepsKept(c: Config, s: State, a: Action, i: Id, lost: bool)
    requires Base(c, s) && Kept(s, i, lost) && i !in s.orders && a in Moves(c, s)
    ensures Kept(Perform(s, a), i, lost || LosesAt(s, a, i))
  {
    if a.Work? {
      WorkKeepsKept(c, s, a.w, a.e, a.after, a.fault, i, lost);
    } else {
      EnvStepExtends(c, s, a);
      EnvKeepsKept(c, s, Perform(s, a), i, lost);
    }
  }

  lemma MoreLost(s: State, i: Id, lost: bool, more: bool)
    requires Kept(s, i, lost) && (lost ==> more)
    ensures Kept(s, i, more)
  {
  }

  lemma {:induction false} RunKeepsKept(c: Config, states: seq<State>, acts: seq<Action>, n: nat, i: Id)
    requires 1 <= c.maxAttempts && IsRun(c, states, acts) && n < |states| && i !in states[n].orders
    ensures Kept(states[n], i, LostBefore(states, acts, n, i))
  {
    if 0 < n {
      assert StepAt(c, states, acts, n - 1);
      RunKeepsBase(c, states, acts, n - 1);
      if i in states[n - 1].orders {
        Theorems.StepExtendsTrail(c, states[n - 1], acts[n - 1], i);
        assert false;
      }
      RunKeepsKept(c, states, acts, n - 1, i);
      var lost := LostBefore(states, acts, n - 1, i);
      StepKeepsKept(c, states[n - 1], acts[n - 1], i, lost);
      assert LosesAt(states[n - 1], acts[n - 1], i) ==> LostBefore(states, acts, n, i);
      MoreLost(states[n], i, lost || LosesAt(states[n - 1], acts[n - 1], i), LostBefore(states, acts, n, i));
    }
  }

  /** In every run: once a consumer may skip an event without an order, because it is tombstoned, being
      acknowledged or committed, its dead letter is published, about to be, or was lost to a failure
      between the tombstone and the publish. */
  lemma MissingAccounted(c: Config, states: seq<State>, acts: seq<Action>, n: nat, i: Id)
    requires 1 <= c.maxAttempts && IsRun(c, states, acts) && n < |states| && i !in states[n].orders
    requires Skipped(states[n], i)
    ensures || Lettered(states[n], i)
            || (exists w :: Reporting(states[n], i, w))
            || LostBefore(states, acts, n, i)
  {
    RunKeepsKept(c, states, acts, n, i);
  }

  // ---------------------------------------------------------------- exactly when a letter can be lost

  /** A consumer of the event that is about to publish the letter, or to write a tombstone it can write. */
  predicate Exposed(s: State, i: Id, w: Agent) {
    && w in s.jobs && JobOf(s.jobs[w], i)
    && (s.jobs[w].pc == MissingDlq || (s.jobs[w].pc == MissingMark && Owns(s, i, s.jobs[w].token)))
  }

  lemma LossIsExposed(c: Config, s: State, a: Action, i: Id)
    requires a in Moves(c, s) && LosesAt(s, a, i)
    ensures Exposed(s, i, a.w)
  {
    var j := s.jobs[a.w];
    if j.pc == MissingMark && a.fault {
      var ok :| OkStep(c, s, j, a.e, ok);
    }
  }

  lemma ExposedLoses(c: Config, s: State, i: Id, w: Agent) returns (a: Action)
    requires Exposed(s, i, w)
    ensures a in Moves(c, s) && LosesAt(s, a, i)
  {
    var j := s.jobs[w];
    a := Work(w, Quiet, None, true);
    if j.pc == MissingMark {
      var e := PutKey(i, Done(s.now + c.doneTtl));
      assert OkStep(c, s, j, e, Some(j.(pc := MissingDlq)));
      a := Work(w, e, None, true);
    }
  }

  /** In every state, the next step can lose the letter of an event without an order if and only if a
      consumer of the event stands between the check and the publish with its claim intact. */
  lemma LossIff(c: Config, s: State, i: Id)
    ensures (exists a :: a in Moves(c, s) && LosesAt(s, a, i)) <==> (exists w :: Exposed(s, i, w))
  {
    if a :| a in Moves(c, s) && LosesAt(s, a, i) {
      LossIsExposed(c, s, a, i);
    }
    if w :| Exposed(s, i, w) {
      var a := ExposedLoses(c, s, i, w);
    }
  }
}
