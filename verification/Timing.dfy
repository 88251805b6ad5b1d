/** The retry scheduler never replays a record before its not-before time. */
module Timing {
  import opened Wrappers
  import opened Pipeline
  import opened Invariant
  import opened BaseProof
  import opened BaseRuns
  import opened SoundProof
  import Backoff

  /** The settings under which no drawn delay exceeds the scheduler's cap, see NeverTruncatedIff. */
  predicate Untruncated(p: Backoff.Params) {
    && 0.0 <= p.base && 0.0 <= p.max && Backoff.OnGrid(p.max)
    && Backoff.RoundMs(p.base / 2.0) <= Backoff.MaxMs(p)
  }

  /** What a job knows about the delay it drew or the wake-up it waits for. */
  ghost predicate JobTimed(c: Config, now: Time, j: Job) {
    match j.pc
    case RetryTx(delay, _) => Backoff.Drawable(c.backoff, j.rec.meta.attempt, delay)
    case RetryStamp(delay, _) => Backoff.Drawable(c.backoff, j.rec.meta.attempt, delay)
    case RetryPublish(delay, _, notBefore) =>
      Backoff.Drawable(c.backoff, j.rec.meta.attempt, delay) && notBefore <= now + delay
    case Replay(wake) => j.rec.meta.notBefore <= wake
    case _ => true
  }

  predicate RecordDue(c: Config, now: Time, topic: Topic, rec: Record) {
    topic == Retry ==> rec.meta.notBefore <= now + Backoff.MaxMs(c.backoff)
  }

  ghost predicate JobsTimed(c: Config, s: State) {
    forall w :: w in s.jobs ==> JobTimed(c, s.now, s.jobs[w])
  }

  ghost predicate RecordsDue(c: Config, s: State) {
    forall tp, off :: 0 <= off < |LogOf(s, tp).recs| ==> RecordDue(c, s.now, tp.topic, LogOf(s, tp).recs[off])
  }

  ghost predicate Timed(c: Config, s: State) {
    JobsTimed(c, s) && RecordsDue(c, s)
  }

  predicate EffectDue(c: Config, s: State, e: Effect) {
    e.Publish? ==> RecordDue(c, s.now, e.tp.topic, e.rec)
  }

  lemma OrderStepTimed(c: Config, s: State, j: Job, e: Effect, after: Option<Job>)
    requires Untruncated(c.backoff) && j.rec.value.Event? && OrderStep(c, s, j, e, after) && JobTimed(c, s.now, j)
    ensures EffectDue(c, s, e)
    ensures after.Some? ==> JobTimed(c, s.now, after.value)
  {
    if j.pc.RetryPublish? {
      Backoff.NeverTruncatedIff(c.backoff);
    }
  }

  lemma OkTimed(c: Config, s: State, j: Job, e: Effect, after: Option<Job>)
    requires Untruncated(c.backoff) && OkStep(c, s, j, e, after) && JobTimed(c, s.now, j)
    requires RecordDue(c, s.now, j.tp.topic, j.rec) && PcFits(j.tp.topic, j.pc, j.rec)
    ensures EffectDue(c, s, e)
    ensures after.Some? ==> JobTimed(c, s.now, after.value)
  {
    if j.pc.PoisonDlq? || j.pc.Hold? || j.pc.Replay? || j.pc.Archive? || j.pc.Ack? || j.pc.Redeliver? {
    } else {
      OrderStepTimed(c, s, j, e, after);
    }
  }

  lemma FaultTimed(c: Config, s: State, j: Job, e: Effect, after: Option<Job>)
    requires Untruncated(c.backoff) && FaultStep(c, s, j, e, after) && JobTimed(c, s.now, j)
    requires RecordDue(c, s.now, j.tp.topic, j.rec) && PcFits(j.tp.topic, j.pc, j.rec)
    ensures EffectDue(c, s, e)
    ensures after.Some? ==> JobTimed(c, s.now, after.value)
  {
    if e != Quiet {
      var ok :| OkStep(c, s, j, e, ok);
      OkTimed(c, s, j, e, ok);
    }
  }

  lemma WorkTimed(c: Config, s: State, a: Action)
    requires Untruncated(c.backoff) && Base(c, s) && Timed(c, s) && a.Work? && a in Moves(c, s)
    ensures EffectDue(c, s, a.e)
    ensures a.after.Some? ==> JobTimed(c, s.now, a.after.value)
  {
    var j := s.jobs[a.w];
    assert JobWf(c, s, a.w, j) && JobTimed(c, s.now, j);
    assert RecordDue(c, s.now, j.tp.topic, LogOf(s, j.tp).recs[j.off]);
    if a.fault {
      FaultTimed(c, s, j, a.e, a.after);
    } else {
      OkTimed(c, s, j, a.e, a.after);
    }
  }

  lemma WorkKeepsJobsTimed(c: Config, s: State, w: Agent, j: Job, e: Effect, after: Option<Job>)
    requires JobsTimed(c, s)
    requires after.Some? ==> JobTimed(c, s.now, after.value)
    ensures JobsTimed(c, AfterWork(s, w, j, e, after))
  {
    var t := AfterWork(s, w, j, e, after);
    forall v | v in t.jobs
      ensures JobTimed(c, t.now, t.jobs[v])
    {
      assert v != w ==> v in s.jobs && t.jobs[v] == s.jobs[v];
    }
  }

  lemma WorkKeepsDue(c: Config, s: State, w: Agent, j: Job, e: Effect, after: Option<Job>)
    requires RecordsDue(c, s) && EffectDue(c, s, e)
    ensures RecordsDue(c, AfterWork(s, w, j, e, after))
  {
    CallKeepsDue(c, s, AfterWork(s, w, j, e, after), e);
  }

  lemma CallKeepsDue(c: Config, s: State, t: State, e: Effect)
    requires RecordsDue(c, s) && EffectDue(c, s, e) && t.topics == Apply(s, e).topics && t.now == s.now
    ensures RecordsDue(c, t)
  {
    forall tp, off | 0 <= off < |LogOf(t, tp).recs|
      ensures RecordDue(c, t.now, tp.topic, LogOf(t, tp).recs[off])
    {
      ApplyKeepsLog(s, e, tp);
      if off < |LogOf(s, tp).recs| {
        assert RecordDue(c, s.now, tp.topic, LogOf(s, tp).recs[off]);
      }
    }
  }

  lemma EnvKeepsTimed(c: Config, s: State, a: Action)
    requires Timed(c, s) && !a.Work? && a in Moves(c, s)
    ensures Timed(c, Perform(s, a))
  {
    var t := Perform(s, a);
    forall tp, off | 0 <= off < |LogOf(t, tp).recs|
      ensures RecordDue(c, t.now, tp.topic, LogOf(t, tp).recs[off])
    {
      if off < |LogOf(s, tp).recs| {
        assert RecordDue(c, s.now, tp.topic, LogOf(s, tp).recs[off]);
      }
    }
  }

  lemma {:induction false} RunKeepsTimed(c: Config, states: seq<State>, acts: seq<Action>, n: nat)
    requires 1 <= c.maxAttempts && Untruncated(c.backoff)
    requires IsRun(c, states, acts) && n < |states|
    ensures Timed(c, states[n])
  {
    if n > 0 {
      assert StepAt(c, states, acts, n - 1);
      var s, a := states[n - 1], acts[n - 1];
      RunKeepsTimed(c, states, acts, n - 1);
      if a.Work? {
        RunKeepsBase(c, states, acts, n - 1);
        WorkTimed(c, s, a);
        WorkKeepsJobsTimed(c, s, a.w, s.jobs[a.w], a.e, a.after);
        WorkKeepsDue(c, s, a.w, s.jobs[a.w], a.e, a.after);
      } else {
        EnvKeepsTimed(c, s, a);
      }
    }
  }

  /** Every replay onto the main topic happens at or after the record's not-before time. */
  lemma NeverReplayedEarly(c: Config, states: seq<State>, acts: seq<Action>, n: nat)
    requires 1 <= c.maxAttempts && Untruncated(c.backoff)
    requires IsRun(c, states, acts) && n < |acts|
    requires acts[n].Work? && acts[n].e.Publish? && acts[n].e.tp.topic == Created
    ensures acts[n].w in states[n].jobs
    ensures states[n].jobs[acts[n].w].rec.meta.notBefore <= states[n].now
  {
    assert StepAt(c, states, acts, n);
    var s, a := states[n], acts[n];
    RunKeepsTimed(c, states, acts, n);
    WorkKind(c, s, a.w, a.e, a.after, a.fault);
    assert JobTimed(c, s.now, s.jobs[a.w]);
    ReplayAwake(c, s, a);
  }

  lemma ReplayAwake(c: Config, s: State, a: Action)
    requires a.Work? && a.w in s.jobs && s.jobs[a.w].pc.Replay? && a.e.Publish? && a in Moves(c, s)
    ensures s.jobs[a.w].pc.wake <= s.now
  {
    if a.fault {
      var ok :| OkStep(c, s, s.jobs[a.w], a.e, ok);
    }
  }

  /** The premise is needed: a delay above the cap makes the scheduler wake before it is due. */
  lemma TruncationWakesEarly(c: Config, s: State, j: Job, e: Effect, after: Option<Job>)
    requires 0.0 <= c.backoff.max && j.pc == Hold && OkStep(c, s, j, e, after)
    ensures after.Some? && after.value.pc.Replay?
    ensures after.value.pc.wake < j.rec.meta.notBefore <==> s.now + Backoff.MaxMs(c.backoff) < j.rec.meta.notBefore
  {
  }

  /** With untruncated delays every replay of a run wakes exactly when its record is due, or at once when it
      is overdue. */
  lemma WakesWhenDue(c: Config, states: seq<State>, acts: seq<Action>, n: nat)
    requires 1 <= c.maxAttempts && Untruncated(c.backoff) && IsRun(c, states, acts) && n < |acts|
    requires acts[n].Work? && !acts[n].fault && acts[n].w in states[n].jobs && states[n].jobs[acts[n].w].pc == Hold
    ensures acts[n].after.Some? && acts[n].after.value.pc.Replay?
    ensures var due, now := states[n].jobs[acts[n].w].rec.meta.notBefore, states[n].now;
            acts[n].after.value.pc.wake == if due < now then now else due
  {
    assert StepAt(c, states, acts, n);
    var s, a := states[n], acts[n];
    var j := s.jobs[a.w];
    RunKeepsTimed(c, states, acts, n);
    RunKeepsBase(c, states, acts, n);
    assert JobWf(c, s, a.w, j);
    assert RecordDue(c, s.now, j.tp.topic, LogOf(s, j.tp).recs[j.off]);
  }
}
