/** The drawn delay takes effect: a retry record is due that long after the clock was read, which is after
    the commit that put the order back to pending, and its replay comes no earlier. */
module RetryTiming {
  import opened Wrappers
  import opened Orders
  import opened Pipeline
  import opened Invariant
  import opened BaseRuns
  import opened SoundRuns
  import opened Frames
  import opened Runs
  import opened Provenance
  import opened FailureFree
  import opened FailureFreeTheorems
  import Timing
  import Backoff

  /** The step commits attempt `attempt` of event `i` as pending again, with this delay drawn. */
  predicate Pends(s: State, a: Action, i: Id, attempt: nat, delay: int) {
    && a.Work? && a.w in s.jobs && JobOf(s.jobs[a.w], i) && s.jobs[a.w].rec.meta.attempt == attempt
    && s.jobs[a.w].pc.RetryTx? && s.jobs[a.w].pc.delay == delay
    && a.e.PutRow? && a.e.i == i && a.e.row.status == Pending
  }

  ghost predicate Pended(states: seq<State>, acts: seq<Action>, n: nat, i: Id, attempt: nat, delay: int) {
    exists k :: 0 <= k < n && k < |states| && k < |acts| && Pends(states[k], acts[k], i, attempt, delay)
  }

  /** At state `m`, after such a commit, the clock read `due - delay`. */
  ghost predicate ReadAt(states: seq<State>, acts: seq<Action>, m: nat, i: Id, attempt: nat, delay: int, due: Time) {
    m < |states| && Pended(states, acts, m, i, attempt, delay) && due == states[m].now + delay
  }

  ghost predicate Stamped(states: seq<State>, acts: seq<Action>, n: nat, i: Id, attempt: nat, delay: int, due: Time) {
    exists m :: 0 <= m < n && ReadAt(states, acts, m, i, attempt, delay, due)
  }

  /** What a job on its way to the retry topic has behind it. */
  ghost predicate JobDue(states: seq<State>, acts: seq<Action>, n: nat, j: Job) {
    j.rec.value.Event? ==>
      match j.pc
      case RetryStamp(delay, _) => Pended(states, acts, n, j.rec.value.id, j.rec.meta.attempt, delay)
      case RetryPublish(delay, _, due) => Stamped(states, acts, n, j.rec.value.id, j.rec.meta.attempt, delay, due)
      case _ => true
  }

  ghost predicate JobsDue(states: seq<State>, acts: seq<Action>, n: nat)
    requires n < |states|
  {
    forall w :: w in states[n].jobs ==> JobDue(states, acts, n, states[n].jobs[w])
  }

  // ---------------------------------------------------------------- one step

  predicate Stamps(s: State, j: Job, e: Effect, next: Job) {
    && next.rec == j.rec
    && (next.pc.RetryStamp? ==>
         && j.pc == RetryTx(next.pc.delay, next.pc.error) && j.rec.value.Event?
         && e.PutRow? && e.i == j.rec.value.id && e.row.status == Pending)
    && (next.pc.RetryPublish? ==>
         j.pc == RetryStamp(next.pc.delay, next.pc.error) && next.pc.notBefore == s.now + next.pc.delay)
  }

  lemma WorkStamps(c: Config, s: State, w: Agent, e: Effect, after: Option<Job>, fault: bool)
    requires w in s.jobs && Work(w, e, after, fault) in Moves(c, s) && after.Some?
    ensures Stamps(s, s.jobs[w], e, after.value)
  {
  }

  /** A job after the action was there before, is fresh, or is the one whose call the action was. */
  predicate Comes(s: State, a: Action, w: Agent, next: Job) {
    || (w in s.jobs && next == s.jobs[w])
    || Fresh(next)
    || (a.Work? && a.w == w && w in s.jobs && Stamps(s, s.jobs[w], a.e, next))
  }

  lemma JobComes(c: Config, s: State, a: Action, w: Agent)
    requires a in Moves(c, s) && w in Perform(s, a).jobs
    ensures Comes(s, a, w, Perform(s, a).jobs[w])
  {
    if a.Work? {
      PerformView(s, a.w, a.e, a.after, a.fault);
      if a.w == w {
        WorkStamps(c, s, w, a.e, a.after, a.fault);
      }
    } else {
      EnvStepExtends(c, s, a);
    }
  }

  lemma ComesDue(states: seq<State>, acts: seq<Action>, n: nat, w: Agent, next: Job)
    requires n < |acts| && n < |states| && JobsDue(states, acts, n) && Comes(states[n], acts[n], w, next)
    ensures JobDue(states, acts, n + 1, next)
  {
    if w in states[n].jobs && next == states[n].jobs[w] {
    } else if !Fresh(next) && next.rec.value.Event? {
      var i, attempt := next.rec.value.id, next.rec.meta.attempt;
      assert JobDue(states, acts, n, states[n].jobs[w]);
      if next.pc.RetryStamp? {
        assert Pends(states[n], acts[n], i, attempt, next.pc.delay);
      } else if next.pc.RetryPublish? {
        assert ReadAt(states, acts, n, i, attempt, next.pc.delay, next.pc.notBefore);
      }
    }
  }

  lemma {:induction false} RunKeepsDue(c: Config, states: seq<State>, acts: seq<Action>, n: nat)
    requires IsRun(c, states, acts) && n < |states|
    ensures JobsDue(states, acts, n)
  {
    if 0 < n {
      RunKeepsDue(c, states, acts, n - 1);
      forall w | w in states[n].jobs
        ensures JobDue(states, acts, n, states[n].jobs[w])
      {
        assert StepAt(c, states, acts, n - 1);
        JobComes(c, states[n - 1], acts[n - 1], w);
        ComesDue(states, acts, n - 1, w, states[n].jobs[w]);
      }
    }
  }

  // ---------------------------------------------------------------- the publisher of a retry record

  predicate Publishes(s: State, a: Action, tp: Tp, rec: Record) {
    a.Work? && a.w in s.jobs && a.e == Publish(tp, rec)
  }

  lemma {:induction false} Publisher(c: Config, states: seq<State>, acts: seq<Action>, n: nat, tp: Tp, off: nat)
    returns (p: nat)
    requires IsRun(c, states, acts) && n < |states| && tp.topic == Retry && off < |LogOf(states[n], tp).recs|
    ensures p < n && Publishes(states[p], acts[p], tp, LogOf(states[n], tp).recs[off])
  {
    assert 0 < n && StepAt(c, states, acts, n - 1);
    OldOrNew(states[n - 1], acts[n - 1], tp, off);
    if Publishes(states[n - 1], acts[n - 1], tp, LogOf(states[n], tp).recs[off]) {
      p := n - 1;
    } else {
      p := Publisher(c, states, acts, n - 1, tp, off);
    }
  }

  // ---------------------------------------------------------------- results

  lemma PublishIsDue(c: Config, states: seq<State>, acts: seq<Action>, p: nat, tp: Tp, rec: Record)
    requires IsRun(c, states, acts) && p < |acts| && tp.topic == Retry && Publishes(states[p], acts[p], tp, rec)
    ensures var j := states[p].jobs[acts[p].w];
            && j.pc.RetryPublish? && rec.value == j.rec.value && rec.meta.attempt == j.rec.meta.attempt + 1
            && rec.meta.notBefore == j.pc.notBefore && JobDue(states, acts, p, j) && JobDrawn(c, j)
  {
    assert StepAt(c, states, acts, p);
    RunKeepsDue(c, states, acts, p);
    RunKeepsDrawn(c, states, acts, p);
    WorkLadder(c, states[p], acts[p].w, acts[p].e, acts[p].after, acts[p].fault);
  }

  /** Every record on the retry topic has behind it, in this order: the step that committed the attempt before
      as pending, with a delay that the backoff can draw for it; a moment at which the clock was read, and
      not-before is exactly that delay later; and the publish of the record. */
  lemma RetryIsDue(c: Config, states: seq<State>, acts: seq<Action>, n: nat, tp: Tp, off: nat)
    returns (k: nat, m: nat, p: nat, delay: int)
    requires 1 <= c.maxAttempts && IsRun(c, states, acts) && n < |states|
    requires tp.topic == Retry && off < |LogOf(states[n], tp).recs| && LogOf(states[n], tp).recs[off].value.Event?
    ensures k < m < p < n
    ensures var rec := LogOf(states[n], tp).recs[off];
            && 1 <= rec.meta.attempt && Pends(states[k], acts[k], rec.value.id, rec.meta.attempt - 1, delay)
            && rec.meta.notBefore == states[m].now + delay
            && Publishes(states[p], acts[p], tp, rec)
            && Backoff.Drawable(c.backoff, rec.meta.attempt - 1, delay)
  {
    p := Publisher(c, states, acts, n, tp, off);
    var rec := LogOf(states[n], tp).recs[off];
    PublishIsDue(c, states, acts, p, tp, rec);
    var j := states[p].jobs[acts[p].w];
    delay := j.pc.delay;
    m :| 0 <= m < p && ReadAt(states, acts, m, rec.value.id, j.rec.meta.attempt, delay, rec.meta.notBefore);
    k :| 0 <= k < m && k < |acts| && Pends(states[k], acts[k], rec.value.id, j.rec.meta.attempt, delay);
  }

  lemma SaneIsUntruncated(p: Backoff.Params)
    requires Backoff.Sane(p)
    ensures Timing.Untruncated(p)
  {
    Backoff.RoundMonotone(p.base / 2.0, p.max);
    Backoff.RoundOnGrid(p.max);
  }

  /** Backoff takes effect: every replay of an event comes at least the drawn delay, and so at least half the
      base delay, after the commit that put the attempt before back to pending. */
  lemma BackoffTakesEffect(c: Config, states: seq<State>, acts: seq<Action>, n: nat, i: Id) returns (k: nat, delay: int)
    requires 1 <= c.maxAttempts && Backoff.Sane(c.backoff) && IsRun(c, states, acts) && n < |acts|
    requires acts[n].Work? && acts[n].e.Publish? && acts[n].e.tp.topic == Created && acts[n].w in states[n].jobs
    requires JobOf(states[n].jobs[acts[n].w], i)
    ensures k < n && 1 <= acts[n].e.rec.meta.attempt
    ensures Pends(states[k], acts[k], i, acts[n].e.rec.meta.attempt - 1, delay)
    ensures Backoff.RoundMs(c.backoff.base / 2.0) <= delay && states[k].now + delay <= states[n].now
  {
    var j := states[n].jobs[acts[n].w];
    SaneIsUntruncated(c.backoff);
    Timing.NeverReplayedEarly(c, states, acts, n);
    ReplayHolds(c, states, acts, n);
    var m, p;
    k, m, p, delay := RetryIsDue(c, states, acts, n, j.tp, j.off);
    RunGrows(c, states, acts, k, m);
    Backoff.DelayWithin(c.backoff, j.rec.meta.attempt - 1, delay);
  }

  /** A replay repeats a record of the retry topic, with its attempt. */
  lemma ReplayHolds(c: Config, states: seq<State>, acts: seq<Action>, n: nat)
    requires 1 <= c.maxAttempts && IsRun(c, states, acts) && n < |acts|
    requires acts[n].Work? && acts[n].e.Publish? && acts[n].e.tp.topic == Created && acts[n].w in states[n].jobs
    ensures var s := states[n]; var j := s.jobs[acts[n].w];
            && j.tp.topic == Retry && j.off < |LogOf(s, j.tp).recs| && j.rec == LogOf(s, j.tp).recs[j.off]
            && 1 <= j.rec.meta.attempt && acts[n].e.rec.meta.attempt == j.rec.meta.attempt
  {
    assert StepAt(c, states, acts, n);
    RunKeepsBase(c, states, acts, n);
    var s, a := states[n], acts[n];
    assert JobWf(c, s, a.w, s.jobs[a.w]);
    assert RecordOk(c, s, s.jobs[a.w].tp.topic, LogOf(s, s.jobs[a.w].tp).recs[s.jobs[a.w].off]);
    WorkLadder(c, s, a.w, a.e, a.after, a.fault);
  }

  // ---------------------------------------------------------------- the ladder of a run

  /** The retry record at this position asks for the attempt after `attempt`, `delay` after the clock was read
      at state `m`, and that was after the commit of `attempt` as pending. */
  ghost predicate DueAt(states: seq<State>, acts: seq<Action>, n: nat, i: Id, attempt: nat, delay: int, tp: Tp,
                        off: nat, m: nat)
    requires n < |states|
  {
    && m < n && RetryAt(states[n], i, attempt + 1, tp, off)
    && ReadAt(states, acts, m, i, attempt, delay, LogOf(states[n], tp).recs[off].meta.notBefore)
  }

  ghost predicate Scheduled(states: seq<State>, acts: seq<Action>, n: nat, i: Id, attempt: nat, delay: int)
    requires n < |states|
  {
    exists tp, off, m :: DueAt(states, acts, n, i, attempt, delay, tp, off, m)
  }

  lemma DelayOf(c: Config, states: seq<State>, acts: seq<Action>, n: nat, i: Id, attempt: nat) returns (delay: int)
    requires 1 <= c.maxAttempts && IsRun(c, states, acts) && n < |states| && 1 <= attempt
    requires Retried(states[n], i, attempt + 1)
    ensures Scheduled(states, acts, n, i, attempt, delay) && Backoff.Drawable(c.backoff, attempt, delay)
  {
    var tp, off: nat :| RetryAt(states[n], i, attempt + 1, tp, off);
    var k, m, p;
    k, m, p, delay := RetryIsDue(c, states, acts, n, tp, off);
    assert Pended(states, acts, m, i, attempt, delay);
    assert DueAt(states, acts, n, i, attempt, delay, tp, off, m);
  }

  lemma {:induction false} DelaysOf(c: Config, states: seq<State>, acts: seq<Action>, n: nat, i: Id, hops: nat)
    returns (delays: seq<int>)
    requires 1 <= c.maxAttempts && IsRun(c, states, acts) && n < |states|
    requires forall attempt :: 2 <= attempt <= hops + 1 ==> Retried(states[n], i, attempt)
    ensures |delays| == hops && Backoff.Ladder(c.backoff, delays)
    ensures forall k :: 0 <= k < hops ==> Scheduled(states, acts, n, i, k + 1, delays[k])
  {
    delays := [];
    if 0 < hops {
      var init := DelaysOf(c, states, acts, n, i, hops - 1);
      var last := DelayOf(c, states, acts, n, i, hops);
      delays := init + [last];
    }
  }

  /** In every failure-free run the delays scheduled for a finished order form a ladder with one hop per
      attempt after the first, at most max_attempts - 1 of them, so the bounds on ladders hold for them. */
  lemma LadderOfRun(c: Config, o: Oracle, states: seq<State>, acts: seq<Action>, n: nat, i: Id)
    returns (delays: seq<int>)
    requires 1 <= c.maxAttempts && IsCleanRun(c, o, states, acts) && n < |states|
    requires i in states[n].published && Finished(states[n], i)
    ensures |delays| == states[n].orders[i].attempts - 1 < c.maxAttempts && Backoff.Ladder(c.backoff, delays)
    ensures forall k :: 0 <= k < |delays| ==> Scheduled(states, acts, n, i, k + 1, delays[k])
    ensures Backoff.Sane(c.backoff) ==>
              && Backoff.Sum(delays) <= |delays| * Backoff.MaxMs(c.backoff)
              && Backoff.Sum(delays) as real <= Backoff.TotalBound(c.backoff, |delays|) + |delays| as real * 0.5
  {
    RefinesFate(c, o, states, acts, n, i);
    FateInRange(c, o, i, 1);
    var attempts := states[n].orders[i].attempts;
    forall attempt | 2 <= attempt <= attempts
      ensures Retried(states[n], i, attempt)
    {
      OneRetryPerAttempt(c, o, states, acts, n, i, attempt);
    }
    delays := DelaysOf(c, states, acts, n, i, attempts - 1);
    if Backoff.Sane(c.backoff) {
      Backoff.LadderCap(c.backoff, delays);
      Backoff.LadderTotalRounded(c.backoff, delays);
    }
  }

  lemma {:induction false} FateInRange(c: Config, o: Oracle, i: Id, k: nat)
    requires 1 <= k <= c.maxAttempts
    ensures k <= FateFrom(c, o, i, k).attempts <= c.maxAttempts
    decreases c.maxAttempts - k
  {
    if o(i, k) == FailsForNow && k < c.maxAttempts {
      FateInRange(c, o, i, k + 1);
    }
  }
}
