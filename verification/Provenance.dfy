/** Where the records of the retry ladder come from: every later attempt goes back to the step that
    scheduled it, with the error that failed the attempt before and the delay that was drawn for it. */
module Provenance {
  import opened Wrappers
  import opened Pipeline
  import opened Invariant
  import opened BaseRuns
  import opened Frames
  import Headers
  import Backoff

  /** The step publishes the retry record that follows attempt `attempt` of event `i`. */
  predicate Schedules(s: State, a: Action, i: Id, attempt: nat, delay: int) {
    && a.Work? && a.e.Publish? && a.w in s.jobs && JobOf(s.jobs[a.w], i)
    && s.jobs[a.w].pc.RetryPublish? && s.jobs[a.w].pc.delay == delay
    && s.jobs[a.w].rec.meta.attempt == attempt
  }

  /** It is the origin of the records of attempt `attempt` that carry `error`: the error is the one that
      failed the attempt before, clipped, and the delay is one that the backoff can draw for it. */
  ghost predicate Origin(c: Config, s: State, a: Action, i: Id, attempt: nat, error: Option<string>) {
    && 1 <= attempt && a.Work? && a.w in s.jobs && s.jobs[a.w].pc.RetryPublish?
    && Schedules(s, a, i, attempt - 1, s.jobs[a.w].pc.delay)
    && error == Some(Headers.Clip(s.jobs[a.w].pc.error))
    && Backoff.Drawable(c.backoff, attempt - 1, s.jobs[a.w].pc.delay)
  }

  ghost predicate Sourced(c: Config, states: seq<State>, acts: seq<Action>, n: nat, i: Id, attempt: nat,
                          error: Option<string>) {
    exists k :: 0 <= k < n && k < |states| && k < |acts| && Origin(c, states[k], acts[k], i, attempt, error)
  }

  // ---------------------------------------------------------------- drawn delays

  ghost predicate JobDrawn(c: Config, j: Job) {
    match j.pc
    case RetryTx(delay, _) => Backoff.Drawable(c.backoff, j.rec.meta.attempt, delay)
    case RetryStamp(delay, _) => Backoff.Drawable(c.backoff, j.rec.meta.attempt, delay)
    case RetryPublish(delay, _, _) => Backoff.Drawable(c.backoff, j.rec.meta.attempt, delay)
    case _ => true
  }

  ghost predicate JobsDrawn(c: Config, s: State) {
    forall w :: w in s.jobs ==> JobDrawn(c, s.jobs[w])
  }

  lemma StepKeepsDrawn(c: Config, s: State, a: Action)
    requires JobsDrawn(c, s) && a in Moves(c, s)
    ensures JobsDrawn(c, Perform(s, a))
  {
    if a.Work? {
      PerformView(s, a.w, a.e, a.after, a.fault);
    }
  }

  lemma {:induction false} RunKeepsDrawn(c: Config, states: seq<State>, acts: seq<Action>, n: nat)
    requires IsRun(c, states, acts) && n < |states|
    ensures JobsDrawn(c, states[n])
  {
    if 0 < n {
      assert StepAt(c, states, acts, n - 1);
      RunKeepsDrawn(c, states, acts, n - 1);
      StepKeepsDrawn(c, states[n - 1], acts[n - 1]);
    }
  }

  // ---------------------------------------------------------------- new records

  /** What a call publishes on the ladder. */
  predicate LadderShape(j: Job, e: Effect) {
    && (e.Publish? && e.tp.topic == Retry ==>
         && j.pc.RetryPublish? && e.rec.value == j.rec.value
         && e.rec.meta.attempt == j.rec.meta.attempt + 1 && e.rec.meta.error == Some(Headers.Clip(j.pc.error))
         && e.rec.meta.notBefore == j.pc.notBefore)
    && (e.Publish? && e.tp.topic == Created ==>
         j.pc.Replay? && e.rec.value == j.rec.value && e.rec.meta == ReplayRecord(j).meta)
  }

  lemma OkLadder(c: Config, s: State, j: Job, e: Effect, after: Option<Job>)
    requires OkStep(c, s, j, e, after)
    ensures LadderShape(j, e)
  {
  }

  lemma WorkLadder(c: Config, s: State, w: Agent, e: Effect, after: Option<Job>, fault: bool)
    requires w in s.jobs && Work(w, e, after, fault) in Moves(c, s)
    ensures LadderShape(s.jobs[w], e)
  {
    if !fault {
      OkLadder(c, s, s.jobs[w], e, after);
    } else if e != Quiet {
      var ok :| OkStep(c, s, s.jobs[w], e, ok);
      OkLadder(c, s, s.jobs[w], e, ok);
    }
  }

  /** The record at this position is new after the action. */
  predicate Appends(s: State, a: Action, tp: Tp, rec: Record) {
    match a
    case Work(_, e, _, _) => e == Publish(tp, rec)
    case PublishEvent(i, part) => tp == Tp(Created, part) && i in s.content && rec == EventRecord(i, s.content[i])
    case Foreign(part, r) => tp == Tp(Created, part) && rec == r
    case _ => false
  }

  lemma OldOrNew(s: State, a: Action, tp: Tp, off: nat)
    requires off < |LogOf(Perform(s, a), tp).recs|
    ensures || (off < |LogOf(s, tp).recs| && LogOf(Perform(s, a), tp).recs[off] == LogOf(s, tp).recs[off])
            || Appends(s, a, tp, LogOf(Perform(s, a), tp).recs[off])
  {
    if a.Work? && a.w in s.jobs {
      PerformView(s, a.w, a.e, a.after, a.fault);
    }
  }

  // ---------------------------------------------------------------- every run

  /** The records that have an origin: all on the retry topic, and the replays on the main topic. */
  predicate Laddered(s: State, tp: Tp, rec: Record) {
    && rec.value.Event?
    && (tp.topic == Retry || (tp.topic == Created && 2 <= rec.meta.attempt && rec.value.id in s.orders))
  }

  /** A record that is new after step `n` and has an origin: either that step is it, or the record repeats
      one of the retry topic. */
  datatype Cause = Here | Repeats(tp: Tp, off: nat)

  ghost predicate Caused(c: Config, s: State, a: Action, rec: Record, cause: Cause) {
    rec.value.Event? &&
    match cause
    case Here => Origin(c, s, a, rec.value.id, rec.meta.attempt, rec.meta.error)
    case Repeats(tp, off) =>
      && off < |LogOf(s, tp).recs| && Laddered(s, tp, LogOf(s, tp).recs[off])
      && var was := LogOf(s, tp).recs[off];
         && was.value == rec.value && was.meta.attempt == rec.meta.attempt
         && rec.meta.error == (if was.meta.error.Some? then Some(Headers.Clip(was.meta.error.value)) else None)
  }

  lemma NewIsCaused(c: Config, s: State, a: Action, tp: Tp, rec: Record) returns (cause: Cause)
    requires Base(c, s) && JobsDrawn(c, s) && a in Moves(c, s)
    requires Appends(s, a, tp, rec) && Laddered(Perform(s, a), tp, rec)
    ensures Caused(c, s, a, rec, cause)
  {
    cause := Here;
    if a.Work? {
      WorkLadder(c, s, a.w, a.e, a.after, a.fault);
      if tp.topic != Retry {
        var j := s.jobs[a.w];
        assert JobWf(c, s, a.w, j);
        assert RecordOk(c, s, j.tp.topic, LogOf(s, j.tp).recs[j.off]);
        cause := Repeats(j.tp, j.off);
      }
    }
  }

  /** `rec` is `was`, or a replay of it. */
  predicate Repeated(was: Record, rec: Record) {
    && was.value == rec.value && was.meta.attempt == rec.meta.attempt
    && (|| was.meta.error == rec.meta.error
        || rec.meta.error == (if was.meta.error.Some? then Some(Headers.Clip(was.meta.error.value)) else None))
  }

  lemma Inherit(c: Config, states: seq<State>, acts: seq<Action>, n: nat, was: Record, rec: Record)
    requires was.value.Event? && Repeated(was, rec)
    requires Sourced(c, states, acts, n, was.value.id, was.meta.attempt, was.meta.error)
    ensures Sourced(c, states, acts, n + 1, rec.value.id, rec.meta.attempt, rec.meta.error)
  {
  }

  /** One step back: the record's origin is step `n`, or it repeats a record that was there before. */
  lemma StepBack(c: Config, states: seq<State>, acts: seq<Action>, n: nat, tp: Tp, off: nat)
    returns (found: bool, q: Tp, k: nat)
    requires 1 <= c.maxAttempts && IsRun(c, states, acts) && n < |acts|
    requires off < |LogOf(states[n + 1], tp).recs| && Laddered(states[n + 1], tp, LogOf(states[n + 1], tp).recs[off])
    ensures var rec := LogOf(states[n + 1], tp).recs[off];
            if found then Sourced(c, states, acts, n + 1, rec.value.id, rec.meta.attempt, rec.meta.error)
            else && k < |LogOf(states[n], q).recs| && Laddered(states[n], q, LogOf(states[n], q).recs[k])
                 && Repeated(LogOf(states[n], q).recs[k], rec)
  {
    assert StepAt(c, states, acts, n);
    var s, a := states[n], acts[n];
    var rec := LogOf(states[n + 1], tp).recs[off];
    found, q, k := false, tp, off;
    OldOrNew(s, a, tp, off);
    if off < |LogOf(s, tp).recs| && LogOf(s, tp).recs[off] == rec {
      StillLaddered(c, states, acts, n, tp, off);
    } else {
      RunKeepsBase(c, states, acts, n);
      RunKeepsDrawn(c, states, acts, n);
      var cause := NewIsCaused(c, s, a, tp, rec);
      found := cause.Here?;
      if cause.Repeats? {
        q, k := cause.tp, cause.off;
      }
    }
  }

  /** Every record of a later attempt goes back to the step that scheduled that attempt. */
  lemma {:induction false} RecordsAreSourced(c: Config, states: seq<State>, acts: seq<Action>, n: nat, tp: Tp, off: nat)
    requires 1 <= c.maxAttempts && IsRun(c, states, acts) && n < |states|
    requires off < |LogOf(states[n], tp).recs| && Laddered(states[n], tp, LogOf(states[n], tp).recs[off])
    ensures var rec := LogOf(states[n], tp).recs[off];
            Sourced(c, states, acts, n, rec.value.id, rec.meta.attempt, rec.meta.error)
    decreases n
  {
    assert 0 < n;
    var found, q, k := StepBack(c, states, acts, n - 1, tp, off);
    if !found {
      RecordsAreSourced(c, states, acts, n - 1, q, k);
      Inherit(c, states, acts, n - 1, LogOf(states[n - 1], q).recs[k], LogOf(states[n], tp).recs[off]);
    }
  }

  lemma StillLaddered(c: Config, states: seq<State>, acts: seq<Action>, n: nat, tp: Tp, off: nat)
    requires 1 <= c.maxAttempts && IsRun(c, states, acts) && n < |acts|
    requires off < |LogOf(states[n], tp).recs| && Laddered(states[n + 1], tp, LogOf(states[n], tp).recs[off])
    ensures Laddered(states[n], tp, LogOf(states[n], tp).recs[off])
  {
    IdKnown(c, states, acts, n, tp, off);
    OrdersAreNotForeign(c, states, acts, n + 1, LogOf(states[n], tp).recs[off].value.id);
    RunForeignStays(c, states, acts, n);
  }

  lemma IdKnown(c: Config, states: seq<State>, acts: seq<Action>, n: nat, tp: Tp, off: nat)
    requires 1 <= c.maxAttempts && IsRun(c, states, acts) && n < |states|
    requires off < |LogOf(states[n], tp).recs| && LogOf(states[n], tp).recs[off].value.Event?
    ensures var i := LogOf(states[n], tp).recs[off].value.id; i in states[n].orders || i in states[n].foreign
  {
    RunKeepsBase(c, states, acts, n);
    assert RecordOk(c, states[n], tp.topic, LogOf(states[n], tp).recs[off]);
  }

  lemma OrdersAreNotForeign(c: Config, states: seq<State>, acts: seq<Action>, n: nat, i: Id)
    requires 1 <= c.maxAttempts && IsRun(c, states, acts) && n < |states|
    ensures i in states[n].orders ==> i !in states[n].foreign
  {
    RunKeepsBase(c, states, acts, n);
  }

  lemma RunForeignStays(c: Config, states: seq<State>, acts: seq<Action>, n: nat)
    requires IsRun(c, states, acts) && n < |acts|
    ensures states[n].foreign <= states[n + 1].foreign
  {
    assert StepAt(c, states, acts, n);
    ForeignStays(states[n], acts[n]);
  }

  lemma ForeignStays(s: State, a: Action)
    ensures s.foreign <= Perform(s, a).foreign
  {
    if a.Work? && a.w in s.jobs {
      PerformView(s, a.w, a.e, a.after, a.fault);
    }
  }

  // ---------------------------------------------------------------- what it gives

  /** Over any number of hops, the record of a later attempt of an order carries the first 500 characters of
      the error that failed the attempt before it. */
  lemma LaterAttemptsCarryLastError(c: Config, states: seq<State>, acts: seq<Action>, n: nat, tp: Tp, off: nat)
    returns (k: nat)
    requires 1 <= c.maxAttempts && IsRun(c, states, acts) && n < |states|
    requires off < |LogOf(states[n], tp).recs| && tp.topic != Dlq
    requires var rec := LogOf(states[n], tp).recs[off];
             rec.value.Event? && rec.value.id in states[n].orders && 2 <= rec.meta.attempt
    ensures k < n && acts[k].Work? && acts[k].w in states[k].jobs
    ensures var rec := LogOf(states[n], tp).recs[off]; var j := states[k].jobs[acts[k].w];
            && JobOf(j, rec.value.id) && j.rec.meta.attempt == rec.meta.attempt - 1 && j.pc.RetryPublish?
            && var error := j.pc.error;
               rec.meta.error == Some(if |error| <= 500 then error else error[..500])
  {
    RecordsAreSourced(c, states, acts, n, tp, off);
    var rec := LogOf(states[n], tp).recs[off];
    k :| 0 <= k < n && k < |acts| && Origin(c, states[k], acts[k], rec.value.id, rec.meta.attempt, rec.meta.error);
  }
}
