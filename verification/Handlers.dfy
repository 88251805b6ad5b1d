/** The handlers of app/kafka/consumers.py and the claim of app/idempotency.py as straight-line code.

    A `Consumer` object makes one call after another on the shared stores. Between any two calls the
    other consumers, the clock and the environment may do anything, and every call may succeed, raise
    or crash the consumer. Each method is proved to stay inside the step system: whatever happens,
    the states visited form a run. */
module Handlers {
  import opened Wrappers
  import opened Orders
  import opened Pipeline
  import opened Invariant
  import opened BaseProof
  import opened Runs
  import opened Frames
  import opened Theorems
  import Backoff
  import Headers

  /** How one call is going to end. */
  datatype Fortune = Fine | RaisesBefore | RaisesAfter | CrashesBefore | CrashesAfter

  datatype How = Returned | Raises | Crashes

  datatype ClaimStatus = Acquired | AlreadyDone | InProgress

  /** COMMIT and REDELIVER, or no answer because the consumer died. */
  datatype Answer = CommitIt | RedeliverIt | Died

  /** What fulfil(event) does on this attempt. */
  datatype Fulfilment = Fulfilled | Refused(error: string) | TimedOut(error: string, delay: int)

  // ---------------------------------------------------------------- what a handler leaves behind, field by field

  /** The record asks for the next attempt, not before a time in the given interval, and carries the error
      that failed this one. */
  predicate NextAttempt(rec: Record, topic: Topic, was: Record, earliest: Time, latest: Time, error: string) {
    && was.value.Event? && rec.value == was.value && rec.key == Some(was.value.id)
    && rec.meta.attempt == was.meta.attempt + 1
    && earliest <= rec.meta.notBefore <= latest
    && rec.meta.error.Some? && Headers.Clipped(error, rec.meta.error.value)
    && rec.meta.origin == Some(topic)
  }

  predicate RetryShown(s: State, off: nat, topic: Topic, was: Record, earliest: Time, latest: Time, error: string) {
    off < |Out(s, Retry)| && NextAttempt(Out(s, Retry)[off], topic, was, earliest, latest, error)
  }

  /** The record is the dead letter of this one, with this text as its error. */
  predicate Letter(rec: Record, topic: Topic, was: Record, text: string) {
    && rec.value == was.value && rec.key == was.key
    && (1 <= was.meta.attempt ==> rec.meta.attempt == was.meta.attempt)
    && rec.meta.error.Some? && Headers.Clipped(text, rec.meta.error.value)
    && rec.meta.origin == Some(topic)
  }

  predicate LetterShown(s: State, off: nat, topic: Topic, was: Record, text: string) {
    off < |Out(s, Dlq)| && Letter(Out(s, Dlq)[off], topic, was, text)
  }

  /** The record is this one again on the main topic, with nothing left of its schedule. */
  predicate Again(rec: Record, topic: Topic, was: Record) {
    && rec.value == was.value && rec.key == was.key
    && (1 <= was.meta.attempt ==> rec.meta.attempt == was.meta.attempt)
    && rec.meta.notBefore == 0 && rec.meta.origin == None
    && (rec.meta.error.Some? <==> was.meta.error.Some?)
    && (rec.meta.error.Some? ==> Headers.Clipped(was.meta.error.value, rec.meta.error.value))
  }

  predicate ReplayShown(s: State, off: nat, topic: Topic, was: Record) {
    off < |Out(s, Created)| && Again(Out(s, Created)[off], topic, was)
  }

  /** The error of a dead letter: why there is no retry, and what failed last. */
  function Obituary(exhausted: bool, error: string): string {
    if exhausted then "retries exhausted: " + error else "permanent failure: " + error
  }

  lemma ObituaryIsFailText(exhausted: bool, error: string)
    ensures FailText(exhausted, error) == Obituary(exhausted, error)
  {
    var reason := if exhausted then "retries exhausted" else "permanent failure";
    assert reason + ": " + error == (reason + ": ") + error;
  }

  /** The record of the next attempt is on the retry topic. */
  ghost predicate Requeued(s: State, topic: Topic, was: Record, earliest: Time, latest: Time, error: string) {
    exists off :: RetryShown(s, off, topic, was, earliest, latest, error)
  }

  /** The dead letter with this text is on its topic. */
  ghost predicate Reported(s: State, topic: Topic, was: Record, text: string) {
    exists off :: LetterShown(s, off, topic, was, text)
  }

  /** The replay is on the main topic. */
  ghost predicate Replayed(s: State, topic: Topic, was: Record) {
    exists off :: ReplayShown(s, off, topic, was)
  }

  lemma StillRequeued(s: State, t: State, topic: Topic, was: Record, due: Time, earliest: Time, latest: Time,
                      error: string)
    requires Grows(s, t) && Requeued(s, topic, was, due, due, error) && earliest <= due <= latest
    ensures Requeued(t, topic, was, earliest, latest, error)
  {
    var off :| RetryShown(s, off, topic, was, due, due, error);
    assert RetryShown(t, off, topic, was, earliest, latest, error);
  }

  lemma StillReported(s: State, t: State, topic: Topic, was: Record, text: string)
    requires Grows(s, t) && Reported(s, topic, was, text)
    ensures Reported(t, topic, was, text)
  {
    var off :| LetterShown(s, off, topic, was, text);
    assert LetterShown(t, off, topic, was, text);
  }

  /** What a publish of each kind shows. */
  lemma PublishShowsRetry(s: State, t: State, w: Agent, j: Job, notBefore: Time, error: string, after: Option<Job>)
    requires j.rec.value.Event?
    requires CallView(s, t, w, Publish(Tp(Retry, 0), RetryRecord(j, j.rec.value.id, notBefore, error)), after)
    ensures Requeued(t, j.tp.topic, j.rec, notBefore, notBefore, error)
  {
    assert RetryShown(t, |Out(s, Retry)|, j.tp.topic, j.rec, notBefore, notBefore, error);
  }

  lemma PublishShowsLetter(s: State, t: State, w: Agent, j: Job, text: string, after: Option<Job>)
    requires CallView(s, t, w, Publish(Tp(Dlq, 0), DlqRecord(j, text)), after)
    ensures Reported(t, j.tp.topic, j.rec, text)
  {
    assert LetterShown(t, |Out(s, Dlq)|, j.tp.topic, j.rec, text);
  }

  lemma PublishShowsReplay(s: State, t: State, w: Agent, j: Job, after: Option<Job>)
    requires CallView(s, t, w, Publish(Tp(Created, 0), ReplayRecord(j)), after)
    ensures Replayed(t, j.tp.topic, j.rec)
  {
    assert ReplayShown(t, |Out(s, Created)|, j.tp.topic, j.rec);
  }

  predicate RowIs(s: State, i: Id, status: Status, attempts: nat, reason: Option<string>) {
    && i in s.orders && s.orders[i].status == status
    && s.orders[i].attempts == attempts && s.orders[i].reason == reason
  }

  lemma LetterMove(c: Config, s: State, w: Agent, retryable: bool, error: string)
    requires w in s.jobs && s.jobs[w].pc == FailDlq(retryable, error) && s.jobs[w].rec.value.Event?
    ensures var j := s.jobs[w];
            Work(w, Publish(Tp(Dlq, 0), DlqRecord(j, FailText(retryable, error))), Some(j.(pc := FailMark)),
                false) in Moves(c, s)
  {
  }

  class Consumer {
    const c: Config
    const me: Agent
    var world: State
    var fortunes: seq<Fortune>
    ghost var states: seq<State>
    ghost var acts: seq<Action>

    ghost predicate Valid()
      reads this
    {
      Ends(c, states, acts, world)
    }

    /** The record and lease in hand; the next call is `pc`. */
    ghost predicate At(pc: Pc)
      reads this
    {
      me in world.jobs && world.jobs[me].pc == pc
    }

    constructor (c: Config, me: Agent, start: State)
      requires Init(start)
      ensures Valid() && this.c == c && this.me == me && world == start
    {
      this.c, this.me, this.world := c, me, start;
      this.fortunes := [];
      this.states, this.acts := [start], [];
    }

    /** From visited state `since` on, the order's row was once committed with these values. */
    ghost predicate Recorded(since: nat, j: Job, status: Status, reason: Option<string>)
      reads this
    {
      j.rec.value.Event? &&
      exists k :: since <= k < |states| && RowIs(states[k], j.rec.value.id, status, j.rec.meta.attempt, reason)
    }

    /** The record of the next attempt is on the retry topic, due `delay` after a moment from `since` on. */
    ghost predicate Queued(j: Job, since: Time, delay: int, error: string)
      reads this
    {
      exists due :: since + delay <= due <= world.now + delay && Requeued(world, j.tp.topic, j.rec, due, due, error)
    }

    /** The claim is not held any more. */
    ghost predicate Freed(j: Job)
      reads this
    {
      j.rec.value.Event? && !Owns(world, j.rec.value.id, j.token)
    }

    /** Everybody else: any number of actions that leave this consumer's own job alone. The body does
        none of them; callers have to cope with all of them. */
    method Others()
      requires Valid()
      modifies this
      ensures Valid() && old(states) <= states
      ensures me in old(world.jobs) <==> me in world.jobs
      ensures me in world.jobs ==> world.jobs[me] == old(world.jobs)[me]
    {
    }

    method Advance(a: Action)
      requires Valid() && a in Moves(c, world)
      modifies this
      ensures Valid() && states == old(states) + [world] && world == Perform(old(world), a)
      ensures fortunes == old(fortunes)
    {
      ghost var ss, aa := Extend(c, states, acts, world, a, Perform(world, a));
      states, acts := ss, aa;
      world := Perform(world, a);
    }

    /** This consumer's own step. */
    method Act(e: Effect, after: Option<Job>, fault: bool)
      requires Valid() && me in world.jobs && Work(me, e, after, fault) in Moves(c, world)
      modifies this
      ensures Valid() && states == old(states) + [world] && fortunes == old(fortunes)
      ensures CallView(old(world), world, me, e, after)
    {
      PerformView(world, me, e, after, fault);
      Advance(Work(me, e, after, fault));
    }

    /** One call: its effect and the next call if it returns normally. */
    method Call(e: Effect, next: Job) returns (how: How)
      requires Valid() && me in world.jobs && Work(me, e, Some(next), false) in Moves(c, world)
      requires world.jobs[me].pc != Ack
      modifies this
      ensures Valid() && states == old(states) + [world] && old(states) < states
      ensures how == Returned ==> me in world.jobs && world.jobs[me] == next
      ensures how == Returned ==> CallView(old(world), world, me, e, Some(next))
      ensures how == Raises ==> me in world.jobs && Some(world.jobs[me]) == Raised(old(world.jobs)[me])
      ensures how == Crashes ==> me !in world.jobs
    {
      var fortune := if fortunes == [] then Fine else fortunes[0];
      fortunes := if fortunes == [] then [] else fortunes[1..];
      var raised := Raised(world.jobs[me]);
      AnyCallCanFail(c, world, me, e, next, raised);
      AnyCallCanFail(c, world, me, e, next, None);
      match fortune
      case Fine =>
        Act(e, Some(next), false);
        how := Returned;
      case RaisesBefore =>
        Act(Quiet, raised, true);
        how := Raises;
      case RaisesAfter =>
        Act(e, raised, true);
        how := Raises;
      case CrashesBefore =>
        Act(Quiet, None, true);
        how := Crashes;
      case CrashesAfter =>
        Act(e, None, true);
        how := Crashes;
    }

    /** The call in hand raises without effect. */
    method Raise()
      requires Valid() && me in world.jobs && world.jobs[me].pc != Ack
      modifies this
      ensures Valid() && old(states) <= states
      ensures me in world.jobs && Some(world.jobs[me]) == Raised(old(world.jobs)[me])
    {
      Act(Quiet, Raised(world.jobs[me]), true);
    }

    /** Same record, lease and token as `j`. */
    ghost predicate Keeps(j: Job)
      reads this
    {
      me in world.jobs && SameJob(j, world.jobs[me])
    }

    /** What every sub-step of a handler leaves behind. */
    ghost predicate Stands(j: Job, how: How, done: Pc, raised: Pc)
      reads this
    {
      match how
      case Returned => Keeps(j) && At(done)
      case Raises => Keeps(j) && At(raised)
      case Crashes => me !in world.jobs
    }

    // -------------------------------------------------------------- IdempotencyGuard.claim

    static function PcOf(status: ClaimStatus): Pc {
      match status
      case Acquired => Check
      case AlreadyDone => Ack
      case InProgress => Redeliver
    }

    method Claim() returns (how: How, status: ClaimStatus)
      requires Valid() && At(ClaimSet) && world.jobs[me].rec.value.Event?
      modifies this
      ensures Valid() && old(states) <= states
      ensures Stands(old(world.jobs)[me], how, PcOf(status), Redeliver)
    {
      var j := world.jobs[me];
      var i := j.rec.value.id;
      Others();
      if Visible(world, i).None? {
        var expiry := world.now + c.lockTtl;
        how := Call(PutKey(i, Held(j.token, expiry)), j.(pc := Check, expiry := expiry));
        return how, Acquired;
      }
      how := Call(Quiet, j.(pc := ClaimGet));
      if how != Returned { return how, InProgress; }
      Others();
      if Visible(world, i).None? {
        how := Call(Quiet, j.(pc := ClaimSetAgain));
        if how != Returned { return how, InProgress; }
        how, status := ClaimAgain();
        return;
      }
      status := if Visible(world, i).value.Done? then AlreadyDone else InProgress;
      how := Call(Quiet, j.(pc := PcOf(status)));
    }

    /** The key expired between the SET and the GET: race for it once more. */
    method ClaimAgain() returns (how: How, status: ClaimStatus)
      requires Valid() && At(ClaimSetAgain) && world.jobs[me].rec.value.Event?
      modifies this
      ensures Valid() && old(states) <= states
      ensures Stands(old(world.jobs)[me], how, PcOf(status), Redeliver)
    {
      var j := world.jobs[me];
      var i := j.rec.value.id;
      Others();
      if Visible(world, i).None? {
        var expiry := world.now + c.lockTtl;
        how := Call(PutKey(i, Held(j.token, expiry)), j.(pc := Check, expiry := expiry));
        return how, Acquired;
      }
      how := Call(Quiet, j.(pc := ClaimGetAgain));
      if how != Returned { return how, InProgress; }
      Others();
      status := if Visible(world, i).Some? && Visible(world, i).value.Done? then AlreadyDone else InProgress;
      how := Call(Quiet, j.(pc := PcOf(status)));
    }

    // -------------------------------------------------------------- OrderConsumer._process

    /** guard.complete(claim) as the last call before the acknowledgement. */
    method MarkDone() returns (how: How)
      requires Valid() && (At(SeenMark) || At(CompleteMark) || At(FailMark)) && world.jobs[me].rec.value.Event?
      modifies this
      ensures Valid() && old(states) <= states
      ensures Stands(old(world.jobs)[me], how, Ack, Abort)
      ensures how == Returned ==> Freed(old(world.jobs)[me])
    {
      var j := world.jobs[me];
      Others();
      how := Call(CompleteEffect(c, world, j.rec.value.id, j.token), j.(pc := Ack));
    }

    /** No such order: tombstone first, then the dead letter. */
    method Missing() returns (how: How)
      requires Valid() && At(MissingMark) && world.jobs[me].rec.value.Event?
      modifies this
      ensures Valid() && old(states) <= states
      ensures Stands(old(world.jobs)[me], how, Ack, Abort)
      ensures how == Returned ==>
                Reported(world, old(world.jobs)[me].tp.topic, old(world.jobs)[me].rec, "no such order")
    {
      var j := world.jobs[me];
      Others();
      how := Call(CompleteEffect(c, world, j.rec.value.id, j.token), j.(pc := MissingDlq));
      if how != Returned { return; }
      how := ReportMissing();
    }

    method ReportMissing() returns (how: How)
      requires Valid() && At(MissingDlq) && world.jobs[me].rec.value.Event?
      modifies this
      ensures Valid() && old(states) <= states
      ensures Stands(old(world.jobs)[me], how, Ack, Abort)
      ensures how == Returned ==>
                Reported(world, old(world.jobs)[me].tp.topic, old(world.jobs)[me].rec, "no such order")
    {
      var j := world.jobs[me];
      Others();
      ghost var before := world;
      how := Call(Publish(Tp(Dlq, 0), DlqRecord(j, "no such order")), j.(pc := Ack));
      if how == Returned {
        PublishShowsLetter(before, world, me, j, "no such order", Some(j.(pc := Ack)));
      }
    }

    /** One of the transactions that commit a verdict without looking at the status again. */
    method CommitVerdict(target: Status, reason: Option<string>, next: Pc) returns (how: How)
      requires Valid() && me in world.jobs && world.jobs[me].rec.value.Event?
      requires world.jobs[me].rec.value.id in world.orders
      requires match world.jobs[me].pc
               case CompleteTx => target == Completed && reason == None && next == CompleteMark
               case RetryTx(delay, error) =>
                   target == Pending && reason == Some(error) && next == RetryStamp(delay, error)
               case FailTx(retryable, error) =>
                   target == Failed && reason == Some(error) && next == FailDlq(retryable, error)
               case _ => false
      modifies this
      ensures Valid() && old(states) <= states
      ensures Stands(old(world.jobs)[me], how, next, Abort)
      ensures how == Returned ==> Recorded(|old(states)|, old(world.jobs)[me], target, reason)
    {
      var j := world.jobs[me];
      var i := j.rec.value.id;
      how := Call(PutRow(i, Moved(world.orders[i], target, Some(j.rec.meta.attempt), reason)), j.(pc := next));
      assert how == Returned ==> RowIs(states[|states| - 1], i, target, j.rec.meta.attempt, reason);
    }

    /** The second transaction of a fulfilled order. */
    method Complete() returns (how: How)
      requires Valid() && At(CompleteTx) && world.jobs[me].rec.value.Event?
      modifies this
      ensures Valid() && old(states) <= states
      ensures Stands(old(world.jobs)[me], how, Ack, Abort)
      ensures how == Returned ==> Recorded(|old(states)|, old(world.jobs)[me], Completed, None)
      ensures how == Returned ==> Freed(old(world.jobs)[me])
    {
      Others();
      if world.jobs[me].rec.value.id !in world.orders {
        Raise();
        return Raises;
      }
      how := CommitVerdict(Completed, None, CompleteMark);
      if how == Returned { how := MarkDone(); }
    }

    /** _fail with a retry left: back to pending, publish the next attempt, release. */
    method ScheduleRetry(delay: int, error: string, since: Time) returns (how: How)
      requires Valid() && At(RetryTx(delay, error)) && world.jobs[me].rec.value.Event? && since <= world.now
      modifies this
      ensures Valid() && old(states) <= states
      ensures Stands(old(world.jobs)[me], how, Ack, Abort)
      ensures how == Returned ==> Recorded(|old(states)|, old(world.jobs)[me], Pending, Some(error))
      ensures how == Returned ==> Queued(old(world.jobs)[me], since, delay, error)
      ensures how == Returned ==> Freed(old(world.jobs)[me])
    {
      how := BackToPending(delay, error);
      if how != Returned { return; }
      TimePasses(|old(states)| - 1);
      how := Requeue(delay, error, since);
    }

    method BackToPending(delay: int, error: string) returns (how: How)
      requires Valid() && At(RetryTx(delay, error)) && world.jobs[me].rec.value.Event?
      modifies this
      ensures Valid() && old(states) <= states
      ensures Stands(old(world.jobs)[me], how, RetryStamp(delay, error), Abort)
      ensures how == Returned ==> Recorded(|old(states)|, old(world.jobs)[me], Pending, Some(error))
    {
      Others();
      if world.jobs[me].rec.value.id !in world.orders {
        Raise();
        return Raises;
      }
      how := CommitVerdict(Pending, Some(error), RetryStamp(delay, error));
    }

    /** Read the clock, publish the next attempt, release the claim. */
    method Requeue(delay: int, error: string, since: Time) returns (how: How)
      requires Valid() && At(RetryStamp(delay, error)) && world.jobs[me].rec.value.Event? && since <= world.now
      modifies this
      ensures Valid() && old(states) <= states
      ensures Stands(old(world.jobs)[me], how, Ack, Abort)
      ensures how == Returned ==> Queued(old(world.jobs)[me], since, delay, error)
      ensures how == Returned ==> Freed(old(world.jobs)[me])
    {
      var notBefore;
      how, notBefore := ReadClock(delay, error);
      if how != Returned { return; }
      TimePasses(|old(states)| - 1);
      ghost var stamp := |states| - 1;
      how := PublishAndRelease(delay, error, notBefore);
      TimePasses(stamp);
    }

    method PublishAndRelease(delay: int, error: string, notBefore: Time) returns (how: How)
      requires Valid() && At(RetryPublish(delay, error, notBefore)) && world.jobs[me].rec.value.Event?
      modifies this
      ensures Valid() && old(states) <= states
      ensures Stands(old(world.jobs)[me], how, Ack, Abort)
      ensures how == Returned ==>
                Requeued(world, old(world.jobs)[me].tp.topic, old(world.jobs)[me].rec, notBefore, notBefore, error)
      ensures how == Returned ==> Freed(old(world.jobs)[me])
    {
      ghost var j := world.jobs[me];
      how := PublishRetry(delay, error, notBefore);
      if how != Returned { return; }
      ghost var shown := |states| - 1;
      how := Release();
      RetryStays(shown, j.tp.topic, j.rec, notBefore, error);
    }

    /** time.time() + delay */
    method ReadClock(delay: int, error: string) returns (how: How, notBefore: Time)
      requires Valid() && At(RetryStamp(delay, error)) && world.jobs[me].rec.value.Event?
      modifies this
      ensures Valid() && old(states) <= states
      ensures Stands(old(world.jobs)[me], how, RetryPublish(delay, error, notBefore), Abort)
      ensures how == Returned ==> notBefore == world.now + delay
    {
      Others();
      notBefore := world.now + delay;
      how := Call(Quiet, world.jobs[me].(pc := RetryPublish(delay, error, notBefore)));
    }

    method PublishRetry(delay: int, error: string, notBefore: Time) returns (how: How)
      requires Valid() && At(RetryPublish(delay, error, notBefore)) && world.jobs[me].rec.value.Event?
      modifies this
      ensures Valid() && old(states) <= states
      ensures Stands(old(world.jobs)[me], how, RetryRelease, Abort)
      ensures how == Returned ==>
                Requeued(world, old(world.jobs)[me].tp.topic, old(world.jobs)[me].rec, notBefore, notBefore, error)
    {
      var j := world.jobs[me];
      Others();
      ghost var before := world;
      how := Call(Publish(Tp(Retry, 0), RetryRecord(j, j.rec.value.id, notBefore, error)), j.(pc := RetryRelease));
      if how == Returned {
        PublishShowsRetry(before, world, me, j, notBefore, error, Some(j.(pc := RetryRelease)));
      }
    }

    method Release() returns (how: How)
      requires Valid() && At(RetryRelease) && world.jobs[me].rec.value.Event?
      modifies this
      ensures Valid() && old(states) <= states
      ensures Stands(old(world.jobs)[me], how, Ack, Abort)
      ensures how == Returned ==> Freed(old(world.jobs)[me])
    {
      var j := world.jobs[me];
      Others();
      how := Call(ReleaseEffect(world, j.rec.value.id, j.token), j.(pc := Ack));
    }

    /** _fail without a retry left: failed, dead letter, tombstone. */
    method GiveUp(retryable: bool, error: string) returns (how: How)
      requires Valid() && At(FailTx(retryable, error)) && world.jobs[me].rec.value.Event?
      modifies this
      ensures Valid() && old(states) <= states
      ensures Stands(old(world.jobs)[me], how, Ack, Abort)
      ensures how == Returned && old(world.jobs)[me].rec.value.id in old(world.orders) ==>
                Recorded(|old(states)|, old(world.jobs)[me], Failed, Some(error))
      ensures how == Returned ==>
                Reported(world, old(world.jobs)[me].tp.topic, old(world.jobs)[me].rec, Obituary(retryable, error))
      ensures how == Returned ==> Freed(old(world.jobs)[me])
    {
      how := FailRow(retryable, error);
      if how == Returned { how := DeadLetterIt(retryable, error); }
    }

    method FailRow(retryable: bool, error: string) returns (how: How)
      requires Valid() && At(FailTx(retryable, error)) && world.jobs[me].rec.value.Event?
      modifies this
      ensures Valid() && old(states) <= states
      ensures Stands(old(world.jobs)[me], how, FailDlq(retryable, error), Abort)
      ensures how == Returned && old(world.jobs)[me].rec.value.id in old(world.orders) ==>
                Recorded(|old(states)|, old(world.jobs)[me], Failed, Some(error))
    {
      ghost var before := |states| - 1;
      Others();
      if world.jobs[me].rec.value.id in states[before].orders {
        RowsStay(before, world.jobs[me].rec.value.id);
      }
      if world.jobs[me].rec.value.id in world.orders {
        how := CommitVerdict(Failed, Some(error), FailDlq(retryable, error));
      } else {
        how := NothingToFail(retryable, error);
      }
    }

    method NothingToFail(retryable: bool, error: string) returns (how: How)
      requires Valid() && At(FailTx(retryable, error)) && world.jobs[me].rec.value.Event?
      requires world.jobs[me].rec.value.id !in world.orders
      modifies this
      ensures Valid() && old(states) <= states
      ensures Stands(old(world.jobs)[me], how, FailDlq(retryable, error), Abort)
    {
      how := Call(Quiet, world.jobs[me].(pc := FailDlq(retryable, error)));
    }

    // What an earlier state of the run showed is not gone.

    lemma TimePasses(m: nat)
      requires Valid() && m < |states|
      ensures states[m].now <= world.now
    {
      RunGrows(c, states, acts, m, |states| - 1);
    }

    lemma RowsStay(m: nat, i: Id)
      requires Valid() && m < |states| && i in states[m].orders
      ensures i in world.orders
    {
      RunGrows(c, states, acts, m, |states| - 1);
    }

    lemma ReportStays(m: nat, topic: Topic, was: Record, text: string)
      requires Valid() && m < |states| && Reported(states[m], topic, was, text)
      ensures Reported(world, topic, was, text)
    {
      RunGrows(c, states, acts, m, |states| - 1);
      StillReported(states[m], world, topic, was, text);
    }

    lemma RetryStays(m: nat, topic: Topic, was: Record, due: Time, error: string)
      requires Valid() && m < |states| && Requeued(states[m], topic, was, due, due, error)
      ensures Requeued(world, topic, was, due, due, error)
    {
      RunGrows(c, states, acts, m, |states| - 1);
      StillRequeued(states[m], world, topic, was, due, due, due, error);
    }

    method DeadLetterIt(retryable: bool, error: string) returns (how: How)
      requires Valid() && At(FailDlq(retryable, error)) && world.jobs[me].rec.value.Event?
      modifies this
      ensures Valid() && old(states) <= states
      ensures Stands(old(world.jobs)[me], how, Ack, Abort)
      ensures how == Returned ==>
                Reported(world, old(world.jobs)[me].tp.topic, old(world.jobs)[me].rec, Obituary(retryable, error))
      ensures how == Returned ==> Freed(old(world.jobs)[me])
    {
      how := PublishLetter(retryable, error);
      if how == Returned { how := MarkReported(Obituary(retryable, error)); }
    }

    /** The tombstone after the letter. */
    method MarkReported(text: string) returns (how: How)
      requires Valid() && At(FailMark) && world.jobs[me].rec.value.Event?
      requires Reported(world, world.jobs[me].tp.topic, world.jobs[me].rec, text)
      modifies this
      ensures Valid() && old(states) <= states
      ensures Stands(old(world.jobs)[me], how, Ack, Abort)
      ensures Reported(world, old(world.jobs)[me].tp.topic, old(world.jobs)[me].rec, text)
      ensures how == Returned ==> Freed(old(world.jobs)[me])
    {
      ghost var j, shown := world.jobs[me], |states| - 1;
      how := MarkDone();
      ReportStays(shown, j.tp.topic, j.rec, text);
    }

    method PublishLetter(retryable: bool, error: string) returns (how: How)
      requires Valid() && At(FailDlq(retryable, error)) && world.jobs[me].rec.value.Event?
      modifies this
      ensures Valid() && old(states) <= states
      ensures Stands(old(world.jobs)[me], how, FailMark, Abort)
      ensures how == Returned ==>
                Reported(world, old(world.jobs)[me].tp.topic, old(world.jobs)[me].rec, Obituary(retryable, error))
    {
      var j := world.jobs[me];
      Others();
      LetterMove(c, world, me, retryable, error);
      ghost var before := world;
      how := Call(Publish(Tp(Dlq, 0), DlqRecord(j, FailText(retryable, error))), j.(pc := FailMark));
      if how == Returned {
        PublishShowsLetter(before, world, me, j, FailText(retryable, error), Some(j.(pc := FailMark)));
        ObituaryIsFailText(retryable, error);
      }
    }

    /** What `_process` and `_fail` do next with the outcome of `fulfil`. */
    static function Course(c: Config, work: Fulfilment, attempt: nat): Pc {
      match work
      case Fulfilled => CompleteTx
      case Refused(error) => FailTx(false, error)
      case TimedOut(error, delay) => if attempt < c.maxAttempts then RetryTx(delay, error) else FailTx(true, error)
    }

    /** fulfil(event), with the outcome it is going to have. */
    method Attempt(work: Fulfilment) returns (how: How)
      requires Valid() && At(Fulfil) && world.jobs[me].rec.value.Event?
      requires work.TimedOut? ==> Backoff.Drawable(c.backoff, world.jobs[me].rec.meta.attempt, work.delay)
      modifies this
      ensures Valid() && old(states) <= states
      ensures Stands(old(world.jobs)[me], how, Course(c, work, old(world.jobs)[me].rec.meta.attempt), Abort)
    {
      Others();
      var j := world.jobs[me];
      how := Call(Quiet, j.(pc := Course(c, work, j.rec.meta.attempt)));
    }

    /** What the outcome of an attempt comes to, as the design has it: a fulfilled order is completed and
        tombstoned; a refused one is failed and dead-lettered as a permanent failure; a timeout goes back to
        pending with the next attempt on the retry topic and the claim released, as long as there are
        attempts left, and else fails as exhausted. */
    ghost predicate Concluded(since: nat, start: Time, j: Job, work: Fulfilment, known: bool)
      reads this
    {
      match work
      case Fulfilled => Recorded(since, j, Completed, None) && Freed(j)
      case Refused(error) =>
        && (known ==> Recorded(since, j, Failed, Some(error)))
        && Reported(world, j.tp.topic, j.rec, "permanent failure: " + error) && Freed(j)
      case TimedOut(error, delay) =>
        if j.rec.meta.attempt < c.maxAttempts then
          Recorded(since, j, Pending, Some(error)) && Queued(j, start, delay, error) && Freed(j)
        else
          && (known ==> Recorded(since, j, Failed, Some(error)))
          && Reported(world, j.tp.topic, j.rec, "retries exhausted: " + error) && Freed(j)
    }

    /** fulfil and what follows from its outcome. */
    method Finish(work: Fulfilment) returns (how: How)
      requires Valid() && At(Fulfil) && world.jobs[me].rec.value.Event?
      requires work.TimedOut? ==> Backoff.Drawable(c.backoff, world.jobs[me].rec.meta.attempt, work.delay)
      modifies this
      ensures Valid() && old(states) <= states
      ensures Stands(old(world.jobs)[me], how, Ack, Abort)
      ensures how == Returned ==> Concluded(|old(states)|, old(world.now), old(world.jobs)[me], work,
                                            old(world.jobs)[me].rec.value.id in old(world.orders))
    {
      var since := world.now;
      ghost var j, before := world.jobs[me], |states| - 1;
      how := Attempt(work);
      if how != Returned { return; }
      TimePasses(before);
      if j.rec.value.id in states[before].orders {
        RowsStay(before, j.rec.value.id);
      }
      how := Conclude(work, since);
    }

    /** What _process and _fail do with the outcome. */
    method Conclude(work: Fulfilment, since: Time) returns (how: How)
      requires Valid() && me in world.jobs && world.jobs[me].rec.value.Event? && since <= world.now
      requires At(Course(c, work, world.jobs[me].rec.meta.attempt))
      modifies this
      ensures Valid() && old(states) <= states
      ensures Stands(old(world.jobs)[me], how, Ack, Abort)
      ensures how == Returned ==> Concluded(|old(states)|, since, old(world.jobs)[me], work,
                                            old(world.jobs)[me].rec.value.id in old(world.orders))
    {
      match work
      case Fulfilled =>
        how := Complete();
      case Refused(error) =>
        how := GiveUp(false, error);
      case TimedOut(error, delay) =>
        if world.jobs[me].rec.meta.attempt < c.maxAttempts {
          how := ScheduleRetry(delay, error, since);
        } else {
          how := GiveUp(true, error);
        }
    }

    /** The first transaction: refuse a missing or terminal order, else mark it processing. */
    method CheckRow() returns (how: How)
      requires Valid() && At(Check) && world.jobs[me].rec.value.Event?
      modifies this
      ensures Valid() && old(states) <= states
      ensures how == Returned ==> Keeps(old(world.jobs)[me]) && (At(MissingMark) || At(SeenMark) || At(Fulfil))
      ensures how == Returned && At(Fulfil) ==>
                world.jobs[me].rec.value.id in world.orders && Recorded(|old(states)|, world.jobs[me], Processing, None)
      ensures how != Returned ==> Stands(old(world.jobs)[me], how, Check, Abort)
    {
      var j := world.jobs[me];
      var i := j.rec.value.id;
      Others();
      if i !in world.orders {
        how := Call(Quiet, j.(pc := MissingMark));
      } else if Terminal(world.orders[i].status) {
        how := Call(Quiet, j.(pc := SeenMark));
      } else {
        how := Call(PutRow(i, Moved(world.orders[i], Processing, Some(j.rec.meta.attempt), None)), j.(pc := Fulfil));
        assert how == Returned ==> RowIs(states[|states| - 1], i, Processing, j.rec.meta.attempt, None);
      }
    }

    method Process(work: Fulfilment) returns (how: How)
      requires Valid() && At(Check) && world.jobs[me].rec.value.Event?
      requires work.TimedOut? ==> Backoff.Drawable(c.backoff, world.jobs[me].rec.meta.attempt, work.delay)
      modifies this
      ensures Valid() && old(states) <= states
      ensures Stands(old(world.jobs)[me], how, Ack, Abort)
    {
      how := CheckRow();
      if how != Returned { return; }
      if world.jobs[me].pc == MissingMark {
        how := Missing();
      } else if world.jobs[me].pc == SeenMark {
        how := MarkDone();
      } else {
        how := Finish(work);
      }
    }

    // -------------------------------------------------------------- handle

    ghost predicate Answered(j: Job, answer: Answer)
      reads this
    {
      match answer
      case CommitIt => Keeps(j) && At(Ack)
      case RedeliverIt => Keeps(j) && At(Redeliver)
      case Died => me !in world.jobs
    }

    /** The record may be forgotten: its order does not exist, is finished, or is carried further up
        the ladder by an uncommitted record. */
    ghost predicate Settled(j: Job)
      reads this
    {
      j.rec.value.Event? ==>
        var i := j.rec.value.id;
        i !in world.orders || Finished(world, i) || Carried(world, i, Rank(j.tp.topic, j.rec.meta.attempt))
    }

    /** The premises of the safety results for the job's event, over the run so far. */
    ghost predicate Premises(j: Job)
      reads this
    {
      1 <= c.maxAttempts && (j.rec.value.Event? ==> PunctualRun(states, j.rec.value.id))
    }

    lemma CommitIsSafe(j: Job)
      requires Valid() && Keeps(j) && At(Ack) && j.tp.topic != Dlq
      ensures Premises(j) ==> Settled(j)
    {
      if Premises(j) && j.rec.value.Event? {
        AckIsSafe(c, states, acts, |states| - 1, me, j.rec.value.id);
      }
    }

    /** OrderConsumer.handle on a valid envelope. */
    method Handle(work: Fulfilment) returns (answer: Answer)
      requires Valid() && At(ClaimSet) && world.jobs[me].rec.value.Event? && world.jobs[me].tp.topic == Created
      requires work.TimedOut? ==> Backoff.Drawable(c.backoff, world.jobs[me].rec.meta.attempt, work.delay)
      modifies this
      ensures Valid() && old(states) <= states
      ensures Answered(old(world.jobs)[me], answer)
      ensures answer == CommitIt && Premises(old(world.jobs)[me]) ==> Settled(old(world.jobs)[me])
    {
      var j := world.jobs[me];
      var how, status := Claim();
      if how == Crashes { return Died; }
      if how == Raises || status == InProgress { return RedeliverIt; }
      if status == Acquired {
        how := Process(work);
      }
      if how == Crashes { return Died; }
      if how == Returned {
        CommitIsSafe(j);
        return CommitIt;
      }
      how := HandBack();
      answer := if how == Crashes then Died else RedeliverIt;
    }

    /** OrderConsumer.handle on an envelope that does not validate: straight to the dead letters. */
    method HandlePoison() returns (answer: Answer)
      requires Valid() && At(PoisonDlq)
      modifies this
      ensures Valid() && old(states) <= states
      ensures Answered(old(world.jobs)[me], answer)
      ensures answer == CommitIt ==>
                Reported(world, old(world.jobs)[me].tp.topic, old(world.jobs)[me].rec, "schema violation")
    {
      var j := world.jobs[me];
      Others();
      ghost var before := world;
      var how := Call(Publish(Tp(Dlq, 0), DlqRecord(j, "schema violation")), j.(pc := Ack));
      if how == Returned {
        PublishShowsLetter(before, world, me, j, "schema violation", Some(j.(pc := Ack)));
      }
      answer := if how == Crashes then Died else if how == Raises then RedeliverIt else CommitIt;
    }

    /** The exception handler around _process: release the claim, then let the loop redeliver. */
    method HandBack() returns (how: How)
      requires Valid() && At(Abort) && world.jobs[me].rec.value.Event?
      modifies this
      ensures Valid() && old(states) <= states
      ensures Stands(old(world.jobs)[me], how, Redeliver, Redeliver)
      ensures how == Returned ==> Freed(old(world.jobs)[me])
    {
      var j := world.jobs[me];
      Others();
      how := Call(ReleaseEffect(world, j.rec.value.id, j.token), j.(pc := Redeliver));
    }

    /** RetryScheduler.handle; the sleep is over when the clock has reached the wake-up time. */
    method HandleRetry() returns (answer: Answer)
      requires Valid() && At(Hold) && world.jobs[me].tp.topic == Retry
      modifies this
      ensures Valid() && old(states) <= states
      ensures Answered(old(world.jobs)[me], answer)
      ensures answer == CommitIt ==> Replayed(world, old(world.jobs)[me].tp.topic, old(world.jobs)[me].rec)
      ensures answer == CommitIt && Premises(old(world.jobs)[me]) ==> Settled(old(world.jobs)[me])
    {
      var j := world.jobs[me];
      var how, wake := Wait();
      if how != Returned { return if how == Crashes then Died else RedeliverIt; }
      answer := ReplayWhenDue(wake);
      if answer == CommitIt {
        CommitIsSafe(j);
      }
    }

    /** How long to sleep: until not-before, and no longer than the maximum delay. */
    method Wait() returns (how: How, wake: Time)
      requires Valid() && At(Hold)
      modifies this
      ensures Valid() && old(states) <= states
      ensures Stands(old(world.jobs)[me], how, Replay(wake), Redeliver)
      ensures wake <= old(world.jobs)[me].rec.meta.notBefore || exists k :: 0 <= k < |states| && wake == states[k].now
    {
      var j := world.jobs[me];
      Others();
      assert world == states[|states| - 1];
      var wait := j.rec.meta.notBefore - world.now;
      wake := world.now + (if 0 < wait then Min(wait, Backoff.MaxMs(c.backoff)) else 0);
      how := Call(Quiet, j.(pc := Replay(wake)));
    }

    method Sleep(until: Time)
      requires Valid()
      modifies this
      ensures Valid() && old(states) <= states && until <= world.now && world.jobs == old(world.jobs)
    {
      if world.now < until {
        Advance(Tick(until - world.now));
      }
    }

    method ReplayWhenDue(wake: Time) returns (answer: Answer)
      requires Valid() && At(Replay(wake))
      modifies this
      ensures Valid() && old(states) <= states
      ensures Answered(old(world.jobs)[me], answer)
      ensures answer == CommitIt ==> Replayed(world, old(world.jobs)[me].tp.topic, old(world.jobs)[me].rec)
    {
      var j := world.jobs[me];
      Others();
      Sleep(wake);
      ghost var before := world;
      var how := Call(Publish(Tp(Created, 0), ReplayRecord(j)), j.(pc := Ack));
      if how == Returned {
        PublishShowsReplay(before, world, me, j, Some(j.(pc := Ack)));
      }
      answer := if how == Crashes then Died else if how == Raises then RedeliverIt else CommitIt;
    }

    /** DlqArchiver.handle. */
    method HandleDeadLetter() returns (answer: Answer)
      requires Valid() && At(Archive)
      modifies this
      ensures Valid() && old(states) <= states
      ensures Answered(old(world.jobs)[me], answer)
      ensures answer == CommitIt ==>
                var j := old(world.jobs)[me]; exists entry ::
                    entry in world.archive && Archives(entry, j.tp, j.off, j.rec)
    {
      var j := world.jobs[me];
      Others();
      var entry := ArchiveEntry(j.tp, j.off, j.rec);
      var how := Call(Store(entry), j.(pc := Ack));
      assert how == Returned ==> entry in world.archive && Archives(entry, j.tp, j.off, j.rec);
      answer := if how == Crashes then Died else if how == Raises then RedeliverIt else CommitIt;
    }
  }
}
