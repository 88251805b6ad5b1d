/** The main results, read off the invariant for every run. */
module Theorems {
  import opened Wrappers
  import opened Orders
  import opened Pipeline
  import opened Invariant
  import opened BaseProof
  import opened BaseRuns
  import opened SoundProof
  import opened SoundRuns
  import opened Frames

  lemma StepExtendsTrail(c: Config, s: State, a: Action, i: Id)
    requires Base(c, s) && a in Moves(c, s) && i in s.orders
    ensures i in Perform(s, a).orders && s.orders[i].trail <= Perform(s, a).orders[i].trail
  {
    if a.Work? {
      assert JobWf(c, s, a.w, s.jobs[a.w]);
      WorkShape(c, s, a.w, a.e, a.after, a.fault);
    }
  }

  /** Trails are only ever extended, in every run, with or without the lock premise. */
  lemma {:induction false} TrailOnlyGrows(c: Config, states: seq<State>, acts: seq<Action>, m: nat, n: nat, i: Id)
    requires 1 <= c.maxAttempts && IsRun(c, states, acts) && m <= n < |states|
    requires i in states[m].orders
    ensures i in states[n].orders
    ensures states[m].orders[i].trail <= states[n].orders[i].trail
    decreases n
  {
    if m < n {
      assert StepAt(c, states, acts, n - 1);
      TrailOnlyGrows(c, states, acts, m, n - 1, i);
      RunKeepsBase(c, states, acts, n - 1);
      StepExtendsTrail(c, states[n - 1], acts[n - 1], i);
    }
  }

  lemma WorkKeepsFinished(c: Config, s: State, w: Agent, e: Effect, after: Option<Job>, fault: bool, i: Id)
    requires w in s.jobs && JobWf(c, s, w, s.jobs[w]) && Finished(s, i)
    requires JobOf(s.jobs[w], i) ==> JobKnows(s, s.jobs[w])
    requires Work(w, e, after, fault) in Moves(c, s)
    ensures Finished(Apply(s, e), i) && Apply(s, e).orders[i] == s.orders[i]
  {
    WorkShape(c, s, w, e, after, fault);
    WorkKind(c, s, w, e, after, fault);
    EffectKeepsFinished(c, s, s.jobs[w], e, i);
  }

  lemma StepKeepsFinished(c: Config, s: State, a: Action, i: Id)
    requires Base(c, s) && Sound(s, i) && a in Moves(c, s) && Finished(s, i)
    ensures Finished(Perform(s, a), i) && Perform(s, a).orders[i] == s.orders[i]
  {
    if a.Work? {
      assert JobWf(c, s, a.w, s.jobs[a.w]);
      WorkKeepsFinished(c, s, a.w, a.e, a.after, a.fault, i);
      PerformView(s, a.w, a.e, a.after, a.fault);
    }
  }

  lemma RunStepKeepsFinished(c: Config, states: seq<State>, acts: seq<Action>, k: nat, i: Id)
    requires 1 <= c.maxAttempts && IsRun(c, states, acts) && PunctualRun(states, i) && k < |acts|
    requires Finished(states[k], i)
    ensures Finished(states[k + 1], i) && states[k + 1].orders[i] == states[k].orders[i]
  {
    assert StepAt(c, states, acts, k);
    RunKeepsSound(c, states, acts, k, i);
    StepKeepsFinished(c, states[k], acts[k], i);
  }

  /** Effectively-once, first half: over every run of any number of consumers with crashes, failed
      calls, redeliveries and reassigned partitions, a terminal row is never touched again. */
  lemma {:induction false} TerminalAbsorbs(c: Config, states: seq<State>, acts: seq<Action>, m: nat, n: nat, i: Id)
    requires 1 <= c.maxAttempts && IsRun(c, states, acts) && PunctualRun(states, i) && m <= n < |states|
    requires Finished(states[m], i)
    ensures Finished(states[n], i)
    ensures states[n].orders[i] == states[m].orders[i]
    decreases n
  {
    if m < n {
      TerminalAbsorbs(c, states, acts, m, n - 1, i);
      RunStepKeepsFinished(c, states, acts, n - 1, i);
    }
  }

  /** Effectively-once, second half: at most one terminal transition is ever recorded, and one
      exactly when the order is terminal. */
  lemma OneTerminalTransition(c: Config, states: seq<State>, acts: seq<Action>, n: nat, i: Id)
    requires 1 <= c.maxAttempts && IsRun(c, states, acts) && PunctualRun(states, i) && n < |states|
    requires i in states[n].orders
    ensures TerminalHops(states[n].orders[i].trail) == if Finished(states[n], i) then 1 else 0
  {
    RunKeepsSound(c, states, acts, n, i);
    OneTerminalHop(states[n].orders[i]);
  }

  /** No lost order: a published event is finished or still carried by an uncommitted record. */
  lemma NoLostOrder(c: Config, states: seq<State>, acts: seq<Action>, n: nat, i: Id)
    requires 1 <= c.maxAttempts && IsRun(c, states, acts) && PunctualRun(states, i) && n < |states|
    requires i in states[n].published
    ensures || Finished(states[n], i)
            || exists tp, off :: Carries(states[n], i, 0, tp, off)
  {
    RunKeepsSound(c, states, acts, n, i);
  }

  /** The audit trail is a linked path of allowed hops ending in the row's status. */
  lemma AuditTrail(c: Config, states: seq<State>, acts: seq<Action>, n: nat, i: Id)
    requires 1 <= c.maxAttempts && IsRun(c, states, acts) && PunctualRun(states, i) && n < |states|
    requires i in states[n].orders
    ensures RowOk(states[n].orders[i])
  {
    RunKeepsSound(c, states, acts, n, i);
  }

  /** A tombstone is only ever found for an order that is finished or does not exist. */
  lemma TombstoneSound(c: Config, states: seq<State>, acts: seq<Action>, n: nat, i: Id)
    requires 1 <= c.maxAttempts && IsRun(c, states, acts) && PunctualRun(states, i) && n < |states|
    requires i in states[n].guard && states[n].guard[i].Done?
    ensures Finished(states[n], i) || i !in states[n].orders
  {
    RunKeepsSound(c, states, acts, n, i);
  }

  /** So is the ALREADY_DONE verdict: a claim that goes straight to the acknowledgement. */
  lemma AlreadyDoneSound(c: Config, states: seq<State>, acts: seq<Action>, n: nat, w: Agent, e: Effect,
                         after: Option<Job>, i: Id)
    requires 1 <= c.maxAttempts && IsRun(c, states, acts) && PunctualRun(states, i) && n < |states|
    requires Work(w, e, after, false) in Moves(c, states[n]) && JobOf(states[n].jobs[w], i)
    requires states[n].jobs[w].pc == ClaimGet || states[n].jobs[w].pc == ClaimGetAgain
    requires after.Some? && after.value.pc == Ack
    ensures Finished(states[n], i) || i !in states[n].orders
  {
    var t := states[n];
    assert i in t.guard && t.guard[i].Done?;
    TombstoneSound(c, states, acts, n, i);
  }

  // ---------------------------------------------------------------- dead letters

  /** At most one dead letter per order, only for a failed one. */
  lemma AtMostOneLetter(c: Config, states: seq<State>, acts: seq<Action>, n: nat, i: Id, tp: Tp, off: nat, q: Tp,
                        k: nat)
    requires 1 <= c.maxAttempts && IsRun(c, states, acts) && PunctualRun(states, i) && n < |states|
    requires i in states[n].orders && DlqAt(states[n], i, tp, off) && DlqAt(states[n], i, q, k)
    ensures tp == q && off == k && Tells(LogOf(states[n], tp).recs[off], states[n].orders[i])
  {
    RunKeepsSound(c, states, acts, n, i);
  }

  /** Exactly when a failed order has its dead letter: once no consumer is about to publish it, the
      letter is there if and only if no failure fell between the FAILED commit and the publish. */
  lemma LetterUnlessSlipped(c: Config, states: seq<State>, acts: seq<Action>, n: nat, i: Id)
    requires 1 <= c.maxAttempts && IsRun(c, states, acts) && PunctualRun(states, i) && n < |states|
    requires FailedOrder(states[n], i)
    requires forall w :: !AboutToLetter(states[n], i, w)
    ensures Lettered(states[n], i) <==> i !in states[n].slipped
  {
    RunKeepsSound(c, states, acts, n, i);
  }

  /** Every committed dead-letter offset has its archived row, in every run. */
  lemma CommittedLettersArchived(c: Config, states: seq<State>, acts: seq<Action>, n: nat, part: nat, off: nat)
    requires 1 <= c.maxAttempts && IsRun(c, states, acts) && n < |states|
    requires off < LogOf(states[n], Tp(Dlq, part)).done
    ensures off < |LogOf(states[n], Tp(Dlq, part)).recs|
    ensures exists entry :: entry in states[n].archive
                            && Archives(entry, Tp(Dlq, part), off, LogOf(states[n], Tp(Dlq, part)).recs[off])
  {
    var s, tp := states[n], Tp(Dlq, part);
    RunKeepsBase(c, states, acts, n);
    assert LogOk(s, tp) && Archived(s, tp, off);
    var rec := LogOf(s, tp).recs[off];
    assert Archives(ArchiveEntry(tp, off, rec), tp, off, rec);
  }

  /** The archived letter of a failed order tells of its row: the attempts made, the reason of the failure,
      the main topic as its source, and the payload as it was first published. */
  lemma ArchivedFailureTells(c: Config, states: seq<State>, acts: seq<Action>, n: nat, i: Id, part: nat, off: nat)
    requires 1 <= c.maxAttempts && IsRun(c, states, acts) && PunctualRun(states, i) && n < |states|
    requires i in states[n].orders && DlqAt(states[n], i, Tp(Dlq, part), off)
    requires off < LogOf(states[n], Tp(Dlq, part)).done
    ensures FailedOrder(states[n], i) && states[n].orders[i].reason.Some? && i in states[n].content
    ensures exists entry :: entry in states[n].archive && TellsOf(states[n], i, part, off, entry)
  {
    RunKeepsSound(c, states, acts, n, i);
    RecordsKeepPayload(c, states, acts, n, Tp(Dlq, part), off);
    CommittedLettersArchived(c, states, acts, n, part, off);
    var s := states[n];
    assert Tells(LogOf(s, Tp(Dlq, part)).recs[off], s.orders[i]);
    var entry :| entry in s.archive && Archives(entry, Tp(Dlq, part), off, LogOf(s, Tp(Dlq, part)).recs[off]);
    assert TellsOf(s, i, part, off, entry);
  }

  predicate TellsOf(s: State, i: Id, part: nat, off: nat, entry: DeadLetter) {
    && i in s.orders && i in s.content && s.orders[i].reason.Some?
    && entry.orderId == Some(i) && entry.part == part && entry.offset == off
    && entry.attempts == s.orders[i].attempts && entry.source == Created && entry.payload == s.content[i]
    && entry.error.Some? && Explains(entry.error.value, s.orders[i].reason.value)
  }

  predicate ArchivedFrom(s: State, tp: Tp, off: nat, entry: DeadLetter) {
    tp.topic == Dlq && off < |LogOf(s, tp).recs| && Archives(entry, tp, off, LogOf(s, tp).recs[off])
  }

  lemma StepArchives(c: Config, s: State, a: Action, entry: DeadLetter) returns (tp: Tp, off: nat)
    requires Base(c, s) && a in Moves(c, s) && entry in Perform(s, a).archive && entry !in s.archive
    ensures ArchivedFrom(s, tp, off, entry)
  {
    OthersArchiveNothing(s, a);
    var j := s.jobs[a.w];
    assert JobWf(c, s, a.w, j);
    WorkShape(c, s, a.w, a.e, a.after, a.fault);
    PerformView(s, a.w, a.e, a.after, a.fault);
    tp, off := j.tp, j.off;
  }

  lemma OthersArchiveNothing(s: State, a: Action)
    ensures !a.Work? ==> Perform(s, a).archive == s.archive
  {
  }

  lemma LettersStay(s: State, a: Action, tp: Tp, off: nat, entry: DeadLetter)
    requires ArchivedFrom(s, tp, off, entry)
    ensures ArchivedFrom(Perform(s, a), tp, off, entry)
  {
    if a.Work? && a.w in s.jobs {
      PerformView(s, a.w, a.e, a.after, a.fault);
      ApplyKeepsLog(s, a.e, tp);
    }
  }

  /** Every archive row goes back to a dead-letter record. */
  ghost predicate ArchiveSound(s: State) {
    forall entry :: entry in s.archive ==> exists tp, off :: ArchivedFrom(s, tp, off, entry)
  }

  lemma StepKeepsArchive(c: Config, s: State, a: Action)
    requires Base(c, s) && ArchiveSound(s) && a in Moves(c, s)
    ensures ArchiveSound(Perform(s, a))
  {
    forall entry | entry in Perform(s, a).archive
      ensures exists tp, off :: ArchivedFrom(Perform(s, a), tp, off, entry)
    {
      var tp, off;
      if entry in s.archive {
        tp, off :| ArchivedFrom(s, tp, off, entry);
      } else {
        tp, off := StepArchives(c, s, a, entry);
      }
      LettersStay(s, a, tp, off, entry);
    }
  }

  /** And the archive holds nothing else, in every run. */
  lemma {:induction false} ArchiveHoldsLetters(c: Config, states: seq<State>, acts: seq<Action>, n: nat)
    requires 1 <= c.maxAttempts && IsRun(c, states, acts) && n < |states|
    ensures ArchiveSound(states[n])
  {
    if 0 < n {
      assert StepAt(c, states, acts, n - 1);
      ArchiveHoldsLetters(c, states, acts, n - 1);
      RunKeepsBase(c, states, acts, n - 1);
      StepKeepsArchive(c, states[n - 1], acts[n - 1]);
    }
  }

  // ---------------------------------------------------------------- records, attempts, offsets

  /** Over any number of retry hops a record of an order keeps its first-published value and key,
      and its attempt stays within the ladder. */
  lemma RecordsKeepPayload(c: Config, states: seq<State>, acts: seq<Action>, n: nat, tp: Tp, off: nat)
    requires 1 <= c.maxAttempts && IsRun(c, states, acts) && n < |states|
    requires off < |LogOf(states[n], tp).recs|
    requires var rec := LogOf(states[n], tp).recs[off]; rec.value.Event? && rec.value.id in states[n].orders
    ensures var t := states[n]; var rec := LogOf(t, tp).recs[off]; var i := rec.value.id;
            && i in t.content && rec.value == t.content[i] && rec.key == Some(i)
            && 1 <= rec.meta.attempt <= c.maxAttempts
  {
    RunKeepsBase(c, states, acts, n);
    assert RecordOk(c, states[n], tp.topic, LogOf(states[n], tp).recs[off]);
  }

  /** Every hop climbs the ladder by exactly one rung: the measure that bounds the number of hops. */
  lemma HopClimbs(c: Config, states: seq<State>, acts: seq<Action>, n: nat)
    requires 1 <= c.maxAttempts && IsRun(c, states, acts) && n < |acts|
    requires acts[n].Work? && acts[n].e.Publish? && acts[n].e.tp.topic != Dlq
    ensures acts[n].w in states[n].jobs
    ensures var s := states[n]; var e := acts[n].e; var j := s.jobs[acts[n].w];
            && Rank(e.tp.topic, e.rec.meta.attempt) == Rank(j.tp.topic, j.rec.meta.attempt) + 1
            && (j.rec.value.Event? && j.rec.value.id in s.orders ==>
                 Rank(e.tp.topic, e.rec.meta.attempt) <= 2 * c.maxAttempts)
  {
    assert StepAt(c, states, acts, n);
    RunKeepsBase(c, states, acts, n);
    assert acts[n] in Moves(c, states[n]);
    PublishClimbs(c, states[n], acts[n].w, acts[n].e, acts[n].after, acts[n].fault);
  }

  lemma PublishClimbs(c: Config, s: State, w: Agent, e: Effect, after: Option<Job>, fault: bool)
    requires Base(c, s) && w in s.jobs
    requires Work(w, e, after, fault) in Moves(c, s)
    requires e.Publish? && e.tp.topic != Dlq
    ensures var j := s.jobs[w];
            && Rank(e.tp.topic, e.rec.meta.attempt) == Rank(j.tp.topic, j.rec.meta.attempt) + 1
            && (j.rec.value.Event? && j.rec.value.id in s.orders ==>
                 Rank(e.tp.topic, e.rec.meta.attempt) <= 2 * c.maxAttempts)
  {
    var j := s.jobs[w];
    assert JobWf(c, s, w, j);
    assert RecordOk(c, s, j.tp.topic, LogOf(s, j.tp).recs[j.off]);
    WorkShape(c, s, w, e, after, fault);
    WorkKind(c, s, w, e, after, fault);
  }

  /** In every run a committed offset moves only by a live job acknowledging the record at it, by one. */
  lemma CommitsByOne(c: Config, states: seq<State>, acts: seq<Action>, n: nat, tp: Tp)
    requires 1 <= c.maxAttempts && IsRun(c, states, acts) && n < |acts|
    requires LogOf(states[n + 1], tp).done != LogOf(states[n], tp).done
    ensures LogOf(states[n + 1], tp).done == LogOf(states[n], tp).done + 1
    ensures && acts[n].Work? && acts[n].w in states[n].jobs
            && var j := states[n].jobs[acts[n].w]; j.pc == Ack && j.tp == tp && j.off == LogOf(states[n], tp).done
  {
    assert StepAt(c, states, acts, n);
    RunKeepsBase(c, states, acts, n);
    StepCommitsByOne(c, states[n], acts[n], tp);
  }

  lemma StepCommitsByOne(c: Config, s: State, a: Action, tp: Tp)
    requires Base(c, s) && a in Moves(c, s)
    ensures LogOf(Perform(s, a), tp).done == LogOf(s, tp).done
            || (&& a.Work? && a.w in s.jobs && s.jobs[a.w].pc == Ack && s.jobs[a.w].tp == tp
                && s.jobs[a.w].off == LogOf(s, tp).done
                && LogOf(Perform(s, a), tp).done == LogOf(s, tp).done + 1)
  {
    if a.Work? {
      assert JobWf(c, s, a.w, s.jobs[a.w]);
      WorkShape(c, s, a.w, a.e, a.after, a.fault);
      ApplyKeepsLog(s, a.e, tp);
    }
  }

  // ---------------------------------------------------------------- acknowledging, and overwriting

  /** Acknowledging is safe: a consumer about to commit its record leaves behind an order that does
      not exist, is finished, or is carried further up the ladder by an uncommitted record. */
  lemma AckIsSafe(c: Config, states: seq<State>, acts: seq<Action>, n: nat, w: Agent, i: Id)
    requires 1 <= c.maxAttempts && IsRun(c, states, acts) && PunctualRun(states, i) && n < |states|
    requires w in states[n].jobs && states[n].jobs[w].pc == Ack && states[n].jobs[w].tp.topic != Dlq
    requires JobOf(states[n].jobs[w], i)
    ensures var s := states[n]; var j := s.jobs[w];
            i !in s.orders || Finished(s, i) || Carried(s, i, Rank(j.tp.topic, j.rec.meta.attempt))
  {
    RunKeepsSound(c, states, acts, n, i);
    assert JobKnows(states[n], states[n].jobs[w]);
  }

  /** The transactions that do not look at the status again. */
  predicate Unguarded(pc: Pc) {
    pc == CompleteTx || pc.RetryTx? || pc.FailTx?
  }

  predicate OverwriterOf(s: State, i: Id, w: Agent) {
    w in s.jobs && Unguarded(s.jobs[w].pc) && JobOf(s.jobs[w], i)
  }

  predicate Overwrites(s: State, a: Action, i: Id) {
    i in s.orders && i in Perform(s, a).orders && Perform(s, a).orders[i] != s.orders[i]
  }

  /** Without the lock premise, in every reachable state, exactly when a finished order can be
      overwritten next: if and only if some consumer of its event stands before one of the transactions
      that do not re-check. */
  lemma FinishedOverwrittenIff(c: Config, states: seq<State>, acts: seq<Action>, n: nat, i: Id)
    requires 1 <= c.maxAttempts && IsRun(c, states, acts) && n < |states| && Finished(states[n], i)
    ensures (exists a :: a in Moves(c, states[n]) && Overwrites(states[n], a, i))
            <==> (exists w :: OverwriterOf(states[n], i, w))
  {
    var s := states[n];
    RunKeepsBase(c, states, acts, n);
    if a :| a in Moves(c, s) && Overwrites(s, a, i) {
      OverwriteIsUnguarded(c, s, a, i);
      assert OverwriterOf(s, i, a.w);
    }
    if w :| OverwriterOf(s, i, w) {
      var a := UnguardedOverwrites(c, s, i, w);
      assert a in Moves(c, s) && Overwrites(s, a, i);
    }
  }

  lemma OverwriteIsUnguarded(c: Config, s: State, a: Action, i: Id)
    requires Base(c, s) && Finished(s, i) && a in Moves(c, s) && Overwrites(s, a, i)
    ensures a.Work? && OverwriterOf(s, i, a.w)
  {
    if a.Work? {
      assert JobWf(c, s, a.w, s.jobs[a.w]);
      WorkShape(c, s, a.w, a.e, a.after, a.fault);
      WorkKind(c, s, a.w, a.e, a.after, a.fault);
    }
  }

  lemma UnguardedOverwrites(c: Config, s: State, i: Id, w: Agent) returns (a: Action)
    requires Base(c, s) && i in s.orders && OverwriterOf(s, i, w)
    ensures a in Moves(c, s) && Overwrites(s, a, i)
  {
    var j := s.jobs[w];
    assert JobWf(c, s, w, j);
    var reason := if j.pc == CompleteTx then None else Some(j.pc.error);
    var next := match j.pc
                case CompleteTx => CompleteMark
                case RetryTx(delay, error) => RetryStamp(delay, error)
                case FailTx(retryable, error) => FailDlq(retryable, error)
                case _ => Ack;
    var row := Moved(s.orders[i], Verdict(j.pc), Some(j.rec.meta.attempt), reason);
    assert |row.trail| != |s.orders[i].trail|;
    a := Work(w, PutRow(i, row), Some(j.(pc := next)), false);
  }
}
