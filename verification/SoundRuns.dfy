/** `Sound` holds in every reachable state of every run whose writers stay inside their locks. */
module SoundRuns {
  import opened Wrappers
  import opened Orders
  import opened Pipeline
  import opened Invariant
  import opened BaseProof
  import opened BaseRuns
  import opened SoundProof
  import opened LetterProof
  import opened Frames

  lemma HistoryKeepsKnowledge(s: State, slipped: set<Id>, i: Id)
    requires JobsKnow(s, i) && TrailsOk(s, i) && TombstoneOk(s, i) && NoLoss(s, i)
    ensures var t := s.(slipped := slipped); JobsKnow(t, i) && TrailsOk(t, i) && TombstoneOk(t, i) && NoLoss(t, i)
  {
    var t := s.(slipped := slipped);
    forall v | v in t.jobs && JobOf(t.jobs[v], i)
      ensures JobKnows(t, t.jobs[v])
    {
      SameViewKnows(s, t, s.jobs[v]);
    }
    if i in t.published && !Finished(s, i) {
      SameViewCarried(s, t, i, 0);
    }
  }

  lemma WorkKeepsFacts(c: Config, s: State, w: Agent, e: Effect, after: Option<Job>, fault: bool, i: Id)
    requires Base(c, s) && Sound(s, i) && Punctual(s, i) && w in s.jobs
    requires Work(w, e, after, fault) in Moves(c, s)
    ensures var t := Mid(s, w, e, after); JobsKnow(t, i) && TrailsOk(t, i) && TombstoneOk(t, i) && NoLoss(t, i)
  {
    assert JobWf(c, s, w, s.jobs[w]);
    WorkShape(c, s, w, e, after, fault);
    WorkKind(c, s, w, e, after, fault);
    WorkKeepsKnowledge(c, s, w, e, after, fault, i);
    WorkKeepsTrails(c, s, w, e, after, i);
    WorkKeepsTombstone(c, s, w, e, after, i);
    WorkKeepsNoLoss(c, s, w, e, after, i);
  }

  lemma WorkKeepsLetters(c: Config, s: State, w: Agent, e: Effect, after: Option<Job>, fault: bool, i: Id)
    requires Base(c, s) && Sound(s, i) && w in s.jobs
    requires Work(w, e, after, fault) in Moves(c, s)
    ensures var t := AfterWork(s, w, s.jobs[w], e, after); OneLetter(t, i) && OneAuthor(t, i) && LetterOrSlip(t, i)
  {
    var t := AfterWork(s, w, s.jobs[w], e, after);
    assert JobWf(c, s, w, s.jobs[w]);
    WorkShape(c, s, w, e, after, fault);
    assert RecordOk(c, s, s.jobs[w].tp.topic, LogOf(s, s.jobs[w].tp).recs[s.jobs[w].off]);
    WorkLetter(c, s, w, e, after, fault, i);
    AfterWorkView(s, w, s.jobs[w], e, after);
    ApplyView(s, e);
    WorkKeepsOneLetter(s, t, w, e, after, i);
    WorkKeepsOneAuthor(s, t, w, e, after, i);
    WorkKeepsLetterOrSlip(s, t, w, e, after, i);
  }

  lemma WorkKeepsSound(c: Config, s: State, w: Agent, e: Effect, after: Option<Job>, fault: bool, i: Id)
    requires Base(c, s) && Sound(s, i) && Punctual(s, i) && w in s.jobs
    requires Work(w, e, after, fault) in Moves(c, s)
    ensures Sound(AfterWork(s, w, s.jobs[w], e, after), i)
  {
    WorkKeepsFacts(c, s, w, e, after, fault, i);
    HistoryKeepsKnowledge(Mid(s, w, e, after), AfterWork(s, w, s.jobs[w], e, after).slipped, i);
    WorkKeepsLetters(c, s, w, e, after, fault, i);
  }

  // ---------------------------------------------------------------- the environment

  /** A log change that keeps every uncommitted carrier and every dead letter where it was. */
  ghost predicate LogsExtend(s: State, t: State) {
    forall tp ::
      && LogOf(s, tp).recs <= LogOf(t, tp).recs
      && LogOf(s, tp).done == LogOf(t, tp).done
      && (tp.topic == Dlq ==> LogOf(s, tp).recs == LogOf(t, tp).recs)
  }

  lemma ExtendKeepsCarried(s: State, t: State, i: Id, floor: int)
    requires LogsExtend(s, t) && Carried(s, i, floor)
    ensures Carried(t, i, floor)
  {
    var tp, off :| Carries(s, i, floor, tp, off);
    assert LogOf(s, tp).recs <= LogOf(t, tp).recs;
    assert Carries(t, i, floor, tp, off);
  }

  lemma ExtendKeepsLetter(s: State, t: State, i: Id, tp: Tp, off: nat)
    requires LogsExtend(s, t)
    ensures DlqAt(s, i, tp, off) <==> DlqAt(t, i, tp, off)
  {
    assert tp.topic == Dlq ==> LogOf(s, tp).recs == LogOf(t, tp).recs;
  }

  lemma ExtendKeepsLettered(s: State, t: State, i: Id)
    requires LogsExtend(s, t)
    ensures Lettered(s, i) <==> Lettered(t, i)
  {
    if Lettered(s, i) {
      var tp, off :| DlqAt(s, i, tp, off);
      ExtendKeepsLetter(s, t, i, tp, off);
    }
    if Lettered(t, i) {
      var tp, off :| DlqAt(t, i, tp, off);
      ExtendKeepsLetter(s, t, i, tp, off);
    }
  }

  /** An environment step: rows only appear (new, for ids nobody has seen), logs only grow. */
  ghost predicate EnvExtends(s: State, t: State) {
    && LogsExtend(s, t)
    && t.guard == s.guard && t.slipped == s.slipped && s.foreign <= t.foreign
    && (forall i :: i in s.orders ==> i in t.orders && t.orders[i] == s.orders[i])
    && (forall i :: i in t.orders && i !in s.orders ==> i !in s.foreign && t.orders[i] == NewRow)
    && (forall i :: i in t.foreign ==> i !in t.orders || i in s.foreign)
  }

  predicate Fresh(j: Job) {
    j.pc == PoisonDlq || j.pc == ClaimSet || j.pc == Hold || j.pc == Archive
  }

  /** Busy consumers are untouched; one may have taken a record. */
  ghost predicate JobsExtend(s: State, t: State) {
    && (forall w :: w in t.jobs ==> (w in s.jobs && t.jobs[w] == s.jobs[w]) || Fresh(t.jobs[w]))
    && (forall w :: w in s.jobs ==> w in t.jobs && t.jobs[w] == s.jobs[w])
  }

  lemma EnvKeepsJob(c: Config, s: State, t: State, w: Agent, j: Job)
    requires EnvExtends(s, t) && JobWf(c, s, w, j) && RecordOk(c, s, j.tp.topic, j.rec) && JobKnows(s, j)
    ensures JobKnows(t, j)
  {
    if j.rec.value.Event? && Carried(s, j.rec.value.id, Rank(j.tp.topic, j.rec.meta.attempt)) {
      ExtendKeepsCarried(s, t, j.rec.value.id, Rank(j.tp.topic, j.rec.meta.attempt));
    }
  }

  lemma EnvKeepsJobs(c: Config, s: State, t: State, i: Id)
    requires Base(c, s) && JobsKnow(s, i) && EnvExtends(s, t)
    requires JobsExtend(s, t)
    ensures JobsKnow(t, i)
  {
    forall w | w in t.jobs && JobOf(t.jobs[w], i)
      ensures JobKnows(t, t.jobs[w])
    {
      if !Fresh(t.jobs[w]) {
        var j := s.jobs[w];
        assert JobWf(c, s, w, j) && JobKnows(s, j);
        assert RecordOk(c, s, j.tp.topic, LogOf(s, j.tp).recs[j.off]);
        EnvKeepsJob(c, s, t, w, j);
      }
    }
  }

  lemma EnvKeepsRow(c: Config, s: State, t: State, i: Id)
    requires Ids(s) && TrailsOk(s, i) && TombstoneOk(s, i) && EnvExtends(s, t)
    ensures TrailsOk(t, i) && TombstoneOk(t, i)
  {
  }

  lemma EnvKeepsNoLoss(s: State, t: State, i: Id)
    requires NoLoss(s, i) && EnvExtends(s, t) && s.published <= s.orders.Keys
    requires i in t.published && i !in s.published ==> Carried(t, i, 0)
    ensures NoLoss(t, i)
  {
    if i in s.published && !Finished(s, i) {
      ExtendKeepsCarried(s, t, i, 0);
    }
  }

  lemma EnvKeepsOneLetter(c: Config, s: State, t: State, i: Id)
    requires RecordsOk(c, s) && OneLetter(s, i) && EnvExtends(s, t)
    ensures OneLetter(t, i)
  {
    forall tp, off: nat | i in t.orders && DlqAt(t, i, tp, off)
      ensures i in s.orders && DlqAt(s, i, tp, off) && Tells(LogOf(t, tp).recs[off], t.orders[i])
    {
      ExtendKeepsLetter(s, t, i, tp, off);
      assert RecordOk(c, s, tp.topic, LogOf(s, tp).recs[off]);
    }
  }

  lemma EnvKeepsAuthors(c: Config, s: State, t: State, i: Id)
    requires OneAuthor(s, i) && LetterOrSlip(s, i) && EnvExtends(s, t)
    requires JobsExtend(s, t)
    ensures OneAuthor(t, i) && LetterOrSlip(t, i)
  {
    forall w
      ensures AboutToLetter(s, i, w) <==> AboutToLetter(t, i, w)
    {
    }
    ExtendKeepsLettered(s, t, i);
    assert FailedOrder(s, i) <==> FailedOrder(t, i);
  }

  lemma EnvKeepsSound(c: Config, s: State, t: State, i: Id)
    requires Base(c, s) && Sound(s, i) && EnvExtends(s, t)
    requires JobsExtend(s, t)
    requires i in t.published && i !in s.published ==> Carried(t, i, 0)
    ensures Sound(t, i)
  {
    EnvKeepsJobs(c, s, t, i);
    EnvKeepsRow(c, s, t, i);
    EnvKeepsNoLoss(s, t, i);
    EnvKeepsOneLetter(c, s, t, i);
    EnvKeepsAuthors(c, s, t, i);
  }

  lemma PublishKeepsSound(c: Config, s: State, a: Action, i: Id)
    requires Base(c, s) && Sound(s, i)
    requires a.PublishEvent? && a in Moves(c, s)
    ensures Sound(Perform(s, a), i)
  {
    var t := Perform(s, a);
    EnvStepExtends(c, s, a);
    var tp, rec := Tp(Created, a.part), EventRecord(a.i, s.content[a.i]);
    assert LogOk(s, tp);
    PublishCarries(s, tp, rec, a.i, 0);
    SameViewCarried(Apply(s, Publish(tp, rec)), t, a.i, 0);
    EnvKeepsSound(c, s, t, i);
  }

  lemma EnvStepExtends(c: Config, s: State, a: Action)
    requires a in Moves(c, s) && !a.Work?
    ensures EnvExtends(s, Perform(s, a)) && JobsExtend(s, Perform(s, a))
    ensures !a.PublishEvent? ==> Perform(s, a).published == s.published
  {
    if a.PublishEvent? || a.Foreign? {
      AppendExtends(c, s, a);
    }
  }

  lemma AppendExtends(c: Config, s: State, a: Action)
    requires a in Moves(c, s) && (a.PublishEvent? || a.Foreign?)
    ensures EnvExtends(s, Perform(s, a)) && JobsExtend(s, Perform(s, a))
    ensures !a.PublishEvent? ==> Perform(s, a).published == s.published
  {
    if a.PublishEvent? {
      LogAppended(s, Perform(s, a), Tp(Created, a.part), EventRecord(a.i, s.content[a.i]));
    } else {
      LogAppended(s, Perform(s, a), Tp(Created, a.part), a.rec);
    }
  }

  lemma LogAppended(s: State, t: State, tp: Tp, rec: Record)
    requires tp.topic != Dlq && t.topics == Apply(s, Publish(tp, rec)).topics
    ensures LogsExtend(s, t)
  {
  }

  lemma StepKeepsSound(c: Config, s: State, a: Action, i: Id)
    requires Base(c, s) && Sound(s, i) && Punctual(s, i)
    requires a in Moves(c, s)
    ensures Sound(Perform(s, a), i)
  {
    if a.Work? {
      assert a.w in s.jobs;
      WorkKeepsSound(c, s, a.w, a.e, a.after, a.fault, i);
    } else if a.PublishEvent? {
      PublishKeepsSound(c, s, a, i);
    } else {
      EnvStepExtends(c, s, a);
      EnvKeepsSound(c, s, Perform(s, a), i);
    }
  }

  /** The states in which the invariant of event `i` holds. */
  ghost function SoundStates(i: Id): iset<State> {
    iset s | Sound(s, i)
  }

  lemma RunStepKeepsSound(c: Config, states: seq<State>, acts: seq<Action>, k: nat, i: Id)
    requires 1 <= c.maxAttempts && IsRun(c, states, acts) && PunctualRun(states, i) && k < |acts|
    requires states[k] in SoundStates(i)
    ensures states[k + 1] in SoundStates(i)
  {
    RunKeepsBase(c, states, acts, k);
    assert StepAt(c, states, acts, k);
    StepKeepsSound(c, states[k], acts[k], i);
  }

  lemma StartsSound(c: Config, states: seq<State>, acts: seq<Action>, i: Id)
    requires IsRun(c, states, acts)
    ensures states[0] in SoundStates(i)
  {
  }

  lemma {:induction false} SoundAlong(c: Config, states: seq<State>, acts: seq<Action>, n: nat, i: Id)
    requires 1 <= c.maxAttempts
    requires IsRun(c, states, acts) && PunctualRun(states, i) && n < |states|
    ensures states[n] in SoundStates(i)
  {
    if n == 0 {
      StartsSound(c, states, acts, i);
    } else {
      SoundAlong(c, states, acts, n - 1, i);
      RunStepKeepsSound(c, states, acts, n - 1, i);
    }
  }

  /** The whole invariant of an event holds in every state of every run that keeps its lock premise. */
  lemma RunKeepsSound(c: Config, states: seq<State>, acts: seq<Action>, n: nat, i: Id)
    requires 1 <= c.maxAttempts
    requires IsRun(c, states, acts) && PunctualRun(states, i) && n < |states|
    ensures Base(c, states[n]) && Sound(states[n], i)
  {
    RunKeepsBase(c, states, acts, n);
    SoundAlong(c, states, acts, n, i);
  }
}
