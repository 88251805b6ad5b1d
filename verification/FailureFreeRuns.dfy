/** Clean runs, and what they say about every order. */
module FailureFreeRuns {
  import opened Wrappers
  import opened Pipeline
  import opened Invariant
  import opened BaseProof
  import opened BaseRuns
  import opened SoundProof
  import opened SoundRuns
  import opened Frames
  import opened FailureFree
  import opened FailureFreeProof
  import opened FailureFreeSteps

  // ---------------------------------------------------------------- consumer calls

  /** The event of the job that makes the call. */
  lemma OwnEventKept(c: Config, o: Oracle, s: State, t: State, w: Agent, e: Effect, after: Option<Job>, i: Id,
                     front: Pos)
    returns (next: Pos)
    requires Base(c, s) && Tombstones(s) && LeasesLive(s) && w in s.jobs
    requires EffectOk(c, s, s.jobs[w], e) && (e, after) in Calls(c, o, s, s.jobs[w])
    requires Traced(c, o, s, i, front) && CallView(s, t, w, e, after)
    requires IdAt(s, i, s.jobs[w].tp, s.jobs[w].off)
    ensures Traced(c, o, t, i, next)
  {
    assert JobWf(c, s, w, s.jobs[w]);
    if Holds(s, w, front.tp, front.off) {
      CallAtFront(c, o, s, w, e, after, i, front);
      assert LogOk(s, front.tp) && (e.Publish? ==> LogOk(s, e.tp));
      next := FrontEventKept(c, o, s, t, w, e, after, i, front);
    } else {
      SpentEventKept(c, o, s, t, w, e, after, i, front);
      next := front;
    }
  }

  lemma CallAtFront(c: Config, o: Oracle, s: State, w: Agent, e: Effect, after: Option<Job>, i: Id, front: Pos)
    requires Base(c, s) && Tombstones(s) && LeasesLive(s) && w in s.jobs
    requires (e, after) in Calls(c, o, s, s.jobs[w])
    requires Traced(c, o, s, i, front) && Holds(s, w, front.tp, front.off)
    ensures FrontCall(c, o, s.jobs[w], e, after, i, s.orders[i])
  {
    var j := s.jobs[w];
    assert JobWf(c, s, w, j);
    assert RecordOk(c, s, j.tp.topic, LogOf(s, j.tp).recs[j.off]);
    assert TombstoneOk(s, i);
    assert FrontPre(c, o, s, j, i);
    AnyFrontCall(c, o, s, j, e, after, i);
  }

  /** A call writes rows and ladder records of its own event only. */
  lemma CallIsLocal(c: Config, s: State, w: Agent, j: Job, e: Effect, i: Id)
    requires JobWf(c, s, w, j) && EffectOk(c, s, j, e) && EffectKind(s, j, e)
    requires !IdAt(s, i, j.tp, j.off)
    ensures !AddsRecord(e, i) && (e.PutRow? ==> e.i != i)
  {
  }

  lemma CallKeepsLeases(c: Config, s: State, t: State, w: Agent, e: Effect, after: Option<Job>)
    requires LeasesLive(s) && w in s.jobs && CallView(s, t, w, e, after) && AfterOk(c, s, s.jobs[w], e, after)
    ensures LeasesLive(t)
  {
    forall v | v in t.jobs
      ensures t.jobs[v].lease == LogOf(t, t.jobs[v].tp).epoch
    {
      CallLog(s, t, w, e, after, t.jobs[v].tp);
    }
  }

  lemma UntouchedKept(c: Config, s: State, t: State, w: Agent, e: Effect, after: Option<Job>, i: Id)
    requires w in s.jobs && JobWf(c, s, w, s.jobs[w]) && EffectOk(c, s, s.jobs[w], e) && EffectKind(s, s.jobs[w], e)
    requires CallView(s, t, w, e, after) && Untouched(s, i)
    ensures Untouched(t, i)
  {
    CallIsLocal(c, s, w, s.jobs[w], e, i);
    CallSameRecs(s, t, w, e, after, i);
  }

  lemma StrangersKept(c: Config, o: Oracle, s: State, t: State, w: Agent, e: Effect, after: Option<Job>,
                      fronts: map<Id, Pos>)
    requires w in s.jobs && JobWf(c, s, w, s.jobs[w])
    requires EffectOk(c, s, s.jobs[w], e) && AfterOk(c, s, s.jobs[w], e, after) && EffectKind(s, s.jobs[w], e)
    requires CallView(s, t, w, e, after)
    requires AllTraced(c, o, s, fronts)
    requires forall i :: i in fronts ==> !IdAt(s, i, s.jobs[w].tp, s.jobs[w].off)
    ensures AllTraced(c, o, t, fronts)
  {
    forall i | i in fronts
      ensures Traced(c, o, t, i, fronts[i])
    {
      CallIsLocal(c, s, w, s.jobs[w], e, i);
      OtherEventKept(c, o, s, t, w, e, after, i, fronts[i]);
    }
  }

  lemma ConsTraced(c: Config, o: Oracle, s: State, fronts: map<Id, Pos>, i: Id, front: Pos)
    requires AllTraced(c, o, s, fronts - {i}) && Traced(c, o, s, i, front)
    ensures AllTraced(c, o, s, fronts[i := front])
  {
    var next := fronts[i := front];
    forall k | k in next
      ensures Traced(c, o, s, k, next[k])
    {
      assert k != i ==> k in fronts - {i};
    }
  }

  lemma OwnFront(c: Config, o: Oracle, s: State, t: State, w: Agent, e: Effect, after: Option<Job>,
                 fronts: map<Id, Pos>, i: Id)
    returns (front: Pos)
    requires Base(c, s) && Tombstones(s) && LeasesLive(s) && w in s.jobs
    requires i in fronts && Traced(c, o, s, i, fronts[i])
    requires EffectOk(c, s, s.jobs[w], e) && (e, after) in Calls(c, o, s, s.jobs[w])
    requires CallView(s, t, w, e, after)
    ensures IdAt(s, i, s.jobs[w].tp, s.jobs[w].off) ==> Traced(c, o, t, i, front)
  {
    front := fronts[i];
    if IdAt(s, i, s.jobs[w].tp, s.jobs[w].off) {
      front := OwnEventKept(c, o, s, t, w, e, after, i, fronts[i]);
    }
  }

  lemma OwnTrace(c: Config, o: Oracle, s: State, t: State, w: Agent, e: Effect, after: Option<Job>,
                 fronts: map<Id, Pos>, i: Id, front: Pos)
    returns (next: map<Id, Pos>)
    requires w in s.jobs && JobWf(c, s, w, s.jobs[w])
    requires EffectOk(c, s, s.jobs[w], e) && AfterOk(c, s, s.jobs[w], e, after) && EffectKind(s, s.jobs[w], e)
    requires CallView(s, t, w, e, after)
    requires i in fronts && IdAt(s, i, s.jobs[w].tp, s.jobs[w].off)
    requires AllTraced(c, o, s, fronts) && Traced(c, o, t, i, front)
    ensures next.Keys == fronts.Keys && AllTraced(c, o, t, next)
  {
    StrangersKept(c, o, s, t, w, e, after, fronts - {i});
    ConsTraced(c, o, t, fronts, i, front);
    next := fronts[i := front];
  }

  lemma CallKeepsTraces(c: Config, o: Oracle, s: State, t: State, w: Agent, e: Effect, after: Option<Job>,
                        fronts: map<Id, Pos>)
    returns (next: map<Id, Pos>)
    requires Base(c, s) && Tombstones(s) && LeasesLive(s) && w in s.jobs && JobWf(c, s, w, s.jobs[w])
    requires AllTraced(c, o, s, fronts)
    requires EffectOk(c, s, s.jobs[w], e) && AfterOk(c, s, s.jobs[w], e, after) && EffectKind(s, s.jobs[w], e)
    requires (e, after) in Calls(c, o, s, s.jobs[w])
    requires CallView(s, t, w, e, after)
    ensures next.Keys == fronts.Keys && AllTraced(c, o, t, next)
  {
    if i :| i in fronts && IdAt(s, i, s.jobs[w].tp, s.jobs[w].off) {
      var front := OwnFront(c, o, s, t, w, e, after, fronts, i);
      next := OwnTrace(c, o, s, t, w, e, after, fronts, i, front);
    } else {
      StrangersKept(c, o, s, t, w, e, after, fronts);
      next := fronts;
    }
  }

  lemma CallKeepsOrdered(c: Config, o: Oracle, s: State, t: State, w: Agent, e: Effect, after: Option<Job>,
                         fronts: map<Id, Pos>)
    returns (next: map<Id, Pos>)
    requires Base(c, s) && Tombstones(s) && Ordered(c, o, s, fronts) && w in s.jobs
    requires EffectOk(c, s, s.jobs[w], e) && AfterOk(c, s, s.jobs[w], e, after) && EffectKind(s, s.jobs[w], e)
    requires (e, after) in Calls(c, o, s, s.jobs[w])
    requires CallView(s, t, w, e, after) && t.slipped == {}
    ensures Ordered(c, o, t, next)
  {
    assert JobWf(c, s, w, s.jobs[w]);
    next := CallKeepsTraces(c, o, s, t, w, e, after, fronts);
    CallKeepsLeases(c, s, t, w, e, after);
    forall i | i in t.orders && i !in t.published
      ensures Untouched(t, i)
    {
      assert Untouched(s, i);
      UntouchedKept(c, s, t, w, e, after, i);
    }
  }

  lemma CleanNeverSlips(c: Config, s: State, j: Job, e: Effect, after: Option<Job>)
    requires OkStep(c, s, j, e, after)
    ensures !Slips(j, e, after)
  {
  }

  lemma WorkKeepsOrdered(c: Config, o: Oracle, s: State, a: Action, fronts: map<Id, Pos>) returns (next: map<Id, Pos>)
    requires Base(c, s) && Tombstones(s) && Ordered(c, o, s, fronts)
    requires a.Work? && a in Moves(c, s) && Clean(c, o, s, a)
    ensures Ordered(c, o, Perform(s, a), next)
  {
    var j := s.jobs[a.w];
    assert JobWf(c, s, a.w, j);
    WorkShape(c, s, a.w, a.e, a.after, a.fault);
    WorkKind(c, s, a.w, a.e, a.after, a.fault);
    AfterWorkView(s, a.w, j, a.e, a.after);
    CleanNeverSlips(c, s, j, a.e, a.after);
    assert AfterWork(s, a.w, j, a.e, a.after).slipped == s.slipped;
    assert (a.e, a.after) in Calls(c, o, s, j);
    next := CallKeepsOrdered(c, o, s, AfterWork(s, a.w, j, a.e, a.after), a.w, a.e, a.after, fronts);
  }

  // ---------------------------------------------------------------- the environment

  /** A record is taken: it is the front of its event, and nobody held it. */
  lemma FrontTaken(c: Config, o: Oracle, s: State, t: State, i: Id, front: Pos, w: Agent)
    requires Traced(c, o, s, i, front)
    requires w !in s.jobs && Holds(t, w, front.tp, front.off)
    requires forall v :: !Holds(s, v, front.tp, front.off)
    requires LogOf(s, front.tp).done <= front.off
    requires t.topics == s.topics && t.orders == s.orders
    requires forall v :: v != w ==> (v in s.jobs <==> v in t.jobs) && (v in s.jobs ==> t.jobs[v] == s.jobs[v])
    requires t.jobs[w].pc == ClaimSet || t.jobs[w].pc == Hold
    ensures Traced(c, o, t, i, front)
  {
    RungsKept(s, t, i, front);
    forall tp, off: nat | IdAt(t, i, tp, off) && RankAt(t, tp, off) < RankAt(t, front.tp, front.off)
      ensures off < LogOf(t, tp).done || HandedOver(t, tp, off)
    {
      if off >= LogOf(t, tp).done {
        assert HandedOver(s, tp, off);
        var v :| Holds(s, v, tp, off) && Handed(s.jobs[v].pc);
        assert Holds(t, v, tp, off) && Handed(t.jobs[v].pc);
      }
    }
    forall v, tp, off: nat | Holds(t, v, tp, off) && IdAt(t, i, tp, off)
        && RankAt(t, tp, off) < RankAt(t, front.tp, front.off)
      ensures Handed(t.jobs[v].pc)
    {
      assert v != w && Holds(s, v, tp, off);
    }
    forall v | Holds(t, v, front.tp, front.off)
      ensures v == w
    {
      assert v != w ==> Holds(s, v, front.tp, front.off);
    }
  }

  /** The partition's owner, being idle, finds an uncommitted record only where nobody holds it. */
  lemma OwnerFindsFree(c: Config, s: State, tp: Tp, w: Agent)
    requires JobsWf(c, s) && LeasesLive(s) && w == LogOf(s, tp).owner && w !in s.jobs
    ensures forall v, off: nat :: !Holds(s, v, tp, off)
  {
    forall v | v in s.jobs
      ensures s.jobs[v].tp != tp
    {
      assert JobWf(c, s, v, s.jobs[v]);
    }
  }

  predicate TakeView(s: State, t: State, w: Agent, tp: Tp, off: nat) {
    && w !in s.jobs && w in t.jobs && t.jobs == s.jobs[w := t.jobs[w]]
    && t.jobs[w].tp == tp && t.jobs[w].off == off && t.jobs[w].lease == LogOf(s, tp).epoch
    && off < |LogOf(s, tp).recs| && t.jobs[w].pc == FirstPc(tp.topic, LogOf(s, tp).recs[off])
    && w == LogOf(s, tp).owner && off == LogOf(s, tp).done
    && t.topics == s.topics && t.orders == s.orders
    && t.published == s.published && t.awaiting == s.awaiting && t.slipped == s.slipped
  }

  lemma TakeStranger(c: Config, o: Oracle, s: State, t: State, w: Agent, tp: Tp, off: nat, i: Id, front: Pos)
    requires Traced(c, o, s, i, front) && TakeView(s, t, w, tp, off) && !IdAt(s, i, tp, off)
    ensures Traced(c, o, t, i, front)
  {
    forall v, q, k: nat | IdAt(s, i, q, k)
      ensures SameHold(s, t, v, q, k)
    {
    }
    TraceKept(c, o, s, t, i, front);
  }

  lemma TakeKeepsEvent(c: Config, o: Oracle, s: State, t: State, w: Agent, tp: Tp, off: nat, i: Id, front: Pos)
    requires JobsWf(c, s) && LeasesLive(s) && Traced(c, o, s, i, front)
    requires TakeView(s, t, w, tp, off)
    ensures Traced(c, o, t, i, front)
  {
    OwnerFindsFree(c, s, tp, w);
    if IdAt(s, i, tp, off) {
      assert !HandedOver(s, tp, off);
      assert RankAt(s, tp, off) == RankAt(s, front.tp, front.off);
      FrontTaken(c, o, s, t, i, front, w);
    } else {
      TakeStranger(c, o, s, t, w, tp, off, i, front);
    }
  }

  predicate QuietAction(a: Action) {
    a.Tick? || a.Create? || a.PublishEvent? || a.GiveUp? || a.Foreign? || a.Assign?
  }

  /** Logs change by at most one appended record, or in their assignment. */
  lemma QuietLog(s: State, a: Action, tp: Tp)
    requires QuietAction(a)
    ensures LogOf(s, tp).recs <= LogOf(Perform(s, a), tp).recs
    ensures LogOf(s, tp).done == LogOf(Perform(s, a), tp).done
    ensures a.PublishEvent? && a.i in s.content && tp == Tp(Created, a.part) ==>
              LogOf(Perform(s, a), tp).recs == LogOf(s, tp).recs + [EventRecord(a.i, s.content[a.i])]
    ensures a.Foreign? && tp == Tp(Created, a.part) ==> LogOf(Perform(s, a), tp).recs == LogOf(s, tp).recs + [a.rec]
    ensures !(a.PublishEvent? && tp == Tp(Created, a.part)) && !(a.Foreign? && tp == Tp(Created, a.part)) ==>
              LogOf(Perform(s, a), tp).recs == LogOf(s, tp).recs
    ensures Perform(s, a).jobs == s.jobs
  {
  }

  predicate Adds(s: State, a: Action, i: Id) {
    || (a.PublishEvent? && a.i in s.content && s.content[a.i].Event? && s.content[a.i].id == i)
    || (a.Foreign? && a.rec.value.Event? && a.rec.value.id == i)
  }

  lemma QuietSame(s: State, a: Action, i: Id)
    requires QuietAction(a) && !Adds(s, a, i)
    requires a.PublishEvent? ==> a.i in s.content
    ensures SameRecs(s, Perform(s, a), i) && SameDone(s, Perform(s, a), i) && SameHolders(s, Perform(s, a), i)
  {
    var t := Perform(s, a);
    forall tp, off: nat
      ensures IdAt(s, i, tp, off) <==> IdAt(t, i, tp, off)
      ensures IdAt(s, i, tp, off) ==> LogOf(s, tp).recs[off] == LogOf(t, tp).recs[off]
      ensures off < LogOf(s, tp).done <==> off < LogOf(t, tp).done
    {
      QuietLog(s, a, tp);
    }
    QuietLog(s, a, Tp(Created, 0));
  }

  lemma QuietRow(c: Config, s: State, a: Action, i: Id)
    requires QuietAction(a) && a in Moves(c, s) && i in s.orders
    ensures i in Perform(s, a).orders && Perform(s, a).orders[i] == s.orders[i]
  {
  }

  lemma QuietKeepsTraces(c: Config, o: Oracle, s: State, a: Action, fronts: map<Id, Pos>)
    requires QuietAction(a) && a in Moves(c, s) && AllTraced(c, o, s, fronts)
    requires a.PublishEvent? ==> a.i in s.content
    requires forall i :: i in fronts ==> !Adds(s, a, i) && i in s.orders
    ensures AllTraced(c, o, Perform(s, a), fronts)
  {
    forall i | i in fronts
      ensures Traced(c, o, Perform(s, a), i, fronts[i])
    {
      QuietSame(s, a, i);
      QuietRow(c, s, a, i);
      TraceKept(c, o, s, Perform(s, a), i, fronts[i]);
    }
  }

  lemma TakeKeepsOrdered(c: Config, o: Oracle, s: State, t: State, w: Agent, tp: Tp, off: nat, fronts: map<Id, Pos>)
    requires JobsWf(c, s) && Ordered(c, o, s, fronts)
    requires TakeView(s, t, w, tp, off)
    ensures Ordered(c, o, t, fronts)
  {
    forall i | i in fronts
      ensures Traced(c, o, t, i, fronts[i])
    {
      TakeKeepsEvent(c, o, s, t, w, tp, off, i, fronts[i]);
    }
    forall i | i in t.orders && i !in t.published
      ensures Untouched(t, i)
    {
      assert Untouched(s, i);
      forall q, k: nat
        ensures !IdAt(t, i, q, k)
      {
        assert !IdAt(s, i, q, k);
      }
    }
  }

  /** A published event starts its ladder on the first rung. */
  lemma FirstRung(c: Config, o: Oracle, s: State, i: Id, part: nat)
    requires JobsWf(c, s) && LogOk(s, Tp(Created, part)) && Untouched(s, i)
    requires i in s.content && s.content[i].Event? && s.content[i].id == i
    ensures Traced(c, o, Perform(s, PublishEvent(i, part)), i, Pos(Tp(Created, part), |LogOf(s, Tp(Created,
              part)).recs|))
  {
    var a := PublishEvent(i, part);
    var t := Perform(s, a);
    var front := Pos(Tp(Created, part), |LogOf(s, Tp(Created, part)).recs|);
    forall tp, off: nat
      ensures IdAt(t, i, tp, off) <==> tp == front.tp && off == front.off
    {
      assert !IdAt(s, i, tp, off);
      QuietLog(s, a, tp);
    }
    QuietLog(s, a, front.tp);
    assert RankAt(t, front.tp, front.off) == 2;
    assert HasRung(t, i, 2);
    forall v
      ensures !Holds(t, v, front.tp, front.off)
    {
      assert v in s.jobs ==> JobWf(c, s, v, s.jobs[v]);
    }
  }

  lemma QuietLeases(c: Config, o: Oracle, s: State, a: Action)
    requires QuietAction(a) && Clean(c, o, s, a) && LeasesLive(s)
    ensures LeasesLive(Perform(s, a))
  {
    var t := Perform(s, a);
    QuietLog(s, a, Tp(Created, 0));
    forall v | v in t.jobs
      ensures t.jobs[v].lease == LogOf(t, t.jobs[v].tp).epoch
    {
    }
  }

  lemma QuietUntouched(c: Config, s: State, a: Action, i: Id)
    requires QuietAction(a) && a in Moves(c, s) && Untouched(s, i) && !Adds(s, a, i)
    ensures Untouched(Perform(s, a), i)
  {
    QuietSame(s, a, i);
    QuietRow(c, s, a, i);
  }

  lemma NewOrderUntouched(c: Config, s: State, a: Action)
    requires RecordsOk(c, s) && a.Create? && a in Moves(c, s)
    ensures Untouched(Perform(s, a), a.i)
  {
    QuietSame(s, a, a.i);
    forall tp, off: nat
      ensures !IdAt(s, a.i, tp, off)
    {
      if off < |LogOf(s, tp).recs| {
        assert RecordOk(c, s, tp.topic, LogOf(s, tp).recs[off]);
      }
    }
  }

  lemma PublishOthers(c: Config, o: Oracle, s: State, a: Action, fronts: map<Id, Pos>)
    requires Ids(s) && AllTraced(c, o, s, fronts) && fronts.Keys <= s.orders.Keys
    requires a.PublishEvent? && a in Moves(c, s) && a.i !in fronts
    ensures AllTraced(c, o, Perform(s, a), fronts)
  {
    assert a.i in s.orders;
    forall i | i in fronts
      ensures !Adds(s, a, i)
    {
    }
    QuietKeepsTraces(c, o, s, a, fronts);
  }

  lemma JoinTraces(c: Config, o: Oracle, s: State, fronts: map<Id, Pos>, i: Id, front: Pos)
    requires AllTraced(c, o, s, fronts) && Traced(c, o, s, i, front) && i !in fronts
    ensures AllTraced(c, o, s, fronts[i := front])
  {
    assert fronts - {i} == fronts;
    ConsTraced(c, o, s, fronts, i, front);
  }

  lemma PublishTraces(c: Config, o: Oracle, s: State, a: Action, fronts: map<Id, Pos>) returns (next: map<Id, Pos>)
    requires JobsWf(c, s) && OffsetsOk(s) && Ids(s) && AllTraced(c, o, s, fronts)
    requires a.PublishEvent? && a in Moves(c, s) && a.i !in fronts && Untouched(s, a.i)
    requires fronts.Keys <= s.orders.Keys
    ensures AllTraced(c, o, Perform(s, a), next) && next.Keys == fronts.Keys + {a.i}
  {
    var tp := Tp(Created, a.part);
    var front := Pos(tp, |LogOf(s, tp).recs|);
    assert LogOk(s, tp);
    FirstRung(c, o, s, a.i, a.part);
    PublishOthers(c, o, s, a, fronts);
    JoinTraces(c, o, Perform(s, PublishEvent(a.i, a.part)), fronts, a.i, front);
    next := fronts[a.i := front];
  }

  lemma PublishView(c: Config, s: State, a: Action)
    requires a.PublishEvent? && a in Moves(c, s)
    ensures var t := Perform(s, a);
            && t.published == s.published + {a.i} && t.awaiting == s.awaiting - {a.i}
            && t.orders == s.orders && t.slipped == s.slipped
  {
  }

  lemma PublishKeepsOrdered(c: Config, o: Oracle, s: State, a: Action, fronts: map<Id, Pos>)
    returns (next: map<Id, Pos>)
    requires Base(c, s) && Ordered(c, o, s, fronts)
    requires a.PublishEvent? && a in Moves(c, s)
    ensures Ordered(c, o, Perform(s, a), next)
  {
    var t := Perform(s, a);
    PublishView(c, s, a);
    next := PublishTraces(c, o, s, a, fronts);
    QuietLeases(c, o, s, a);
    forall i | i in t.orders && i !in t.published
      ensures Untouched(t, i)
    {
      assert Untouched(s, i);
      QuietUntouched(c, s, a, i);
    }
  }

  lemma QuietKeepsOrdered(c: Config, o: Oracle, s: State, a: Action, fronts: map<Id, Pos>)
    requires Base(c, s) && Ordered(c, o, s, fronts)
    requires QuietAction(a) && !a.PublishEvent? && a in Moves(c, s) && Clean(c, o, s, a)
    ensures Ordered(c, o, Perform(s, a), fronts)
  {
    var t := Perform(s, a);
    QuietKeepsTraces(c, o, s, a, fronts);
    QuietLeases(c, o, s, a);
    forall i | i in t.orders && i !in t.published
      ensures Untouched(t, i)
    {
      if i in s.orders {
        QuietUntouched(c, s, a, i);
      } else {
        NewOrderUntouched(c, s, a);
      }
    }
  }

  // ---------------------------------------------------------------- runs

  /** A clean run keeps the lock premise of every event. */
  lemma CleanRunIsSound(c: Config, o: Oracle, states: seq<State>, acts: seq<Action>, n: nat, i: Id)
    requires 1 <= c.maxAttempts && IsCleanRun(c, o, states, acts) && n < |states|
    ensures IsRun(c, states, acts) && Base(c, states[n]) && Sound(states[n], i)
  {
    forall k | 0 <= k < |states|
      ensures Punctual(states[k], i)
    {
      assert LocksKept(states[k]);
    }
    RunKeepsSound(c, states, acts, n, i);
  }

  lemma CleanTombstones(c: Config, o: Oracle, states: seq<State>, acts: seq<Action>, n: nat)
    requires 1 <= c.maxAttempts && IsCleanRun(c, o, states, acts) && n < |states|
    ensures Base(c, states[n]) && Tombstones(states[n])
  {
    RunKeepsBase(c, states, acts, n);
    forall i
      ensures TombstoneOk(states[n], i)
    {
      CleanRunIsSound(c, o, states, acts, n, i);
    }
  }

  lemma StepKeepsOrdered(c: Config, o: Oracle, s: State, a: Action, fronts: map<Id, Pos>) returns (next: map<Id, Pos>)
    requires Base(c, s) && Tombstones(s) && Ordered(c, o, s, fronts)
    requires a in Moves(c, s) && Clean(c, o, s, a)
    ensures Ordered(c, o, Perform(s, a), next)
  {
    next := fronts;
    if a.Work? {
      next := WorkKeepsOrdered(c, o, s, a, fronts);
    } else if a.Take? {
      TakeKeepsOrdered(c, o, s, Perform(s, a), a.w, a.tp, a.off, fronts);
    } else if a.PublishEvent? {
      next := PublishKeepsOrdered(c, o, s, a, fronts);
    } else {
      QuietKeepsOrdered(c, o, s, a, fronts);
    }
  }

  lemma RunStepKeepsOrdered(c: Config, o: Oracle, states: seq<State>, acts: seq<Action>, k: nat, fronts: map<Id, Pos>)
    returns (next: map<Id, Pos>)
    requires 1 <= c.maxAttempts && IsCleanRun(c, o, states, acts) && k < |acts|
    requires Ordered(c, o, states[k], fronts)
    ensures Ordered(c, o, states[k + 1], next)
  {
    CleanTombstones(c, o, states, acts, k);
    assert StepAt(c, states, acts, k);
    next := StepKeepsOrdered(c, o, states[k], acts[k], fronts);
  }

  lemma {:induction false} OrderedAlong(c: Config, o: Oracle, states: seq<State>, acts: seq<Action>, n: nat)
    returns (fronts: map<Id, Pos>)
    requires 1 <= c.maxAttempts && IsCleanRun(c, o, states, acts) && n < |states|
    ensures Ordered(c, o, states[n], fronts)
  {
    if n == 0 {
      fronts := map[];
    } else {
      var before := OrderedAlong(c, o, states, acts, n - 1);
      fronts := RunStepKeepsOrdered(c, o, states, acts, n - 1, before);
    }
  }

  /** Every event of a failure-free run stays on its trace. */
  lemma RunKeepsOrdered(c: Config, o: Oracle, states: seq<State>, acts: seq<Action>, n: nat)
    returns (fronts: map<Id, Pos>)
    requires 1 <= c.maxAttempts && IsCleanRun(c, o, states, acts) && n < |states|
    ensures Base(c, states[n]) && Ordered(c, o, states[n], fronts)
  {
    RunKeepsBase(c, states, acts, n);
    fronts := OrderedAlong(c, o, states, acts, n);
  }
}
