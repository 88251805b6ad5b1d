/** `Base` holds in every reachable state of every run, with or without the lock premise. */
module BaseRuns {
  import opened Pipeline
  import opened Invariant
  import opened BaseProof

  /** Appending one record keeps every job and offset as it was. */
  lemma AppendKeepsJobs(c: Config, s: State, tp: Tp, rec: Record)
    requires JobsWf(c, s) && OffsetsOk(s)
    ensures JobsWf(c, Apply(s, Publish(tp, rec))) && OffsetsOk(Apply(s, Publish(tp, rec)))
  {
    var t := Apply(s, Publish(tp, rec));
    forall v | v in t.jobs
      ensures JobWf(c, t, v, t.jobs[v])
    {
      assert JobWf(c, s, v, s.jobs[v]);
      ApplyKeepsLog(s, Publish(tp, rec), s.jobs[v].tp);
    }
    forall q
      ensures LogOk(t, q)
    {
      assert LogOk(s, q);
      ApplyKeepsLog(s, Publish(tp, rec), q);
      forall off | 0 <= off < |LogOf(s, q).recs| && Archived(s, q, off)
        ensures Archived(t, q, off)
      {
      }
    }
  }

  /** Every predicate of `Base` other than the records reads only these fields. */
  lemma SameViewKeepsBase(c: Config, s: State, t: State)
    requires Base(c, s)
    requires t.jobs == s.jobs && t.topics == s.topics && t.archive == s.archive && t.nextToken == s.nextToken
    requires t.guard == s.guard && s.now <= t.now
    requires RecordsOk(c, t) && Ids(t)
    ensures Base(c, t)
  {
    forall w | w in t.jobs
      ensures JobWf(c, t, w, t.jobs[w]) && HoldsKey(t, t.jobs[w]) && ArchiveAck(t, t.jobs[w])
    {
      assert JobWf(c, s, w, s.jobs[w]) && HoldsKey(s, s.jobs[w]) && ArchiveAck(s, s.jobs[w]);
    }
    forall tp
      ensures LogOk(t, tp)
    {
      assert LogOk(s, tp);
      forall off | 0 <= off < |LogOf(s, tp).recs| && Archived(s, tp, off)
        ensures Archived(t, tp, off)
      {
      }
    }
  }

  lemma SameRecords(c: Config, s: State, t: State)
    requires RecordsOk(c, s)
    requires t.topics == s.topics && s.foreign <= t.foreign
    requires forall i :: i in s.orders ==> i in t.orders && (i in s.content ==>
              i in t.content && t.content[i] == s.content[i])
    requires forall i :: i in t.orders && i !in s.orders ==> i !in s.foreign
    ensures RecordsOk(c, t)
  {
    forall tp, off | 0 <= off < |LogOf(t, tp).recs|
      ensures RecordOk(c, t, tp.topic, LogOf(t, tp).recs[off])
    {
      assert RecordOk(c, s, tp.topic, LogOf(s, tp).recs[off]);
    }
  }

  lemma AppendKeepsRecords(c: Config, s: State, tp: Tp, rec: Record, foreign: set<Id>)
    requires RecordsOk(c, s) && s.foreign <= foreign
    requires RecordOk(c, s.(foreign := foreign), tp.topic, rec)
    ensures RecordsOk(c, Apply(s, Publish(tp, rec)).(foreign := foreign))
  {
    var t := Apply(s, Publish(tp, rec)).(foreign := foreign);
    forall q, off | 0 <= off < |LogOf(t, q).recs|
      ensures RecordOk(c, t, q.topic, LogOf(t, q).recs[off])
    {
      if off < |LogOf(s, q).recs| {
        assert RecordOk(c, s, q.topic, LogOf(s, q).recs[off]);
      }
    }
  }

  lemma AppendKeepsBase(c: Config, s: State, tp: Tp, rec: Record, foreign: set<Id>, awaiting: set<Id>,
                        published: set<Id>)
    requires Base(c, s) && s.foreign <= foreign && foreign !! s.orders.Keys
    requires awaiting <= s.orders.Keys && published <= s.orders.Keys
    requires RecordOk(c, s.(foreign := foreign), tp.topic, rec)
    ensures Base(c, Apply(s, Publish(tp, rec)).(foreign := foreign, awaiting := awaiting, published := published))
  {
    var m := Apply(s, Publish(tp, rec)).(foreign := foreign);
    var t := m.(awaiting := awaiting, published := published);
    AppendKeepsJobs(c, s, tp, rec);
    AppendKeepsRecords(c, s, tp, rec, foreign);
    SameRecords(c, m, t);
    forall w | w in t.jobs
      ensures JobWf(c, t, w, t.jobs[w]) && HoldsKey(t, t.jobs[w]) && ArchiveAck(t, t.jobs[w])
    {
      assert JobWf(c, Apply(s, Publish(tp, rec)), w, s.jobs[w]);
      assert HoldsKey(s, s.jobs[w]) && ArchiveAck(s, s.jobs[w]);
    }
    forall q
      ensures LogOk(t, q)
    {
      assert LogOk(Apply(s, Publish(tp, rec)), q);
      forall off | 0 <= off < |LogOf(t, q).recs| && Archived(Apply(s, Publish(tp, rec)), q, off)
        ensures Archived(t, q, off)
      {
      }
    }
  }

  lemma AssignKeepsBase(c: Config, s: State, tp: Tp, w: Agent)
    requires Base(c, s)
    ensures Base(c, Perform(s, Assign(tp, w)))
  {
    var t := Perform(s, Assign(tp, w));
    forall v | v in t.jobs
      ensures JobWf(c, t, v, t.jobs[v]) && HoldsKey(t, t.jobs[v]) && ArchiveAck(t, t.jobs[v])
    {
      assert JobWf(c, s, v, s.jobs[v]) && HoldsKey(s, s.jobs[v]) && ArchiveAck(s, s.jobs[v]);
    }
    forall q, off | 0 <= off < |LogOf(t, q).recs|
      ensures RecordOk(c, t, q.topic, LogOf(t, q).recs[off])
    {
      assert RecordOk(c, s, q.topic, LogOf(s, q).recs[off]);
    }
    forall q
      ensures LogOk(t, q)
    {
      assert LogOk(s, q);
      forall off | 0 <= off < |LogOf(t, q).recs| && Archived(s, q, off)
        ensures Archived(t, q, off)
      {
      }
    }
  }

  lemma TakeKeepsJobs(c: Config, s: State, w: Agent, tp: Tp, off: nat, lease: nat)
    requires Base(c, s)
    requires Take(w, tp, off, lease) in Moves(c, s)
    ensures var t := Perform(s, Take(w, tp, off, lease));
            JobsWf(c, t) && KeysHeld(t) && ArchiveAcks(t)
  {
    var t := Perform(s, Take(w, tp, off, lease));
    forall v | v in t.jobs
      ensures JobWf(c, t, v, t.jobs[v]) && HoldsKey(t, t.jobs[v]) && ArchiveAck(t, t.jobs[v])
    {
      if v != w {
        assert JobWf(c, s, v, s.jobs[v]) && HoldsKey(s, s.jobs[v]) && ArchiveAck(s, s.jobs[v]);
      }
    }
  }

  lemma TakeKeepsTokens(c: Config, s: State, w: Agent, tp: Tp, off: nat, lease: nat)
    requires JobsWf(c, s) && TokensDistinct(s)
    ensures TokensDistinct(Perform(s, Take(w, tp, off, lease)))
  {
    var t := Perform(s, Take(w, tp, off, lease));
    forall u, v | u in t.jobs && v in t.jobs && t.jobs[u].token == t.jobs[v].token
      ensures u == v
    {
      assert u in s.jobs ==> JobWf(c, s, u, s.jobs[u]);
      assert v in s.jobs ==> JobWf(c, s, v, s.jobs[v]);
    }
  }

  lemma TakeKeepsBase(c: Config, s: State, w: Agent, tp: Tp, off: nat, lease: nat)
    requires Base(c, s)
    requires Take(w, tp, off, lease) in Moves(c, s)
    ensures Base(c, Perform(s, Take(w, tp, off, lease)))
  {
    var t := Perform(s, Take(w, tp, off, lease));
    TakeKeepsJobs(c, s, w, tp, off, lease);
    TakeKeepsTokens(c, s, w, tp, off, lease);
    SameRecords(c, s, t);
    forall q
      ensures LogOk(t, q)
    {
      assert LogOk(s, q);
      forall k | 0 <= k < |LogOf(t, q).recs| && Archived(s, q, k)
        ensures Archived(t, q, k)
      {
      }
    }
  }

  lemma CreateKeepsBase(c: Config, s: State, i: Id, content: string)
    requires Base(c, s)
    requires Create(i, content) in Moves(c, s)
    ensures Base(c, Perform(s, Create(i, content)))
  {
    var t := Perform(s, Create(i, content));
    SameRecords(c, s, t);
    SameViewKeepsBase(c, s, t);
  }

  lemma TimeKeepsBase(c: Config, s: State, dt: nat)
    requires Base(c, s)
    ensures Base(c, Perform(s, Tick(dt)))
  {
    SameRecords(c, s, Perform(s, Tick(dt)));
    SameViewKeepsBase(c, s, Perform(s, Tick(dt)));
  }

  lemma GiveUpKeepsBase(c: Config, s: State, i: Id)
    requires Base(c, s)
    ensures Base(c, Perform(s, GiveUp(i)))
  {
    SameRecords(c, s, Perform(s, GiveUp(i)));
    SameViewKeepsBase(c, s, Perform(s, GiveUp(i)));
  }

  lemma PublishKeepsBase(c: Config, s: State, i: Id, part: nat)
    requires 1 <= c.maxAttempts
    requires Base(c, s)
    requires i in s.awaiting && i in s.content
    ensures Base(c, Perform(s, PublishEvent(i, part)))
  {
    AppendKeepsBase(c, s, Tp(Created, part), EventRecord(i, s.content[i]), s.foreign, s.awaiting - {i},
        s.published + {i});
  }

  lemma ForeignKeepsBase(c: Config, s: State, part: nat, rec: Record)
    requires Base(c, s)
    requires Foreign(part, rec) in Moves(c, s)
    ensures Base(c, Perform(s, Foreign(part, rec)))
  {
    var foreign := if rec.value.Event? then s.foreign + {rec.value.id} else s.foreign;
    AppendKeepsBase(c, s, Tp(Created, part), rec, foreign, s.awaiting, s.published);
  }

  lemma StepKeepsBase(c: Config, s: State, a: Action)
    requires 1 <= c.maxAttempts
    requires Base(c, s)
    requires a in Moves(c, s)
    ensures Base(c, Perform(s, a))
  {
    match a
    case Tick(dt) => TimeKeepsBase(c, s, dt);
    case Create(i, content) => CreateKeepsBase(c, s, i, content);
    case PublishEvent(i, part) => PublishKeepsBase(c, s, i, part);
    case GiveUp(i) => GiveUpKeepsBase(c, s, i);
    case Foreign(part, rec) => ForeignKeepsBase(c, s, part, rec);
    case Assign(tp, w) => AssignKeepsBase(c, s, tp, w);
    case Take(w, tp, off, lease) => TakeKeepsBase(c, s, w, tp, off, lease);
    case Work(w, e, after, fault) => WorkKeepsBase(c, s, w, e, after, fault);
  }

  lemma {:induction false} RunKeepsBase(c: Config, states: seq<State>, acts: seq<Action>, n: nat)
    requires 1 <= c.maxAttempts
    requires IsRun(c, states, acts) && n < |states|
    ensures Base(c, states[n])
  {
    if n == 0 {
    } else {
      assert StepAt(c, states, acts, n - 1);
      RunKeepsBase(c, states, acts, n - 1);
      StepKeepsBase(c, states[n - 1], acts[n - 1]);
    }
  }
}
