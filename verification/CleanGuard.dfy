/** The guard in failure-free runs: a key is held exactly while somebody holds the claim, so a retry always
    finds its key free again. */
module CleanGuard {
  import opened Wrappers
  import opened Pipeline
  import opened Invariant
  import opened BaseProof
  import opened BaseRuns
  import opened SoundRuns
  import opened Frames
  import opened FailureFree

  /** The consumer is between ACQUIRED and the release or completion of its claim on event `i`. */
  predicate Holder(s: State, i: Id, w: Agent) {
    w in s.jobs && JobOf(s.jobs[w], i) && Holding(s.jobs[w].pc)
  }

  predicate HoldsIt(s: State, i: Id, w: Agent) {
    Holder(s, i, w) && i in s.guard && s.guard[i] == Held(s.jobs[w].token, s.jobs[w].expiry)
  }

  predicate HeldKey(s: State, i: Id) {
    i in s.guard && s.guard[i].Held?
  }

  ghost predicate KeysAttended(s: State) {
    forall i :: HeldKey(s, i) ==> exists w :: HoldsIt(s, i, w)
  }

  /** What a successful call of a claim's owner does with the claim: complete it, release it or keep it. */
  predicate Minds(j: Job, e: Effect, after: Option<Job>, i: Id) {
    || (e.PutKey? && e.i == i && e.key.Done?)
    || e == DropKey(i)
    || (&& !e.PutKey? && !e.DropKey? && after.Some? && Holding(after.value.pc) && after.value.rec == j.rec
        && after.value.token == j.token && after.value.expiry == j.expiry)
  }

  /** Who sets a key to its token holds the claim from then on. */
  predicate Takes(j: Job, e: Effect, after: Option<Job>) {
    e.PutKey? && e.key.Held? ==>
      && after.Some? && JobOf(after.value, e.i) && Holding(after.value.pc)
      && e.key == Held(after.value.token, after.value.expiry)
  }

  lemma CallKeepsAttended(c: Config, s: State, t: State, w: Agent, e: Effect, after: Option<Job>, i: Id)
    requires w in s.jobs && CallView(s, t, w, e, after) && EffectOk(c, s, s.jobs[w], e) && Takes(s.jobs[w], e, after)
    requires HoldsIt(s, i, w) ==> Minds(s.jobs[w], e, after, i)
    requires KeysAttended(s) && HeldKey(t, i)
    ensures exists v :: HoldsIt(t, i, v)
  {
    if e.PutKey? && e.i == i {
      assert HoldsIt(t, i, w);
    } else {
      assert HeldKey(s, i);
      var v :| HoldsIt(s, i, v);
      assert HoldsIt(t, i, v);
    }
  }

  lemma WorkKeepsAttended(c: Config, o: Oracle, s: State, a: Action)
    requires Base(c, s) && KeysAttended(s) && LocksKept(s) && a.Work? && a in Moves(c, s) && Clean(c, o, s, a)
    ensures KeysAttended(Perform(s, a))
  {
    var t := Perform(s, a);
    WorkIsClean(c, o, s, a);
    PerformView(s, a.w, a.e, a.after, a.fault);
    forall i | HeldKey(t, i)
      ensures exists v :: HoldsIt(t, i, v)
    {
      if HoldsIt(s, i, a.w) {
        OwnerStays(c, o, s, a, i);
      }
      CallKeepsAttended(c, s, t, a.w, a.e, a.after, i);
    }
  }

  lemma WorkIsClean(c: Config, o: Oracle, s: State, a: Action)
    requires Base(c, s) && a.Work? && a in Moves(c, s) && Clean(c, o, s, a)
    ensures a.w in s.jobs && EffectOk(c, s, s.jobs[a.w], a.e) && Takes(s.jobs[a.w], a.e, a.after)
  {
    var j := s.jobs[a.w];
    assert JobWf(c, s, a.w, j);
    WorkShape(c, s, a.w, a.e, a.after, a.fault);
  }

  lemma OwnerStays(c: Config, o: Oracle, s: State, a: Action, i: Id)
    requires LocksKept(s) && a.Work? && a in Moves(c, s) && Clean(c, o, s, a) && HoldsIt(s, i, a.w)
    ensures Minds(s.jobs[a.w], a.e, a.after, i)
  {
  }

  lemma EnvKeepsAttended(c: Config, s: State, a: Action)
    requires KeysAttended(s) && !a.Work? && a in Moves(c, s)
    ensures KeysAttended(Perform(s, a))
  {
    EnvStepExtends(c, s, a);
    forall i | HeldKey(Perform(s, a), i)
      ensures exists v :: HoldsIt(Perform(s, a), i, v)
    {
      assert HeldKey(s, i);
      var v :| HoldsIt(s, i, v);
      assert HoldsIt(Perform(s, a), i, v);
    }
  }

  lemma {:induction false} RunKeepsAttended(c: Config, o: Oracle, states: seq<State>, acts: seq<Action>, n: nat)
    requires 1 <= c.maxAttempts && IsCleanRun(c, o, states, acts) && n < |states|
    ensures KeysAttended(states[n])
  {
    if 0 < n {
      assert StepAt(c, states, acts, n - 1);
      RunKeepsAttended(c, o, states, acts, n - 1);
      RunKeepsBase(c, states, acts, n - 1);
      if acts[n - 1].Work? {
        WorkKeepsAttended(c, o, states[n - 1], acts[n - 1]);
      } else {
        EnvKeepsAttended(c, states[n - 1], acts[n - 1]);
      }
    }
  }

  /** In every failure-free run a key is held if and only if some consumer holds the claim: a claim is given
      back or completed by the time its record is acknowledged, and the next attempt finds the key free. */
  lemma HeldIffHolder(c: Config, o: Oracle, states: seq<State>, acts: seq<Action>, n: nat, i: Id)
    requires 1 <= c.maxAttempts && IsCleanRun(c, o, states, acts) && n < |states|
    ensures HeldKey(states[n], i) <==> exists w :: Holder(states[n], i, w)
  {
    RunKeepsAttended(c, o, states, acts, n);
    RunKeepsBase(c, states, acts, n);
    var s := states[n];
    if HeldKey(s, i) {
      var w :| HoldsIt(s, i, w);
    }
    if w :| Holder(s, i, w) {
      assert HoldsKey(s, s.jobs[w]) && LocksKept(s);
    }
  }
}
