/** What the idempotency guard guarantees over every interleaving of its SET/GET/SET/GET steps with
    expiry, crashes and other consumers; none of this needs the lock premise. */
module GuardTheorems {
  import opened Wrappers
  import opened Pipeline
  import opened Invariant
  import opened BaseProof
  import opened BaseRuns
  import opened SoundProof
  import opened Frames
  import opened Runs

  /** Mutual exclusion derived from the clock: two jobs of one event that are both between ACQUIRED
      and their release or completion, and both inside their lock, are the same job. */
  lemma MutualExclusion(c: Config, states: seq<State>, acts: seq<Action>, n: nat, w: Agent, v: Agent)
    requires 1 <= c.maxAttempts && IsRun(c, states, acts) && n < |states|
    requires w in states[n].jobs && v in states[n].jobs
    requires Holding(states[n].jobs[w].pc) && states[n].now < states[n].jobs[w].expiry
    requires Holding(states[n].jobs[v].pc) && states[n].now < states[n].jobs[v].expiry
    requires states[n].jobs[w].rec.value.Event? && states[n].jobs[v].rec.value.Event?
    requires states[n].jobs[w].rec.value.id == states[n].jobs[v].rec.value.id
    ensures w == v
  {
    RunKeepsBase(c, states, acts, n);
    assert HoldsKey(states[n], states[n].jobs[w]) && HoldsKey(states[n], states[n].jobs[v]);
  }

  /** The key of `i` differs after one call only as the guard's automaton allows. */
  predicate KeyMoves(c: Config, s: State, t: State, j: Job, e: Effect, i: Id) {
    || (i in s.guard && i in t.guard && t.guard[i] == s.guard[i])
    || (i !in s.guard && i !in t.guard)
    || (Owns(s, i, j.token) && i !in t.guard)
    || (Owns(s, i, j.token) && i in t.guard && t.guard[i] == Done(s.now + c.doneTtl) && e == PutKey(i, t.guard[i]))
    || (Visible(s, i).None? && i in t.guard && t.guard[i] == Held(j.token, s.now + c.lockTtl))
  }

  lemma WorkMovesKey(c: Config, s: State, a: Action, i: Id)
    requires Base(c, s) && a.Work? && a in Moves(c, s)
    ensures a.w in s.jobs && KeyMoves(c, s, Perform(s, a), s.jobs[a.w], a.e, i)
    ensures Perform(s, a).now == s.now
  {
    assert JobWf(c, s, a.w, s.jobs[a.w]);
    WorkShape(c, s, a.w, a.e, a.after, a.fault);
  }

  lemma OthersLeaveKeys(c: Config, s: State, a: Action)
    requires !a.Work?
    ensures Perform(s, a).guard == s.guard && s.now <= Perform(s, a).now
  {
  }

  /** A consumer that does not own the visible key cannot change it, whatever call it makes and
      however that call ends: a stale token never releases or completes a newer owner's claim, and
      nobody overwrites a tombstone. */
  lemma StaleTokenPowerless(c: Config, states: seq<State>, acts: seq<Action>, n: nat, i: Id)
    requires 1 <= c.maxAttempts && IsRun(c, states, acts) && n < |acts|
    requires acts[n].Work? && Visible(states[n], i).Some? && acts[n].w in states[n].jobs
    requires !Owns(states[n], i, states[n].jobs[acts[n].w].token)
    ensures i in states[n + 1].guard && states[n + 1].guard[i] == states[n].guard[i]
  {
    assert StepAt(c, states, acts, n);
    RunKeepsBase(c, states, acts, n);
    WorkMovesKey(c, states[n], acts[n], i);
  }

  predicate Claiming(pc: Pc) {
    pc == ClaimSet || pc == ClaimGet || pc == ClaimSetAgain || pc == ClaimGetAgain
  }

  /** What a call of `claim` may write: its own token on a key that was free. */
  predicate Grabs(c: Config, s: State, j: Job, e: Effect) {
    && (j.pc == ClaimSet || j.pc == ClaimSetAgain) && j.rec.value.Event? && Visible(s, j.rec.value.id).None?
    && e == PutKey(j.rec.value.id, Held(j.token, s.now + c.lockTtl))
  }

  lemma ClaimCall(c: Config, s: State, j: Job, e: Effect, after: Option<Job>)
    requires Claiming(j.pc) && OkStep(c, s, j, e, after)
    ensures e == Quiet || Grabs(c, s, j, e)
    ensures e != Quiet <==> after.Some? && after.value.pc == Check
  {
  }

  /** Over every run, a call of `claim` writes nothing but its own token on a free key, and it writes exactly
      when it returns ACQUIRED. The one other case is a SET that raises, or whose consumer dies, after it
      took effect: the key is then held without an ACQUIRED until its time to live runs out. */
  lemma OnlyAcquiredWrites(c: Config, states: seq<State>, acts: seq<Action>, n: nat)
    requires IsRun(c, states, acts) && n < |acts| && acts[n].Work?
    requires acts[n].w in states[n].jobs && Claiming(states[n].jobs[acts[n].w].pc)
    ensures var s, t, a := states[n], states[n + 1], acts[n];
              var acquired := a.after.Some? && a.after.value.pc == Check;
            && (a.e == Quiet || Grabs(c, s, s.jobs[a.w], a.e))
            && (acquired ==> a.e != Quiet)
            && (a.e != Quiet && !acquired ==> a.fault)
            && t.guard == KeysAfter(s, a.e) && t.orders == s.orders && t.topics == s.topics && t.archive == s.archive
  {
    assert StepAt(c, states, acts, n);
    var s, a := states[n], acts[n];
    var j := s.jobs[a.w];
    assert a in Moves(c, s);
    if !a.fault {
      ClaimCall(c, s, j, a.e, a.after);
    } else if a.e != Quiet {
      var ok :| OkStep(c, s, j, a.e, ok);
      ClaimCall(c, s, j, a.e, ok);
    }
    PerformView(s, a.w, a.e, a.after, a.fault);
  }

  /** The owner of the key completes: a tombstone for the full time to live. */
  predicate Completes(c: Config, s: State, a: Action, i: Id, key: Key) {
    && a.Work? && a.e == PutKey(i, key) && key == Done(s.now + c.doneTtl)
    && a.w in s.jobs && Marking(s.jobs[a.w].pc) && Owns(s, i, s.jobs[a.w].token)
  }

  /** A tombstone, and so an ALREADY_DONE verdict, goes back to a completion by the key's owner. */
  lemma {:induction false} TombstoneHasAuthor(c: Config, states: seq<State>, acts: seq<Action>, n: nat, i: Id)
    requires 1 <= c.maxAttempts && IsRun(c, states, acts) && n < |states|
    requires i in states[n].guard && states[n].guard[i].Done?
    ensures exists k :: 0 <= k < n && Completes(c, states[k], acts[k], i, states[n].guard[i])
  {
    assert 0 < n;
    if i in states[n - 1].guard && states[n - 1].guard[i] == states[n].guard[i] {
      TombstoneHasAuthor(c, states, acts, n - 1, i);
    } else {
      StepCompletes(c, states, acts, n - 1, i);
    }
  }

  lemma StepCompletes(c: Config, states: seq<State>, acts: seq<Action>, k: nat, i: Id)
    requires 1 <= c.maxAttempts && IsRun(c, states, acts) && k < |acts|
    requires i in states[k + 1].guard && states[k + 1].guard[i].Done?
    requires !(i in states[k].guard && states[k].guard[i] == states[k + 1].guard[i])
    ensures Completes(c, states[k], acts[k], i, states[k + 1].guard[i])
  {
    assert StepAt(c, states, acts, k);
    RunKeepsBase(c, states, acts, k);
    WriterCompletes(c, states[k], acts[k], i);
  }

  lemma WriterCompletes(c: Config, s: State, a: Action, i: Id)
    requires Base(c, s) && a in Moves(c, s)
    requires i in Perform(s, a).guard && Perform(s, a).guard[i].Done?
    requires !(i in s.guard && s.guard[i] == Perform(s, a).guard[i])
    ensures Completes(c, s, a, i, Perform(s, a).guard[i])
  {
    if a.Work? {
      WorkMovesKey(c, s, a, i);
      WorkKind(c, s, a.w, a.e, a.after, a.fault);
    } else {
      OthersLeaveKeys(c, s, a);
    }
  }

  ghost predicate LocksBounded(c: Config, s: State) {
    forall i :: i in s.guard && s.guard[i].Held? ==> s.guard[i].expiry <= s.now + c.lockTtl
  }

  lemma StepBoundsLocks(c: Config, s: State, a: Action)
    requires Base(c, s) && LocksBounded(c, s) && a in Moves(c, s)
    ensures LocksBounded(c, Perform(s, a))
  {
    forall i | i in Perform(s, a).guard && Perform(s, a).guard[i].Held?
      ensures Perform(s, a).guard[i].expiry <= Perform(s, a).now + c.lockTtl
    {
      if a.Work? {
        WorkMovesKey(c, s, a, i);
      } else {
        OthersLeaveKeys(c, s, a);
      }
    }
  }

  lemma {:induction false} LocksNeverOutliveTtl(c: Config, states: seq<State>, acts: seq<Action>, n: nat)
    requires 1 <= c.maxAttempts && IsRun(c, states, acts) && n < |states|
    ensures LocksBounded(c, states[n])
  {
    if n > 0 {
      assert StepAt(c, states, acts, n - 1);
      LocksNeverOutliveTtl(c, states, acts, n - 1);
      RunKeepsBase(c, states, acts, n - 1);
      StepBoundsLocks(c, states[n - 1], acts[n - 1]);
    }
  }

  /** A crashed holder never wedges an event: once the lock's TTL has passed since any moment at which
      the key was held, and nobody else has taken it, the next SET of any consumer acquires it. */
  lemma CrashedHolderNeverBlocks(c: Config, states: seq<State>, acts: seq<Action>, m: nat, n: nat, w: Agent, i: Id)
    requires 1 <= c.maxAttempts && IsRun(c, states, acts) && m <= n < |states|
    requires i in states[m].guard && states[m].guard[i].Held?
    requires i in states[n].guard && states[n].guard[i] == states[m].guard[i]
    requires states[m].now + c.lockTtl <= states[n].now
    requires w in states[n].jobs && states[n].jobs[w].pc == ClaimSet
    requires states[n].jobs[w].rec.value.Event? && states[n].jobs[w].rec.value.id == i
    ensures var s := states[n]; var j := s.jobs[w]; var expiry := s.now + c.lockTtl;
            Work(w, PutKey(i, Held(j.token, expiry)), Some(j.(pc := Check, expiry := expiry)), false) in Moves(c, s)
    ensures forall e, after :: OkStep(c, states[n], states[n].jobs[w], e, after) ==>
              after.Some? && after.value.pc == Check
  {
    LocksNeverOutliveTtl(c, states, acts, m);
    assert Visible(states[n], i).None?;
  }

  // ---------------------------------------------------------------- how long a tombstone lasts

  lemma StepKeepsTombstone(c: Config, s: State, a: Action, i: Id)
    requires Base(c, s) && a in Moves(c, s) && Visible(s, i).Some? && Visible(s, i).value.Done?
    ensures i in Perform(s, a).guard && Perform(s, a).guard[i] == s.guard[i]
  {
    if a.Work? {
      WorkMovesKey(c, s, a, i);
    } else {
      OthersLeaveKeys(c, s, a);
    }
  }

  lemma {:induction false} TombstoneStays(c: Config, states: seq<State>, acts: seq<Action>, m: nat, n: nat, i: Id,
      key: Key)
    requires 1 <= c.maxAttempts && IsRun(c, states, acts) && m <= n < |states|
    requires i in states[m].guard && states[m].guard[i] == key && key.Done? && states[n].now < key.expiry
    ensures i in states[n].guard && states[n].guard[i] == key
    decreases n
  {
    if m < n {
      RunGrows(c, states, acts, n - 1, n);
      TombstoneStays(c, states, acts, m, n - 1, i, key);
      assert StepAt(c, states, acts, n - 1);
      RunKeepsBase(c, states, acts, n - 1);
      StepKeepsTombstone(c, states[n - 1], acts[n - 1], i);
    }
  }

  /** What every successful call of a claim comes to while the tombstone is there: a SET that does not
      acquire, and a GET that ends in ALREADY_DONE. */
  predicate Refused(j: Job, e: Effect, after: Option<Job>) {
    && e == Quiet && after.Some?
    && match j.pc
       case ClaimSet => after.value.pc == ClaimGet
       case ClaimSetAgain => after.value.pc == ClaimGetAgain
       case _ => after.value.pc == Ack
  }

  /** A completed event is remembered for the full time: until done_ttl has passed since the completion, no
      SET of the event acquires and every GET of a claim ends in ALREADY_DONE. */
  lemma RememberedForDoneTtl(c: Config, states: seq<State>, acts: seq<Action>, k: nat, n: nat, i: Id, key: Key,
                             w: Agent, e: Effect, after: Option<Job>)
    requires 1 <= c.maxAttempts && IsRun(c, states, acts) && k < n < |states|
    requires Completes(c, states[k], acts[k], i, key) && states[n].now < states[k].now + c.doneTtl
    requires w in states[n].jobs && JobOf(states[n].jobs[w], i) && Claiming(states[n].jobs[w].pc)
    requires Work(w, e, after, false) in Moves(c, states[n])
    ensures Refused(states[n].jobs[w], e, after)
  {
    assert StepAt(c, states, acts, k);
    PerformView(states[k], acts[k].w, acts[k].e, acts[k].after, acts[k].fault);
    TombstoneStays(c, states, acts, k + 1, n, i, key);
  }
}
