/** The order cache beside the pipeline (app/cache.py; app/service.py, read_order and the last lines of
    submit_order; the put_order calls of app/kafka/consumers.py).

    Whoever has loaded or committed a row holds a copy of it until it writes that copy to Redis. Any
    number of such holders work beside the pipeline, and nothing orders their writes. */
module Cache {
  import opened Wrappers
  import opened Orders
  import opened Pipeline
  import opened Theorems
  import opened Runs

  /** A copy in somebody's memory, with the time at which it was the committed row. */
  datatype Copy = Copy(i: Id, row: Row, since: Time)

  /** A cache entry; `copy` is None when its text cannot be read. `since` is carried along for the
      statements below and is not stored in Redis. */
  datatype Entry = Entry(copy: Option<Row>, expiry: Time, since: Time)

  datatype Memory = Memory(entries: map<Id, Entry>, copies: map<nat, Copy>)

  datatype Op =
    | Idle
    | Load(r: nat, i: Id)             // read the row, or have just committed it
    | Put(r: nat)                     // SET with a time to live
    | Forget(r: nat)                  // the write failed, or its author died
    | Spoil(i: Id, expiry: Time)      // somebody left an unreadable entry
    | Drop(i: Id)                     // the unguarded delete, or an eviction

  /** The store after `op`, when the pipeline is in state `s`. */
  function Step(ttl: nat, s: State, m: Memory, op: Op): Memory {
    match op
    case Idle => m
    case Load(r, i) => if i in s.orders then m.(copies := m.copies[r := Copy(i, s.orders[i], s.now)]) else m
    case Put(r) =>
      if r in m.copies then
        var copy := m.copies[r];
        Memory(m.entries[copy.i := Entry(Some(copy.row), s.now + ttl, copy.since)], m.copies - {r})
      else m
    case Forget(r) => m.(copies := m.copies - {r})
    case Spoil(i, expiry) => m.(entries := m.entries[i := Entry(None, expiry, s.now)])
    case Drop(i) => m.(entries := m.entries - {i})
  }

  predicate Served(s: State, m: Memory, i: Id) {
    i in m.entries && s.now < m.entries[i].expiry
  }

  /** What get_order answers. */
  function Lookup(s: State, m: Memory, i: Id): Option<Row> {
    if Served(s, m, i) then m.entries[i].copy else None
  }

  /** A pipeline run with a cache beside it. Operation `k` happens together with or right after action
      `k` and takes no time of its own; an operation on its own goes with an empty tick. */
  ghost predicate IsCachedRun(c: Config, ttl: nat, states: seq<State>, acts: seq<Action>, stores: seq<Memory>,
                              ops: seq<Op>) {
    && IsRun(c, states, acts)
    && |stores| == |states| && |ops| == |acts|
    && stores[0] == Memory(map[], map[])
    && forall k :: 0 <= k < |ops| ==>
         && stores[k + 1] == Step(ttl, states[k + 1], stores[k], ops[k])
         && (ops[k] != Idle ==> states[k + 1].now == states[k].now)
  }

  /** Every copy reaches Redis, or is given up, within `d` of its load. */
  ghost predicate Prompt(d: nat, states: seq<State>, stores: seq<Memory>) {
    forall k, r :: 0 <= k < |states| && k < |stores| && r in stores[k].copies ==>
        states[k].now <= stores[k].copies[r].since + d
  }

  // ---------------------------------------------------------------- the invariant

  predicate CommittedAt(s: State, i: Id, row: Row) {
    i in s.orders && s.orders[i] == row
  }

  /** Up to state `n`, the row was once committed, at time `since`. */
  ghost predicate Seen(states: seq<State>, n: nat, i: Id, row: Row, since: Time) {
    exists k :: 0 <= k <= n && k < |states| && states[k].now == since && CommittedAt(states[k], i, row)
  }

  ghost predicate CopiesSeen(states: seq<State>, n: nat, m: Memory) {
    forall r :: r in m.copies ==> Seen(states, n, m.copies[r].i, m.copies[r].row, m.copies[r].since)
  }

  ghost predicate EntriesSeen(states: seq<State>, n: nat, m: Memory, life: nat) {
    forall i :: i in m.entries && m.entries[i].copy.Some? ==>
      && Seen(states, n, i, m.entries[i].copy.value, m.entries[i].since)
      && m.entries[i].expiry <= m.entries[i].since + life
  }

  lemma SeenLater(states: seq<State>, n: nat, i: Id, row: Row, since: Time)
    requires Seen(states, n, i, row, since)
    ensures Seen(states, n + 1, i, row, since)
  {
    var k :| 0 <= k <= n && k < |states| && states[k].now == since && CommittedAt(states[k], i, row);
    assert CommittedAt(states[k], i, row);
  }

  lemma StepKeepsSeen(ttl: nat, d: nat, states: seq<State>, n: nat, m: Memory, op: Op)
    requires n + 1 < |states| && CopiesSeen(states, n, m) && EntriesSeen(states, n, m, ttl + d)
    requires forall r :: r in m.copies ==> states[n].now <= m.copies[r].since + d
    requires op != Idle ==> states[n + 1].now == states[n].now
    ensures CopiesSeen(states, n + 1, Step(ttl, states[n + 1], m, op))
    ensures EntriesSeen(states, n + 1, Step(ttl, states[n + 1], m, op), ttl + d)
  {
    forall r | r in m.copies
      ensures Seen(states, n + 1, m.copies[r].i, m.copies[r].row, m.copies[r].since)
    {
      SeenLater(states, n, m.copies[r].i, m.copies[r].row, m.copies[r].since);
    }
    forall i | i in m.entries && m.entries[i].copy.Some?
      ensures Seen(states, n + 1, i, m.entries[i].copy.value, m.entries[i].since)
    {
      SeenLater(states, n, i, m.entries[i].copy.value, m.entries[i].since);
    }
    if op.Load? && op.i in states[n + 1].orders {
      assert CommittedAt(states[n + 1], op.i, states[n + 1].orders[op.i]);
    }
  }

  lemma {:induction false} RunKeepsSeen(c: Config, ttl: nat, d: nat, states: seq<State>, acts: seq<Action>,
                                        stores: seq<Memory>, ops: seq<Op>, n: nat)
    requires IsCachedRun(c, ttl, states, acts, stores, ops) && Prompt(d, states, stores) && n < |states|
    ensures CopiesSeen(states, n, stores[n]) && EntriesSeen(states, n, stores[n], ttl + d)
  {
    if 0 < n {
      RunKeepsSeen(c, ttl, d, states, acts, stores, ops, n - 1);
      StepKeepsSeen(ttl, d, states, n - 1, stores[n - 1], ops[n - 1]);
    }
  }

  // ---------------------------------------------------------------- results

  /** Bounded staleness: in every interleaving, a cached copy served at time s was the committed row at
      some time later than s - ttl - d, and its trail is a prefix of the stored trail. */
  lemma BoundedStaleness(c: Config, ttl: nat, d: nat, states: seq<State>, acts: seq<Action>, stores: seq<Memory>,
                         ops: seq<Op>, n: nat, i: Id)
    returns (k: nat)
    requires 1 <= c.maxAttempts && IsCachedRun(c, ttl, states, acts, stores, ops) && Prompt(d, states, stores)
    requires n < |states|
    requires Lookup(states[n], stores[n], i).Some?
    ensures k <= n && CommittedAt(states[k], i, Lookup(states[n], stores[n], i).value)
    ensures states[n].now - ttl - d < states[k].now
    ensures i in states[n].orders && Lookup(states[n], stores[n], i).value.trail <= states[n].orders[i].trail
  {
    RunKeepsSeen(c, ttl, d, states, acts, stores, ops, n);
    var entry := stores[n].entries[i];
    k :| 0 <= k <= n && k < |states| && states[k].now == entry.since && CommittedAt(states[k], i, entry.copy.value);
    TrailOnlyGrows(c, states, acts, k, n, i);
  }

  /** Under the lock premise a cached terminal row is never stale: it is the stored row. */
  lemma TerminalCopiesAreCurrent(c: Config, ttl: nat, d: nat, states: seq<State>, acts: seq<Action>,
                                 stores: seq<Memory>, ops: seq<Op>, n: nat, i: Id)
    requires 1 <= c.maxAttempts && IsCachedRun(c, ttl, states, acts, stores, ops) && Prompt(d, states, stores)
    requires n < |states|
    requires PunctualRun(states, i)
    requires Lookup(states[n], stores[n], i).Some? && Terminal(Lookup(states[n], stores[n], i).value.status)
    ensures CommittedAt(states[n], i, Lookup(states[n], stores[n], i).value)
  {
    var k := BoundedStaleness(c, ttl, d, states, acts, stores, ops, n, i);
    TerminalAbsorbs(c, states, acts, k, n, i);
  }

  /** A write can only take a served copy back in time when it carries a copy that was not loaded later
      than the one it replaces. */
  lemma OnlyLateWritesGoBack(c: Config, ttl: nat, d: nat, states: seq<State>, acts: seq<Action>, stores: seq<Memory>,
                             ops: seq<Op>, n: nat, r: nat)
    requires 1 <= c.maxAttempts && IsCachedRun(c, ttl, states, acts, stores, ops) && Prompt(d, states, stores)
    requires n < |ops|
    requires ops[n] == Put(r) && r in stores[n].copies
    requires var i := stores[n].copies[r].i; i in stores[n].entries && stores[n].entries[i].copy.Some?
    requires var copy := stores[n].copies[r]; stores[n].entries[copy.i].since < copy.since
    ensures var copy := stores[n].copies[r];
            stores[n].entries[copy.i].copy.value.trail <= stores[n + 1].entries[copy.i].copy.value.trail
  {
    RunKeepsSeen(c, ttl, d, states, acts, stores, ops, n);
    var copy := stores[n].copies[r];
    var entry := stores[n].entries[copy.i];
    assert stores[n + 1] == Step(ttl, states[n + 1], stores[n], ops[n]);
    var k :| 0 <= k <= n && k < |states| && states[k].now == entry.since
        && CommittedAt(states[k], copy.i, entry.copy.value);
    var l :| 0 <= l <= n && l < |states| && states[l].now == copy.since && CommittedAt(states[l], copy.i, copy.row);
    if l <= k {
      RunGrows(c, states, acts, l, k);
      assert false;
    }
    TrailOnlyGrows(c, states, acts, k, l, copy.i);
  }
}
