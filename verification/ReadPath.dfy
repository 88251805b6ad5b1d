/** The cache-aside read (app/service.py, read_order; app/cache.py, get_order and put_order) as code that
    makes one call after another while everybody else goes on. */
module ReadPath {
  import opened Wrappers
  import opened Orders
  import opened Pipeline
  import opened Runs
  import opened Cache
  import Theorems

  lemma Append(c: Config, ttl: nat, states: seq<State>, acts: seq<Action>, stores: seq<Memory>, ops: seq<Op>, op: Op)
    returns (states': seq<State>, acts': seq<Action>)
    requires IsCachedRun(c, ttl, states, acts, stores, ops)
    ensures |states'| == |states| + 1 && states <= states' && states'[|states|] == states[|states| - 1]
    ensures IsCachedRun(c, ttl, states', acts', stores + [Step(ttl, states[|states| - 1], stores[|stores| - 1], op)],
              ops + [op])
  {
    var s := states[|states| - 1];
    states', acts' := Extend(c, states, acts, s, Tick(0), s);
    var stores' := stores + [Step(ttl, s, stores[|stores| - 1], op)];
    var ops' := ops + [op];
    forall k | 0 <= k < |ops'|
      ensures stores'[k + 1] == Step(ttl, states'[k + 1], stores'[k], ops'[k])
      ensures ops'[k] != Idle ==> states'[k + 1].now == states'[k].now
    {
      if k < |ops| {
        assert states'[k] == states[k] && states'[k + 1] == states[k + 1];
        assert stores'[k + 1] == stores[k + 1] && ops'[k] == ops[k];
      }
    }
  }

  datatype Source = FromCache | FromDatabase

  /** `rest` is what is left of `down`. */
  predicate Rest(down: seq<bool>, rest: seq<bool>) {
    |rest| <= |down| && rest == down[|down| - |rest|..]
  }

  predicate Unreadable(s: State, m: Memory, i: Id) {
    Served(s, m, i) && m.entries[i].copy.None?
  }

  /** Is the next Redis call going to fail? */
  predicate RedisFails(down: seq<bool>) {
    down != [] && down[0]
  }

  /** One request handler; `down` says which of its Redis calls are going to fail. */
  class Reader {
    const c: Config
    const ttl: nat
    const me: nat
    var world: State
    var memory: Memory
    var down: seq<bool>
    ghost var states: seq<State>
    ghost var acts: seq<Action>
    ghost var stores: seq<Memory>
    ghost var ops: seq<Op>

    ghost predicate Valid()
      reads this
    {
      && IsCachedRun(c, ttl, states, acts, stores, ops)
      && states[|states| - 1] == world && stores[|stores| - 1] == memory
    }

    constructor (c: Config, ttl: nat, me: nat, down: seq<bool>, start: State)
      requires Init(start)
      ensures Valid() && this.c == c && this.ttl == ttl && this.me == me && world == start
      ensures me !in memory.copies
    {
      this.c, this.ttl, this.me, this.down := c, ttl, me, down;
      this.world, this.memory := start, Memory(map[], map[]);
      this.states, this.acts, this.stores, this.ops := [start], [], [Memory(map[], map[])], [];
    }

    /** Since visited state `since`, the cache once served this copy. */
    ghost predicate ServedSince(since: nat, i: Id, row: Row)
      reads this
    {
      exists k :: since <= k < |states| && k < |stores| && Lookup(states[k], stores[k], i) == Some(row)
    }

    /** Since visited state `since`, this was once the committed row. */
    ghost predicate CommittedSince(since: nat, i: Id, row: Row)
      reads this
    {
      exists k :: since <= k < |states| && CommittedAt(states[k], i, row)
    }

    ghost predicate AbsentSince(since: nat, i: Id)
      reads this
    {
      exists k :: since <= k < |states| && i !in states[k].orders
    }

    /** Everybody else: any number of steps that leave this handler's own copy alone. The body does none
        of them; callers have to cope with all of them. */
    method Others()
      requires Valid()
      modifies this`world, this`memory, this`states, this`acts, this`stores, this`ops
      ensures Valid() && old(states) <= states && old(stores) <= stores
      ensures me in memory.copies <==> me in old(memory).copies
      ensures me in memory.copies ==> memory.copies[me] == old(memory).copies[me]
    {
    }

    method Act(op: Op)
      requires Valid()
      modifies this
      ensures Valid() && old(states) <= states && old(stores) <= stores
      ensures world == old(world) && memory == Step(ttl, world, old(memory), op) && down == old(down)
    {
      ghost var ss, aa := Append(c, ttl, states, acts, stores, ops, op);
      memory := Step(ttl, world, memory, op);
      states, acts, stores, ops := ss, aa, stores + [memory], ops + [op];
    }

    method Fails() returns (fails: bool)
      requires Valid()
      modifies this`down
      ensures Valid() && fails == RedisFails(old(down)) && down == if old(down) == [] then [] else old(down)[1..]
    {
      fails := RedisFails(down);
      down := if down == [] then [] else down[1..];
    }

    /** Since visited state `since`, the cache once held an unreadable entry. */
    ghost predicate UnreadableSince(since: nat, i: Id)
      reads this
    {
      exists k :: since <= k < |states| && k < |stores| && Unreadable(states[k], stores[k], i)
    }

    /** get_order: a hit, or nothing when the key is absent, unreadable or Redis is down. Only the delete of
        an unreadable entry is outside a handler: when it fails, the exception leaves the method. */
    method GetOrder(i: Id) returns (raises: bool, r: Option<Row>)
      requires Valid()
      modifies this
      ensures Valid() && old(states) <= states && old(stores) <= stores
      ensures me in memory.copies <==> me in old(memory).copies
      ensures r.Some? ==> !raises && !RedisFails(old(down)) && ServedSince(|old(states)| - 1, i, r.value)
      ensures r.None? && !raises ==> RedisFails(old(down)) || !Served(world, memory, i)
      ensures raises ==> !RedisFails(old(down)) && 1 < |old(down)| && old(down)[1]
      ensures raises ==> UnreadableSince(|old(states)| - 1, i)
      ensures Rest(old(down), down)
    {
      raises := false;
      Others();
      var fails := Fails();
      if fails {
        return false, None;
      }
      r := Lookup(world, memory, i);
      if r.Some? {
        assert Lookup(states[|states| - 1], stores[|stores| - 1], i) == r;
      } else if Served(world, memory, i) {
        assert Unreadable(states[|states| - 1], stores[|stores| - 1], i);
        raises := Discard(i);
      }
    }

    /** The unguarded delete. */
    method Discard(i: Id) returns (raises: bool)
      requires Valid()
      modifies this
      ensures Valid() && old(states) <= states && old(stores) <= stores
      ensures me in memory.copies <==> me in old(memory).copies
      ensures raises == RedisFails(old(down)) && (!raises ==> i !in memory.entries)
      ensures down == if old(down) == [] then [] else old(down)[1..]
    {
      Others();
      raises := Fails();
      if !raises {
        Act(Drop(i));
      }
    }

    /** put_order: the copy in hand goes to Redis, or is lost when the call fails. */
    method PutOrder() returns (stored: bool)
      requires Valid() && me in memory.copies
      modifies this
      ensures Valid() && old(states) <= states && old(stores) <= stores
      ensures me !in memory.copies && stored == !RedisFails(old(down))
      ensures var copy := old(memory).copies[me];
              stored ==> && copy.i in memory.entries
                         && memory.entries[copy.i] == Entry(Some(copy.row), world.now + ttl, copy.since)
    {
      Others();
      var fails := Fails();
      Act(if fails then Forget(me) else Put(me));
      stored := !fails;
    }

    /** The cache holds this copy for its full time to live. */
    ghost predicate Refilled(i: Id, row: Row)
      reads this
    {
      i in memory.entries && memory.entries[i].copy == Some(row) && memory.entries[i].expiry == world.now + ttl
    }

    /** read_order: a copy the cache served during the call, or else the row that the database held
        during the call; nothing only when the database held no such order, or when the delete of an
        unreadable entry raised. */
    method ReadOrder(i: Id) returns (raises: bool, r: Option<Row>, source: Source)
      requires Valid() && me !in memory.copies
      modifies this
      ensures Valid() && old(states) <= states && old(stores) <= stores && me !in memory.copies
      ensures r.Some? && source == FromCache ==> ServedSince(|old(states)| - 1, i, r.value)
      ensures r.Some? && source == FromDatabase ==> CommittedSince(|old(states)| - 1, i, r.value)
      ensures r.None? && !raises ==> AbsentSince(|old(states)| - 1, i)
      ensures raises ==> r.None? && UnreadableSince(|old(states)| - 1, i)
      ensures r.Some? && source == FromDatabase ==>
                Refilled(i, r.value) || exists k :: 0 <= k < |old(down)| && old(down)[k]
    {
      raises, r := GetOrder(i);
      if raises || r.Some? {
        return raises, r, FromCache;
      }
      Others();
      if i !in world.orders {
        assert i !in states[|states| - 1].orders;
        return false, None, FromDatabase;
      }
      assert CommittedAt(states[|states| - 1], i, world.orders[i]);
      var row := LoadAndPut(i);
      return false, Some(row), FromDatabase;
    }

    method LoadAndPut(i: Id) returns (row: Row)
      requires Valid() && me !in memory.copies && i in world.orders
      modifies this
      ensures Valid() && old(states) <= states && old(stores) <= stores && me !in memory.copies
      ensures row == old(world).orders[i]
      ensures !RedisFails(old(down)) ==> Refilled(i, row)
    {
      row := world.orders[i];
      Act(Load(me, i));
      var _ := PutOrder();
    }
  }

  /** What a reader may rely on: the answer was the committed row less than ttl + d before some moment
      of the call, and its trail never disagrees with the stored one. */
  lemma AnswersAreRecent(c: Config, ttl: nat, d: nat, states: seq<State>, acts: seq<Action>, stores: seq<Memory>,
                         ops: seq<Op>, since: nat, i: Id, row: Row)
    returns (k: nat, n: nat)
    requires 1 <= c.maxAttempts && 1 <= ttl && IsCachedRun(c, ttl, states, acts, stores, ops)
    requires Prompt(d, states, stores)
    requires (exists m :: since <= m < |states| && Lookup(states[m], stores[m], i) == Some(row))
             || (exists m :: since <= m < |states| && CommittedAt(states[m], i, row))
    ensures since <= n < |states| && k <= n && states[n].now - ttl - d < states[k].now && CommittedAt(states[k], i, row)
    ensures i in states[|states| - 1].orders && row.trail <= states[|states| - 1].orders[i].trail
  {
    if m :| since <= m < |states| && CommittedAt(states[m], i, row) {
      k, n := m, m;
    } else {
      n :| since <= n < |states| && Lookup(states[n], stores[n], i) == Some(row);
      k := BoundedStaleness(c, ttl, d, states, acts, stores, ops, n, i);
    }
    Theorems.TrailOnlyGrows(c, states, acts, k, |states| - 1, i);
  }
}
