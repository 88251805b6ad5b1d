/** submit_order (app/service.py) as code that makes one call after another while other requests and
    the whole pipeline go on. Every call may raise, with or without its effect. */
module Submissions {
  import opened Wrappers
  import opened Pipeline
  import opened BaseRuns
  import opened ClientKeys
  import opened ClientTheorems

  datatype Fortune = Fine | RaisesBefore | RaisesAfter

  lemma Append(c: Config, ttl: nat, states: seq<State>, acts: seq<Action>, desks: seq<Desk>, ops: seq<Op>, a: Action,
               op: Op)
    returns (states': seq<State>, acts': seq<Action>, desks': seq<Desk>, ops': seq<Op>)
    requires IsClientRun(c, ttl, states, acts, desks, ops)
    requires a in Moves(c, states[|states| - 1]) && Ready(desks[|desks| - 1], a, op)
    ensures IsClientRun(c, ttl, states', acts', desks', ops')
    ensures states' == states + [Perform(states[|states| - 1], a)]
    ensures var s := states[|states| - 1];
            desks' == desks + [Step(ttl, s.now, s.orders.Keys, a, desks[|desks| - 1], op)]
  {
    var s, m := states[|states| - 1], desks[|desks| - 1];
    states', acts' := states + [Perform(s, a)], acts + [a];
    desks', ops' := desks + [Step(ttl, s.now, s.orders.Keys, a, m, op)], ops + [op];
    forall k | 0 <= k < |ops'|
      ensures StepAt(c, states', acts', k)
      ensures Ready(desks'[k], acts'[k], ops'[k])
      ensures desks'[k + 1] == Step(ttl, states'[k].now, states'[k].orders.Keys, acts'[k], desks'[k], ops'[k])
    {
      if k < |ops| {
        assert StepAt(c, states, acts, k);
        assert states'[k] == states[k] && states'[k + 1] == states[k + 1] && acts'[k] == acts[k];
        assert desks'[k] == desks[k] && desks'[k + 1] == desks[k + 1] && ops'[k] == ops[k];
      }
    }
  }

  /** The key pointed at an existing order. */
  predicate Hits(s: State, m: Desk, key: string, i: Id) {
    var slot := Fetch(m, s.now, key);
    slot.Some? && slot.value.value == Some(i)
  }

  /** The key named no order: absent, expired or unreadable. */
  predicate Misses(s: State, m: Desk, key: string) {
    var slot := Fetch(m, s.now, key);
    slot.None? || slot.value.value.None?
  }

  /** The key has just been set to name the order for its full time to live. */
  predicate Stores(ttl: nat, s: State, m: Desk, key: string, i: Id) {
    key in m.slots && m.slots[key] == Slot(Some(i), s.now + ttl)
  }

  /** The first event of the order is on the main topic: the payload, the order's key, attempt 1, and no
      schedule or error. */
  predicate EventAt(s: State, part: nat, off: nat, i: Id, content: string) {
    var recs := LogOf(s, Tp(Created, part)).recs;
    && off < |recs| && recs[off].value == Event(i, content) && recs[off].key == Some(i)
    && recs[off].meta.attempt == 1 && recs[off].meta.notBefore == 0
    && recs[off].meta.error == None && recs[off].meta.origin == None
  }

  ghost predicate EventSent(s: State, part: nat, i: Id, content: string) {
    exists off :: EventAt(s, part, off, i, content)
  }

  lemma PublishSends(s: State, i: Id, part: nat, content: string)
    requires Holds(s, i, content)
    ensures EventSent(Perform(s, PublishEvent(i, part)), part, i, content)
    ensures Holds(Perform(s, PublishEvent(i, part)), i, content)
  {
    assert EventAt(Perform(s, PublishEvent(i, part)), part, |LogOf(s, Tp(Created, part)).recs|, i, content);
  }

  class Service {
    const c: Config
    const ttl: nat
    const me: Request
    var world: State
    var desk: Desk
    var fortunes: seq<Fortune>
    ghost var states: seq<State>
    ghost var acts: seq<Action>
    ghost var desks: seq<Desk>
    ghost var ops: seq<Op>

    ghost predicate Valid()
      reads this
    {
      && 1 <= c.maxAttempts
      && IsClientRun(c, ttl, states, acts, desks, ops)
      && states[|states| - 1] == world && desks[|desks| - 1] == desk
    }

    constructor (c: Config, ttl: nat, me: Request, fortunes: seq<Fortune>, start: State)
      requires 1 <= c.maxAttempts && Init(start)
      ensures Valid() && this.c == c && this.ttl == ttl && this.me == me && world == start && me !in desk.seen
    {
      this.c, this.ttl, this.me, this.fortunes := c, ttl, me, fortunes;
      this.world, this.desk := start, Opening;
      this.states, this.acts, this.desks, this.ops := [start], [], [Opening], [];
    }

    /** This request is about to make the call `stage`. */
    ghost predicate At(key: Option<string>, stage: Stage)
      reads this
    {
      me in desk.asking && desk.asking[me] == Ask(key, stage)
    }

    /** Everybody else: any number of steps that leave this request alone. The body does none of them;
        callers have to cope with all of them. */
    method Others()
      requires Valid()
      modifies this
      ensures Valid() && old(states) <= states && old(desks) <= desks
      ensures me in desk.asking <==> me in old(desk).asking
      ensures me in desk.asking ==> desk.asking[me] == old(desk).asking[me]
      ensures me in desk.seen <==> me in old(desk).seen
    {
    }

    method Act(a: Action, op: Op)
      requires Valid() && a in Moves(c, world) && Ready(desk, a, op)
      modifies this
      ensures Valid() && old(states) <= states && old(desks) <= desks
      ensures desk == Step(ttl, old(world).now, old(world).orders.Keys, a, old(desk), op)
      ensures world == Perform(old(world), a) && fortunes == old(fortunes)
    {
      ghost var ss, aa, dd, oo := Append(c, ttl, states, acts, desks, ops, a, op);
      desk := Step(ttl, world.now, world.orders.Keys, a, desk, op);
      world := Perform(world, a);
      states, acts, desks, ops := ss, aa, dd, oo;
    }

    /** The next call of this request, with the pipeline action that is its effect. */
    method Call(a: Action) returns (ok: bool)
      requires Valid() && me in desk.asking && a in Moves(c, world) && Ready(desk, a, Serve(me))
      modifies this
      ensures Valid() && old(states) <= states && old(desks) <= desks
      ensures ok ==> desk == Served(ttl, old(world).now, old(world).orders.Keys, a, old(desk), me)
      ensures ok ==> world == Perform(old(world), a)
      ensures !ok ==> me !in desk.asking
    {
      var fortune := if fortunes == [] then Fine else fortunes[0];
      fortunes := if fortunes == [] then [] else fortunes[1..];
      ok := fortune == Fine;
      match fortune
      case Fine => Act(a, Serve(me));
      case RaisesBefore => Act(Tick(0), Break(me, false));
      case RaisesAfter => Act(a, Break(me, true));
    }

    ghost predicate HitSince(since: nat, key: string, i: Id)
      reads this
    {
      exists k :: since <= k < |states| && k < |desks| && Hits(states[k], desks[k], key, i)
    }

    ghost predicate MissedSince(since: nat, key: string)
      reads this
    {
      exists k :: since <= k < |states| && k < |desks| && Misses(states[k], desks[k], key)
    }

    ghost predicate StoredSince(since: nat, key: string, i: Id)
      reads this
    {
      exists k :: since <= k < |states| && k < |desks| && Stores(ttl, states[k], desks[k], key, i)
    }

    /** _resolve_idempotency_key: the reply for a known key, or leave to go on and insert. */
    method ResolveKey(key: string) returns (ok: bool, reply: Option<Reply>)
      requires Valid() && At(Some(key), Resolve)
      modifies this
      ensures Valid() && old(states) <= states && old(desks) <= desks
      ensures !ok ==> me !in desk.asking
      ensures ok && reply.Some? ==>
                && me in desk.replies && desk.replies[me] == reply.value && reply.value.duplicate
                && reply.value.key == Some(key) && HitSince(|old(states)| - 1, key, reply.value.i)
      ensures ok && reply.None? ==> At(Some(key), Insert) && MissedSince(|old(states)| - 1, key)
    {
      Others();
      var slot := Fetch(desk, world.now, key);
      assert Misses(states[|states| - 1], desks[|desks| - 1], key)
             || Hits(states[|states| - 1], desks[|desks| - 1], key, slot.value.value.value);
      ok := Call(Tick(0));
      reply := None;
      if ok && slot.Some? {
        ok, reply := LookUp(key, slot.value.value);
      }
    }

    /** The second half: read the order that the key names. */
    method LookUp(key: string, raw: Option<Id>) returns (ok: bool, reply: Option<Reply>)
      requires Valid() && At(Some(key), Found(raw))
      modifies this
      ensures Valid() && old(states) <= states && old(desks) <= desks
      ensures !ok ==> me !in desk.asking
      ensures ok ==> if raw.Some? then reply == Some(Reply(Some(key), raw.value, true)) && me in desk.replies
                && desk.replies[me] == reply.value
                     else reply.None? && At(Some(key), Insert)
    {
      Others();
      RunKeepsDesk(c, ttl, states, acts, desks, ops, |states| - 1);
      assert AskingOk(BookOf(world), desk, me);
      ok := Call(Tick(0));
      reply := if ok && raw.Some? then Some(Reply(Some(key), raw.value, true)) else None;
    }

    /** Insert the order and commit; an id that is already taken raises. */
    method InsertOrder(key: Option<string>, i: Id, content: string) returns (ok: bool)
      requires Valid() && At(key, Insert)
      modifies this
      ensures Valid() && old(states) <= states && old(desks) <= desks
      ensures if ok then At(key, if key.Some? then Remember(i) else Announce(i)) else me !in desk.asking
      ensures ok ==> Holds(world, i, content)
    {
      Others();
      if i in world.orders || i in world.foreign {
        Act(Tick(0), Break(me, false));
        return false;
      }
      ok := Call(Create(i, content));
    }

    /** The payload of an order, once stored, is still there. */
    lemma StillHolds(m: nat, i: Id, content: string)
      requires Valid() && m < |states| && Holds(states[m], i, content)
      ensures Holds(world, i, content)
    {
      PayloadStays(c, states, acts, m, |states| - 1, i, content);
    }

    method RememberKey(key: string, i: Id) returns (ok: bool)
      requires Valid() && At(Some(key), Remember(i))
      modifies this
      ensures Valid() && old(states) <= states && old(desks) <= desks
      ensures if ok then At(Some(key), Announce(i)) && StoredSince(|old(states)| - 1, key, i) else me !in desk.asking
    {
      Others();
      ok := Call(Tick(0));
      assert ok ==> Stores(ttl, states[|states| - 1], desks[|desks| - 1], key, i);
    }

    method PublishIt(key: Option<string>, i: Id, content: string, part: nat) returns (ok: bool)
      requires Valid() && At(key, Announce(i)) && Holds(world, i, content)
      modifies this
      ensures Valid() && old(states) <= states && old(desks) <= desks
      ensures if ok then me in desk.replies && desk.replies[me] == Reply(key, i, false) else me !in desk.asking
      ensures ok ==> Holds(world, i, content) && EventSent(world, part, i, content)
    {
      ghost var before := |states| - 1;
      Others();
      StillHolds(before, i, content);
      PublishSends(world, i, part, content);
      RunKeepsDesk(c, ttl, states, acts, desks, ops, |states| - 1);
      assert AskingOk(BookOf(world), desk, me);
      RunKeepsBase(c, states, acts, |states| - 1);
      ok := Call(PublishEvent(i, part));
    }

    /** submit_order. A duplicate reply comes from a key that named the order during the call; a fresh one
        comes after a miss, with the key stored and the event published. */
    method Submit(header: Option<string>, i: Id, content: string, part: nat) returns (reply: Option<Reply>)
      requires Valid() && me !in desk.seen
      modifies this
      ensures Valid() && old(states) <= states && old(desks) <= desks
      ensures reply.Some? ==>
                && me in desk.replies && desk.replies[me] == reply.value && reply.value.key == Given(header)
                && reply.value.i in world.orders
      ensures reply.Some? && reply.value.duplicate ==>
                && Given(header).Some? && HitSince(|old(states)| - 1, Given(header).value, reply.value.i)
                && reply.value.i in desk.makers && desk.makers[reply.value.i].r != me
                     && desk.makers[reply.value.i].key == Given(header)
      ensures reply.Some? && !reply.value.duplicate ==>
                && reply.value.i == i && i in desk.makers && desk.makers[i] == Maker(me, Given(header))
                     && i in world.published
                && Holds(world, i, content) && EventSent(world, part, i, content)
                && (Given(header).Some? ==> MissedSince(|old(states)| - 1, Given(header).value)
                                            && StoredSince(|old(states)| - 1, Given(header).value, i))
    {
      Act(Tick(0), Arrive(me, header));
      reply := Submitted(Given(header), i, content, part);
      if reply.Some? {
        RepliesAreHonest(c, ttl, states, acts, desks, ops, |states| - 1, me);
      }
    }

    /** The body of submit_order, without what follows from the invariant. */
    method Submitted(key: Option<string>, i: Id, content: string, part: nat) returns (reply: Option<Reply>)
      requires Valid() && At(key, if key.Some? then Resolve else Insert)
      modifies this
      ensures Valid() && old(states) <= states && old(desks) <= desks
      ensures reply.Some? ==> me in desk.replies && desk.replies[me] == reply.value && reply.value.key == key
      ensures reply.Some? && reply.value.duplicate ==>
                key.Some? && HitSince(|old(states)| - 1, key.value, reply.value.i)
      ensures reply.Some? && !reply.value.duplicate ==>
                Holds(world, i, content) && EventSent(world, part, i, content)
      ensures reply.Some? && !reply.value.duplicate ==>
                && reply.value.i == i
                && (key.Some? ==> MissedSince(|old(states)| - 1, key.value))
                && (key.Some? ==> StoredSince(|old(states)| - 1, key.value, i))
    {
      reply := None;
      if key.Some? {
        var ok, known := ResolveKey(key.value);
        if !ok || known.Some? {
          return if ok then known else None;
        }
      }
      var ok := Register(key, i, content);
      if ok {
        ok := PublishIt(key, i, content, part);
      }
      reply := if ok then Some(Reply(key, i, false)) else None;
    }

    /** The commit and the key write. */
    method Register(key: Option<string>, i: Id, content: string) returns (ok: bool)
      requires Valid() && At(key, Insert)
      modifies this
      ensures Valid() && old(states) <= states && old(desks) <= desks
      ensures if ok then At(key, Announce(i)) && (key.Some? ==> StoredSince(|old(states)| - 1, key.value, i))
              else me !in desk.asking
      ensures ok ==> Holds(world, i, content)
    {
      ok := InsertOrder(key, i, content);
      if ok && key.Some? {
        ghost var before := |states| - 1;
        ok := RememberKey(key.value, i);
        StillHolds(before, i, content);
      }
    }
  }
}
