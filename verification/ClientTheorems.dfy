/** What client idempotency keys guarantee, and what they do not. */
module ClientTheorems {
  import opened Wrappers
  import opened Pipeline
  import opened BaseRuns
  import opened ClientKeys

  /** In every run, a duplicate reply returns an existing order that another request created with the
      same key; any other reply returns the request's own order, whose event has been published. */
  lemma RepliesAreHonest(c: Config, ttl: nat, states: seq<State>, acts: seq<Action>, desks: seq<Desk>, ops: seq<Op>,
                         n: nat, r: Request)
    requires 1 <= c.maxAttempts && IsClientRun(c, ttl, states, acts, desks, ops) && n < |states|
    requires r in desks[n].replies
    ensures var m := desks[n]; var reply := m.replies[r];
            && reply.i in states[n].orders && reply.i in m.makers && m.makers[reply.i].key == reply.key
            && (reply.duplicate ==> reply.key.Some? && m.makers[reply.i].r != r)
            && (!reply.duplicate ==> m.makers[reply.i].r == r && reply.i in states[n].published)
  {
    RunKeepsDesk(c, ttl, states, acts, desks, ops, n);
    assert ReplyOk(BookOf(states[n]), desks[n], r, desks[n].replies[r]);
  }

  // ---------------------------------------------------------------- one event per order

  /** A request that still has an event to publish has not published it. */
  ghost predicate Unsent(b: Book, m: Desk) {
    forall r :: r in m.asking && (m.asking[r].stage.Remember? || m.asking[r].stage.Announce?) ==>
      m.asking[r].stage.i !in b.published
  }

  /** What an action does to the published events, whatever state it is taken in. */
  predicate Sends(b: Book, a: Action, b': Book) {
    b'.published == if a.PublishEvent? then b.published + {a.i} else b.published
  }

  /** The stages alone see to it: the order is new when it is inserted, it belongs to one request, and that
      request is gone once it has published. */
  lemma StepKeepsUnsent(ttl: nat, now: Time, b: Book, a: Action, b': Book, m: Desk, op: Op)
    requires DeskOk(b, m) && Unsent(b, m) && b.published <= b.rows
    requires Ready(m, a, op) && Sends(b, a, b') && (a.Create? ==> a.i !in b.rows)
    ensures Unsent(b', Step(ttl, now, b.rows, a, m, op))
  {
    if op.Serve? || (op.Break? && op.effect) {
      ServeKeepsUnsent(ttl, now, b, a, b', m, op.r);
    }
  }

  lemma ServeKeepsUnsent(ttl: nat, now: Time, b: Book, a: Action, b': Book, m: Desk, r: Request)
    requires DeskOk(b, m) && Unsent(b, m) && b.published <= b.rows && r in m.asking
    requires Fits(m, a, Serve(r)) && Sends(b, a, b') && (a.Create? ==> a.i !in b.rows)
    ensures Unsent(b', Served(ttl, now, b.rows, a, m, r))
  {
    var m' := Served(ttl, now, b.rows, a, m, r);
    forall q | q in m'.asking && (m'.asking[q].stage.Remember? || m'.asking[q].stage.Announce?)
      ensures m'.asking[q].stage.i !in b'.published
    {
      assert AskingOk(b, m, q) && AskingOk(b, m, r);
    }
  }

  lemma {:induction false} RunKeepsUnsent(c: Config, ttl: nat, states: seq<State>, acts: seq<Action>,
      desks: seq<Desk>, ops: seq<Op>, n: nat)
    requires 1 <= c.maxAttempts && IsClientRun(c, ttl, states, acts, desks, ops) && n < |states|
    ensures Unsent(BookOf(states[n]), desks[n])
  {
    if 0 < n {
      assert StepAt(c, states, acts, n - 1);
      var s, a := states[n - 1], acts[n - 1];
      RunKeepsUnsent(c, ttl, states, acts, desks, ops, n - 1);
      RunKeepsDesk(c, ttl, states, acts, desks, ops, n - 1);
      RunKeepsBase(c, states, acts, n - 1);
      StepTurns(c, s, a);
      StepKeepsUnsent(ttl, s.now, BookOf(s), a, BookOf(states[n]), desks[n - 1], ops[n - 1]);
    }
  }

  lemma {:induction false} PublishedStays(c: Config, states: seq<State>, acts: seq<Action>, m: nat, n: nat, i: Id)
    requires 1 <= c.maxAttempts && IsRun(c, states, acts) && m <= n < |states| && i in states[m].published
    ensures i in states[n].published
    decreases n
  {
    if m < n {
      assert StepAt(c, states, acts, n - 1);
      PublishedStays(c, states, acts, m, n - 1, i);
      RunKeepsBase(c, states, acts, n - 1);
      StepTurns(c, states[n - 1], acts[n - 1]);
    }
  }

  /** In every run, requests publish the event of an order at most once. */
  lemma PublishedOnce(c: Config, ttl: nat, states: seq<State>, acts: seq<Action>, desks: seq<Desk>, ops: seq<Op>,
                      m: nat, n: nat)
    requires 1 <= c.maxAttempts && IsClientRun(c, ttl, states, acts, desks, ops) && m < n < |acts|
    requires acts[m].PublishEvent? && acts[n].PublishEvent?
    ensures acts[m].i != acts[n].i
  {
    assert StepAt(c, states, acts, m);
    assert StepAt(c, states, acts, n);
    RunKeepsBase(c, states, acts, m);
    StepTurns(c, states[m], acts[m]);
    PublishedStays(c, states, acts, m + 1, n, acts[m].i);
    RunKeepsUnsent(c, ttl, states, acts, desks, ops, n);
    assert Ready(desks[n], acts[n], ops[n]);
  }

  // ---------------------------------------------------------------- one order per key

  predicate Uses(m: Desk, r: Request, key: string) {
    r in m.asking && m.asking[r].key == Some(key)
  }

  /** Requests with this key do not overlap. */
  ghost predicate Alone(m: Desk, key: string) {
    forall r, q :: Uses(m, r, key) && Uses(m, q, key) ==> r == q
  }

  /** The entry of this key has not run out. */
  predicate Unexpired(now: Time, m: Desk, key: string) {
    key in m.slots ==> now < m.slots[key].expiry
  }

  /** Does a request with this key fail between the commit and the key write? */
  predicate FailsBetween(m: Desk, op: Op, key: string) {
    && op.Break? && Uses(m, op.r, key)
    && ((m.asking[op.r].stage.Insert? && op.effect) || (m.asking[op.r].stage.Remember? && !op.effect))
  }

  predicate Harms(m: Desk, op: Op, key: string) {
    op == Evict(key) || (op.Spoil? && op.key == key) || FailsBetween(m, op, key)
  }

  ghost predicate Undisturbed(states: seq<State>, desks: seq<Desk>, ops: seq<Op>, key: string)
    requires |states| == |desks| == |ops| + 1
  {
    && (forall k :: 0 <= k < |desks| ==> Alone(desks[k], key) && Unexpired(states[k].now, desks[k], key))
    && (forall k :: 0 <= k < |ops| ==> !Harms(desks[k], ops[k], key))
  }

  predicate Remembering(m: Desk, key: string, i: Id, r: Request) {
    Uses(m, r, key) && m.asking[r].stage == Remember(i)
  }

  /** At most one order was made with the key; it is stored under the key or about to be; and a request
      that is about to insert has missed nothing. */
  ghost predicate OneMade(m: Desk, key: string) {
    && (key in m.slots ==> m.slots[key].value.Some?)
    && (forall i, j :: MadeWith(m, i, Some(key)) && MadeWith(m, j, Some(key)) ==> i == j)
    && (forall i :: MadeWith(m, i, Some(key)) ==> key in m.slots || exists r :: Remembering(m, key, i, r))
    && (forall r :: Uses(m, r, key) && m.asking[r].stage.Found? ==> m.asking[r].stage.raw.Some?)
    && (forall r, i :: Uses(m, r, key) && m.asking[r].stage.Insert? ==> !MadeWith(m, i, Some(key)))
  }

  /** A step that makes no order with the key, leaves its entry alone and moves no request with the key
      other than to let it arrive or go. */
  lemma CarryOneMade(m: Desk, m': Desk, key: string)
    requires OneMade(m, key)
    requires forall i :: MadeWith(m', i, Some(key)) <==> MadeWith(m, i, Some(key))
    requires (key in m.slots <==> key in m'.slots) && (key in m.slots ==> m'.slots[key] == m.slots[key])
    requires forall r :: Uses(m', r, key) ==> (Uses(m, r, key) && m'.asking[r] == m.asking[r])
                                              || m'.asking[r].stage.Resolve? || m'.asking[r].stage.Announce?
    requires forall r, i :: Remembering(m, key, i, r) ==> Remembering(m', key, i, r)
    ensures OneMade(m', key)
  {
    forall i | MadeWith(m', i, Some(key))
      ensures key in m'.slots || exists q :: Remembering(m', key, i, q)
    {
      if key !in m.slots {
        assert MadeWith(m, i, Some(key));
        var q :| Remembering(m, key, i, q);
        assert Remembering(m', key, i, q);
      }
    }
  }

  /** GET: with the entry unexpired and nobody else at work, a miss means that no order was made. */
  lemma ResolveKeepsOneMade(ttl: nat, now: Time, b: Book, a: Action, m: Desk, r: Request, key: string)
    requires DeskOk(b, m) && OneMade(m, key) && Alone(m, key) && Unexpired(now, m, key)
    requires Uses(m, r, key) && m.asking[r].stage.Resolve?
    ensures OneMade(Served(ttl, now, b.rows, a, m, r), key)
  {
    var m' := Served(ttl, now, b.rows, a, m, r);
    assert forall i :: MadeWith(m', i, Some(key)) <==> MadeWith(m, i, Some(key));
    assert forall q :: Uses(m', q, key) <==> Uses(m, q, key);
    assert forall q, i :: Remembering(m, key, i, q) ==> Uses(m, q, key);
  }

  lemma InsertKeepsOneMade(ttl: nat, now: Time, b: Book, a: Action, m: Desk, r: Request, key: string)
    requires DeskOk(b, m) && OneMade(m, key) && Alone(m, key)
    requires Uses(m, r, key) && m.asking[r].stage.Insert? && a.Create?
    ensures OneMade(Served(ttl, now, b.rows, a, m, r), key)
  {
    var m' := Served(ttl, now, b.rows, a, m, r);
    assert forall i :: MadeWith(m', i, Some(key)) ==> i == a.i || MadeWith(m, i, Some(key));
    assert forall q :: Uses(m', q, key) <==> Uses(m, q, key);
    assert Remembering(m', key, a.i, r);
  }

  lemma RememberKeepsOneMade(ttl: nat, now: Time, b: Book, a: Action, m: Desk, r: Request, key: string)
    requires DeskOk(b, m) && OneMade(m, key) && Alone(m, key)
    requires Uses(m, r, key) && m.asking[r].stage.Remember?
    ensures OneMade(Served(ttl, now, b.rows, a, m, r), key)
  {
    var m' := Served(ttl, now, b.rows, a, m, r);
    assert forall i :: MadeWith(m', i, Some(key)) <==> MadeWith(m, i, Some(key));
    assert forall q :: Uses(m', q, key) <==> Uses(m, q, key);
  }

  lemma ServeKeepsOneMade(ttl: nat, now: Time, b: Book, a: Action, m: Desk, r: Request, key: string)
    requires DeskOk(b, m) && OneMade(m, key) && Alone(m, key) && Unexpired(now, m, key)
    requires r in m.asking && Fits(m, a, Serve(r)) && (a.Create? ==> a.i !in m.makers)
    ensures OneMade(Served(ttl, now, b.rows, a, m, r), key)
  {
    assert AskingOk(b, m, r);
    var stage := m.asking[r].stage;
    if Uses(m, r, key) && stage.Resolve? {
      ResolveKeepsOneMade(ttl, now, b, a, m, r, key);
    } else if Uses(m, r, key) && stage.Insert? {
      InsertKeepsOneMade(ttl, now, b, a, m, r, key);
    } else if Uses(m, r, key) && stage.Remember? {
      RememberKeepsOneMade(ttl, now, b, a, m, r, key);
    } else if Uses(m, r, key) {
      CarryOneMade(m, Served(ttl, now, b.rows, a, m, r), key);
    } else {
      OtherKeepsOneMade(ttl, now, b, a, m, r, key);
    }
  }

  lemma OtherKeepsOneMade(ttl: nat, now: Time, b: Book, a: Action, m: Desk, r: Request, key: string)
    requires DeskOk(b, m) && OneMade(m, key) && r in m.asking && !Uses(m, r, key)
    requires Fits(m, a, Serve(r)) && (a.Create? ==> a.i !in m.makers)
    ensures OneMade(Served(ttl, now, b.rows, a, m, r), key)
  {
    CarryOneMade(m, Served(ttl, now, b.rows, a, m, r), key);
  }

  lemma StepKeepsOneMade(ttl: nat, now: Time, b: Book, a: Action, m: Desk, op: Op, key: string)
    requires DeskOk(b, m) && OneMade(m, key) && Alone(m, key) && Unexpired(now, m, key)
    requires Ready(m, a, op) && !Harms(m, op, key) && (a.Create? ==> a.i !in m.makers)
    ensures OneMade(Step(ttl, now, b.rows, a, m, op), key)
  {
    var m' := Step(ttl, now, b.rows, a, m, op);
    if op.Serve? {
      ServeKeepsOneMade(ttl, now, b, a, m, op.r, key);
    } else if op.Break? && op.effect {
      ServeKeepsOneMade(ttl, now, b, a, m, op.r, key);
      CarryOneMade(Served(ttl, now, b.rows, a, m, op.r), m', key);
    } else {
      assert op.Arrive? && op.r in m.asking ==> AskingOk(b, m, op.r);
      CarryOneMade(m, m', key);
    }
  }

  lemma {:induction false} RunKeepsOneMade(c: Config, ttl: nat, states: seq<State>, acts: seq<Action>,
      desks: seq<Desk>, ops: seq<Op>, n: nat, key: string)
    requires 1 <= c.maxAttempts && IsClientRun(c, ttl, states, acts, desks, ops) && n < |states|
    requires Undisturbed(states, desks, ops, key)
    ensures OneMade(desks[n], key)
  {
    if 0 < n {
      assert StepAt(c, states, acts, n - 1);
      RunKeepsOneMade(c, ttl, states, acts, desks, ops, n - 1, key);
      RunKeepsDesk(c, ttl, states, acts, desks, ops, n - 1);
      assert acts[n - 1] in Moves(c, states[n - 1]);
      StepKeepsOneMade(ttl, states[n - 1].now, BookOf(states[n - 1]), acts[n - 1], desks[n - 1], ops[n - 1], key);
    }
  }

  /** If requests with a key do not overlap, its entry does not run out, and none fails between the commit
      and the key write, then at most one order exists for the key, and so at most one event. */
  lemma OneOrderPerKey(c: Config, ttl: nat, states: seq<State>, acts: seq<Action>, desks: seq<Desk>, ops: seq<Op>,
                       n: nat, key: string, i: Id, j: Id)
    requires 1 <= c.maxAttempts && IsClientRun(c, ttl, states, acts, desks, ops) && n < |states|
    requires Undisturbed(states, desks, ops, key)
    requires i in states[n].orders && j in states[n].orders
    requires i in desks[n].makers && desks[n].makers[i].key == Some(key)
    requires j in desks[n].makers && desks[n].makers[j].key == Some(key)
    ensures i == j
  {
    RunKeepsOneMade(c, ttl, states, acts, desks, ops, n, key);
    assert MadeWith(desks[n], i, Some(key)) && MadeWith(desks[n], j, Some(key));
  }

  /** Under the same premises every reply to the key names the same order. */
  lemma SameAnswerPerKey(c: Config, ttl: nat, states: seq<State>, acts: seq<Action>, desks: seq<Desk>, ops: seq<Op>,
                         n: nat, key: string, r: Request, q: Request)
    requires 1 <= c.maxAttempts && IsClientRun(c, ttl, states, acts, desks, ops) && n < |states|
    requires Undisturbed(states, desks, ops, key)
    requires r in desks[n].replies && q in desks[n].replies
    requires desks[n].replies[r].key == desks[n].replies[q].key == Some(key)
    ensures desks[n].replies[r].i == desks[n].replies[q].i
    ensures r != q ==> desks[n].replies[r].duplicate || desks[n].replies[q].duplicate
  {
    RunKeepsOneMade(c, ttl, states, acts, desks, ops, n, key);
    RepliesAreHonest(c, ttl, states, acts, desks, ops, n, r);
    RepliesAreHonest(c, ttl, states, acts, desks, ops, n, q);
    assert MadeWith(desks[n], desks[n].replies[r].i, Some(key)) && MadeWith(desks[n], desks[n].replies[q].i, Some(key));
  }

  // ---------------------------------------------------------------- exactly when there are two

  /** A request with the key whose GET has missed. */
  predicate Inserting(m: Desk, r: Request, key: string) {
    Uses(m, r, key) && m.asking[r].stage.Insert?
  }

  /** The step makes order `j` with the key although `i` was made with it before. */
  predicate MakesSecond(ttl: nat, s: State, a: Action, m: Desk, op: Op, key: string, i: Id, j: Id)
    requires Ready(m, a, op)
  {
    && i != j && MadeWith(m, i, Some(key)) && !MadeWith(m, j, Some(key))
    && MadeWith(Step(ttl, s.now, s.orders.Keys, a, m, op), j, Some(key))
  }

  ghost predicate SecondPossible(c: Config, ttl: nat, s: State, m: Desk, key: string) {
    exists a, op, i, j :: a in Moves(c, s) && Ready(m, a, op) && MakesSecond(ttl, s, a, m, op, key, i, j)
  }

  lemma SecondIsInsert(ttl: nat, s: State, a: Action, m: Desk, op: Op, key: string, i: Id, j: Id)
    requires Ready(m, a, op) && MakesSecond(ttl, s, a, m, op, key, i, j)
    ensures (op.Serve? || op.Break?) && Inserting(m, op.r, key)
  {
  }

  lemma {:induction false} Bound(used: set<Id>) returns (top: nat)
    ensures forall x :: x in used ==> x < top
  {
    top := 0;
    if x :| x in used {
      var rest := Bound(used - {x});
      top := if x < rest then rest else x + 1;
      assert forall y :: y in used ==> y == x || y in used - {x};
    }
  }

  lemma InsertMakesSecond(c: Config, ttl: nat, s: State, m: Desk, r: Request, key: string, i: Id)
    requires DeskOk(BookOf(s), m) && Inserting(m, r, key) && MadeWith(m, i, Some(key))
    ensures SecondPossible(c, ttl, s, m, key)
  {
    var j := Bound(s.orders.Keys + s.foreign);
    var a, op := Create(j, ""), Serve(r);
    assert a in Moves(c, s) && Ready(m, a, op);
    assert MakesSecond(ttl, s, a, m, op, key, i, j);
  }

  /** In every client run in which an order was made with the key, the next step can make a second one if
      and only if a request with the key is about to insert. */
  lemma SecondOrderIff(c: Config, ttl: nat, states: seq<State>, acts: seq<Action>, desks: seq<Desk>, ops: seq<Op>,
                       n: nat, key: string, i: Id)
    requires 1 <= c.maxAttempts && IsClientRun(c, ttl, states, acts, desks, ops) && n < |states|
    requires MadeWith(desks[n], i, Some(key))
    ensures SecondPossible(c, ttl, states[n], desks[n], key) <==> exists r :: Inserting(desks[n], r, key)
  {
    var s, m := states[n], desks[n];
    RunKeepsDesk(c, ttl, states, acts, desks, ops, n);
    if SecondPossible(c, ttl, s, m, key) {
      var a, op, k, j :| a in Moves(c, s) && Ready(m, a, op) && MakesSecond(ttl, s, a, m, op, key, k, j);
      SecondIsInsert(ttl, s, a, m, op, key, k, j);
    }
    if r :| Inserting(m, r, key) {
      InsertMakesSecond(c, ttl, s, m, r, key, i);
    }
  }

  /** The request's GET finds nothing, or what it found names no order. */
  predicate GetMisses(now: Time, rows: set<Id>, m: Desk, r: Request, key: string) {
    && Uses(m, r, key)
    && match m.asking[r].stage
       case Resolve => Fetch(m, now, key).None?
       case Found(raw) => raw.None? || raw.value !in rows
       case _ => false
  }

  lemma ServedMisses(ttl: nat, now: Time, rows: set<Id>, a: Action, m: Desk, r: Request, key: string)
    requires r in m.asking && Fits(m, a, Serve(r)) && Inserting(Served(ttl, now, rows, a, m, r), r, key)
    ensures GetMisses(now, rows, m, r, key)
  {
  }

  lemma StepMisses(ttl: nat, now: Time, rows: set<Id>, a: Action, m: Desk, op: Op, r: Request, key: string)
    requires Ready(m, a, op) && Inserting(Step(ttl, now, rows, a, m, op), r, key)
    ensures Inserting(m, r, key) || GetMisses(now, rows, m, r, key)
  {
    if op.Serve? && op.r == r {
      ServedMisses(ttl, now, rows, a, m, r, key);
    }
  }

  /** Every request that is about to insert with the key looked it up before and missed. */
  lemma {:induction false} InsertMeansMissed(c: Config, ttl: nat, states: seq<State>, acts: seq<Action>,
      desks: seq<Desk>, ops: seq<Op>, n: nat, r: Request, key: string)
    requires IsClientRun(c, ttl, states, acts, desks, ops) && n < |states| && Inserting(desks[n], r, key)
    ensures exists k :: 0 <= k < n && GetMisses(states[k].now, states[k].orders.Keys, desks[k], r, key)
  {
    assert 0 < n;
    var s := states[n - 1];
    StepMisses(ttl, s.now, s.orders.Keys, acts[n - 1], desks[n - 1], ops[n - 1], r, key);
    if !GetMisses(s.now, s.orders.Keys, desks[n - 1], r, key) {
      InsertMeansMissed(c, ttl, states, acts, desks, ops, n - 1, r, key);
    }
  }
}
