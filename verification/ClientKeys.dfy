/** Client idempotency keys (app/service.py, submit_order and _resolve_idempotency_key).

    Requests run beside the pipeline. Each goes through GET key, look the order up, insert and commit,
    SET key, publish; any call may fail with or without its effect. */
module ClientKeys {
  import opened Wrappers
  import opened Pipeline
  import opened Invariant
  import opened BaseProof
  import opened BaseRuns
  import opened Frames

  type Request = nat

  /** The next call of a request. `raw` is None when the stored text is not an order id. */
  datatype Stage = Resolve | Found(raw: Option<Id>) | Insert | Remember(i: Id) | Announce(i: Id)

  /** A request in the works. */
  datatype Ask = Ask(key: Option<string>, stage: Stage)

  /** The Redis entry of a client key. */
  datatype Slot = Slot(value: Option<Id>, expiry: Time)

  datatype Maker = Maker(r: Request, key: Option<string>)

  datatype Reply = Reply(key: Option<string>, i: Id, duplicate: bool)

  /** `makers` and `seen` are history: who created which order, and all requests so far. */
  datatype Desk = Desk(
    slots: map<string, Slot>,
    asking: map<Request, Ask>,
    replies: map<Request, Reply>,
    makers: map<Id, Maker>,
    seen: set<Request>)

  datatype Op =
    | Idle
    | Arrive(r: Request, header: Option<string>)
    | Serve(r: Request)                    // the next call succeeds
    | Break(r: Request, effect: bool)      // the next call raises, or the process dies at it
    | Evict(key: string)
    | Spoil(key: string, expiry: Time)

  /** An empty header counts as none. */
  function Given(header: Option<string>): Option<string> {
    if header == Some("") then None else header
  }

  lemma GivenUnlessEmpty(header: Option<string>)
    ensures Given(header).Some? <==> header.Some? && header.value != ""
    ensures Given(header).Some? ==> Given(header) == header
  {
  }

  /** Which pipeline action goes with an operation. */
  predicate Submits(a: Action) {
    a.Create? || a.PublishEvent? || a.GiveUp?
  }

  predicate Performs(op: Op) {
    op.Serve? || (op.Break? && op.effect)
  }

  predicate Fits(m: Desk, a: Action, op: Op) {
    if Performs(op) && op.r in m.asking && m.asking[op.r].stage.Insert? then a.Create?
    else if Performs(op) && op.r in m.asking && m.asking[op.r].stage.Announce? then
      a.PublishEvent? && a.i == m.asking[op.r].stage.i
    else !Submits(a)
  }

  /** May the operation happen? Requests are told apart by their number. */
  predicate Ready(m: Desk, a: Action, op: Op) {
    && Fits(m, a, op)
    && match op
       case Arrive(r, _) => r !in m.seen
       case Serve(r) => r in m.asking
       case Break(r, _) => r in m.asking
       case _ => true
  }

  /** GET of a client key: nothing when absent or expired. */
  function Fetch(m: Desk, now: Time, key: string): Option<Slot> {
    if key in m.slots && now < m.slots[key].expiry then Some(m.slots[key]) else None
  }

  function Answer(m: Desk, r: Request, reply: Reply): Desk {
    m.(asking := m.asking - {r}, replies := m.replies[r := reply])
  }

  function Gone(m: Desk, r: Request): Desk {
    m.(asking := m.asking - {r}, replies := m.replies - {r})
  }

  function Proceed(m: Desk, r: Request, stage: Stage): Desk
    requires r in m.asking
  {
    m.(asking := m.asking[r := m.asking[r].(stage := stage)])
  }

  /** The next call of request `r` succeeds; `rows` are the orders in the database. */
  function Served(ttl: nat, now: Time, rows: set<Id>, a: Action, m: Desk, r: Request): Desk
    requires r in m.asking && (m.asking[r].stage.Insert? ==> a.Create?)
  {
    var key := m.asking[r].key;
    match m.asking[r].stage
    case Resolve =>
      var slot := if key.Some? then Fetch(m, now, key.value) else None;
      Proceed(m, r, if slot.Some? then Found(slot.value.value) else Insert)
    case Found(raw) =>
      if raw.Some? && raw.value in rows then Answer(m, r, Reply(key, raw.value, true)) else Proceed(m, r, Insert)
    case Insert =>
      var m' := m.(makers := m.makers[a.i := Maker(r, key)]);
      Proceed(m', r, if key.Some? then Remember(a.i) else Announce(a.i))
    case Remember(i) =>
      var slots := if key.Some? then m.slots[key.value := Slot(Some(i), now + ttl)] else m.slots;
      Proceed(m.(slots := slots), r, Announce(i))
    case Announce(i) => Answer(m, r, Reply(key, i, false))
  }

  /** The desk after an operation. A request that broke is gone without a reply. */
  function Step(ttl: nat, now: Time, rows: set<Id>, a: Action, m: Desk, op: Op): Desk
    requires Ready(m, a, op)
  {
    match op
    case Idle => m
    case Arrive(r, header) =>
      var key := Given(header);
      m.(asking := m.asking[r := Ask(key, if key.Some? then Resolve else Insert)], seen := m.seen + {r})
    case Serve(r) => Served(ttl, now, rows, a, m, r)
    case Break(r, effect) =>
      if effect then Gone(Served(ttl, now, rows, a, m, r), r) else Gone(m, r)
    case Evict(key) => m.(slots := m.slots - {key})
    case Spoil(key, expiry) => m.(slots := m.slots[key := Slot(None, expiry)])
  }

  const Opening := Desk(map[], map[], map[], map[], {})

  /** A pipeline run whose orders are all submitted by requests at the desk. */
  ghost predicate IsClientRun(c: Config, ttl: nat, states: seq<State>, acts: seq<Action>, desks: seq<Desk>,
                              ops: seq<Op>) {
    && IsRun(c, states, acts)
    && |desks| == |states| && |ops| == |acts|
    && desks[0] == Opening
    && forall k :: 0 <= k < |ops| ==>
         && Ready(desks[k], acts[k], ops[k])
         && desks[k + 1] == Step(ttl, states[k].now, states[k].orders.Keys, acts[k], desks[k], ops[k])
  }

  // ---------------------------------------------------------------- what a request sees of the pipeline

  /** The part of the pipeline's state that requests and the pipeline share. */
  datatype Book = Book(rows: set<Id>, awaiting: set<Id>, published: set<Id>)

  function BookOf(s: State): Book {
    Book(s.orders.Keys, s.awaiting, s.published)
  }

  predicate Turns(b: Book, a: Action, b': Book) {
    match a
    case Create(i, _) => i !in b.rows && b' == Book(b.rows + {i}, b.awaiting + {i}, b.published)
    case PublishEvent(i, _) => i in b.awaiting && b' == Book(b.rows, b.awaiting - {i}, b.published + {i})
    case GiveUp(i) => b' == Book(b.rows, b.awaiting - {i}, b.published)
    case _ => b' == b
  }

  lemma StepTurns(c: Config, s: State, a: Action)
    requires Base(c, s) && a in Moves(c, s)
    ensures Turns(BookOf(s), a, BookOf(Perform(s, a)))
  {
    if a.Work? {
      assert JobWf(c, s, a.w, s.jobs[a.w]);
      WorkShape(c, s, a.w, a.e, a.after, a.fault);
    }
  }

  // ---------------------------------------------------------------- the invariant of every run

  ghost predicate MadeNothing(m: Desk, r: Request) {
    forall i :: i in m.makers ==> m.makers[i].r != r
  }

  predicate MadeWith(m: Desk, i: Id, key: Option<string>) {
    i in m.makers && m.makers[i].key == key
  }

  ghost predicate AskingOk(b: Book, m: Desk, r: Request) {
    r in m.asking && r in m.seen &&
    var key := m.asking[r].key;
    match m.asking[r].stage
    case Resolve => key.Some? && MadeNothing(m, r)
    case Found(raw) => key.Some? && MadeNothing(m, r) && (raw.Some? ==> MadeWith(m, raw.value, key))
    case Insert => MadeNothing(m, r)
    case Remember(i) => key.Some? && i in b.awaiting && i in m.makers && m.makers[i] == Maker(r, key)
    case Announce(i) => i in b.awaiting && i in m.makers && m.makers[i] == Maker(r, key)
  }

  /** A duplicate reply names another request's order with the same key; any other reply names the
      request's own order, whose event is published. */
  predicate ReplyOk(b: Book, m: Desk, r: Request, reply: Reply) {
    && MadeWith(m, reply.i, reply.key)
    && (if reply.duplicate then reply.key.Some? && m.makers[reply.i].r != r
        else m.makers[reply.i].r == r && reply.i in b.published)
  }

  ghost predicate DeskOk(b: Book, m: Desk) {
    && m.makers.Keys == b.rows
    && (forall i :: i in m.makers ==> m.makers[i].r in m.seen)
    && (forall key :: key in m.slots && m.slots[key].value.Some? ==> MadeWith(m, m.slots[key].value.value, Some(key)))
    && (forall r :: r in m.asking ==> AskingOk(b, m, r))
    && (forall r :: r in m.replies ==> ReplyOk(b, m, r, m.replies[r]))
  }

  lemma InsertKeepsDesk(ttl: nat, now: Time, b: Book, a: Action, b': Book, m: Desk, r: Request)
    requires DeskOk(b, m) && Turns(b, a, b') && r in m.asking && m.asking[r].stage.Insert? && a.Create?
    ensures DeskOk(b', Served(ttl, now, b.rows, a, m, r))
  {
    assert AskingOk(b, m, r);
  }

  lemma ServeKeepsDesk(ttl: nat, now: Time, b: Book, a: Action, b': Book, m: Desk, r: Request)
    requires DeskOk(b, m) && Turns(b, a, b') && r in m.asking && Fits(m, a, Serve(r))
    ensures DeskOk(b', Served(ttl, now, b.rows, a, m, r))
  {
    assert AskingOk(b, m, r);
    if m.asking[r].stage.Insert? {
      InsertKeepsDesk(ttl, now, b, a, b', m, r);
    }
  }

  lemma GoneKeepsDesk(b: Book, m: Desk, r: Request)
    requires DeskOk(b, m)
    ensures DeskOk(b, Gone(m, r))
  {
    forall q | q in Gone(m, r).asking
      ensures AskingOk(b, Gone(m, r), q)
    {
      assert AskingOk(b, m, q);
    }
  }

  lemma ArriveKeepsDesk(ttl: nat, now: Time, b: Book, a: Action, m: Desk, op: Op)
    requires DeskOk(b, m) && Ready(m, a, op) && op.Arrive?
    ensures DeskOk(b, Step(ttl, now, b.rows, a, m, op))
  {
  }

  lemma StepKeepsDesk(ttl: nat, now: Time, b: Book, a: Action, b': Book, m: Desk, op: Op)
    requires DeskOk(b, m) && Turns(b, a, b') && Ready(m, a, op)
    ensures DeskOk(b', Step(ttl, now, b.rows, a, m, op))
  {
    if op.Serve? {
      ServeKeepsDesk(ttl, now, b, a, b', m, op.r);
    } else if op.Break? {
      if op.effect {
        ServeKeepsDesk(ttl, now, b, a, b', m, op.r);
        GoneKeepsDesk(b', Served(ttl, now, b.rows, a, m, op.r), op.r);
      } else {
        GoneKeepsDesk(b, m, op.r);
      }
    } else if op.Arrive? {
      ArriveKeepsDesk(ttl, now, b, a, m, op);
    }
  }

  lemma {:induction false} RunKeepsDesk(c: Config, ttl: nat, states: seq<State>, acts: seq<Action>, desks: seq<Desk>,
                                        ops: seq<Op>, n: nat)
    requires 1 <= c.maxAttempts && IsClientRun(c, ttl, states, acts, desks, ops) && n < |states|
    ensures DeskOk(BookOf(states[n]), desks[n])
  {
    if 0 < n {
      assert StepAt(c, states, acts, n - 1);
      RunKeepsDesk(c, ttl, states, acts, desks, ops, n - 1);
      RunKeepsBase(c, states, acts, n - 1);
      StepTurns(c, states[n - 1], acts[n - 1]);
      StepKeepsDesk(ttl, states[n - 1].now, BookOf(states[n - 1]), acts[n - 1], BookOf(states[n]), desks[n - 1],
          ops[n - 1]);
    }
  }

  // ---------------------------------------------------------------- payloads

  /** Order `i` was submitted with this payload. */
  predicate Holds(s: State, i: Id, content: string) {
    i in s.orders && i in s.content && s.content[i] == Event(i, content)
  }

  lemma StepKeepsPayload(c: Config, s: State, a: Action, i: Id, content: string)
    requires Base(c, s) && a in Moves(c, s) && Holds(s, i, content)
    ensures Holds(Perform(s, a), i, content)
  {
    if a.Work? {
      PerformView(s, a.w, a.e, a.after, a.fault);
    }
  }

  /** The payload of an order never changes. */
  lemma {:induction false} PayloadStays(c: Config, states: seq<State>, acts: seq<Action>, m: nat, n: nat, i: Id,
                                        content: string)
    requires 1 <= c.maxAttempts && IsRun(c, states, acts) && m <= n < |states| && Holds(states[m], i, content)
    ensures Holds(states[n], i, content)
    decreases n
  {
    if m < n {
      PayloadStays(c, states, acts, m, n - 1, i, content);
      assert StepAt(c, states, acts, n - 1);
      RunKeepsBase(c, states, acts, n - 1);
      StepKeepsPayload(c, states[n - 1], acts[n - 1], i, content);
    }
  }
}
