/** The order pipeline as a step system (app/kafka/consumers.py, app/idempotency.py, app/service.py).

    Any number of consumers take records from partitioned logs. Every Redis call, database
    transaction, publish and offset commit is one atomic step with an explicit effect. Every call
    may fail with or without having taken effect, every consumer may crash at any step, and every
    partition may be reassigned at any time. */
module Pipeline {
  import opened Wrappers
  import opened Orders
  import Headers
  import Backoff

  type Id = nat      // an event id; event `i` belongs to order `i`
  type Agent = nat
  type Token = nat
  type Time = int    // milliseconds

  datatype Config = Config(
    lockTtl: nat,
    doneTtl: nat,
    maxAttempts: nat,
    backoff: Backoff.Params)

  datatype Topic = Created | Retry | Dlq
  datatype Tp = Tp(topic: Topic, part: nat)

  /** A decoded record value: an order event, or something that fails envelope validation. */
  datatype Value = Event(id: Id, content: string) | Poison(raw: string)

  datatype Record = Record(key: Option<Id>, value: Value, meta: Headers.Meta<Topic>)

  /** One partition: its append-only records, the group's committed offset, and the assignment.
      `epoch` counts reassignments; a commit carrying an older epoch is fenced. */
  datatype Log = Log(recs: seq<Record>, done: nat, epoch: nat, owner: Agent)

  /** A guard key in Redis; it is invisible from `expiry` on. */
  datatype Key = Held(token: Token, expiry: Time) | Done(expiry: Time)

  datatype DeadLetter = DeadLetter(
    orderId: Option<Id>, source: Topic, part: nat, offset: nat, attempts: nat,
    error: Option<string>, payload: Value)

  /** Program counters, one per call that a handler is about to make. */
  datatype Pc =
    | PoisonDlq
    | ClaimSet | ClaimGet | ClaimSetAgain | ClaimGetAgain
    | Check
    | MissingMark | MissingDlq
    | SeenMark
    | Fulfil
    | CompleteTx | CompleteMark
    | RetryTx(delay: int, error: string) | RetryStamp(delay: int, error: string)
    | RetryPublish(delay: int, error: string, notBefore: Time) | RetryRelease
    | FailTx(retryable: bool, error: string) | FailDlq(retryable: bool, error: string) | FailMark
    | Abort
    | Hold | Replay(wake: Time)
    | Archive
    | Ack | Redeliver

  /** What a busy consumer holds: the record, the lease it took it under, its claim, its next call. */
  datatype Job = Job(tp: Tp, off: nat, lease: nat, rec: Record, token: Token, expiry: Time, pc: Pc)

  datatype State = State(
    now: Time,
    orders: map<Id, Row>,
    guard: map<Id, Key>,
    topics: map<Tp, Log>,
    jobs: map<Agent, Job>,
    archive: seq<DeadLetter>,
    nextToken: Token,
    // orders whose request has committed the row and not yet published the event
    awaiting: set<Id>,
    // history: ids of published events, ids of events that have no order, values as first
    // published, and orders whose dead letter was lost to a failure
    published: set<Id>,
    foreign: set<Id>,
    content: map<Id, Value>,
    slipped: set<Id>)

  function LogOf(s: State, tp: Tp): Log {
    if tp in s.topics then s.topics[tp] else Log([], 0, 0, 0)
  }

  /** GET: an expired key reads as absent. */
  function Visible(s: State, i: Id): Option<Key> {
    if i in s.guard && s.now < s.guard[i].expiry then Some(s.guard[i]) else None
  }

  /** Does the compare half of the two compare-and-set scripts succeed? */
  predicate Owns(s: State, i: Id, token: Token) {
    Visible(s, i).Some? && Visible(s, i).value.Held? && Visible(s, i).value.token == token
  }

  // ---------------------------------------------------------------- effects

  datatype Effect =
    | Quiet
    | PutKey(i: Id, key: Key)
    | DropKey(i: Id)
    | PutRow(i: Id, row: Row)
    | Publish(tp: Tp, rec: Record)
    | Commit(tp: Tp, off: nat)
    | Store(entry: DeadLetter)

  function Apply(s: State, e: Effect): State {
    match e
    case Quiet => s
    case PutKey(i, key) => s.(guard := s.guard[i := key])
    case DropKey(i) => s.(guard := s.guard - {i})
    case PutRow(i, row) => s.(orders := s.orders[i := row])
    case Publish(tp, rec) => s.(topics := s.topics[tp := LogOf(s, tp).(recs := LogOf(s, tp).recs + [rec])])
    case Commit(tp, off) => s.(topics := s.topics[tp := LogOf(s, tp).(done := off)])
    case Store(entry) => s.(archive := s.archive + [entry])
  }

  /** complete(claim): flip an owned key to the tombstone, else nothing. */
  function CompleteEffect(c: Config, s: State, i: Id, token: Token): Effect {
    if Owns(s, i, token) then PutKey(i, Done(s.now + c.doneTtl)) else Quiet
  }

  /** release(claim): delete an owned key, else nothing. */
  function ReleaseEffect(s: State, i: Id, token: Token): Effect {
    if Owns(s, i, token) then DropKey(i) else Quiet
  }

  function RetryRecord(j: Job, i: Id, notBefore: Time, error: string): Record {
    Record(Some(i), j.rec.value, Headers.Wire(j.rec.meta.attempt + 1, Some(notBefore), Some(error), Some(j.tp.topic)))
  }

  function ReplayRecord(j: Job): Record {
    Record(j.rec.key, j.rec.value, Headers.Wire(j.rec.meta.attempt, None, j.rec.meta.error, None))
  }

  function DlqRecord(j: Job, error: string): Record {
    Record(j.rec.key, j.rec.value, Headers.Wire(j.rec.meta.attempt, None, Some(error), Some(j.tp.topic)))
  }

  function FailText(retryable: bool, error: string): string {
    (if retryable then "retries exhausted" else "permanent failure") + ": " + error
  }

  function ArchiveEntry(tp: Tp, off: nat, rec: Record): DeadLetter {
    DeadLetter(if rec.value.Event? then Some(rec.value.id) else None,
               if rec.meta.origin.Some? then rec.meta.origin.value else tp.topic,
               tp.part, off, rec.meta.attempt, rec.meta.error, rec.value)
  }

  // ---------------------------------------------------------------- the handlers, call by call

  function FirstPc(topic: Topic, rec: Record): Pc {
    match topic
    case Created => if rec.value.Poison? then PoisonDlq else ClaimSet
    case Retry => Hold
    case Dlq => Archive
  }

  /** SET key token NX EX ttl, with the two ways `claim` goes on from it. */
  predicate SetNx(c: Config, s: State, j: Job, e: Effect, after: Option<Job>, lost: Pc)
    requires j.rec.value.Event?
  {
    var i := j.rec.value.id;
    if Visible(s, i).None? then
      && e == PutKey(i, Held(j.token, s.now + c.lockTtl))
      && after == Some(j.(pc := Check, expiry := s.now + c.lockTtl))
    else
      e == Quiet && after == Some(j.(pc := lost))
  }

  /** The first transaction of _process: refuse a missing or terminal order, else mark it processing. */
  predicate CheckStep(s: State, j: Job, e: Effect, after: Option<Job>)
    requires j.rec.value.Event?
  {
    var i := j.rec.value.id;
    if i !in s.orders then
      e == Quiet && after == Some(j.(pc := MissingMark))
    else if Terminal(s.orders[i].status) then
      e == Quiet && after == Some(j.(pc := SeenMark))
    else
      && e == PutRow(i, Moved(s.orders[i], Processing, Some(j.rec.meta.attempt), None))
      && after == Some(j.(pc := Fulfil))
  }

  /** fulfil succeeds, fails for good, or fails transiently; _fail then picks retry or dead letter. */
  ghost predicate FulfilStep(c: Config, j: Job, after: Option<Job>) {
    && after.Some?
    && after.value == j.(pc := after.value.pc)
    && match after.value.pc
       case CompleteTx => true
       case FailTx(retryable, _) => retryable ==> c.maxAttempts <= j.rec.meta.attempt
       case RetryTx(delay, _) =>
         j.rec.meta.attempt < c.maxAttempts && Backoff.Drawable(c.backoff, j.rec.meta.attempt, delay)
       case _ => false
  }

  predicate RowTx(s: State, j: Job, e: Effect, target: Status, reason: Option<string>)
    requires j.rec.value.Event?
  {
    var i := j.rec.value.id;
    i in s.orders && e == PutRow(i, Moved(s.orders[i], target, Some(j.rec.meta.attempt), reason))
  }

  predicate PublishTo(e: Effect, topic: Topic, rec: Record) {
    e.Publish? && e.tp.topic == topic && e.rec == rec
  }

  /** The steps of OrderConsumer after validation. `after == None` means the consumer is idle again. */
  ghost predicate OrderStep(c: Config, s: State, j: Job, e: Effect, after: Option<Job>)
    requires j.rec.value.Event?
  {
    var i := j.rec.value.id;
    match j.pc
    case ClaimSet => SetNx(c, s, j, e, after, ClaimGet)
    case ClaimSetAgain => SetNx(c, s, j, e, after, ClaimGetAgain)
    case ClaimGet =>
      && e == Quiet
      && after == Some(j.(pc := if Visible(s, i).None? then ClaimSetAgain
                                else if Visible(s, i).value.Done? then Ack else Redeliver))
    case ClaimGetAgain =>
      && e == Quiet
      && after == Some(j.(pc := if Visible(s, i).Some? && Visible(s, i).value.Done? then Ack else Redeliver))
    case Check => CheckStep(s, j, e, after)
    case MissingMark => e == CompleteEffect(c, s, i, j.token) && after == Some(j.(pc := MissingDlq))
    case MissingDlq =>
      PublishTo(e, Dlq, DlqRecord(j, "no such order")) && after == Some(j.(pc := Ack))
    case SeenMark => e == CompleteEffect(c, s, i, j.token) && after == Some(j.(pc := Ack))
    case Fulfil => e == Quiet && FulfilStep(c, j, after)
    case CompleteTx => RowTx(s, j, e, Completed, None) && after == Some(j.(pc := CompleteMark))
    case CompleteMark => e == CompleteEffect(c, s, i, j.token) && after == Some(j.(pc := Ack))
    case RetryTx(delay, error) =>
      RowTx(s, j, e, Pending, Some(error)) && after == Some(j.(pc := RetryStamp(delay, error)))
    case RetryStamp(delay, error) => e == Quiet && after == Some(j.(pc := RetryPublish(delay, error, s.now + delay)))
    case RetryPublish(_, error, notBefore) =>
      PublishTo(e, Retry, RetryRecord(j, i, notBefore, error)) && after == Some(j.(pc := RetryRelease))
    case RetryRelease => e == ReleaseEffect(s, i, j.token) && after == Some(j.(pc := Ack))
    case FailTx(retryable, error) =>
      && (if i in s.orders then RowTx(s, j, e, Failed, Some(error)) else e == Quiet)
      && after == Some(j.(pc := FailDlq(retryable, error)))
    case FailDlq(retryable, error) =>
      PublishTo(e, Dlq, DlqRecord(j, FailText(retryable, error))) && after == Some(j.(pc := FailMark))
    case FailMark => e == CompleteEffect(c, s, i, j.token) && after == Some(j.(pc := Ack))
    case Abort => e == ReleaseEffect(s, i, j.token) && after == Some(j.(pc := Redeliver))
    case _ => false
  }

  function Min(a: int, b: int): int { if a < b then a else b }

  /** One successful call of any handler or of the consume loop. */
  ghost predicate OkStep(c: Config, s: State, j: Job, e: Effect, after: Option<Job>) {
    match j.pc
    case PoisonDlq => PublishTo(e, Dlq, DlqRecord(j, "schema violation")) && after == Some(j.(pc := Ack))
    case Hold =>
      var wait := j.rec.meta.notBefore - s.now;
      && e == Quiet
      && after == Some(j.(pc := Replay(s.now + (if 0 < wait then Min(wait, Backoff.MaxMs(c.backoff)) else 0))))
    case Replay(wake) => wake <= s.now && PublishTo(e, Created, ReplayRecord(j)) && after == Some(j.(pc := Ack))
    case Archive => e == Store(ArchiveEntry(j.tp, j.off, j.rec)) && after == Some(j.(pc := Ack))
    case Ack =>
      && e == (if j.lease == LogOf(s, j.tp).epoch then Commit(j.tp, j.off + 1) else Quiet)
      && after == None
    case Redeliver => e == Quiet && after == None
    case _ => j.rec.value.Event? && OrderStep(c, s, j, e, after)
  }

  /** Between ACQUIRED and the end of the `try` around _process. */
  predicate InSection(pc: Pc) {
    match pc
    case Check | MissingMark | MissingDlq | SeenMark | Fulfil | CompleteTx | CompleteMark => true
    case RetryTx(_, _) | RetryStamp(_, _) | RetryPublish(_, _, _) | RetryRelease => true
    case FailTx(_, _) | FailDlq(_, _) | FailMark => true
    case _ => false
  }

  /** The calls of a failed attempt that will be retried, up to the publish of the next attempt. */
  predicate Retrying(pc: Pc) {
    pc.RetryTx? || pc.RetryStamp? || pc.RetryPublish?
  }

  /** Where an exception raised by the current call leads: the claim is handed back first inside the
      section, otherwise the loop redelivers; a failing commit ends the consumer. */
  function Raised(j: Job): Option<Job> {
    if j.pc == Ack then None
    else if InSection(j.pc) then Some(j.(pc := Abort))
    else Some(j.(pc := Redeliver))
  }

  /** A call that raises, or the consumer crashing at it, with or without the call's effect. */
  ghost predicate FaultStep(c: Config, s: State, j: Job, e: Effect, after: Option<Job>) {
    && (after == Raised(j) || after == None)
    && (e == Quiet || exists ok :: OkStep(c, s, j, e, ok))
  }

  /** The step after which nobody will publish the dead letter of a failed order. */
  predicate Slips(j: Job, e: Effect, after: Option<Job>) {
    && j.rec.value.Event?
    && ((j.pc.FailDlq? && !e.Publish?) || (j.pc.FailTx? && e.PutRow? && !(after.Some? && after.value.pc.FailDlq?)))
  }

  function SetJob(s: State, w: Agent, after: Option<Job>): State {
    s.(jobs := if after.Some? then s.jobs[w := after.value] else s.jobs - {w})
  }

  function Slipped(before: set<Id>, j: Job, e: Effect, after: Option<Job>): set<Id> {
    if Slips(j, e, after) then before + {j.rec.value.id} else before
  }

  /** The job moves on, and the history notes a lost dead letter. */
  function Settle(s: State, w: Agent, j: Job, e: Effect, after: Option<Job>): State {
    SetJob(s, w, after).(slipped := Slipped(s.slipped, j, e, after))
  }

  function AfterWork(s: State, w: Agent, j: Job, e: Effect, after: Option<Job>): State {
    Settle(Apply(s, e), w, j, e, after)
  }

  // ---------------------------------------------------------------- actions

  datatype Action =
    | Tick(dt: nat)
    | Create(i: Id, content: string)
    | PublishEvent(i: Id, part: nat)
    | GiveUp(i: Id)
    | Foreign(part: nat, rec: Record)
    | Assign(tp: Tp, w: Agent)
    | Take(w: Agent, tp: Tp, off: nat, lease: nat)
    | Work(w: Agent, e: Effect, after: Option<Job>, fault: bool)

  function EventRecord(i: Id, value: Value): Record {
    Record(Some(i), value, Headers.Wire(1, None, None, None))
  }

  ghost predicate Enabled(c: Config, s: State, a: Action) {
    match a
    case Tick(_) => true
    case Create(i, _) => i !in s.orders && i !in s.foreign
    case PublishEvent(i, _) => i in s.awaiting && i in s.content
    case GiveUp(i) => i in s.awaiting
    case Foreign(_, rec) => 1 <= rec.meta.attempt && (rec.value.Event? ==> rec.value.id !in s.orders)
    case Assign(_, _) => true
    case Take(w, tp, off, lease) =>
      && w !in s.jobs
      && off < |LogOf(s, tp).recs|
      && (|| (lease == LogOf(s, tp).epoch && w == LogOf(s, tp).owner && off == LogOf(s, tp).done)
          || lease < LogOf(s, tp).epoch)
    case Work(w, e, after, fault) =>
      && w in s.jobs
      && if fault then FaultStep(c, s, s.jobs[w], e, after) else OkStep(c, s, s.jobs[w], e, after)
  }

  /** The actions possible in a state. */
  ghost function Moves(c: Config, s: State): iset<Action> {
    iset a | Enabled(c, s, a)
  }

  function Perform(s: State, a: Action): State {
    match a
    case Tick(dt) => s.(now := s.now + dt)
    case Create(i, content) =>
      s.(orders := s.orders[i := NewRow], content := s.content[i := Event(i, content)],
         awaiting := s.awaiting + {i})
    case PublishEvent(i, part) =>
      if i in s.content then
        Apply(s, Publish(Tp(Created, part), EventRecord(i, s.content[i])))
        .(awaiting := s.awaiting - {i}, published := s.published + {i})
      else s
    case GiveUp(i) => s.(awaiting := s.awaiting - {i})
    case Foreign(part, rec) =>
      Apply(s, Publish(Tp(Created, part), rec))
      .(foreign := if rec.value.Event? then s.foreign + {rec.value.id} else s.foreign)
    case Assign(tp, w) =>
      s.(topics := s.topics[tp := LogOf(s, tp).(epoch := LogOf(s, tp).epoch + 1, owner := w)])
    case Take(w, tp, off, lease) =>
      if off < |LogOf(s, tp).recs| then
        var rec := LogOf(s, tp).recs[off];
        s.(jobs := s.jobs[w := Job(tp, off, lease, rec, s.nextToken, 0, FirstPc(tp.topic, rec))],
           nextToken := s.nextToken + 1)
      else s
    case Work(w, e, after, _) =>
      if w in s.jobs then AfterWork(s, w, s.jobs[w], e, after) else s
  }

  predicate Init(s: State) {
    && s.orders == map[] && s.guard == map[] && s.topics == map[] && s.jobs == map[]
    && s.archive == [] && s.awaiting == {} && s.published == {} && s.foreign == {}
    && s.content == map[] && s.slipped == {}
  }

  /** Step `k` of a run. */
  ghost predicate StepAt(c: Config, states: seq<State>, acts: seq<Action>, k: nat) {
    && k < |acts| && k + 1 < |states|
    && acts[k] in Moves(c, states[k]) && states[k + 1] == Perform(states[k], acts[k])
  }

  /** A run: the states visited and the actions between them, from an initial state. */
  ghost predicate IsRun(c: Config, states: seq<State>, acts: seq<Action>) {
    && |states| == |acts| + 1
    && Init(states[0])
    && forall k: nat :: k < |acts| ==> StepAt(c, states, acts, k)
  }

  /** The calls after which this job may still change the order row. */
  predicate Writing(pc: Pc) {
    pc == Check || Owner(pc)
  }

  /** The calls between the processing commit and the commit of the verdict. */
  predicate Owner(pc: Pc) {
    pc == Fulfil || pc == CompleteTx || pc.RetryTx? || pc.FailTx?
  }

  /** A consumer's job works on event `i`. */
  predicate JobOf(j: Job, i: Id) {
    j.rec.value.Event? && j.rec.value.id == i
  }

  /** The documented premise, for one event: nobody still about to write its order outlives its lock.
      What the holders of other events do does not matter. */
  ghost predicate Punctual(s: State, i: Id) {
    forall w :: w in s.jobs && JobOf(s.jobs[w], i) && Writing(s.jobs[w].pc) ==> s.now < s.jobs[w].expiry
  }

  ghost predicate PunctualRun(states: seq<State>, i: Id) {
    forall k :: 0 <= k < |states| ==> Punctual(states[k], i)
  }
}
