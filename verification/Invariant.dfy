/** The inductive invariant that ties guard keys, order rows, topics and offsets together. */
module Invariant {
  import opened Wrappers
  import opened Orders
  import opened Pipeline
  import Headers

  /** Position of a record on the retry ladder: created(1) < retry(2) < created(2) < retry(3) < ... */
  function Rank(topic: Topic, attempt: nat): int {
    if topic == Retry then 2 * attempt - 1 else 2 * attempt
  }

  predicate Carries(s: State, i: Id, floor: int, tp: Tp, off: nat) {
    && tp.topic != Dlq
    && LogOf(s, tp).done <= off < |LogOf(s, tp).recs|
    && LogOf(s, tp).recs[off].value.Event?
    && LogOf(s, tp).recs[off].value.id == i
    && floor < Rank(tp.topic, LogOf(s, tp).recs[off].meta.attempt)
  }

  /** Some uncommitted record above `floor` on the ladder still carries event `i`. */
  ghost predicate Carried(s: State, i: Id, floor: int) {
    exists tp, off :: Carries(s, i, floor, tp, off)
  }

  // ---------------------------------------------------------------- facts that hold in every run

  predicate PcFits(topic: Topic, pc: Pc, rec: Record) {
    match pc
    case Ack | Redeliver => true
    case Hold | Replay(_) => topic == Retry
    case Archive => topic == Dlq
    case PoisonDlq => topic == Created && rec.value.Poison?
    case _ => topic == Created && rec.value.Event?
  }

  /** A job holds a real record, under a lease that is either current (and then it is the partition's
      owner, at the committed offset) or fenced. */
  predicate JobWf(c: Config, s: State, w: Agent, j: Job) {
    && j.off < |LogOf(s, j.tp).recs|
    && j.rec == LogOf(s, j.tp).recs[j.off]
    && PcFits(j.tp.topic, j.pc, j.rec)
    && j.lease <= LogOf(s, j.tp).epoch
    && (j.lease == LogOf(s, j.tp).epoch ==> LogOf(s, j.tp).owner == w && LogOf(s, j.tp).done == j.off)
    && j.token < s.nextToken
    && (Retrying(j.pc) ==> j.rec.meta.attempt < c.maxAttempts)
  }

  ghost predicate JobsWf(c: Config, s: State) {
    forall w :: w in s.jobs ==> JobWf(c, s, w, s.jobs[w])
  }

  ghost predicate TokensDistinct(s: State) {
    forall w, v :: w in s.jobs && v in s.jobs && s.jobs[w].token == s.jobs[v].token ==> w == v
  }

  /** Between ACQUIRED and the release or completion of the claim. */
  predicate Holding(pc: Pc) {
    InSection(pc) && pc != MissingDlq
  }

  /** A claim that has not outlived its lock still owns the key. */
  predicate HoldsKey(s: State, j: Job) {
    Holding(j.pc) && s.now < j.expiry ==>
      j.rec.value.Event? && j.rec.value.id in s.guard && s.guard[j.rec.value.id] == Held(j.token, j.expiry)
  }

  ghost predicate KeysHeld(s: State) {
    forall w :: w in s.jobs ==> HoldsKey(s, s.jobs[w])
  }

  /** What holds of one record: ids are accounted for, and a record of an order carries its value. */
  predicate RecordOk(c: Config, s: State, topic: Topic, rec: Record) {
    && 1 <= rec.meta.attempt
    && (rec.value.Event? ==>
      var i := rec.value.id;
      && (i in s.orders || i in s.foreign)
      && (i in s.orders ==>
        && i in s.content && rec.value == s.content[i] && rec.key == Some(i)
        && rec.meta.attempt <= c.maxAttempts))
  }

  ghost predicate RecordsOk(c: Config, s: State) {
    forall tp, off :: 0 <= off < |LogOf(s, tp).recs| ==> RecordOk(c, s, tp.topic, LogOf(s, tp).recs[off])
  }

  ghost predicate Ids(s: State) {
    && (forall i :: i in s.orders ==> i !in s.foreign && i in s.content && s.content[i].Event? && s.content[i].id == i)
    && s.awaiting <= s.orders.Keys
    && s.published <= s.orders.Keys
    && (forall i :: i in s.guard ==> i in s.orders || i in s.foreign)
  }

  predicate Archived(s: State, tp: Tp, off: nat)
    requires off < |LogOf(s, tp).recs|
  {
    ArchiveEntry(tp, off, LogOf(s, tp).recs[off]) in s.archive
  }

  /** Offsets stay within the log, and every committed dead letter is archived. */
  ghost predicate LogOk(s: State, tp: Tp) {
    && LogOf(s, tp).done <= |LogOf(s, tp).recs|
    && (tp.topic == Dlq ==> forall off :: 0 <= off < LogOf(s, tp).done ==> Archived(s, tp, off))
  }

  ghost predicate OffsetsOk(s: State) {
    forall tp :: LogOk(s, tp)
  }

  predicate ArchiveAck(s: State, j: Job) {
    j.pc == Ack && j.tp.topic == Dlq ==> ArchiveEntry(j.tp, j.off, j.rec) in s.archive
  }

  ghost predicate ArchiveAcks(s: State) {
    forall w :: w in s.jobs ==> ArchiveAck(s, s.jobs[w])
  }

  ghost predicate Base(c: Config, s: State) {
    && JobsWf(c, s) && TokensDistinct(s) && KeysHeld(s)
    && RecordsOk(c, s) && Ids(s) && OffsetsOk(s) && ArchiveAcks(s)
  }

  // ---------------------------------------------------------------- facts that need the lock premise

  predicate Finished(s: State, i: Id) {
    i in s.orders && Terminal(s.orders[i].status)
  }

  predicate FailedOrder(s: State, i: Id) {
    i in s.orders && s.orders[i].status == Failed
  }

  /** What a job knows about its order's row at each call. */
  predicate RowKnown(s: State, j: Job) {
    j.rec.value.Event? ==>
      var i := j.rec.value.id;
      match j.pc
      case Fulfil | CompleteTx | RetryTx(_, _) | FailTx(_, _) =>
        i in s.orders && s.orders[i].status == Processing && s.orders[i].attempts == j.rec.meta.attempt
      case SeenMark | CompleteMark | FailMark => Finished(s, i)
      case FailDlq(_, error) =>
        FailedOrder(s, i) && s.orders[i].attempts == j.rec.meta.attempt && s.orders[i].reason == Some(error)
      case MissingMark | MissingDlq => i !in s.orders && i in s.foreign
      case _ => true
  }

  /** A job that is about to acknowledge its record leaves a finished order or a higher carrier behind. */
  ghost predicate CarrierKnown(s: State, j: Job) {
    (j.pc == Ack || j.pc == RetryRelease) && j.tp.topic != Dlq && j.rec.value.Event? && j.rec.value.id in s.orders ==>
      Finished(s, j.rec.value.id) || Carried(s, j.rec.value.id, Rank(j.tp.topic, j.rec.meta.attempt))
  }

  ghost predicate JobKnows(s: State, j: Job) {
    RowKnown(s, j) && CarrierKnown(s, j)
  }

  ghost predicate JobsKnow(s: State, i: Id) {
    forall w :: w in s.jobs && JobOf(s.jobs[w], i) ==> JobKnows(s, s.jobs[w])
  }

  ghost predicate TrailsOk(s: State, i: Id) {
    i in s.orders ==> RowOk(s.orders[i])
  }

  /** A tombstone is only ever left behind for an order that is finished or does not exist. */
  predicate TombstoneOk(s: State, i: Id) {
    i in s.guard && s.guard[i].Done? && i in s.orders ==> Finished(s, i)
  }

  ghost predicate NoLoss(s: State, i: Id) {
    i in s.published ==> Finished(s, i) || Carried(s, i, 0)
  }

  predicate DlqAt(s: State, i: Id, tp: Tp, off: nat) {
    && tp.topic == Dlq
    && off < |LogOf(s, tp).recs|
    && LogOf(s, tp).recs[off].value.Event?
    && LogOf(s, tp).recs[off].value.id == i
  }

  ghost predicate Lettered(s: State, i: Id) {
    exists tp, off :: DlqAt(s, i, tp, off)
  }

  predicate AboutToLetter(s: State, i: Id, w: Agent) {
    w in s.jobs && s.jobs[w].pc.FailDlq? && JobOf(s.jobs[w], i)
  }

  /** The text of a dead letter is the row's reason, with why there was no retry in front. */
  predicate Explains(text: string, reason: string) {
    || Headers.Clipped("retries exhausted" + ": " + reason, text)
    || Headers.Clipped("permanent failure" + ": " + reason, text)
  }

  /** The record tells of the failed row: its attempts, its reason, and where it was processed. */
  predicate Tells(rec: Record, row: Row) {
    && row.status == Failed && rec.meta.attempt == row.attempts && rec.meta.origin == Some(Created)
    && rec.meta.error.Some? && row.reason.Some? && Explains(rec.meta.error.value, row.reason.value)
  }

  /** At most one dead letter per order, and only for a failed one, of which it tells. */
  ghost predicate OneLetter(s: State, i: Id) {
    i in s.orders ==>
      && (forall tp, off: nat :: DlqAt(s, i, tp, off) ==> Tells(LogOf(s, tp).recs[off], s.orders[i]))
      && (forall tp, off, q, k :: DlqAt(s, i, tp, off) && DlqAt(s, i, q, k) ==> tp == q && off == k)
  }

  /** A job about to publish a dead letter is the only one, and none has been published or lost. */
  ghost predicate OneAuthor(s: State, i: Id) {
    && (forall w :: AboutToLetter(s, i, w) ==> FailedOrder(s, i) && i !in s.slipped && !Lettered(s, i))
    && (forall w, v :: AboutToLetter(s, i, w) && AboutToLetter(s, i, v) ==> w == v)
  }

  /** A failed order has a dead letter, an author about to publish it, or lost it to a failure. */
  ghost predicate LetterOrSlip(s: State, i: Id) {
    && (i in s.slipped ==> FailedOrder(s, i) && !Lettered(s, i))
    && (FailedOrder(s, i) ==> i in s.slipped || Lettered(s, i) || exists w :: AboutToLetter(s, i, w))
  }

  /** The archive row of a dead letter. */
  predicate Archives(entry: DeadLetter, tp: Tp, off: nat, rec: Record) {
    && entry.part == tp.part && entry.offset == off
    && entry.attempts == rec.meta.attempt && entry.error == rec.meta.error && entry.payload == rec.value
    && (rec.meta.origin.Some? ==> entry.source == rec.meta.origin.value)
    && (rec.meta.origin.None? ==> entry.source == tp.topic)
    && (rec.value.Event? ==> entry.orderId == Some(rec.value.id))
    && (rec.value.Poison? ==> entry.orderId == None)
  }

  /** What the premise for event `i` buys for event `i`. */
  ghost predicate Sound(s: State, i: Id) {
    && JobsKnow(s, i) && TrailsOk(s, i) && TombstoneOk(s, i) && NoLoss(s, i)
    && OneLetter(s, i) && OneAuthor(s, i) && LetterOrSlip(s, i)
  }
}
