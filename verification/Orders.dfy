/** The order row and its append-only audit trail (app/repository.py, app/models.py).
    `Row` is the committed value; `OrderRow` is the object that a session mutates in place. */
module Orders {
  import opened Wrappers

  datatype Status = Pending | Processing | Completed | Failed

  predicate Terminal(st: Status) {
    st == Completed || st == Failed
  }

  /** One audit-trail entry; the first hop of an order has no origin. */
  datatype Hop = Hop(origin: Option<Status>, target: Status)

  datatype Row = Row(status: Status, attempts: nat, reason: Option<string>, trail: seq<Hop>)

  const NewRow := Row(Pending, 0, None, [Hop(None, Pending)])

  /** The row after `transition`: attempts only when given, the reason always overwritten. */
  function Moved(row: Row, target: Status, attempts: Option<nat>, reason: Option<string>): Row {
    Row(target,
        if attempts.Some? then attempts.value else row.attempts,
        reason,
        row.trail + [Hop(Some(row.status), target)])
  }

  /** The hops the design allows. A processing row may be re-entered by a redelivery. */
  predicate Allowed(hop: Hop) {
    match hop.origin
    case None => hop.target == Pending
    case Some(st) => st == Processing || (st == Pending && hop.target == Processing)
  }

  ghost predicate TrailOk(trail: seq<Hop>) {
    && 0 < |trail|
    && trail[0].origin.None?
    && (forall k :: 0 <= k < |trail| ==> Allowed(trail[k]))
    && (forall k :: 0 < k < |trail| ==> trail[k].origin == Some(trail[k - 1].target))
  }

  /** The trail is a linked path of allowed hops that ends in the row's status. */
  ghost predicate RowOk(row: Row) {
    TrailOk(row.trail) && row.trail[|row.trail| - 1].target == row.status
  }

  function TerminalHops(trail: seq<Hop>): nat {
    if trail == [] then 0
    else TerminalHops(trail[..|trail| - 1]) + (if Terminal(trail[|trail| - 1].target) then 1 else 0)
  }

  /** A transition keeps a well-formed row well formed exactly when its hop is allowed. */
  lemma MovedKeepsRowOk(row: Row, target: Status, attempts: Option<nat>, reason: Option<string>)
    requires RowOk(row)
    ensures RowOk(Moved(row, target, attempts, reason)) <==> Allowed(Hop(Some(row.status), target))
  {
    var trail := Moved(row, target, attempts, reason).trail;
    assert trail[|trail| - 1] == Hop(Some(row.status), target);
  }

  lemma {:induction false} NoTerminalHops(trail: seq<Hop>)
    requires forall k :: 0 <= k < |trail| ==> !Terminal(trail[k].target)
    ensures TerminalHops(trail) == 0
  {
    if trail != [] {
      NoTerminalHops(trail[..|trail| - 1]);
    }
  }

  /** A well-formed trail holds a terminal hop exactly when the row is terminal, and then just one. */
  lemma OneTerminalHop(row: Row)
    requires RowOk(row)
    ensures TerminalHops(row.trail) == if Terminal(row.status) then 1 else 0
  {
    var trail := row.trail;
    var init := trail[..|trail| - 1];
    forall k | 0 <= k < |init|
      ensures !Terminal(init[k].target)
    {
      assert trail[k + 1].origin == Some(trail[k].target) && Allowed(trail[k + 1]);
    }
    NoTerminalHops(init);
  }

  /** The mapped object: create_order builds it, transition changes it in place. */
  class OrderRow {
    var status: Status
    var attempts: nat
    var reason: Option<string>
    var trail: seq<Hop>

    function View(): Row
      reads this
    {
      Row(status, attempts, reason, trail)
    }

    constructor ()
      ensures View() == NewRow && RowOk(View())
      ensures status == Pending && attempts == 0 && reason == None && |trail| == 1
    {
      status, attempts, reason := Pending, 0, None;
      trail := [Hop(None, Pending)];
    }

    /** Move to a new status and record the hop; earlier entries stay as they are. */
    method Transition(target: Status, count: Option<nat>, why: Option<string>)
      modifies this
      ensures View() == Moved(old(View()), target, count, why)
      ensures status == target && reason == why && (count.None? ==> attempts == old(attempts))
      ensures count.Some? ==> attempts == count.value
      ensures old(trail) < trail && trail[|trail| - 1] == Hop(Some(old(status)), status)
      ensures old(RowOk(View())) ==> (RowOk(View()) <==> Allowed(Hop(Some(old(status)), target)))
    {
      ghost var before := View();
      var origin := status;
      status := target;
      if count.Some? {
        attempts := count.value;
      }
      reason := why;
      trail := trail + [Hop(Some(origin), target)];
      if RowOk(before) {
        MovedKeepsRowOk(before, target, count, why);
      }
    }
  }
}
