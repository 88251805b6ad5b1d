/** The manual-commit consume loop (app/kafka/consumers.py, BaseConsumer.run and _safe_handle). */
module ConsumeLoop {
  import Pipeline

  /** What handling one record leads to; a cancellation is no ordinary exception and ends the loop. */
  datatype Verdict = Commits | Redelivers | Throws | Cancels

  /** Where the inner loop goes after one record. */
  datatype Outcome = Advanced | Rewound | Ended

  /** One partition's share of a poll: up to `limit` records from the consumer's position. */
  datatype Share = Share(part: nat, limit: nat)

  /** What an observer of the broker and the handlers sees. */
  datatype Event =
    | Acknowledged(part: nat, off: nat, commit: bool)
    | Committed(part: nat, next: nat)

  // ---------------------------------------------------------------- the discipline

  /** May `e` follow history `h` when the committed offsets are `offsets`? A record is only handled at
      its partition's committed offset, and an offset is only committed right after the record below
      it was acknowledged. */
  predicate Follows(h: seq<Event>, offsets: seq<nat>, e: Event) {
    match e
    case Acknowledged(part, off, _) => part < |offsets| && off == offsets[part]
    case Committed(part, next) =>
      && part < |offsets| && next == offsets[part] + 1
      && h != [] && h[|h| - 1] == Acknowledged(part, next - 1, true)
  }

  function Next(offsets: seq<nat>, e: Event): seq<nat> {
    if e.Committed? && e.part < |offsets| then offsets[e.part := e.next] else offsets
  }

  /** The committed offsets after a history. */
  function Offsets(start: seq<nat>, h: seq<Event>): (r: seq<nat>)
    ensures |r| == |start|
  {
    if h == [] then start else Next(Offsets(start, h[..|h| - 1]), h[|h| - 1])
  }

  predicate Disciplined(start: seq<nat>, h: seq<Event>) {
    h == [] ||
    (var init := h[..|h| - 1]; Disciplined(start, init) && Follows(init, Offsets(start, init), h[|h| - 1]))
  }

  lemma Append(start: seq<nat>, h: seq<Event>, e: Event)
    requires Disciplined(start, h) && Follows(h, Offsets(start, h), e)
    ensures Disciplined(start, h + [e]) && Offsets(start, h + [e]) == Next(Offsets(start, h), e)
  {
    assert (h + [e])[..|h|] == h;
  }

  lemma {:induction false} EveryEventFollows(start: seq<nat>, h: seq<Event>, k: nat)
    requires Disciplined(start, h) && k < |h|
    ensures Follows(h[..k], Offsets(start, h[..k]), h[k])
  {
    var init := h[..|h| - 1];
    if k < |init| {
      EveryEventFollows(start, init, k);
      assert init[..k] == h[..k];
    }
  }

  // ---------------------------------------------------------------- what the discipline buys

  /** Offset safety: every record below a committed offset was acknowledged COMMIT. */
  lemma {:induction false} BelowIsAcknowledged(start: seq<nat>, h: seq<Event>, part: nat, off: nat)
    requires Disciplined(start, h) && part < |start| && start[part] <= off < Offsets(start, h)[part]
    ensures Acknowledged(part, off, true) in h
  {
    if h == [] {
    } else {
      var init, e := h[..|h| - 1], h[|h| - 1];
      if off < Offsets(start, init)[part] {
        BelowIsAcknowledged(start, init, part, off);
      } else {
        assert e == Committed(part, off + 1) && init[|init| - 1] == Acknowledged(part, off, true);
      }
    }
  }

  /** A committed offset never moves back. */
  lemma {:induction false} OffsetsNeverMoveBack(start: seq<nat>, h: seq<Event>, m: nat, n: nat, part: nat)
    requires Disciplined(start, h) && m <= n <= |h| && part < |start|
    ensures Offsets(start, h[..m])[part] <= Offsets(start, h[..n])[part]
    decreases n
  {
    if m < n {
      OffsetsNeverMoveBack(start, h, m, n - 1, part);
      assert h[..n][..n - 1] == h[..n - 1];
      EveryEventFollows(start, h, n - 1);
    }
  }

  /** Acknowledgements follow offset order: a partition never acknowledges a lower offset later. */
  lemma AcknowledgedInOrder(start: seq<nat>, h: seq<Event>, m: nat, n: nat)
    requires Disciplined(start, h) && m <= n < |h|
    requires h[m].Acknowledged? && h[n].Acknowledged? && h[m].part == h[n].part
    ensures h[m].off <= h[n].off
  {
    EveryEventFollows(start, h, m);
    EveryEventFollows(start, h, n);
    OffsetsNeverMoveBack(start, h, m, n, h[m].part);
  }

  /** The step system lets a live consumer take only the record at the committed offset. The loop needs no
      more: every record that it handles is there when it is handled. */
  lemma HandledIsTaken(c: Pipeline.Config, s: Pipeline.State, tp: Pipeline.Tp, w: Pipeline.Agent,
                       start: seq<nat>, h: seq<Event>, k: nat)
    requires Disciplined(start, h) && k < |h| && h[k].Acknowledged? && h[k].part < |start|
    requires Pipeline.LogOf(s, tp).done == Offsets(start, h[..k])[h[k].part] < |Pipeline.LogOf(s, tp).recs|
    requires w !in s.jobs && Pipeline.LogOf(s, tp).owner == w
    ensures Pipeline.Take(w, tp, h[k].off, Pipeline.LogOf(s, tp).epoch) in Pipeline.Moves(c, s)
  {
    EveryEventFollows(start, h, k);
  }

  // ---------------------------------------------------------------- the loop

  /** A poll names each partition at most once. */
  ghost predicate Distinct(poll: seq<Share>) {
    forall m, n :: 0 <= m < n < |poll| ==> poll[m].part != poll[n].part
  }

  /** How many records a poll, and the first `n` polls, ask of a partition. */
  function Wanted(poll: seq<Share>, part: nat): nat {
    if poll == [] then 0 else if poll[0].part == part then poll[0].limit else Wanted(poll[1..], part)
  }

  function WantedInAll(polls: seq<seq<Share>>, n: nat, part: nat): nat
    requires n <= |polls|
  {
    if n == 0 then 0 else WantedInAll(polls, n - 1, part) + Wanted(polls[n - 1], part)
  }

  lemma {:induction false} WantedAt(poll: seq<Share>, m: nat)
    requires Distinct(poll) && m < |poll|
    ensures Wanted(poll, poll[m].part) == poll[m].limit
  {
    if 0 < m {
      WantedAt(poll[1..], m - 1);
    }
  }

  lemma {:induction false} WantedNot(poll: seq<Share>, part: nat)
    requires forall m :: 0 <= m < |poll| ==> poll[m].part != part
    ensures Wanted(poll, part) == 0
  {
    if poll != [] {
      WantedNot(poll[1..], part);
    }
  }

  /** Where `wanted` more records lead from offset `at` of a partition of the given size. */
  function Reached(at: nat, size: nat, wanted: nat): nat {
    if at + wanted <= size then at + wanted else if at <= size then size else at
  }

  /** From share `m` on a poll's records are fetched and not handled; elsewhere nothing is. */
  ghost predicate Pending(poll: seq<Share>, counts: seq<nat>, m: nat, position: seq<nat>, committed: seq<nat>) {
    && |counts| == |poll| && |position| == |committed|
    && (forall k :: m <= k < |poll| ==>
         poll[k].part < |position| && position[poll[k].part] == committed[poll[k].part] + counts[k])
    && (forall p :: 0 <= p < |position| && (forall k :: m <= k < |poll| ==> poll[k].part != p) ==>
         position[p] == committed[p])
  }

  lemma OneLessPending(poll: seq<Share>, counts: seq<nat>, m: nat, pos: seq<nat>, com: seq<nat>, pos': seq<nat>,
                       com': seq<nat>)
    requires m < |poll| && Distinct(poll) && Pending(poll, counts, m, pos, com)
    requires |pos'| == |com'| == |pos| && pos'[poll[m].part] == com'[poll[m].part]
    requires forall p :: 0 <= p < |pos| && p != poll[m].part ==> pos'[p] == pos[p] && com'[p] == com[p]
    ensures Pending(poll, counts, m + 1, pos', com')
  {
    forall p | 0 <= p < |pos| && p != poll[m].part && (forall k :: m + 1 <= k < |poll| ==> poll[k].part != p)
      ensures pos'[p] == com'[p]
    {
      assert forall k :: m <= k < |poll| ==> poll[k].part != p;
    }
  }

  /** One member of the group. What the outside world decides (the verdict of a handler, the stop
      flag, a failing commit) is drawn from oracles, consulted at a tick that grows with every draw. */
  class Consumer {
    const sizes: seq<nat>            // records per partition
    const verdict: nat -> Verdict
    const stopping: nat -> bool
    const commitFails: nat -> bool
    var tick: nat
    var position: seq<nat>           // next offset to fetch
    var committed: seq<nat>          // the group's committed offsets
    ghost const start: seq<nat>      // committed offsets when the consumer joined
    ghost var history: seq<Event>

    ghost predicate Valid()
      reads this`position, this`committed, this`history
    {
      && |position| == |committed| == |sizes| == |start|
      && Disciplined(start, history)
      && committed == Offsets(start, history)
    }

    /** Whatever ends `run` before its polls are through. */
    predicate Interrupts(t: nat) {
      stopping(t) || verdict(t) == Cancels || commitFails(t)
    }

    ghost predicate Interrupted(since: nat)
      reads this`tick
    {
      exists t :: since <= t < tick && Interrupts(t)
    }

    /** Nothing ever goes wrong. */
    ghost predicate Smooth() {
      forall t :: !Interrupts(t) && verdict(t) == Commits
    }

    /** Exactly the records from the committed offset up to `ahead` more are fetched. */
    ghost predicate Ahead(part: nat, ahead: nat)
      reads this`position, this`committed
    {
      part < |position| && part < |committed| && position[part] == committed[part] + ahead
    }

    /** A consumer that joins the group starts from the committed offsets. */
    constructor (sizes: seq<nat>, committed: seq<nat>,
                 verdict: nat -> Verdict, stopping: nat -> bool, commitFails: nat -> bool)
      requires |sizes| == |committed|
      ensures Valid() && history == [] && start == committed && this.committed == committed && this.sizes == sizes
      ensures this.verdict == verdict && this.stopping == stopping && this.commitFails == commitFails && tick == 0
      ensures position == committed
    {
      this.sizes, this.verdict, this.stopping, this.commitFails := sizes, verdict, stopping, commitFails;
      this.position, this.committed, this.tick := committed, committed, 0;
      this.start, this.history := committed, [];
    }

    method Observe(e: Event)
      requires Valid() && Follows(history, committed, e)
      modifies this`history, this`committed
      ensures Valid() && history == old(history) + [e] && old(history) <= history
      ensures committed == Next(old(committed), e)
    {
      Append(start, history, e);
      history := history + [e];
      committed := Next(committed, e);
    }

    method Stopping() returns (stop: bool)
      modifies this`tick
      ensures stop == stopping(old(tick)) && tick == old(tick) + 1
      ensures stop ==> Interrupts(old(tick))
    {
      stop := stopping(tick);
      tick := tick + 1;
    }

    /** getmany: hand out the next records of the polled partitions and move the positions past them. */
    method Fetch(poll: seq<Share>) returns (counts: seq<nat>)
      requires Valid() && Distinct(poll)
      requires forall m :: 0 <= m < |poll| ==> poll[m].part < |sizes|
      modifies this`position
      ensures Valid() && |counts| == |poll|
      ensures forall m :: 0 <= m < |poll| ==> position[poll[m].part] == old(position)[poll[m].part] + counts[m]
      ensures forall p :: 0 <= p < |sizes| ==> position[p] == Reached(old(position)[p], sizes[p], Wanted(poll, p))
      ensures forall p :: 0 <= p < |sizes| && (forall m :: 0 <= m < |poll| ==> poll[m].part != p)
                ==> position[p] == old(position)[p]
    {
      counts := [];
      for m := 0 to |poll|
        invariant Valid() && |counts| == m
        invariant forall k :: 0 <= k < m ==>
                    && position[poll[k].part] == old(position)[poll[k].part] + counts[k]
                    && position[poll[k].part] == Reached(old(position)[poll[k].part], sizes[poll[k].part],
                         poll[k].limit)
        invariant forall p :: 0 <= p < |sizes| && (forall k :: 0 <= k < m ==> poll[k].part != p)
                    ==> position[p] == old(position)[p]
      {
        var part := poll[m].part;
        var left := if position[part] <= sizes[part] then sizes[part] - position[part] else 0;
        var count := if poll[m].limit < left then poll[m].limit else left;
        position := position[part := position[part] + count];
        counts := counts + [count];
      }
      forall p | 0 <= p < |sizes|
        ensures position[p] == Reached(old(position)[p], sizes[p], Wanted(poll, p))
      {
        if m :| 0 <= m < |poll| && poll[m].part == p {
          WantedAt(poll, m);
        } else {
          WantedNot(poll, p);
        }
      }
    }

    /** Handle the fetched record at `off` and, on COMMIT, commit `off + 1`. The discipline asks that `off`
        is the committed offset, and it is for the loops below to see to that. */
    method HandleOne(part: nat, off: nat) returns (outcome: Outcome)
      requires Valid() && part < |sizes| && off == committed[part]
      modifies this`tick, this`committed, this`history
      ensures Valid() && old(history) <= history
      ensures committed == if outcome == Advanced then old(committed)[part := off + 1] else old(committed)
      ensures outcome == Rewound ==> history != [] && history[|history| - 1] == Acknowledged(part, off, false)
      ensures old(tick) <= tick && (outcome == Ended ==> Interrupted(old(tick)))
      ensures stopping(old(tick)) ==> outcome == Ended && history == old(history)
      ensures !stopping(old(tick)) && verdict(old(tick) + 1) in {Redelivers, Throws} ==> outcome == Rewound
      ensures outcome == Advanced ==>
                history == old(history) + [Acknowledged(part, off, true), Committed(part, off + 1)]
      ensures Smooth() ==> outcome == Advanced
    {
      var stop := Stopping();
      var v := verdict(tick);
      var fails := commitFails(tick);
      tick := tick + 1;
      if stop || v == Cancels {
        assert Interrupts(old(tick)) || Interrupts(old(tick) + 1);
        return Ended;
      }
      assert Follows(history, committed, Acknowledged(part, off, v == Commits));
      Observe(Acknowledged(part, off, v == Commits));
      if v != Commits {
        return Rewound;
      }
      if fails {
        assert Interrupts(old(tick) + 1);
        return Ended;
      }
      Observe(Committed(part, off + 1));
      return Advanced;
    }

    /** The inner loop over one partition's fetched records. Returns false when `run` ends here:
        stopped, cancelled, or a commit that raised. */
    method HandleShare(part: nat, count: nat) returns (goOn: bool)
      requires Valid() && part < |sizes| && Ahead(part, count)
      modifies this
      ensures Valid() && old(history) <= history
      ensures forall p :: 0 <= p < |sizes| && p != part ==>
                position[p] == old(position)[p] && committed[p] == old(committed)[p]
      ensures goOn ==> Ahead(part, 0)
      ensures goOn && committed[part] < old(position)[part] ==>
                history != [] && history[|history| - 1] == Acknowledged(part, committed[part], false)
      ensures old(tick) <= tick && (!goOn ==> Interrupted(old(tick)))
      ensures Smooth() ==> goOn && committed[part] == old(position)[part]
    {
      var first := position[part] - count;
      for k := 0 to count
        invariant Valid() && old(history) <= history
        invariant position == old(position) && Ahead(part, count - k) && old(tick) <= tick
        invariant forall p :: 0 <= p < |sizes| && p != part ==> committed[p] == old(committed)[p]
      {
        var outcome := HandleOne(part, first + k);
        if outcome == Ended {
          return false;
        }
        if outcome == Rewound {
          position := position[part := first + k];
          return true;
        }
      }
      return true;
    }

    lemma AllAcknowledged()
      requires Valid()
      ensures forall p, off :: 0 <= p < |sizes| && start[p] <= off < committed[p] ==>
                Acknowledged(p, off, true) in history
    {
      forall p, off | 0 <= p < |sizes| && start[p] <= off < committed[p]
        ensures Acknowledged(p, off, true) in history
      {
        BelowIsAcknowledged(start, history, p, off);
      }
    }

    /** The outer loop: poll after poll, partition after partition, until stopped. */
    method Run(polls: seq<seq<Share>>) returns (ended: bool)
      requires Valid() && position == committed
      requires forall n :: 0 <= n < |polls| ==> Distinct(polls[n])
      requires forall n, m :: 0 <= n < |polls| && 0 <= m < |polls[n]| ==> polls[n][m].part < |sizes|
      modifies this
      ensures Valid() && old(history) <= history
      ensures forall p, off :: 0 <= p < |sizes| && start[p] <= off < committed[p] ==>
                Acknowledged(p, off, true) in history
      ensures if ended then Interrupted(old(tick)) else position == committed
      ensures polls != [] && stopping(old(tick)) ==> ended && history == old(history)
      ensures Smooth() ==> !ended && forall p :: 0 <= p < |sizes| ==>
                committed[p] == Reached(old(committed)[p], sizes[p], WantedInAll(polls, |polls|, p))
    {
      for n := 0 to |polls|
        invariant Valid() && old(history) <= history
        invariant position == committed && old(tick) <= tick
        invariant if n == 0 then tick == old(tick) && history == old(history) else !stopping(old(tick))
        invariant Smooth() ==> forall p :: 0 <= p < |sizes| ==>
                    committed[p] == Reached(old(committed)[p], sizes[p], WantedInAll(polls, n, p))
      {
        var stop := Stopping();
        if stop {
          AllAcknowledged();
          return true;
        }
        var goOn := HandlePoll(polls[n]);
        if !goOn {
          AllAcknowledged();
          return true;
        }
      }
      AllAcknowledged();
      return false;
    }

    /** One turn of the outer loop. */
    method HandlePoll(poll: seq<Share>) returns (goOn: bool)
      requires Valid() && Distinct(poll)
      requires position == committed
      requires forall m :: 0 <= m < |poll| ==> poll[m].part < |sizes|
      modifies this
      ensures Valid() && old(history) <= history
      ensures goOn ==> position == committed
      ensures old(tick) <= tick && (!goOn ==> Interrupted(old(tick)))
      ensures Smooth() ==> goOn && forall p :: 0 <= p < |sizes| ==>
                committed[p] == Reached(old(committed)[p], sizes[p], Wanted(poll, p))
    {
      var counts := Fetch(poll);
      ghost var fetched := position;
      for m := 0 to |poll|
        invariant Valid() && old(history) <= history
        invariant Pending(poll, counts, m, position, committed)
        invariant old(tick) <= tick && (Smooth() ==> position == fetched)
      {
        ghost var before, offsets := position, committed;
        goOn := HandleShare(poll[m].part, counts[m]);
        if !goOn {
          return;
        }
        OneLessPending(poll, counts, m, before, offsets, position, committed);
      }
      return true;
    }
  }
}
