/** One event's trace over one clean step, in terms of what the step leaves alone. */
module FailureFreeProof {
  import opened Pipeline
  import opened FailureFree

  /** The event's records are the same, with the same committed ones among them. */
  ghost predicate SameRecs(s: State, t: State, i: Id) {
    && (forall tp, off: nat :: IdAt(s, i, tp, off) <==> IdAt(t, i, tp, off))
    && (forall tp, off: nat :: IdAt(s, i, tp, off) ==> LogOf(s, tp).recs[off] == LogOf(t, tp).recs[off])
  }

  ghost predicate SameDone(s: State, t: State, i: Id) {
    forall tp, off: nat :: IdAt(s, i, tp, off) ==> (off < LogOf(s, tp).done <==> off < LogOf(t, tp).done)
  }

  predicate SameHold(s: State, t: State, v: Agent, tp: Tp, off: nat) {
    && (Holds(s, v, tp, off) <==> Holds(t, v, tp, off))
    && (Holds(s, v, tp, off) ==> t.jobs[v].pc == s.jobs[v].pc)
  }

  ghost predicate SameHolders(s: State, t: State, i: Id) {
    forall v, tp, off: nat :: IdAt(s, i, tp, off) ==> SameHold(s, t, v, tp, off)
  }

  lemma RungsKept(s: State, t: State, i: Id, front: Pos)
    requires Rungs(s, i, front) && SameRecs(s, t, i)
    ensures Rungs(t, i, front)
    ensures forall tp, off: nat :: IdAt(s, i, tp, off) ==> RankAt(s, tp, off) == RankAt(t, tp, off)
  {
    forall tp, off: nat | IdAt(s, i, tp, off)
      ensures RankAt(s, tp, off) == RankAt(t, tp, off)
    {
    }
    forall r | 2 <= r <= RankAt(t, front.tp, front.off)
      ensures HasRung(t, i, r)
    {
      assert HasRung(s, i, r);
      var tp, off: nat :| IdAt(s, i, tp, off) && RankAt(s, tp, off) == r;
      assert IdAt(t, i, tp, off) && RankAt(t, tp, off) == r;
    }
  }

  lemma SpentKept(s: State, t: State, i: Id, front: Pos)
    requires Rungs(s, i, front) && Spent(s, i, front)
    requires SameRecs(s, t, i) && SameDone(s, t, i) && SameHolders(s, t, i)
    ensures Spent(t, i, front)
  {
    RungsKept(s, t, i, front);
    forall tp, off: nat | IdAt(t, i, tp, off) && RankAt(t, tp, off) < RankAt(t, front.tp, front.off)
      ensures off < LogOf(t, tp).done || HandedOver(t, tp, off)
    {
      if off >= LogOf(t, tp).done {
        assert HandedOver(s, tp, off);
        var w :| Holds(s, w, tp, off) && Handed(s.jobs[w].pc);
        assert SameHold(s, t, w, tp, off);
        assert Holds(t, w, tp, off) && Handed(t.jobs[w].pc);
      }
    }
    forall w, tp, off: nat | Holds(t, w, tp, off) && IdAt(t, i, tp, off)
        && RankAt(t, tp, off) < RankAt(t, front.tp, front.off)
      ensures Handed(t.jobs[w].pc)
    {
      assert SameHold(s, t, w, tp, off);
    }
  }

  lemma FrontKept(c: Config, o: Oracle, s: State, t: State, i: Id, front: Pos)
    requires Front(c, o, s, i, front)
    requires AttemptAt(t, front.tp, front.off) == AttemptAt(s, front.tp, front.off)
    requires front.off < LogOf(s, front.tp).done <==> front.off < LogOf(t, front.tp).done
    requires forall v :: SameHold(s, t, v, front.tp, front.off)
    requires i in t.orders && t.orders[i] == s.orders[i]
    ensures Front(c, o, t, i, front)
  {
    forall v
      ensures Holds(s, v, front.tp, front.off) <==> Holds(t, v, front.tp, front.off)
    {
      assert SameHold(s, t, v, front.tp, front.off);
    }
    forall v | Holds(t, v, front.tp, front.off)
      ensures t.jobs[v].pc == s.jobs[v].pc
    {
      assert SameHold(s, t, v, front.tp, front.off);
    }
  }

  /** A step that does not touch the event keeps its trace. */
  lemma TraceKept(c: Config, o: Oracle, s: State, t: State, i: Id, front: Pos)
    requires Traced(c, o, s, i, front)
    requires SameRecs(s, t, i) && SameDone(s, t, i) && SameHolders(s, t, i)
    requires i in t.orders && t.orders[i] == s.orders[i]
    ensures Traced(c, o, t, i, front)
  {
    RungsKept(s, t, i, front);
    SpentKept(s, t, i, front);
    FrontKept(c, o, s, t, i, front);
  }

  // ---------------------------------------------------------------- the job at the front

  ghost predicate OneHolder(s: State) {
    forall w, v, tp, off: nat :: Holds(s, w, tp, off) && Holds(s, v, tp, off) ==> w == v
  }

  /** The job at the front moves to its next call, possibly writing the row. */
  lemma FrontMoves(c: Config, o: Oracle, s: State, t: State, i: Id, front: Pos, w: Agent)
    requires Traced(c, o, s, i, front) && OneHolder(s)
    requires Holds(s, w, front.tp, front.off) && Holds(t, w, front.tp, front.off)
    requires SameRecs(s, t, i) && SameDone(s, t, i)
    requires forall v, tp, off: nat :: v != w ==> SameHold(s, t, v, tp, off)
    requires i in t.orders
    requires Phase(c, o, i, t.orders[i], AttemptAt(s, front.tp, front.off), front.tp.topic, t.jobs[w].pc)
    ensures Traced(c, o, t, i, front)
  {
    RungsKept(s, t, i, front);
    forall tp, off: nat | IdAt(t, i, tp, off) && RankAt(t, tp, off) < RankAt(t, front.tp, front.off)
      ensures off < LogOf(t, tp).done || HandedOver(t, tp, off)
    {
      if off >= LogOf(t, tp).done {
        assert HandedOver(s, tp, off);
        var v :| Holds(s, v, tp, off) && Handed(s.jobs[v].pc);
        assert v != w && SameHold(s, t, v, tp, off);
        assert Holds(t, v, tp, off) && Handed(t.jobs[v].pc);
      }
    }
    forall v, tp, off: nat | Holds(t, v, tp, off) && IdAt(t, i, tp, off)
        && RankAt(t, tp, off) < RankAt(t, front.tp, front.off)
      ensures Handed(t.jobs[v].pc)
    {
      assert v != w && SameHold(s, t, v, tp, off);
    }
    forall v | Holds(t, v, front.tp, front.off)
      ensures v == w
    {
      assert v != w ==> SameHold(s, t, v, front.tp, front.off);
    }
  }

  /** The job at the front lets go of its record. */
  lemma FrontLeaves(c: Config, o: Oracle, s: State, t: State, i: Id, front: Pos, w: Agent)
    requires Traced(c, o, s, i, front) && OneHolder(s)
    requires Holds(s, w, front.tp, front.off) && w !in t.jobs
    requires SameRecs(s, t, i)
    requires forall tp, off: nat :: IdAt(s, i, tp, off) && (tp != front.tp || off != front.off) ==>
               (off < LogOf(s, tp).done <==> off < LogOf(t, tp).done)
    requires forall v, tp, off: nat :: v != w ==> SameHold(s, t, v, tp, off)
    requires i in t.orders && t.orders[i] == s.orders[i]
    requires if front.off < LogOf(t, front.tp).done
             then front.tp.topic == Created && Over(c, o, i, s.orders[i], AttemptAt(s, front.tp, front.off))
             else Waiting(o, i, s.orders[i], AttemptAt(s, front.tp, front.off))
    ensures Traced(c, o, t, i, front)
  {
    RungsKept(s, t, i, front);
    forall tp, off: nat | IdAt(t, i, tp, off) && RankAt(t, tp, off) < RankAt(t, front.tp, front.off)
      ensures off < LogOf(t, tp).done || HandedOver(t, tp, off)
    {
      if off >= LogOf(t, tp).done {
        assert HandedOver(s, tp, off);
        var v :| Holds(s, v, tp, off) && Handed(s.jobs[v].pc);
        assert v != w && SameHold(s, t, v, tp, off);
        assert Holds(t, v, tp, off) && Handed(t.jobs[v].pc);
      }
    }
    forall v, tp, off: nat | Holds(t, v, tp, off) && IdAt(t, i, tp, off)
        && RankAt(t, tp, off) < RankAt(t, front.tp, front.off)
      ensures Handed(t.jobs[v].pc)
    {
      assert v != w && SameHold(s, t, v, tp, off);
    }
    forall v
      ensures !Holds(t, v, front.tp, front.off)
    {
      assert v != w ==> SameHold(s, t, v, front.tp, front.off);
    }
  }

  // ---------------------------------------------------------------- a job below the front

  /** A job below the front cleans up: it stays handed over, or leaves a committed record behind. */
  lemma SpentMoves(c: Config, o: Oracle, s: State, t: State, i: Id, front: Pos, w: Agent, at: Pos)
    requires Traced(c, o, s, i, front) && OneHolder(s)
    requires Holds(s, w, at.tp, at.off) && at != front
    requires if w in t.jobs then Holds(t, w, at.tp, at.off) && Handed(t.jobs[w].pc) else at.off < LogOf(t, at.tp).done
    requires SameRecs(s, t, i)
    requires forall tp, off: nat :: IdAt(s, i, tp, off) && (tp != at.tp || off != at.off) ==>
               (off < LogOf(s, tp).done <==> off < LogOf(t, tp).done)
    requires LogOf(s, at.tp).done <= LogOf(t, at.tp).done
    requires forall v, tp, off: nat :: v != w ==> SameHold(s, t, v, tp, off)
    requires i in t.orders && t.orders[i] == s.orders[i]
    ensures Traced(c, o, t, i, front)
  {
    RungsKept(s, t, i, front);
    forall tp, off: nat | IdAt(t, i, tp, off) && RankAt(t, tp, off) < RankAt(t, front.tp, front.off)
      ensures off < LogOf(t, tp).done || HandedOver(t, tp, off)
    {
      if off >= LogOf(t, tp).done {
        if tp == at.tp && off == at.off {
          assert Holds(t, w, tp, off) && Handed(t.jobs[w].pc);
        } else {
          assert HandedOver(s, tp, off);
          var v :| Holds(s, v, tp, off) && Handed(s.jobs[v].pc);
          assert v != w && SameHold(s, t, v, tp, off);
          assert Holds(t, v, tp, off) && Handed(t.jobs[v].pc);
        }
      }
    }
    forall v, tp, off: nat | Holds(t, v, tp, off) && IdAt(t, i, tp, off)
        && RankAt(t, tp, off) < RankAt(t, front.tp, front.off)
      ensures Handed(t.jobs[v].pc)
    {
      assert v != w ==> SameHold(s, t, v, tp, off);
    }
    forall v
      ensures SameHold(s, t, v, front.tp, front.off)
    {
      if v == w {
        assert !Holds(s, w, front.tp, front.off) && !Holds(t, w, front.tp, front.off);
      }
    }
    FrontKept(c, o, s, t, i, front);
  }

  // ---------------------------------------------------------------- climbing a rung

  /** Exactly one record of the event is new. */
  ghost predicate OneNew(s: State, t: State, i: Id, at: Pos) {
    && (forall tp, off: nat :: IdAt(t, i, tp, off) <==> (IdAt(s, i, tp, off) || (tp == at.tp && off == at.off)))
    && !IdAt(s, i, at.tp, at.off)
    && (forall tp, off: nat :: IdAt(s, i, tp, off) ==> LogOf(s, tp).recs[off] == LogOf(t, tp).recs[off])
  }

  lemma RungsClimb(s: State, t: State, i: Id, front: Pos, next: Pos)
    requires Rungs(s, i, front) && OneNew(s, t, i, next)
    requires RankAt(t, next.tp, next.off) == RankAt(s, front.tp, front.off) + 1
    ensures Rungs(t, i, next)
    ensures forall tp, off: nat :: IdAt(s, i, tp, off) ==> RankAt(s, tp, off) == RankAt(t, tp, off)
  {
    forall tp, off: nat | IdAt(s, i, tp, off)
      ensures RankAt(s, tp, off) == RankAt(t, tp, off)
    {
    }
    forall r | 2 <= r <= RankAt(t, next.tp, next.off)
      ensures HasRung(t, i, r)
    {
      if r == RankAt(t, next.tp, next.off) {
        assert IdAt(t, i, next.tp, next.off);
      } else {
        assert HasRung(s, i, r);
        var tp, off: nat :| IdAt(s, i, tp, off) && RankAt(s, tp, off) == r;
        assert IdAt(t, i, tp, off) && RankAt(t, tp, off) == r;
      }
    }
  }

  lemma SpentClimb(s: State, t: State, i: Id, front: Pos, next: Pos, w: Agent)
    requires Rungs(s, i, front) && Spent(s, i, front) && OneHolder(s) && OneNew(s, t, i, next) && SameDone(s, t, i)
    requires RankAt(t, next.tp, next.off) == RankAt(s, front.tp, front.off) + 1
    requires Holds(s, w, front.tp, front.off) && Holds(t, w, front.tp, front.off) && Handed(t.jobs[w].pc)
    requires forall v, tp, off: nat :: v != w ==> SameHold(s, t, v, tp, off)
    ensures Spent(t, i, next)
  {
    RungsClimb(s, t, i, front, next);
    forall tp, off: nat | IdAt(t, i, tp, off) && RankAt(t, tp, off) < RankAt(t, next.tp, next.off)
      ensures off < LogOf(t, tp).done || HandedOver(t, tp, off)
    {
      if tp == front.tp && off == front.off {
        assert Holds(t, w, tp, off) && Handed(t.jobs[w].pc);
      } else if off >= LogOf(t, tp).done {
        assert RankAt(s, tp, off) != RankAt(s, front.tp, front.off);
        assert HandedOver(s, tp, off);
        var v :| Holds(s, v, tp, off) && Handed(s.jobs[v].pc);
        assert v != w && SameHold(s, t, v, tp, off);
        assert Holds(t, v, tp, off) && Handed(t.jobs[v].pc);
      }
    }
    forall v, tp, off: nat | Holds(t, v, tp, off) && IdAt(t, i, tp, off)
        && RankAt(t, tp, off) < RankAt(t, next.tp, next.off)
      ensures Handed(t.jobs[v].pc)
    {
      if v != w {
        assert SameHold(s, t, v, tp, off);
        assert tp == front.tp && off == front.off ==> v == w;
        assert RankAt(s, tp, off) != RankAt(s, front.tp, front.off);
      }
    }
  }

  /** The job at the front publishes the next rung and only cleans up from here on. */
  lemma TraceClimbs(c: Config, o: Oracle, s: State, t: State, i: Id, front: Pos, next: Pos, w: Agent)
    requires Traced(c, o, s, i, front) && OneHolder(s) && OneNew(s, t, i, next) && SameDone(s, t, i)
    requires RankAt(t, next.tp, next.off) == RankAt(s, front.tp, front.off) + 1
    requires Holds(s, w, front.tp, front.off) && Holds(t, w, front.tp, front.off) && Handed(t.jobs[w].pc)
    requires forall v, tp, off: nat :: v != w ==> SameHold(s, t, v, tp, off)
    requires forall v :: !Holds(t, v, next.tp, next.off)
    requires LogOf(t, next.tp).done <= next.off
    requires i in t.orders && Waiting(o, i, t.orders[i], AttemptAt(t, next.tp, next.off))
    ensures Traced(c, o, t, i, next)
  {
    RungsClimb(s, t, i, front, next);
    SpentClimb(s, t, i, front, next, w);
  }
}
