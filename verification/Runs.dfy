/** Building runs action by action. */
module Runs {
  import opened Wrappers
  import opened Pipeline
  import opened Frames

  ghost predicate Ends(c: Config, states: seq<State>, acts: seq<Action>, s: State) {
    IsRun(c, states, acts) && states[|states| - 1] == s
  }

  lemma Extend(c: Config, states: seq<State>, acts: seq<Action>, s: State, a: Action, t: State)
    returns (states': seq<State>, acts': seq<Action>)
    requires Ends(c, states, acts, s) && a in Moves(c, s) && t == Perform(s, a)
    ensures Ends(c, states', acts', t) && states' == states + [t] && states <= states'
  {
    states', acts' := states + [t], acts + [a];
    forall k | 0 <= k < |acts'|
      ensures StepAt(c, states', acts', k)
    {
      if k < |acts| {
        assert StepAt(c, states, acts, k);
        assert acts'[k] == acts[k] && states'[k] == states[k] && states'[k + 1] == states[k + 1];
      }
    }
  }

  /** A call that can succeed can also raise or crash, before or after its effect. */
  lemma AnyCallCanFail(c: Config, s: State, w: Agent, e: Effect, next: Job, after: Option<Job>)
    requires w in s.jobs && Work(w, e, Some(next), false) in Moves(c, s)
    requires after == Raised(s.jobs[w]) || after == None
    ensures Work(w, Quiet, after, true) in Moves(c, s) && Work(w, e, after, true) in Moves(c, s)
  {
    assert OkStep(c, s, s.jobs[w], e, Some(next));
  }

  /** What no step ever takes back, as far as a handler needs it: time, rows, and the records of the
      partitions that it publishes to. */
  predicate Grows(s: State, t: State) {
    && s.now <= t.now && s.orders.Keys <= t.orders.Keys
    && Out(s, Created) <= Out(t, Created) && Out(s, Retry) <= Out(t, Retry) && Out(s, Dlq) <= Out(t, Dlq)
  }

  function Out(s: State, topic: Topic): seq<Record> {
    LogOf(s, Tp(topic, 0)).recs
  }

  lemma PerformGrows(c: Config, s: State, a: Action)
    requires a in Moves(c, s)
    ensures Grows(s, Perform(s, a))
  {
    if a.Work? {
      PerformView(s, a.w, a.e, a.after, a.fault);
      WorkGrows(s, Perform(s, a), a.w, a.e, a.after);
    }
  }

  lemma WorkGrows(s: State, t: State, w: Agent, e: Effect, after: Option<Job>)
    requires CallView(s, t, w, e, after)
    ensures Grows(s, t)
  {
  }

  predicate GrowsAt(states: seq<State>, k: nat) {
    k + 1 < |states| ==> Grows(states[k], states[k + 1])
  }

  lemma StepGrows(c: Config, states: seq<State>, acts: seq<Action>, k: nat)
    requires IsRun(c, states, acts) && k < |acts|
    ensures GrowsAt(states, k)
  {
    assert StepAt(c, states, acts, k);
    PerformGrows(c, states[k], acts[k]);
  }

  lemma {:induction false} ChainGrows(states: seq<State>, m: nat, n: nat)
    requires forall k :: 0 <= k < |states| ==> GrowsAt(states, k)
    requires m <= n < |states|
    ensures Grows(states[m], states[n])
    decreases n
  {
    if m < n {
      ChainGrows(states, m, n - 1);
      assert GrowsAt(states, n - 1);
    }
  }

  lemma StepsGrow(c: Config, states: seq<State>, acts: seq<Action>)
    requires IsRun(c, states, acts)
    ensures forall k :: 0 <= k < |states| ==> GrowsAt(states, k)
  {
    forall k | 0 <= k < |states|
      ensures GrowsAt(states, k)
    {
      if k < |acts| {
        StepGrows(c, states, acts, k);
      }
    }
  }

  lemma RunGrows(c: Config, states: seq<State>, acts: seq<Action>, m: nat, n: nat)
    requires IsRun(c, states, acts) && m <= n < |states|
    ensures Grows(states[m], states[n])
  {
    StepsGrow(c, states, acts);
    ChainGrows(states, m, n);
  }
}
