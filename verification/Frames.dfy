/** What one call of a consumer leaves of each part of the state, stated once. */
module Frames {
  import opened Wrappers
  import opened Orders
  import opened Pipeline

  function JobsAfter(s: State, w: Agent, after: Option<Job>): map<Agent, Job> {
    if after.Some? then s.jobs[w := after.value] else s.jobs - {w}
  }

  function RowsAfter(s: State, e: Effect): map<Id, Row> {
    if e.PutRow? then s.orders[e.i := e.row] else s.orders
  }

  function KeysAfter(s: State, e: Effect): map<Id, Key> {
    match e
    case PutKey(i, key) => s.guard[i := key]
    case DropKey(i) => s.guard - {i}
    case _ => s.guard
  }

  function ArchiveAfter(s: State, e: Effect): seq<DeadLetter> {
    if e.Store? then s.archive + [e.entry] else s.archive
  }

  /** The state after a call, field by field. */
  predicate CallView(s: State, t: State, w: Agent, e: Effect, after: Option<Job>) {
    && t.now == s.now
    && t.jobs == JobsAfter(s, w, after)
    && t.topics == Apply(s, e).topics
    && t.orders == RowsAfter(s, e)
    && t.guard == KeysAfter(s, e)
    && t.archive == ArchiveAfter(s, e)
    && t.published == s.published && t.awaiting == s.awaiting && t.foreign == s.foreign && t.content == s.content
  }

  lemma ApplyView(s: State, e: Effect)
    ensures var t := Apply(s, e);
            && t.now == s.now && t.jobs == s.jobs && t.orders == RowsAfter(s, e) && t.guard == KeysAfter(s, e)
            && t.archive == ArchiveAfter(s, e) && t.slipped == s.slipped
            && t.published == s.published && t.awaiting == s.awaiting && t.foreign == s.foreign
                 && t.content == s.content
  {
  }

  lemma AfterWorkView(s: State, w: Agent, j: Job, e: Effect, after: Option<Job>)
    ensures CallView(s, AfterWork(s, w, j, e, after), w, e, after)
  {
    ApplyView(s, e);
  }

  lemma PerformView(s: State, w: Agent, e: Effect, after: Option<Job>, fault: bool)
    requires w in s.jobs
    ensures CallView(s, Perform(s, Work(w, e, after, fault)), w, e, after)
  {
    AfterWorkView(s, w, s.jobs[w], e, after);
  }
}
