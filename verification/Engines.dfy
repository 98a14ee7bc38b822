/** The engine driven by hand, in place: RunOnce, Promote, TimeOutSubscriptions, SendEvent. */
module Engines {
  import opened Prelude
  import opened Timestamps
  import opened Database
  import opened Workflow
  import opened Store
  import opened Leases
  import opened Runners
  import opened Runtime
  import Driver
  import Outcomes
  import StoreOps

  datatype EngineError =
    | ListFailed(cause: StoreError)
    | WorkflowFailed(id: string, reason: RunError)
    | PayloadUnmarshalled
    | ResumeFailed(cause: StoreError)

  /** The first record whose type nobody registered. */
  function FirstUnregistered(en: Driver.Engine, records: seq<Record>): (r: Option<EngineError>)
    ensures r == None <==> forall rec <- records :: rec.wtype in en.defs
    ensures r.Some? ==> r.value.WorkflowFailed?
  {
    if records == [] then None
    else
      var before, rec := FirstUnregistered(en, records[..|records| - 1]), records[|records| - 1];
      if before == None && rec.wtype !in en.defs
      then Some(WorkflowFailed(rec.id, DefinitionNotFound(rec.wtype))) else before
  }

  lemma NextUnregistered(en: Driver.Engine, records: seq<Record>, i: nat)
    requires i < |records|
    ensures FirstUnregistered(en, records[..i + 1])
         == if FirstUnregistered(en, records[..i]) == None && records[i].wtype !in en.defs
            then Some(WorkflowFailed(records[i].id, DefinitionNotFound(records[i].wtype)))
            else FirstUnregistered(en, records[..i])
  {
    assert records[..i + 1][..i] == records[..i];
  }

  /** Ids name their records, and attempts are counts. */
  predicate Sane(t: Tables) {
    forall id | id in t.workflows :: t.workflows[id].id == id && t.workflows[id].attempts >= 0
  }

  lemma ListedAreListed(t: Tables, limit: int, listed: Instant, records: seq<Record>)
    requires Sane(t) && EarliestSchedulable(t, FormatTime(listed), limit, records)
    ensures Driver.ListedIn(t, records, listed)
  {
    forall i | 0 <= i < |records|
      ensures records[i].id in SchedulableIds(t, FormatTime(listed)) && t.workflows[records[i].id] == records[i]
    {
      assert records[i] in records;
    }
  }

  /** The records nobody else is executing. */
  function Free(records: seq<Record>, leased: set<string>): (r: seq<Record>)
    ensures forall rec <- r :: rec in records
  {
    if records == [] then []
    else
      var before, rec := Free(records[..|records| - 1], leased), records[|records| - 1];
      if rec.id in leased then before else before + [rec]
  }

  lemma {:induction false} FreeAreListed(t: Tables, records: seq<Record>, leased: set<string>, listed: Instant)
    requires Driver.ListedIn(t, records, listed)
    ensures Driver.ListedIn(t, Free(records, leased), listed)
  {
    hide FormatTime;
    if records != [] {
      var front := records[..|records| - 1];
      FreeAreListed(t, front, leased, listed);
      var before := Free(front, leased);
      forall i | 0 <= i < |before|
        ensures before[i].id != records[|records| - 1].id
      {
        assert before[i] in front;
      }
    }
  }

  /** Every free record of the list is still current when its turn comes. */
  lemma StillCurrent(en: Driver.Engine, t: Tables, records: seq<Record>, leased: set<string>, listed: Instant, i: nat,
                     out: string -> Driver.Outside)
    requires Driver.ListedIn(t, records, listed) && i < |records|
    ensures var u := Driver.RunListed(en, t, Free(records[..i], leased), out);
      records[i].id in u.workflows && u.workflows[records[i].id] == records[i]
  {
    var free := Free(records[..i], leased);
    FreeAreListed(t, records[..i], leased, listed);
    Driver.RunOnceIsARun(en, t, free, listed, out);
    forall j | 0 <= j < |free|
      ensures free[j].id != records[i].id
    {
      assert free[j] in records[..i];
    }
  }

  /** The tables are what the first i records of the list, the free ones among them, left. */
  ghost predicate DoneUpTo(en: Driver.Engine, t: Tables, s: Tables, list: seq<Record>, leased: set<string>, i: nat,
                           out: string -> Driver.Outside)
    requires i <= |list|
  {
    Same(s, Driver.RunListed(en, t, Free(list[..i], leased), out))
  }

  lemma NextIsCurrent(en: Driver.Engine, t: Tables, s: Tables, list: seq<Record>, leased: set<string>, listed: Instant,
                      i: nat, out: string -> Driver.Outside)
    requires Driver.ListedIn(t, list, listed) && i < |list| && DoneUpTo(en, t, s, list, leased, i, out)
    ensures Current(s, list[i].id, list[i].occ)
  {
    StillCurrent(en, t, list, leased, listed, i, out);
  }

  /** One more record of the list. */
  lemma NextIsDone(en: Driver.Engine, t: Tables, s: Tables, s1: Tables, list: seq<Record>, leased: set<string>,
                   i: nat, out: string -> Driver.Outside)
    requires i < |list| && DoneUpTo(en, t, s, list, leased, i, out)
    requires var rec := list[i];
      if rec.id in leased then s1 == s else Same(s1, Driver.RunRecord(en, s, rec, out(rec.id).e, out(rec.id).at))
    ensures DoneUpTo(en, t, s1, list, leased, i + 1, out)
  {
    hide FormatTime, Driver.RunRecord;
    var free, rec := Free(list[..i], leased), list[i];
    assert list[..i + 1][..i] == list[..i];
    if rec.id !in leased {
      assert (free + [rec])[..|free|] == free;
      Driver.SameRun(en, s, Driver.RunListed(en, t, free, out), rec, out(rec.id).e, out(rec.id).at);
      SameTransitive(s1, Driver.RunRecord(en, s, rec, out(rec.id).e, out(rec.id).at),
                     Driver.RunListed(en, t, Free(list[..i + 1], leased), out));
    }
  }

  lemma SameTransitive(t: Tables, u: Tables, v: Tables)
    requires Same(t, u) && Same(u, v)
    ensures Same(t, v)
  {
  }

  // ---- a sane store stays so ----

  lemma CommitStaysSane(t: Tables, id: string, occ: int, d: Outcomes.Decision)
    requires Sane(t)
    ensures Sane(StoreOps.Apply(t, Outcomes.CommitOp(id, occ, d)))
  {
    hide FormatTime;
  }

  lemma RunStaysSane(en: Driver.Engine, t: Tables, rec: Record, e: Env, at: Instant)
    requires Sane(t)
    ensures Sane(Driver.RunRecord(en, t, rec, e, at))
  {
    if rec.wtype in en.defs {
      var policy, attempts := en.defs[rec.wtype].policy, if rec.attempts >= 0 then rec.attempts else 0;
      var (st, out) := Driver.Execution(en, t, rec, e);
      CommitStaysSane(t, rec.id, rec.occ, Outcomes.Decide(attempts, policy, Outcomes.Broken(CancelledError), at));
      CommitStaysSane(t.(steps := t.steps[WhoOf(rec) := st.rows], subs := st.subs), rec.id, rec.occ,
                      Outcomes.Decide(attempts, policy, Driver.EndedBy(out, en.codec), at));
    }
  }

  lemma {:induction false} ListStaysSane(en: Driver.Engine, t: Tables, records: seq<Record>,
          out: string -> Driver.Outside)
    requires Sane(t)
    ensures Sane(Driver.RunListed(en, t, records, out))
  {
    if records != [] {
      var front, rec := records[..|records| - 1], records[|records| - 1];
      ListStaysSane(en, t, front, out);
      RunStaysSane(en, Driver.RunListed(en, t, front, out), rec, out(rec.id).e, out(rec.id).at);
    }
  }

  class Engine {
    const en: Driver.Engine
    const store: SqliteStore
    const leases: MemoryLeaseStore
    const runner: LocalRunner
    const workers: int

    constructor (en: Driver.Engine, store: SqliteStore, leases: MemoryLeaseStore, workers: int)
      ensures this.en == en && this.store == store && this.leases == leases && this.workers == workers && Valid()
    {
      this.en, this.store, this.leases, this.workers := en, store, leases, workers;
      runner := new LocalRunner(en, store, leases);
    }

    ghost predicate Valid() {
      runner.en == en && runner.store == store && runner.leases == leases
    }

    /** RunOnce: the earliest schedulable records, each that nobody else is executing run to
        its outcome, whatever befalls the others; the first error is returned. */
    method RunOnce(listed: Instant, out: string -> Driver.Outside) returns (err: Option<EngineError>,
            ghost records: seq<Record>)
      requires Valid() && Sane(store.Contents())
      modifies store, leases
      ensures leases.leases == old(leases.leases) && Sane(store.Contents())
      ensures err.Some? && err.value.ListFailed? ==> records == [] && store.Contents() == old(store.Contents())
      ensures !(err.Some? && err.value.ListFailed?) ==>
        && EarliestSchedulable(old(store.Contents()), FormatTime(listed), workers, records)
        && Same(store.Contents(), Driver.RunListed(en, old(store.Contents()), Free(records, old(leases.leases)), out))
        && err == FirstUnregistered(en, records)
    {
      ghost var t := store.Contents();
      var list, listErr := store.ListSchedulable(listed, workers);
      records := [];
      if listErr.Some? {
        return Some(ListFailed(listErr.value)), [];
      }
      records := list;
      ListedAreListed(t, workers, listed, list);
      err := RunAll(list, listed, out, t);
    }

    method RunAll(list: seq<Record>, ghost listed: Instant, out: string -> Driver.Outside, ghost t: Tables)
      returns (firstErr: Option<EngineError>)
      requires Valid() && Sane(t) && t == store.Contents() && Driver.ListedIn(t, list, listed)
      modifies store, leases
      ensures leases.leases == old(leases.leases) && firstErr == FirstUnregistered(en, list) && Sane(store.Contents())
      ensures Same(store.Contents(), Driver.RunListed(en, t, Free(list, leases.leases), out))
    {
      firstErr := None;
      for i := 0 to |list|
        invariant leases.leases == old(leases.leases) && firstErr == FirstUnregistered(en, list[..i])
        invariant DoneUpTo(en, t, store.Contents(), list, leases.leases, i, out)
      {
        ghost var before := store.Contents();
        NextIsCurrent(en, t, before, list, leases.leases, listed, i, out);
        var rec := list[i];
        var runErr := runner.Run(rec, out(rec.id).e, out(rec.id).at);
        NextIsDone(en, t, before, store.Contents(), list, leases.leases, i, out);
        NextUnregistered(en, list, i);
        if runErr.Some? && firstErr == None {
          firstErr := Some(WorkflowFailed(rec.id, runErr.value));
        }
      }
      assert list[..|list|] == list;
      ListStaysSane(en, t, Free(list, leases.leases), out);
    }

    method Promote(now: Instant) returns (n: nat)
      modifies store
      ensures store.Contents() == Driver.Act(en, old(store.Contents()), Driver.Promote(now))
      ensures n == |set id | id in old(store.workflows) && Due(old(store.workflows)[id], FormatTime(now))|
    {
      n := store.PromoteSuspended(now);
    }

    method TimeOutSubscriptions(now: Instant) returns (n: nat)
      modifies store
      ensures store.Contents() == Driver.Act(en, old(store.Contents()), Driver.TimeOut(now))
      ensures n == |ExpiredKeys(old(store.Contents()), FormatTime(now))|
    {
      n := store.TimeOutSubscriptions(now);
    }

    /** SendEvent: a payload that cannot be marshalled, or a key nobody waits for, changes
        nothing. */
    method SendEvent(key: string, payload: Val) returns (err: Option<EngineError>)
      modifies store
      ensures err == if en.codec.encode(payload) == None then Some(PayloadUnmarshalled)
                     else if key in old(store.subs) then None else Some(ResumeFailed(SubscriptionNotFound))
      ensures store.Contents()
           == if en.codec.encode(payload) == None then old(store.Contents())
              else Driver.Act(en, old(store.Contents()), Driver.SendEvent(key, en.codec.encode(payload).value))
    {
      var data := en.codec.encode(payload);
      if data == None {
        return Some(PayloadUnmarshalled);
      }
      var failed := store.ResumeSubscription(key, data.value);
      err := if failed.Some? then Some(ResumeFailed(failed.value)) else None;
    }
  }
}
