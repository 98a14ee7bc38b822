/** The runner and the engine: one record from lease to outcome, and one poll cycle. */
module Runners {
  import opened Prelude
  import opened Timestamps
  import opened Database
  import opened Workflow
  import opened StoreOps
  import opened Outcomes
  import opened Backoff
  import opened Store
  import opened Leases
  import opened Replay
  import opened Runtime
  import Executor
  import Driver

  datatype RunError = DefinitionNotFound(wtype: string) | StoreFailed(cause: StoreError)

  // ---- resolving an outcome ----

  /** Whether the outcome's write finds the version it was read on. */
  predicate Commits(t: Tables, rec: Record) {
    Current(t, rec.id, rec.occ)
  }

  /** One store write for the decision. */
  method CommitDecision(store: SqliteStore, rec: Record, d: Decision) returns (err: Option<StoreError>)
    modifies store
    ensures store.Contents() == Apply(old(store.Contents()), CommitOp(rec.id, rec.occ, d))
    ensures err == if Commits(old(store.Contents()), rec) then None else Some(OCCConflict)
  {
    match d
    case Complete(result) => err := store.UpdateStatus(rec.id, Status.Completed, Some(result), rec.occ);
    case Cancel => err := store.UpdateStatus(rec.id, Cancelled, None, rec.occ);
    case Reject(msg) => err := store.SetError(rec.id, Failed, msg, rec.occ);
    case Retry(t) => err := CommitRetry(store, rec, t);
    case SuspendUntil(t) => err := CommitSuspension(store, rec, t);
  }

  method CommitRetry(store: SqliteStore, rec: Record, t: Instant) returns (err: Option<StoreError>)
    modifies store
    ensures store.Contents() == Apply(old(store.Contents()), CommitOp(rec.id, rec.occ, Retry(t)))
    ensures err == if Commits(old(store.Contents()), rec) then None else Some(OCCConflict)
  {
    err := store.SetRetry(rec.id, t, rec.occ);
  }

  method CommitSuspension(store: SqliteStore, rec: Record, t: Instant) returns (err: Option<StoreError>)
    modifies store
    ensures store.Contents() == Apply(old(store.Contents()), CommitOp(rec.id, rec.occ, SuspendUntil(t)))
    ensures err == if Commits(old(store.Contents()), rec) then None else Some(OCCConflict)
  {
    err := store.Suspend(rec.id, t, rec.occ);
  }

  /** resolveOutcome's branches, first to last. */
  method ChooseOutcome(rec: Record, policy: RetryPolicy, ended: Ended, now: Instant) returns (d: Decision)
    requires rec.attempts >= 0
    ensures d == Decide(rec.attempts, policy, ended, now)
  {
    if ended.Broken? {
      if AsCancelled(ended.e) {
        return Cancel;
      }
      var permanent := AsPermanent(ended.e);
      if permanent.Some? {
        return Reject(ErrorText(permanent.value));
      }
      var suspend := AsSuspend(ended.e);
      if suspend.Some? {
        return SuspendUntil(suspend.value);
      }
      if rec.attempts + 1 >= policy.maxAttempts {
        return Reject(ErrorText(ended.e));
      }
      var delay := ComputeDelay(policy, rec.attempts);
      return Retry(now + delay);
    }
    return Complete(ended.result);
  }

  /** What Run reports: a record that is gone, or one that somebody else has moved on. */
  function Failure(t: Tables, rec: Record): Option<RunError> {
    if rec.id !in t.workflows then Some(StoreFailed(WorkflowNotFound))
    else if t.workflows[rec.id].occ == rec.occ then None
    else Some(StoreFailed(OCCConflict))
  }

  method ResolveOutcome(store: SqliteStore, rec: Record, policy: RetryPolicy, ended: Ended, now: Instant)
    returns (err: Option<StoreError>)
    requires rec.attempts >= 0
    modifies store
    ensures store.Contents() == Driver.Resolve(old(store.Contents()), rec, policy, ended, now)
    ensures err == if Commits(old(store.Contents()), rec) then None else Some(OCCConflict)
  {
    var d := ChooseOutcome(rec, policy, ended, now);
    err := CommitDecision(store, rec, d);
  }

  // ---- one record ----

  /** What the tables are once an execution is over, before its outcome is committed. */
  lemma SessionEndsAs(en: Driver.Engine, t: Tables, u: Tables, rec: Record, e: Env)
    requires rec.wtype in en.defs && OnlyFor(WhoOf(rec), t, u)
    requires var st := Driver.Execution(en, t, rec, e).0; RowsOf(u, WhoOf(rec)) == st.rows && u.subs == st.subs
    ensures var st := Driver.Execution(en, t, rec, e).0;
      Same(u, t.(steps := t.steps[WhoOf(rec) := st.rows], subs := st.subs))
  {
    var st := Driver.Execution(en, t, rec, e).0;
    var v := t.(steps := t.steps[WhoOf(rec) := st.rows], subs := st.subs);
    forall who
      ensures RowsOf(u, who) == RowsOf(v, who)
    {
      assert who != WhoOf(rec) ==> RowsOf(v, who) == RowsOf(t, who);
    }
  }

  /** The prefetch loop: the listed rows as a map by name. */
  method Prefetch(store: SqliteStore, who: Who) returns (stepCache: map<string, Row>)
    ensures stepCache == RowsOf(store.Contents(), who)
  {
    var results := store.ListStepResults(who);
    ghost var rows := RowsOf(store.Contents(), who);
    stepCache := map[];
    for i := 0 to |results|
      invariant forall n :: n in stepCache <==> exists j :: 0 <= j < i && results[j].0 == n
      invariant forall n | n in stepCache :: n in rows && stepCache[n] == rows[n]
    {
      stepCache := stepCache[results[i].0 := results[i].1];
    }
    assert forall n | n in rows :: n in stepCache;
  }

  class LocalRunner {
    const en: Driver.Engine
    const store: SqliteStore
    const leases: MemoryLeaseStore

    constructor (en: Driver.Engine, store: SqliteStore, leases: MemoryLeaseStore)
      ensures this.en == en && this.store == store && this.leases == leases
    {
      this.en, this.store, this.leases := en, store, leases;
    }

    /** The execution from the top, on the prefetched rows. */
    method ExecuteWorkflow(rec: Record, e: Env, stepCache: map<string, Row>) returns (ended: Ended)
      requires rec.wtype in en.defs && stepCache == RowsOf(store.Contents(), WhoOf(rec))
      modifies store
      ensures var (st, out) := Driver.Execution(en, old(store.Contents()), rec, e);
        && ended == Driver.EndedBy(out, en.codec)
        && Same(store.Contents(), old(store.Contents()).(
             steps := old(store.Contents()).steps[WhoOf(rec) := st.rows], subs := st.subs))
    {
      ghost var before := store.Contents();
      var session := new Session(store, Driver.EnvFor(en, rec, e), stepCache);
      var wc := new WorkflowContext(session, "");
      var out := Executor.Execute(Driver.ProgramOf(en, rec), wc);
      SessionEndsAs(en, before, store.Contents(), rec, e);
      match out
      case Erred(err) => ended := Broken(err);
      case Returned(v) =>
        var result := en.codec.encode(v);
        ended := if result == None then Broken(Plain("marshal result")) else Finished(result.value);
    }

    /** Run: lease, prefetch, signal, execution, outcome; the lease is given back. */
    method Run(rec: Record, e: Env, at: Instant) returns (err: Option<RunError>)
      requires rec.attempts >= 0
      modifies store, leases
      ensures leases.leases == old(leases.leases)
      ensures rec.wtype !in en.defs ==> err == Some(DefinitionNotFound(rec.wtype))
      ensures rec.wtype !in en.defs || rec.id in old(leases.leases) ==> store.Contents() == old(store.Contents())
      ensures rec.id !in old(leases.leases) ==>
        Same(store.Contents(), Driver.RunRecord(en, old(store.Contents()), rec, e, at))
      ensures rec.wtype in en.defs && rec.id in old(leases.leases) ==> err == None
      ensures rec.wtype in en.defs && rec.id !in old(leases.leases) ==> err == Failure(old(store.Contents()), rec)
    {
      if rec.wtype !in en.defs {
        return Some(DefinitionNotFound(rec.wtype));
      }
      var acquired := leases.Acquire(rec.id);
      if !acquired {
        assert leases.leases == old(leases.leases);
        return None;
      }
      err := RunLeased(rec, e, at);
      leases.Release(rec.id);
      assert leases.leases == old(leases.leases);
    }

    method RunLeased(rec: Record, e: Env, at: Instant) returns (err: Option<RunError>)
      requires rec.wtype in en.defs && rec.attempts >= 0
      modifies store
      ensures Same(store.Contents(), Driver.RunRecord(en, old(store.Contents()), rec, e, at))
      ensures err == Failure(old(store.Contents()), rec)
    {
      ghost var before := store.Contents();
      var policy := en.defs[rec.wtype].policy;
      var stepCache := Prefetch(store, WhoOf(rec));
      var signal, sigErr := store.GetSignal(rec.id);
      if sigErr.Some? {
        return Some(StoreFailed(sigErr.value));
      }
      var ended := Broken(CancelledError);
      if signal != CancelRequested {
        ended := ExecuteWorkflow(rec, e, stepCache);
        ghost var st := Driver.Execution(en, before, rec, e).0;
        Driver.SameResolve(store.Contents(), before.(steps := before.steps[WhoOf(rec) := st.rows], subs := st.subs),
                    rec, policy, ended, at);
      }
      var failed := ResolveOutcome(store, rec, policy, ended, at);
      err := if failed.Some? then Some(StoreFailed(failed.value)) else None;
    }
  }
}
