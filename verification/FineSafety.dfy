/** What holds in every reachable state of the fine machine, for any interleaving of any
    number of runners: versions, outcomes, the retry budget, and waking up. */
module FineSafety {
  import opened Prelude
  import opened Timestamps
  import opened Database
  import opened Workflow
  import opened StoreOps
  import opened Outcomes
  import opened Backoff
  import opened FineMachine

  // ---- snapshots ----

  /** Every runner's record was pending when it was listed, and the stored one succeeds it. */
  ghost predicate Snapshots(s: Fine) {
    && (forall id | id in s.db.workflows :: s.db.workflows[id].id == id)
    && (forall w | w in s.runners ::
          var rec := s.runners[w].rec;
          rec.status == Pending && rec.id in s.db.workflows && Succeeds(rec, s.db.workflows[rec.id]))
  }

  lemma NextAdvances(cfg: Config, s: Fine, a: Action)
    ensures Advances(s.db, Act(cfg, s, a).db)
  {
    if Write(cfg, s, a).Some? {
      ApplyAdvances(s.db, Write(cfg, s, a).value);
    }
  }

  /** A runner keeps its record; a new runner's record is the stored, pending one. */
  lemma RunnersKeepRecords(cfg: Config, s: Fine, a: Action)
    ensures forall w | w in Act(cfg, s, a).runners ::
      var rec := Act(cfg, s, a).runners[w].rec;
      || (w in s.runners && s.runners[w].rec == rec)
      || (a.TakeRecord? && rec.status == Pending && a.id in s.db.workflows && rec == s.db.workflows[a.id])
  {
  }

  lemma ApplyKeepsIds(t: Tables, op: Op)
    requires forall id | id in t.workflows :: t.workflows[id].id == id
    ensures forall id | id in Apply(t, op).workflows :: Apply(t, op).workflows[id].id == id
  {
  }

  lemma NextKeepsSnapshots(cfg: Config, s: Fine, a: Action)
    requires Snapshots(s)
    ensures Snapshots(Act(cfg, s, a))
  {
    NextAdvances(cfg, s, a);
    RunnersKeepRecords(cfg, s, a);
    if Write(cfg, s, a).Some? {
      ApplyKeepsIds(s.db, Write(cfg, s, a).value);
    }
  }

  // ---- outcomes and versions ----

  /** Terminal records never move again. */
  ghost predicate TerminalKept(t: Tables, u: Tables) {
    forall id | id in t.workflows && Terminal(t.workflows[id].status) ::
      && id in u.workflows
      && u.workflows[id].status == t.workflows[id].status && u.workflows[id].occ == t.workflows[id].occ
  }

  /** At most one outcome per version: a workflow's commits are on ever later versions. */
  ghost predicate LogOrdered(s: Fine) {
    && (forall i, j | 0 <= i < j < |s.log| && s.log[i].id == s.log[j].id :: s.log[i].occ < s.log[j].occ)
    && (forall i | 0 <= i < |s.log| ::
          s.log[i].id in s.db.workflows && s.log[i].occ < s.db.workflows[s.log[i].id].occ)
  }

  /** The writes of the engine other than a commit leave terminal records alone. */
  predicate IsCommit(op: Op) {
    op.UpdateStatusOp? || op.SetErrorOp? || op.SetRetryOp? || op.SuspendOp?
  }

  lemma OtherWritesKeepTerminal(t: Tables, op: Op)
    requires !IsCommit(op)
    ensures TerminalKept(t, Apply(t, op))
  {
  }

  function CommitId(op: Op): string
    requires IsCommit(op)
  {
    match op
    case UpdateStatusOp(id, _, _, _) => id
    case SetErrorOp(id, _, _, _) => id
    case SetRetryOp(id, _, _) => id
    case SuspendOp(id, _, _) => id
  }

  function CommitOcc(op: Op): int
    requires IsCommit(op)
  {
    match op
    case UpdateStatusOp(_, _, _, occ) => occ
    case SetErrorOp(_, _, _, occ) => occ
    case SetRetryOp(_, _, occ) => occ
    case SuspendOp(_, _, occ) => occ
  }

  /** A commit is on the version it names, or changes nothing. */
  lemma CommitBumps(t: Tables, op: Op)
    requires IsCommit(op)
    ensures !Current(t, CommitId(op), CommitOcc(op)) ==> Apply(t, op) == t
    ensures Current(t, CommitId(op), CommitOcc(op)) ==>
      var u := Apply(t, op);
      && u.workflows.Keys == t.workflows.Keys
      && u.workflows[CommitId(op)].occ == CommitOcc(op) + 1
      && forall id | id in t.workflows && id != CommitId(op) :: u.workflows[id] == t.workflows[id]
  {
  }

  /** Commits are made by runners, on the records they read. */
  lemma CommitIsARunners(cfg: Config, s: Fine, a: Action)
    requires Write(cfg, s, a).Some? && IsCommit(Write(cfg, s, a).value)
    ensures a.CommitOutcome? && a.w in s.runners && s.runners[a.w].Resolved?
    ensures CommitId(Write(cfg, s, a).value) == s.runners[a.w].rec.id
    ensures CommitOcc(Write(cfg, s, a).value) == s.runners[a.w].rec.occ
  {
    hide FormatTime;
  }

  /** A commit on a pending record's version finds it pending, or finds nothing. */
  lemma CommitKeepsTerminal(t: Tables, rec: Record, op: Op)
    requires IsCommit(op) && CommitId(op) == rec.id && CommitOcc(op) == rec.occ
    requires rec.status == Pending && rec.id in t.workflows && Succeeds(rec, t.workflows[rec.id])
    ensures TerminalKept(t, Apply(t, op))
  {
    CommitBumps(t, op);
  }

  lemma NextKeepsTerminal(cfg: Config, s: Fine, a: Action)
    requires Snapshots(s)
    ensures TerminalKept(s.db, Act(cfg, s, a).db)
  {
    var op := Write(cfg, s, a);
    if op.Some? {
      if IsCommit(op.value) {
        CommitIsARunners(cfg, s, a);
        CommitKeepsTerminal(s.db, s.runners[a.w].rec, op.value);
      } else {
        OtherWritesKeepTerminal(s.db, op.value);
      }
    }
  }

  lemma NextKeepsLog(cfg: Config, s: Fine, a: Action)
    requires LogOrdered(s)
    ensures LogOrdered(Act(cfg, s, a))
  {
    hide FormatTime;
    NextAdvances(cfg, s, a);
    if a.CommitOutcome? && Write(cfg, s, a).Some? {
      CommitBumps(s.db, Write(cfg, s, a).value);
    }
  }

  lemma {:induction false} RunKeepsVersions(cfg: Config, s: Fine, actions: seq<Action>)
    requires Snapshots(s) && LogOrdered(s)
    ensures Snapshots(Run(cfg, s, actions)) && LogOrdered(Run(cfg, s, actions))
    ensures Advances(s.db, Run(cfg, s, actions).db) && TerminalKept(s.db, Run(cfg, s, actions).db)
  {
    if actions != [] {
      var front, last := actions[..|actions| - 1], actions[|actions| - 1];
      RunKeepsVersions(cfg, s, front);
      NextKeepsSnapshots(cfg, Run(cfg, s, front), last);
      NextAdvances(cfg, Run(cfg, s, front), last);
      NextKeepsTerminal(cfg, Run(cfg, s, front), last);
      NextKeepsLog(cfg, Run(cfg, s, front), last);
    }
  }

  lemma {:induction false} RunConcat(cfg: Config, s: Fine, first: seq<Action>, more: seq<Action>)
    ensures Run(cfg, s, first + more) == Run(cfg, Run(cfg, s, first), more)
  {
    hide Act;
    if more == [] {
      assert first + more == first;
    } else {
      var front := more[..|more| - 1];
      RunConcat(cfg, s, first, front);
      assert (first + more)[..|first + more| - 1] == first + front;
    }
  }

  /** From the empty store, however runners with stale records interleave, leases or not:
      between any two moments of a run the version of a record determines its status,
      attempts and retry_after, terminal records do not move, and no version of a workflow
      has two committed outcomes. */
  lemma OutcomesAreSafe(cfg: Config, first: seq<Action>, more: seq<Action>)
    ensures var s, t := Run(cfg, START, first), Run(cfg, START, first + more);
      && Advances(s.db, t.db) && TerminalKept(s.db, t.db)
      && forall i, j | 0 <= i < j < |t.log| && t.log[i].id == t.log[j].id :: t.log[i].occ < t.log[j].occ
  {
    RunKeepsVersions(cfg, START, first);
    RunKeepsVersions(cfg, Run(cfg, START, first), more);
    RunConcat(cfg, START, first, more);
  }

  // ---- the retry budget ----

  function Retries(log: seq<Commit>, id: string): nat {
    if log == [] then 0
    else Retries(log[..|log| - 1], id)
         + if log[|log| - 1].id == id && log[|log| - 1].decision.Retry? then 1 else 0
  }

  ghost predicate Budgeted(cfg: Config, db: Tables, log: seq<Commit>) {
    && (forall id | id in db.workflows ::
          var r := db.workflows[id];
          r.attempts == Retries(log, id) && r.attempts <= Max(PolicyOf(cfg, r).maxAttempts - 1, 0))
    && (forall i | 0 <= i < |log| :: log[i].id in db.workflows)
  }

  lemma OtherWritesKeepAttempts(t: Tables, op: Op)
    requires !IsCommit(op) && !op.CreateOp?
    ensures Apply(t, op).workflows.Keys == t.workflows.Keys
    ensures forall id | id in t.workflows ::
      Apply(t, op).workflows[id].attempts == t.workflows[id].attempts
      && Apply(t, op).workflows[id].wtype == t.workflows[id].wtype
  {
  }

  lemma {:induction false} NoRetriesYet(log: seq<Commit>, id: string)
    requires forall i | 0 <= i < |log| :: log[i].id != id
    ensures Retries(log, id) == 0
  {
    if log != [] {
      NoRetriesYet(log[..|log| - 1], id);
    }
  }

  lemma RetriesAppend(log: seq<Commit>, c: Commit)
    ensures forall id :: Retries(log + [c], id) == Retries(log, id) + if c.id == id && c.decision.Retry? then 1 else 0
  {
    assert (log + [c])[..|log|] == log;
  }

  lemma CommitAttempts(t: Tables, id: string, occ: int, d: Decision)
    requires Current(t, id, occ)
    ensures var u, r := Apply(t, CommitOp(id, occ, d)), t.workflows[id];
      && u.workflows.Keys == t.workflows.Keys
      && u.workflows[id].attempts == r.attempts + (if d.Retry? then 1 else 0)
      && u.workflows[id].wtype == r.wtype
      && forall x | x in t.workflows && x != id :: u.workflows[x] == t.workflows[x]
  {
    hide FormatTime;
  }

  /** A retry is decided only within the budget. */
  lemma RetryIsWithinBudget(cfg: Config, rec: Record, ended: Ended, at: Instant)
    requires rec.attempts >= 0 && DecisionOf(cfg, rec, ended, at).Retry?
    ensures rec.attempts + 1 <= Max(PolicyOf(cfg, rec).maxAttempts - 1, 0)
  {
  }

  /** A decision made on a snapshot whose version is still current. */
  lemma CurrentCommitKeepsBudget(cfg: Config, db: Tables, log: seq<Commit>, rec: Record, ended: Ended, at: Instant)
    requires Budgeted(cfg, db, log) && Current(db, rec.id, rec.occ) && Succeeds(rec, db.workflows[rec.id])
    ensures var d := DecisionOf(cfg, rec, ended, at);
      Budgeted(cfg, Apply(db, CommitOp(rec.id, rec.occ, d)), log + [Commit(rec.id, rec.occ, d)])
  {
    hide FormatTime;
    var d := DecisionOf(cfg, rec, ended, at);
    CommitAttempts(db, rec.id, rec.occ, d);
    RetriesAppend(log, Commit(rec.id, rec.occ, d));
    if d.Retry? {
      RetryIsWithinBudget(cfg, rec, ended, at);
    }
  }

  lemma CommitKeepsBudget(cfg: Config, s: Fine, w: nat, at: Instant)
    requires Snapshots(s) && Budgeted(cfg, s.db, s.log) && w in s.runners && s.runners[w].Resolved?
    ensures var t := Act(cfg, s, CommitOutcome(w, at)); Budgeted(cfg, t.db, t.log)
  {
    var rec, ended := s.runners[w].rec, s.runners[w].ended;
    if Current(s.db, rec.id, rec.occ) {
      CurrentCommitKeepsBudget(cfg, s.db, s.log, rec, ended, at);
    } else {
      CommitBumps(s.db, CommitOp(rec.id, rec.occ, DecisionOf(cfg, rec, ended, at)));
    }
  }

  lemma CreateKeepsBudget(cfg: Config, s: Fine, r: Record, now: string)
    requires Budgeted(cfg, s.db, s.log) && r.attempts == 0
    ensures Budgeted(cfg, Apply(s.db, CreateOp(r, now)), s.log)
  {
    NoRetriesYetIfNew(s, r.id);
  }

  lemma NextKeepsBudget(cfg: Config, s: Fine, a: Action)
    requires Snapshots(s) && Budgeted(cfg, s.db, s.log)
    ensures Budgeted(cfg, Act(cfg, s, a).db, Act(cfg, s, a).log)
  {
    hide FormatTime;
    var op := Write(cfg, s, a);
    if op.Some? && IsCommit(op.value) {
      CommitIsARunners(cfg, s, a);
      CommitKeepsBudget(cfg, s, a.w, a.at);
    } else {
      OnlyCommitsAreLogged(cfg, s, a);
      if op.Some? {
        OtherWritesKeepBudget(cfg, s, op.value);
      }
    }
  }

  lemma OnlyCommitsAreLogged(cfg: Config, s: Fine, a: Action)
    requires !(Write(cfg, s, a).Some? && IsCommit(Write(cfg, s, a).value))
    ensures Act(cfg, s, a).log == s.log
    ensures Write(cfg, s, a).Some? && Write(cfg, s, a).value.CreateOp? ==> Write(cfg, s, a).value.r.attempts == 0
  {
    hide FormatTime;
  }

  lemma OtherWritesKeepBudget(cfg: Config, s: Fine, op: Op)
    requires Budgeted(cfg, s.db, s.log) && !IsCommit(op) && (op.CreateOp? ==> op.r.attempts == 0)
    ensures Budgeted(cfg, Apply(s.db, op), s.log)
  {
    if op.CreateOp? {
      CreateKeepsBudget(cfg, s, op.r, op.now);
    } else {
      OtherWritesKeepAttempts(s.db, op);
    }
  }

  lemma NoRetriesYetIfNew(s: Fine, id: string)
    requires forall i | 0 <= i < |s.log| :: s.log[i].id in s.db.workflows
    ensures id !in s.db.workflows ==> Retries(s.log, id) == 0
  {
    if id !in s.db.workflows {
      NoRetriesYet(s.log, id);
    }
  }

  /** In every reachable state a workflow's attempts are its committed retries, and within
      the budget, although every decision was made on a snapshot. */
  lemma {:induction false} RetryBudgetHolds(cfg: Config, actions: seq<Action>)
    ensures var s := Run(cfg, START, actions); Budgeted(cfg, s.db, s.log)
  {
    if actions != [] {
      var front := actions[..|actions| - 1];
      RetryBudgetHolds(cfg, front);
      RunKeepsVersions(cfg, START, front);
      NextKeepsBudget(cfg, Run(cfg, START, front), actions[|actions| - 1]);
    }
  }

  // ---- never stranded ----

  /** An outcome that suspends names a time. */
  predicate Timely(ended: Ended) {
    ended.Broken? && AsSuspend(ended.e).Some? ==> Nonzero(AsSuspend(ended.e).value)
  }

  predicate TimelyAction(a: Action) {
    a.Finish? ==> Timely(a.ended)
  }

  predicate TimelyActions(actions: seq<Action>) {
    forall i :: 0 <= i < |actions| ==> TimelyAction(actions[i])
  }

  /** The time a suspended record waits for can be read from its row. */
  predicate Wakeable(r: Record) {
    r.status == Suspended ==>
      && ScanTime(r.retryAfter).Some? && Nonzero(ScanTime(r.retryAfter).value)
      && r.retryAfter == FormatTime(ScanTime(r.retryAfter).value)
  }

  ghost predicate AllWakeable(s: Fine) {
    && (forall id | id in s.db.workflows :: Wakeable(s.db.workflows[id]))
    && (forall w | w in s.runners && s.runners[w].Resolved? :: Timely(s.runners[w].ended))
  }

  lemma OtherWritesKeepWakeable(t: Tables, op: Op)
    requires !IsCommit(op) && (forall id | id in t.workflows :: Wakeable(t.workflows[id]))
    requires op.CreateOp? ==> op.r.status == Pending
    ensures forall id | id in Apply(t, op).workflows :: Wakeable(Apply(t, op).workflows[id])
  {
  }

  lemma CommitKeepsWakeable(t: Tables, id: string, occ: int, attempts: nat, policy: RetryPolicy, ended: Ended,
          at: Instant)
    requires (forall x | x in t.workflows :: Wakeable(t.workflows[x])) && Timely(ended)
    ensures var u := Apply(t, CommitOp(id, occ, Decide(attempts, policy, ended, at)));
      forall x | x in u.workflows :: Wakeable(u.workflows[x])
  {
    var d := Decide(attempts, policy, ended, at);
    if d.SuspendUntil? {
      assert Nonzero(d.resumeAt);
      StampReadsBack(d.resumeAt);
    }
    CommitedRecord(t, id, occ, d);
  }

  lemma CommitedRecord(t: Tables, id: string, occ: int, d: Decision)
    ensures var u := Apply(t, CommitOp(id, occ, d));
      && u.workflows.Keys == t.workflows.Keys
      && forall x | x in t.workflows ::
        || u.workflows[x] == t.workflows[x]
        || u.workflows[x].status != Suspended
        || (d.SuspendUntil? && u.workflows[x].retryAfter == FormatTime(d.resumeAt))
  {
    hide FormatTime;
  }

  lemma RunnersStayTimely(cfg: Config, s: Fine, a: Action)
    requires TimelyAction(a) && forall w | w in s.runners && s.runners[w].Resolved? :: Timely(s.runners[w].ended)
    ensures var rs := Act(cfg, s, a).runners;
      forall w | w in rs && rs[w].Resolved? :: Timely(rs[w].ended)
  {
    hide Act;
    forall w | w in Act(cfg, s, a).runners && Act(cfg, s, a).runners[w].Resolved?
      ensures Timely(Act(cfg, s, a).runners[w].ended)
    {
      ResolvedSince(cfg, s, a, w);
    }
  }

  /** An outcome waiting for its commit was there before, or is the body's, or cancelled. */
  lemma ResolvedSince(cfg: Config, s: Fine, a: Action, w: nat)
    requires w in Act(cfg, s, a).runners && Act(cfg, s, a).runners[w].Resolved?
    ensures var ended := Act(cfg, s, a).runners[w].ended;
      || (w in s.runners && s.runners[w].Resolved? && s.runners[w].ended == ended)
      || (a.Finish? && a.ended == ended)
      || ended == Broken(CancelledError)
  {
    hide FormatTime;
  }

  lemma NextKeepsWakeable(cfg: Config, s: Fine, a: Action)
    requires AllWakeable(s) && TimelyAction(a)
    ensures AllWakeable(Act(cfg, s, a))
  {
    RunnersStayTimely(cfg, s, a);
    var op := Write(cfg, s, a);
    if op.Some? {
      if IsCommit(op.value) {
        var rec := s.runners[a.w].rec;
        CommitKeepsWakeable(s.db, rec.id, rec.occ, if rec.attempts >= 0 then rec.attempts else 0,
                            PolicyOf(cfg, rec), s.runners[a.w].ended, a.at);
      } else {
        OtherWritesKeepWakeable(s.db, op.value);
      }
    }
  }

  /** If every suspension names a time, every suspended record waits for one, in every
      reachable state, even when its event came before the suspension was committed. */
  lemma {:induction false} SuspendedHaveTimes(cfg: Config, actions: seq<Action>)
    requires TimelyActions(actions)
    ensures AllWakeable(Run(cfg, START, actions))
  {
    if actions != [] {
      var front, last := actions[..|actions| - 1], actions[|actions| - 1];
      assert TimelyAction(last);
      SuspendedHaveTimes(cfg, front);
      NextKeepsWakeable(cfg, Run(cfg, START, front), last);
    }
  }

  /** The text comparison of PromoteSuspended takes the stored time as reached. */
  predicate Reached(r: Record, at: Instant) {
    ScanTime(r.retryAfter).Some? && ComesBy(ScanTime(r.retryAfter).value, at)
  }

  ghost predicate AllReached(t: Tables, at: Instant) {
    forall id | id in t.workflows && t.workflows[id].status == Suspended :: Reached(t.workflows[id], at)
  }

  ghost predicate AllDue(t: Tables, now: string) {
    forall id | id in t.workflows && t.workflows[id].status == Suspended :: Due(t.workflows[id], now)
  }

  ghost predicate NoneSuspended(t: Tables) {
    forall id | id in t.workflows :: t.workflows[id].status != Suspended
  }

  lemma PromotedAll(t: Tables, now: string)
    ensures AllDue(t, now) == NoneSuspended(PromoteSuspended(t, now))
  {
    var u := PromoteSuspended(t, now);
    forall id | id in t.workflows
      ensures id in u.workflows
      ensures u.workflows[id] == if Due(t.workflows[id], now) then Wake(t.workflows[id]) else t.workflows[id]
    {
    }
  }

  lemma AllDueIsAllReached(t: Tables, at: Instant)
    requires Nonzero(at) && forall id | id in t.workflows :: Wakeable(t.workflows[id])
    ensures AllDue(t, FormatTime(at)) == AllReached(t, at)
  {
    forall id | id in t.workflows && t.workflows[id].status == Suspended
      ensures Due(t.workflows[id], FormatTime(at)) == Reached(t.workflows[id], at)
    {
      DueIsReached(t.workflows[id], at);
    }
  }

  lemma PromotionWakes(s: Fine, at: Instant)
    requires AllWakeable(s) && Nonzero(at)
    ensures AllReached(s.db, at) == NoneSuspended(PromoteSuspended(s.db, FormatTime(at)))
  {
    AllDueIsAllReached(s.db, at);
    PromotedAll(s.db, FormatTime(at));
  }

  /** Promoting leaves nothing suspended exactly when every suspended record's time is reached. */
  lemma NoneStranded(cfg: Config, actions: seq<Action>, at: Instant)
    requires TimelyActions(actions) && Nonzero(at)
    ensures var db := Run(cfg, START, actions).db;
      AllReached(db, at) == NoneSuspended(PromoteSuspended(db, FormatTime(at)))
  {
    SuspendedHaveTimes(cfg, actions);
    PromotionWakes(Run(cfg, START, actions), at);
  }

  lemma DueIsReached(r: Record, at: Instant)
    requires Wakeable(r) && r.status == Suspended && Nonzero(at)
    ensures Due(r, FormatTime(at)) == Reached(r, at)
  {
    var t := ScanTime(r.retryAfter).value;
    TextOrderExactly(t, at);
    StampReadsBack(t);
    assert r.retryAfter != "";
  }

  /** In particular at any time a full second or more past all of them. */
  lemma SecondPastIsReached(r: Record, at: Instant)
    requires ScanTime(r.retryAfter).Some? && ScanTime(r.retryAfter).value + SECOND <= at
    ensures Reached(r, at)
  {
  }
}
