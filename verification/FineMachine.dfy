/** The engine as a concurrent state machine: any number of runners, promoters, event senders
    and cancellers, every store call and every lease call one atomic step. */
module FineMachine {
  import opened Prelude
  import opened Timestamps
  import opened Database
  import opened Workflow
  import opened StoreOps
  import opened Outcomes
  import opened Backoff

  /** The registered policies; whether runners share one lease store; and which step names
      of a workflow are waits. */
  datatype Config = Config(policies: map<string, RetryPolicy>, leased: bool, isWait: (Who, string) -> bool)

  /** How far a tracked call is: see Run. Several calls may be under way in one execution. */
  datatype CallState = Entered | Clear | NotFound | Computed(row: Row) | Over

  /** A runner on a record as it was listed, perhaps long ago: waiting for a worker, holding
      the lease, with the rows prefetched, executing, with the outcome to commit, or with
      the lease to release. */
  datatype Runner =
    | Holding(rec: Record)
    | Leased(rec: Record)
    | Prefetched(rec: Record, cache: map<string, Row>)
    | Executing(rec: Record, cache: map<string, Row>, calls: map<string, CallState>)
    | Resolved(rec: Record, ended: Ended)
    | Closing(rec: Record)

  /** A committed outcome: the version it was committed on, and what was decided. */
  datatype Commit = Commit(id: string, occ: int, decision: Decision)

  datatype Fine = Fine(db: Tables, leases: set<string>, runners: map<nat, Runner>, log: seq<Commit>)

  const START := Fine(EMPTY, {}, map[], [])

  datatype Action =
    | Submit(id: string, wtype: string, version: string, payload: Json, at: Instant)
    | TakeRecord(w: nat, id: string, at: Instant)
    | Acquire(w: nat)
    | Prefetch(w: nat)
    | Check(w: nat)
    | GiveUp(w: nat)
    | Enter(w: nat, step: string)
    | ReadSignal(w: nat, step: string)
    | ReadRow(w: nat, step: string)
    | CallFunction(w: nat, step: string, row: Option<Row>)
    | SaveRow(w: nat, step: string)
    | SubscribeTo(w: nat, step: string, key: string, deadline: Instant)
    | Fail(w: nat, step: string)
    | Finish(w: nat, ended: Ended)
    | CommitOutcome(w: nat, at: Instant)
    | Release(w: nat)
    | Signal(id: string, signal: Database.Signal)
    | PromoteAll(at: Instant)
    | SendEvent(key: string, payload: Json)
    | TimeOutAll(at: Instant)

  predicate HoldsLease(r: Runner) {
    !r.Holding?
  }

  predicate InCall(s: Fine, w: nat, step: string) {
    w in s.runners && s.runners[w].Executing? && step in s.runners[w].calls
  }

  function CallOf(s: Fine, w: nat, step: string): CallState
    requires InCall(s, w, step)
  {
    s.runners[w].calls[step]
  }

  /** Submit's record: pending, no attempts, no signal. */
  function NewRecord(id: string, wtype: string, version: string, payload: Json): Record {
    Record(id, wtype, version, Pending, NoSignal, payload, None, "", "", 0, 1, "")
  }

  function PolicyOf(cfg: Config, r: Record): RetryPolicy {
    if r.wtype in cfg.policies then cfg.policies[r.wtype] else RetryPolicy(0, 0, 0)
  }

  function DecisionOf(cfg: Config, rec: Record, ended: Ended, at: Instant): Decision {
    Decide(if rec.attempts >= 0 then rec.attempts else 0, PolicyOf(cfg, rec), ended, at)
  }

  /** The store write of an action, if it makes one. */
  function Write(cfg: Config, s: Fine, a: Action): Option<Op> {
    match a
    case Submit(id, wtype, version, payload, at) =>
      Some(CreateOp(NewRecord(id, wtype, version, payload), FormatTime(at)))
    case Signal(id, signal) => Some(SetSignalOp(id, signal))
    case PromoteAll(at) => Some(PromoteOp(FormatTime(at)))
    case SendEvent(key, payload) => Some(ResumeOp(key, payload))
    case TimeOutAll(at) => Some(TimeOutOp(FormatTime(at)))
    case SaveRow(w, step) =>
      if InCall(s, w, step) && CallOf(s, w, step).Computed?
      then Some(SaveStepOp(WhoOf(s.runners[w].rec), step, CallOf(s, w, step).row)) else None
    case SubscribeTo(w, step, key, deadline) =>
      if InCall(s, w, step) && CallOf(s, w, step).NotFound? && cfg.isWait(WhoOf(s.runners[w].rec), step)
      then Some(SaveSubscriptionOp(key, Subscription(WhoOf(s.runners[w].rec), step, FormatTime(deadline)))) else None
    case CommitOutcome(w, at) =>
      if w in s.runners && s.runners[w].Resolved?
      then
        var rec := s.runners[w].rec;
        Some(CommitOp(rec.id, rec.occ, DecisionOf(cfg, rec, s.runners[w].ended, at)))
      else None
    case _ => None
  }

  function WithCall(s: Fine, w: nat, step: string, c: CallState): map<nat, Runner>
    requires w in s.runners && s.runners[w].Executing?
  {
    s.runners[w := s.runners[w].(calls := s.runners[w].calls[step := c])]
  }

  /** Run's read-through: the prefetched map first, then the store. */
  function ReadThrough(cache: map<string, Row>, db: Tables, who: Who, step: string): Option<Row> {
    if step in cache then Some(cache[step])
    else if step in RowsOf(db, who) then Some(RowsOf(db, who)[step])
    else None
  }

  function NextRunners(cfg: Config, s: Fine, a: Action): map<nat, Runner> {
    match a
    case TakeRecord(w, id, at) =>
      if w !in s.runners && id in s.db.workflows && Schedulable(s.db.workflows[id], FormatTime(at))
      then s.runners[w := Holding(s.db.workflows[id])] else s.runners
    case Acquire(w) =>
      if !(w in s.runners && s.runners[w].Holding?) then s.runners
      else
        var rec := s.runners[w].rec;
        if rec.wtype !in cfg.policies || (cfg.leased && rec.id in s.leases) then s.runners - {w}
        else s.runners[w := Leased(rec)]
    case Prefetch(w) =>
      if w in s.runners && s.runners[w].Leased?
      then s.runners[w := Prefetched(s.runners[w].rec, RowsOf(s.db, WhoOf(s.runners[w].rec)))] else s.runners
    case Check(w) =>
      if !(w in s.runners && s.runners[w].Prefetched?) then s.runners
      else
        var r := s.runners[w];
        if SignalSet(s.db, r.rec.id) then s.runners[w := Resolved(r.rec, Broken(CancelledError))]
        else s.runners[w := Executing(r.rec, r.cache, map[])]
    case GiveUp(w) =>
      if w in s.runners && (s.runners[w].Leased? || s.runners[w].Prefetched? || s.runners[w].Resolved?)
      then s.runners[w := Closing(s.runners[w].rec)] else s.runners
    case Enter(w, step) =>
      if w in s.runners && s.runners[w].Executing? && step !in s.runners[w].calls
      then WithCall(s, w, step, Entered) else s.runners
    case ReadSignal(w, step) =>
      if InCall(s, w, step) && CallOf(s, w, step).Entered?
      then WithCall(s, w, step, if SignalSet(s.db, s.runners[w].rec.id) then Over else Clear) else s.runners
    case ReadRow(w, step) =>
      if InCall(s, w, step) && CallOf(s, w, step).Clear?
      then
        var r := s.runners[w];
        WithCall(s, w, step, if ReadThrough(r.cache, s.db, WhoOf(r.rec), step).Some? then Over else NotFound)
      else s.runners
    case CallFunction(w, step, row) =>
      if InCall(s, w, step) && CallOf(s, w, step).NotFound? && !cfg.isWait(WhoOf(s.runners[w].rec), step)
      then WithCall(s, w, step, if row.Some? then Computed(row.value) else Over) else s.runners
    case SaveRow(w, step) =>
      if InCall(s, w, step) && CallOf(s, w, step).Computed? then WithCall(s, w, step, Over) else s.runners
    case SubscribeTo(w, step, key, deadline) =>
      if InCall(s, w, step) && CallOf(s, w, step).NotFound? && cfg.isWait(WhoOf(s.runners[w].rec), step)
      then WithCall(s, w, step, Over) else s.runners
    case Fail(w, step) =>
      if InCall(s, w, step) then WithCall(s, w, step, Over) else s.runners
    case Finish(w, ended) =>
      if w in s.runners && s.runners[w].Executing?
         && forall n | n in s.runners[w].calls :: s.runners[w].calls[n] == Over
      then s.runners[w := Resolved(s.runners[w].rec, ended)] else s.runners
    case CommitOutcome(w, at) =>
      if w in s.runners && s.runners[w].Resolved? then s.runners[w := Closing(s.runners[w].rec)] else s.runners
    case Release(w) =>
      if w in s.runners && s.runners[w].Closing? then s.runners - {w} else s.runners
    case _ => s.runners
  }

  function NextLeases(cfg: Config, s: Fine, a: Action): set<string> {
    match a
    case Acquire(w) =>
      if w in s.runners && s.runners[w].Holding? && s.runners[w].rec.wtype in cfg.policies
      then s.leases + {s.runners[w].rec.id} else s.leases
    case Release(w) =>
      if w in s.runners && s.runners[w].Closing? then s.leases - {s.runners[w].rec.id} else s.leases
    case _ => s.leases
  }

  function NextLog(cfg: Config, s: Fine, a: Action): seq<Commit> {
    match a
    case CommitOutcome(w, at) =>
      if w in s.runners && s.runners[w].Resolved? && Current(s.db, s.runners[w].rec.id, s.runners[w].rec.occ)
      then
        var rec := s.runners[w].rec;
        s.log + [Commit(rec.id, rec.occ, DecisionOf(cfg, rec, s.runners[w].ended, at))]
      else s.log
    case _ => s.log
  }

  /** One atomic step; an action that is not enabled changes nothing. */
  function Act(cfg: Config, s: Fine, a: Action): Fine {
    Fine(if Write(cfg, s, a).Some? then Apply(s.db, Write(cfg, s, a).value) else s.db,
         NextLeases(cfg, s, a), NextRunners(cfg, s, a), NextLog(cfg, s, a))
  }

  function Run(cfg: Config, s: Fine, actions: seq<Action>): Fine {
    if actions == [] then s
    else Act(cfg, Run(cfg, s, actions[..|actions| - 1]), actions[|actions| - 1])
  }
}
