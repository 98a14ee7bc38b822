/** Nothing comes before its time on the driven engine: a retry, a sleep and a wait each last
    until the instant they were given, and a cancellation is seen at once. */
module Waiting {
  import opened Prelude
  import opened Timestamps
  import opened Database
  import opened Workflow
  import opened StoreOps
  import opened Outcomes
  import opened Backoff
  import opened Store
  import opened Clocks
  import opened Trails
  import opened Replay
  import opened Driver
  import opened DriverEvents

  // ---- a record that waits ----

  /** Not before its time: whatever asks for its turn finds nothing to do. */
  ghost predicate NotYet(en: Engine, db: Tables, id: string, now: Instant)
    requires id in db.workflows
  {
    && (forall e, at :: Act(en, db, Execute(id, now, e, at)) == db)
    && (forall limit, rs | EarliestSchedulable(db, FormatTime(now), limit, rs) :: db.workflows[id] !in rs)
    && PromoteSuspended(db, FormatTime(now)).workflows[id] == db.workflows[id]
  }

  lemma TurnNotCome(en: Engine, db: Tables, id: string, t: Instant, now: Instant)
    requires id in db.workflows && db.workflows[id].id == id && db.workflows[id].retryAfter == FormatTime(t)
    requires Nonzero(t) && Nonzero(now) && now + SECOND <= t
    ensures NotYet(en, db, id, now)
  {
    hide FormatTime;
    StampNonEmpty(t);
    TextComesBy(t, now);
    SecondApart(now, t);
    NotDueNotYet(en, db, id, FormatTime(now));
  }

  lemma NotDueNotYet(en: Engine, db: Tables, id: string, stamp: string)
    requires id in db.workflows && db.workflows[id].id == id && db.workflows[id].retryAfter != ""
    requires !LexAtMost(db.workflows[id].retryAfter, stamp)
    ensures forall now, e, at | FormatTime(now) == stamp :: Act(en, db, Execute(id, now, e, at)) == db
    ensures forall limit, rs | EarliestSchedulable(db, stamp, limit, rs) :: db.workflows[id] !in rs
    ensures PromoteSuspended(db, stamp).workflows[id] == db.workflows[id]
  {
    hide FormatTime, RunRecord;
  }

  /** Not before t, give or take a second: then it is schedulable, or a promotion makes it so. */
  ghost predicate LastsUntil(en: Engine, db: Tables, id: string, t: Instant, now: Instant)
    requires id in db.workflows
  {
    && (now + SECOND <= t ==> NotYet(en, db, id, now))
    && (t + SECOND <= now ==>
          && (db.workflows[id].status == Status.Pending ==> Schedulable(db.workflows[id], FormatTime(now)))
          && (db.workflows[id].status == Suspended ==>
                PromoteSuspended(db, FormatTime(now)).workflows[id].status == Status.Pending))
  }

  /** Nothing in the chain says anything about the error. */
  ghost predicate IsTransient(e: Error) {
    forall x <- Chain(e) :: !x.CancelledError? && !x.Permanent? && !x.SuspendError?
  }

  lemma TransientIsRetried(attempts: nat, policy: RetryPolicy, e: Error, now: Instant)
    requires IsTransient(e) && attempts + 1 < policy.maxAttempts
    ensures Decide(attempts, policy, Broken(e), now) == Retry(now + RetryDelay(policy, attempts))
  {
    AsWalksChain(e);
  }

  lemma RetryIsWritten(db: Tables, rec: Record, policy: RetryPolicy, e: Error, at: Instant)
    requires rec.id in db.workflows && db.workflows[rec.id] == rec && rec.attempts >= 0
    requires IsTransient(e) && rec.attempts + 1 < policy.maxAttempts
    ensures var u := Resolve(db, rec, policy, Broken(e), at);
      rec.id in u.workflows
      && u.workflows[rec.id] == rec.(status := Status.Pending, attempts := rec.attempts + 1, occ := rec.occ + 1,
                                     retryAfter := FormatTime(at + RetryDelay(policy, rec.attempts)))
  {
    hide FormatTime, RetryDelay;
    TransientIsRetried(rec.attempts, policy, e, at);
    DecisionIsWritten(db, rec, Retry(at + RetryDelay(policy, rec.attempts)));
  }

  /** A transient failure with attempts left: pending again, and not before its delay is over;
      a full second later at most its turn has come. */
  lemma RetryWaitsItsDelay(en: Engine, db: Tables, rec: Record, e: Error, at: Instant, now: Instant)
    requires rec.wtype in en.defs && rec.id in db.workflows && db.workflows[rec.id] == rec && rec.attempts >= 0
    requires IsTransient(e) && rec.attempts + 1 < en.defs[rec.wtype].policy.maxAttempts
    requires var due := at + RetryDelay(en.defs[rec.wtype].policy, rec.attempts); Nonzero(due) && Nonzero(now)
    ensures var due := at + RetryDelay(en.defs[rec.wtype].policy, rec.attempts);
      var u := Resolve(db, rec, en.defs[rec.wtype].policy, Broken(e), at);
      && rec.id in u.workflows
      && u.workflows[rec.id] == rec.(status := Status.Pending, attempts := rec.attempts + 1, occ := rec.occ + 1,
                                     retryAfter := FormatTime(due))
      && LastsUntil(en, u, rec.id, due, now)
  {
    hide FormatTime, RetryDelay, Resolve, LastsUntil, Nonzero;
    var policy := en.defs[rec.wtype].policy;
    var due := at + RetryDelay(policy, rec.attempts);
    RetryIsWritten(db, rec, policy, e, at);
    DueOrNot(en, Resolve(db, rec, policy, Broken(e), at), rec.id, due, now);
  }

  /** A suspension lasts until its time: the record is neither listed nor promoted before. */
  lemma SuspensionLasts(en: Engine, db: Tables, rec: Record, e: Error, t: Instant, at: Instant, now: Instant)
    requires rec.wtype in en.defs && rec.id in db.workflows && db.workflows[rec.id] == rec && rec.attempts >= 0
    requires forall x <- Chain(e) :: !x.CancelledError? && !x.Permanent?
    requires FirstSuspension(e) == Some(SuspendError(t))
    requires Nonzero(t) && Nonzero(now)
    ensures var u := Resolve(db, rec, en.defs[rec.wtype].policy, Broken(e), at);
      && rec.id in u.workflows
      && u.workflows[rec.id] == rec.(status := Suspended, occ := rec.occ + 1, retryAfter := FormatTime(t))
      && LastsUntil(en, u, rec.id, t, now)
  {
    hide FormatTime;
    AsWalksChain(e);
    DecisionIsWritten(db, rec, SuspendUntil(t));
    DueOrNot(en, Resolve(db, rec, en.defs[rec.wtype].policy, Broken(e), at), rec.id, t, now);
  }

  lemma DueOrNot(en: Engine, db: Tables, id: string, t: Instant, now: Instant)
    requires id in db.workflows && db.workflows[id].id == id && db.workflows[id].retryAfter == FormatTime(t)
    requires Nonzero(t) && Nonzero(now)
    ensures LastsUntil(en, db, id, t, now)
  {
    hide FormatTime;
    if now + SECOND <= t {
      TurnNotCome(en, db, id, t, now);
    }
    if t + SECOND <= now {
      StampNonEmpty(t);
      TextComesBy(t, now);
      SecondApart(t, now);
    }
  }

  // ---- a wait ----

  /** The subscription is until now + timeout. */
  predicate LastsFor(sub: Subscription, e: Env, timeout: int) {
    sub == Subscription(e.who, sub.step, FormatTime(e.now(sub.step) + timeout))
  }

  ghost predicate UntilTimeout(p: Prog, key: string, sub: Subscription, e: Env) {
    exists timeout :: HasWait(p, key, timeout) && LastsFor(sub, e, timeout)
  }

  ghost predicate NewUntilTimeout(p: Prog, a: State, b: State, e: Env) {
    forall k | k in b.subs && k !in a.subs :: UntilTimeout(p, k, b.subs[k], e)
  }

  lemma CallUntilTimeout(p: Prog, name: string, st: State, e: Env)
    ensures NewUntilTimeout(p, st, Perform(p, name, st, e).st, e)
  {
    hide FormatTime;
    var st1 := Perform(p, name, st, e).st;
    forall k | k in st1.subs && k !in st.subs
      ensures UntilTimeout(p, k, st1.subs[k], e)
    {
      assert p.Wait? && p.key == k && HasWait(p, k, p.timeout);
      assert LastsFor(st1.subs[k], e, p.timeout);
    }
  }

  lemma OnwardHasWait(p: Prog, reply: Reply, key: string, timeout: int)
    requires IsCall(p) && Onward(p, reply).Go? && HasWait(Onward(p, reply).p, key, timeout)
    ensures HasWait(p, key, timeout)
  {
  }

  lemma OnwardUntilTimeout(p: Prog, reply: Reply, a: State, b: State, e: Env)
    requires IsCall(p) && Onward(p, reply).Go? && NewUntilTimeout(Onward(p, reply).p, a, b, e)
    ensures NewUntilTimeout(p, a, b, e)
  {
    hide FormatTime, LastsFor;
    forall k | k in b.subs && k !in a.subs
      ensures UntilTimeout(p, k, b.subs[k], e)
    {
      assert UntilTimeout(Onward(p, reply).p, k, b.subs[k], e);
      var t :| HasWait(Onward(p, reply).p, k, t) && LastsFor(b.subs[k], e, t);
      OnwardHasWait(p, reply, k, t);
    }
  }

  /** Every subscription an execution makes is until now + timeout of one of its waits. */
  lemma {:induction false} ExecUntilTimeout(p: Prog, sc: Scope, st: State, e: Env)
    ensures NewUntilTimeout(p, st, Exec(p, sc, st, e).0, e)
    decreases p
  {
    hide FormatTime, Perform;
    if p.Parallel? {
      BranchesUntilTimeout(p, 0, sc, st, e);
      var (st1, outs) := ExecAll(p.branches, sc, st, e);
      assert p.branches[0..] == p.branches;
      var n := AfterJoin(p, outs);
      if n.Go? {
        ExecUntilTimeout(n.p, sc, st1, e);
        ExecGrows(n.p, sc, st1, e);
        JoinUntilTimeout(p, outs, st1, Exec(p, sc, st, e).0, e);
      }
    } else if IsCall(p) {
      var name := CallName(p, sc);
      var r := Perform(p, name, st, e);
      CallUntilTimeout(p, name, st, e);
      if r.Replied? && Resume(p, name, r.reply, e).Go? {
        ResumeGoes(p, name, r.reply, e);
        var q := Onward(p, r.reply).p;
        ExecUntilTimeout(q, Counted(p, sc), r.st, e);
        ExecGrows(q, Counted(p, sc), r.st, e);
        OnwardUntilTimeout(p, r.reply, r.st, Exec(q, Counted(p, sc), r.st, e).0, e);
      }
    }
  }

  lemma JoinUntilTimeout(p: Prog, outs: seq<Outcome>, a: State, b: State, e: Env)
    requires p.Parallel? && AfterJoin(p, outs).Go? && NewUntilTimeout(AfterJoin(p, outs).p, a, b, e)
    ensures NewUntilTimeout(p, a, b, e)
  {
    hide FormatTime, LastsFor;
    var q := AfterJoin(p, outs).p;
    forall k | k in b.subs && k !in a.subs
      ensures UntilTimeout(p, k, b.subs[k], e)
    {
      assert UntilTimeout(q, k, b.subs[k], e);
      var t :| HasWait(q, k, t) && LastsFor(b.subs[k], e, t);
      assert Values(outs) in p.join && p.join[Values(outs)] == q;
      assert HasWait(p, k, t);
    }
  }

  lemma {:induction false} BranchesUntilTimeout(p: Prog, i: nat, sc: Scope, st: State, e: Env)
    requires p.Parallel? && i <= |p.branches|
    ensures NewUntilTimeout(p, st, ExecAll(p.branches[i..], sc, st, e).0, e)
    decreases p, |p.branches| - i
  {
    hide FormatTime;
    if i < |p.branches| {
      var b := p.branches[i];
      assert p.branches[i..][0] == b && p.branches[i..][1..] == p.branches[i + 1..];
      var (st1, _) := Exec(b.body, ChildScope(sc, b.name), st, e);
      ExecUntilTimeout(b.body, ChildScope(sc, b.name), st, e);
      BranchesUntilTimeout(p, i + 1, sc, st1, e);
      ExecAllGrows(p.branches[i + 1..], sc, st1, e);
      BranchUntilTimeout(p, i, st, st1, e);
    }
  }

  lemma BranchUntilTimeout(p: Prog, i: nat, a: State, b: State, e: Env)
    requires p.Parallel? && i < |p.branches| && NewUntilTimeout(p.branches[i].body, a, b, e)
    ensures NewUntilTimeout(p, a, b, e)
  {
    hide FormatTime, LastsFor;
    forall k | k in b.subs && k !in a.subs
      ensures UntilTimeout(p, k, b.subs[k], e)
    {
      assert UntilTimeout(p.branches[i].body, k, b.subs[k], e);
      var t :| HasWait(p.branches[i].body, k, t) && LastsFor(b.subs[k], e, t);
      assert HasWait(p, k, t);
    }
  }

  /** No delivery on the key, and no timeout less than a full second before the deadline. */
  predicate Leaves(a: Action, key: string, d: Instant) {
    && (a.SendEvent? ==> a.key != key)
    && (a.TimeOut? ==> Nonzero(a.at) && a.at + SECOND <= d)
  }

  predicate AllLeave(actions: seq<Action>, key: string, d: Instant) {
    forall i | 0 <= i < |actions| :: Leaves(actions[i], key, d)
  }

  lemma NextKeepsWait(en: Engine, db: Tables, a: Action, key: string, d: Instant)
    requires key in db.subs && db.subs[key].deadline == FormatTime(d) && Nonzero(d) && Leaves(a, key, d)
    ensures var u := Act(en, db, a); key in u.subs && u.subs[key] == db.subs[key]
  {
    LiveUntilSettled(en, db, a, key);
    if a.TimeOut? {
      TextComesBy(d, a.at);
      SecondApart(a.at, d);
    }
  }

  /** A wait outlives every timeout cycle a full second or more before its deadline. */
  lemma {:induction false} WaitOutlives(en: Engine, db: Tables, actions: seq<Action>, key: string, d: Instant)
    requires key in db.subs && db.subs[key].deadline == FormatTime(d) && Nonzero(d) && AllLeave(actions, key, d)
    ensures var u := Run(en, db, actions); key in u.subs && u.subs[key] == db.subs[key]
  {
    if actions != [] {
      var front, last := actions[..|actions| - 1], actions[|actions| - 1];
      assert forall i | 0 <= i < |front| :: front[i] == actions[i];
      WaitOutlives(en, db, front, key, d);
      NextKeepsWait(en, Run(en, db, front), last, key, d);
    }
  }

  /** And ends, with the marker, in the first cycle a full second or more after it. */
  lemma WaitEnds(en: Engine, db: Tables, key: string, d: Instant, at: Instant)
    requires key in db.subs && db.subs[key].deadline == FormatTime(d) && Nonzero(d) && Nonzero(at) && d + SECOND <= at
    ensures var u, sub := Act(en, db, TimeOut(at)), db.subs[key];
      && key !in u.subs && HasRow(u, sub.who, sub.step)
      && RowsOf(u, sub.who)[sub.step] == Row(None, "event_timeout")
  {
    hide FormatTime, FourDigitYear;
    StampNonEmpty(d);
    TextComesBy(d, at);
    SecondApart(d, at);
    assert key in ExpiredKeys(db, FormatTime(at));
    ExpiredAreMarked(db, ExpiredKeys(db, FormatTime(at)), key);
  }

  lemma NewSubscriptionIsExecuted(en: Engine, db: Tables, rec: Record, e: Env, at: Instant, key: string)
    requires var u := RunRecord(en, db, rec, e, at); key in u.subs && key !in db.subs
    ensures rec.wtype in en.defs && RunRecord(en, db, rec, e, at).subs == Execution(en, db, rec, e).0.subs
  {
    if rec.wtype in en.defs {
      ResolvingKeeps(AfterExecution(en, db, rec, e), rec, en.defs[rec.wtype].policy,
                     EndedBy(Execution(en, db, rec, e).1, en.codec), at);
      ResolvingKeeps(db, rec, en.defs[rec.wtype].policy, Broken(CancelledError), at);
    }
  }

  /** Every wait an execution makes is until now + timeout of a wait of the body, and lasts so
      long: no timeout cycle a full second or more before that ends it. */
  lemma WaitLastsItsTimeout(en: Engine, db: Tables, rec: Record, e: Env, at: Instant, key: string)
    requires var u := RunRecord(en, db, rec, e, at); key in u.subs && key !in db.subs
    ensures rec.wtype in en.defs
    ensures var u, env := RunRecord(en, db, rec, e, at), EnvFor(en, rec, e);
      exists timeout ::
        && HasWait(ProgramOf(en, rec), key, timeout) && LastsFor(u.subs[key], env, timeout)
        && Outlives(en, u, key, env.now(u.subs[key].step) + timeout)
  {
    hide FormatTime, RunRecord, Outlives;
    var u, env := RunRecord(en, db, rec, e, at), EnvFor(en, rec, e);
    NewSubscriptionIsExecuted(en, db, rec, e, at, key);
    ExecUntilTimeout(ProgramOf(en, rec), ROOT, Start(World(RowsOf(db, WhoOf(rec)), db.subs)), env);
    assert UntilTimeout(ProgramOf(en, rec), key, u.subs[key], env);
    var timeout :| HasWait(ProgramOf(en, rec), key, timeout) && LastsFor(u.subs[key], env, timeout);
    LastingOutlives(en, u, key, env.now(u.subs[key].step) + timeout);
  }

  /** Whatever happens, short of a delivery or of a timeout cycle near its deadline, the wait
      stays as it is. */
  ghost predicate Outlives(en: Engine, db: Tables, key: string, d: Instant)
    requires key in db.subs
  {
    forall actions | Nonzero(d) && AllLeave(actions, key, d) ::
      key in Run(en, db, actions).subs && Run(en, db, actions).subs[key] == db.subs[key]
  }

  lemma LastingOutlives(en: Engine, db: Tables, key: string, d: Instant)
    requires key in db.subs && db.subs[key].deadline == FormatTime(d)
    ensures Outlives(en, db, key, d)
  {
    forall actions | Nonzero(d) && AllLeave(actions, key, d)
      ensures key in Run(en, db, actions).subs && Run(en, db, actions).subs[key] == db.subs[key]
    {
      WaitOutlives(en, db, actions, key, d);
    }
  }

  // ---- a cancellation ----

  /** Once the signal is set, the workflow's next turn ends it as cancelled: nothing of the
      body runs. */
  lemma CancelledAtNextTurn(en: Engine, db: Tables, id: string, listed: Instant, e: Env, at: Instant)
    requires id in db.workflows && db.workflows[id].id == id && db.workflows[id].wtype in en.defs
    requires Schedulable(db.workflows[id], FormatTime(listed))
    ensures var rec, s := db.workflows[id], Act(en, db, Driver.Signal(id, CancelRequested));
      Act(en, s, Execute(id, listed, e, at))
      == Put(db, rec.(signal := CancelRequested, status := Cancelled, result := None, occ := rec.occ + 1))
  {
    hide FormatTime;
    var s := Act(en, db, Driver.Signal(id, CancelRequested));
    DecisionIsWritten(s, s.workflows[id], Cancel);
  }
}
