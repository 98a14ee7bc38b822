/** What each execution of a sequential workflow is charged to: a new row, a new subscription
    or an attempt. */
module Charges {
  import opened Prelude
  import opened Timestamps
  import opened Database
  import opened Workflow
  import opened StoreOps
  import opened Outcomes
  import opened Backoff
  import opened Trails
  import opened Replay
  import opened Advance
  import opened Driver
  import opened DriverEvents

  // ---- what holds of a sequential workflow ----

  function OpenSteps(db: Tables, who: Who): set<string> {
    set key | key in db.subs && db.subs[key].who == who :: db.subs[key].step
  }

  /** The steps with a row or a live subscription. */
  function Charged(db: Tables, who: Who): set<string> {
    RowsOf(db, who).Keys + OpenSteps(db, who)
  }

  function WayOf(en: Engine, db: Tables, rec: Record): Way
    requires rec.wtype in en.defs
  {
    Walk(ProgramOf(en, rec), ROOT, {}, RowsOf(db, WhoOf(rec)), en.codec)
  }

  /** A registered program of at most n durable operations, its rows and open waits sound and
      on its way. */
  ghost predicate Standing(en: Engine, db: Tables, rec: Record, n: nat) {
    && RoundTrips(en.codec) && rec.wtype in en.defs && Sequential(ProgramOf(en, rec), n)
    && Sound(ProgramOf(en, rec), WhoOf(rec), en.codec, WorldOf(db, WhoOf(rec)))
    && Charged(db, WhoOf(rec)) <= WayOf(en, db, rec).names
  }

  function Spare(en: Engine, rec: Record): int
    requires rec.wtype in en.defs
  {
    Max(en.defs[rec.wtype].policy.maxAttempts - 1, 0)
  }

  /** Suspended until s by a sleep. */
  ghost predicate Asleep(db: Tables, rec: Record, s: Instant) {
    && rec.status == Suspended && rec.retryAfter == FormatTime(s) && FourDigitYear(s)
    && OpenSteps(db, WhoOf(rec)) == {}
  }

  ghost predicate SleepsKnown(en: Engine, db: Tables, rec: Record, clock: Instant)
    requires rec.wtype in en.defs
  {
    forall s | s in WayOf(en, db, rec).sleeps :: s <= clock || Asleep(db, rec, s)
  }

  predicate Unfinished(rec: Record) {
    rec.status == Status.Pending || rec.status == Suspended
  }

  /** What holds of the workflow between executions. */
  ghost predicate OnTrack(en: Engine, db: Tables, rec: Record, n: nat, clock: Instant) {
    && Standing(en, db, rec, n)
    && Unfinished(rec) && 0 <= rec.attempts <= Spare(en, rec)
    && SleepsKnown(en, db, rec, clock)
  }

  lemma StandingIsAtMostOne(en: Engine, db: Tables, rec: Record, n: nat)
    requires Standing(en, db, rec, n)
    ensures Orderly(en, rec) && AtMostOne(db, WhoOf(rec))
  {
    SequentialAgrees(ProgramOf(en, rec), n, ROOT);
    var who := WhoOf(rec);
    forall k, l | k in db.subs && l in db.subs && db.subs[k].who == who && IsFor(db.subs[l], who, db.subs[k].step)
      ensures k == l
    {
      OneOpenWait(ProgramOf(en, rec), who, en.codec, WorldOf(db, who), k, l);
    }
  }

  /** There is room for n of them. */
  lemma ChargedIsBounded(en: Engine, db: Tables, rec: Record, n: nat, clock: Instant)
    requires OnTrack(en, db, rec, n, clock)
    ensures |Charged(db, WhoOf(rec))| + rec.attempts <= n + Spare(en, rec)
  {
    WalkIsShort(ProgramOf(en, rec), n, ROOT, {}, RowsOf(db, WhoOf(rec)), en.codec);
    SubsetIsSmaller(Charged(db, WhoOf(rec)), WayOf(en, db, rec).names);
  }

  lemma SubsetIsSmaller<T>(a: set<T>, b: set<T>)
    requires a <= b
    ensures |a| <= |b| && (a != b ==> |a| < |b|)
  {
    assert b == a + (b - a);
  }

  /** Tables and records alike in what a workflow's way depends on. */
  lemma SameWay(en: Engine, t: Tables, u: Tables, a: Record, b: Record)
    requires u.steps == t.steps && u.subs == t.subs && WhoOf(b) == WhoOf(a) && b.payload == a.payload
    ensures Charged(u, WhoOf(b)) == Charged(t, WhoOf(a)) && OpenSteps(u, WhoOf(b)) == OpenSteps(t, WhoOf(a))
    ensures a.wtype in en.defs ==> ProgramOf(en, b) == ProgramOf(en, a) && WayOf(en, u, b) == WayOf(en, t, a)
  {
  }

  lemma SameStanding(en: Engine, t: Tables, u: Tables, a: Record, b: Record, n: nat)
    requires u.steps == t.steps && u.subs == t.subs && WhoOf(b) == WhoOf(a) && b.payload == a.payload
    requires Standing(en, t, a, n)
    ensures Standing(en, u, b, n)
  {
    SameWay(en, t, u, a, b);
  }

  // ---- between executions ----

  /** Anything but a promotion or an execution of the workflow itself. */
  predicate Between(a: Action, id: string) {
    !a.Promote? && !(a.Execute? && a.id == id)
  }

  predicate AllBetween(actions: seq<Action>, id: string) {
    forall i | 0 <= i < |actions| :: Between(actions[i], id)
  }

  /** The record is as it was, but for its signal, or woken because a wait of it was settled. */
  predicate LeftAlone(a: Record, b: Record, woken: bool) {
    || b == a.(signal := b.signal)
    || (woken && a.status == Suspended && b == Wake(a))
  }

  lemma OneOpen(en: Engine, db: Tables, rec: Record, n: nat, x: string, y: string)
    requires Standing(en, db, rec, n)
    requires x in OpenSteps(db, WhoOf(rec)) && y in OpenSteps(db, WhoOf(rec))
    ensures x == y
  {
    assert x in Charged(db, WhoOf(rec)) && y in Charged(db, WhoOf(rec));
    OneMissing(ProgramOf(en, rec), ROOT, {}, RowsOf(db, WhoOf(rec)), en.codec, x, y);
  }

  /** Settling a wait brings no new sleep to the way, and lengthens it at most. */
  lemma ProgressOnWay(en: Engine, db: Tables, u: Tables, rec: Record, n: nat)
    requires Standing(en, db, rec, n)
    requires Progress(WhoOf(rec), WorldOf(db, WhoOf(rec)), WorldOf(u, WhoOf(rec)))
    ensures Standing(en, u, rec, n)
    ensures WayOf(en, u, rec).sleeps <= WayOf(en, db, rec).sleeps
    ensures OpenSteps(u, WhoOf(rec)) <= OpenSteps(db, WhoOf(rec))
  {
    var who, p := WhoOf(rec), ProgramOf(en, rec);
    var a, b := RowsOf(db, who), RowsOf(u, who);
    ProgressOnTrail(p, who, en.codec, WorldOf(db, who), WorldOf(u, who));
    WalkGrows(p, ROOT, {}, a, b, en.codec);
    NewRowsWereOpen(db, u, who);
    if OpenSteps(db, who) == {} {
      SameRows(a, b);
    } else {
      var k :| k in db.subs && db.subs[k].who == who;
      var step := db.subs[k].step;
      forall x | x in OpenSteps(db, who)
        ensures x == step
      {
        OneOpen(en, db, rec, n, x, step);
      }
      WaitBringsNoSleep(p, n, ROOT, {}, a, b, en.codec, step, k);
    }
  }

  lemma NewRowsWereOpen(db: Tables, u: Tables, who: Who)
    requires Progress(who, WorldOf(db, who), WorldOf(u, who))
    ensures RowsOf(u, who).Keys <= RowsOf(db, who).Keys + OpenSteps(db, who)
    ensures OpenSteps(u, who) <= OpenSteps(db, who)
  {
    forall n | n in RowsOf(u, who) && n !in RowsOf(db, who)
      ensures n in OpenSteps(db, who)
    {
      var k :| k in db.subs && IsFor(db.subs[k], who, n);
    }
  }

  lemma ProgressKeepsTrack(en: Engine, db: Tables, u: Tables, a: Record, b: Record, n: nat, clock: Instant)
    requires OnTrack(en, db, a, n, clock)
    requires Progress(WhoOf(a), WorldOf(db, WhoOf(a)), WorldOf(u, WhoOf(a)))
    requires LeftAlone(a, b, OpenSteps(db, WhoOf(a)) != {})
    ensures OnTrack(en, u, b, n, clock)
  {
    hide FormatTime;
    ProgressOnWay(en, db, u, a, n);
    SameWay(en, u, u, a, b);
    SameStanding(en, u, u, a, b, n);
    forall s | s in WayOf(en, u, b).sleeps
      ensures s <= clock || Asleep(u, b, s)
    {
      assert s in WayOf(en, db, a).sleeps;
    }
  }

  lemma BetweenProgress(en: Engine, db: Tables, a: Action, id: string, n: nat)
    requires AllSound(en, db) && Between(a, id) && id in db.workflows && Standing(en, db, db.workflows[id], n)
    ensures var who := WhoOf(db.workflows[id]);
      Progress(who, WorldOf(db, who), WorldOf(Act(en, db, a), who))
  {
    hide FormatTime;
    var who := WhoOf(db.workflows[id]);
    StandingIsAtMostOne(en, db, db.workflows[id], n);
    match a
    case Submit(rec, now) => SameProgress(db, Act(en, db, a), who);
    case Signal(x, signal) => SameProgress(db, Act(en, db, a), who);
    case TimeOut(at) => TimeOutProgress(db, ExpiredKeys(db, FormatTime(at)), who);
    case SendEvent(key, payload) => SendProgress(db, key, payload, who);
    case Execute(x, listed, e, at) => RunOneElsewhere(en, db, x, listed, e, at, who);
    case Promote(at) =>
  }

  lemma SendProgress(db: Tables, key: string, payload: Json, who: Who)
    requires AtMostOne(db, who)
    ensures Progress(who, WorldOf(db, who), WorldOf(Apply(db, ResumeOp(key, payload)), who))
  {
    if key in db.subs {
      SettleProgress(db, key, Row(Some(payload), ""), who);
    } else {
      SameProgress(db, db, who);
    }
  }

  lemma RunOneElsewhere(en: Engine, db: Tables, x: string, listed: Instant, e: Env, at: Instant, who: Who)
    requires AtMostOne(db, who) && (x in db.workflows ==> WhoOf(db.workflows[x]) != who)
    ensures Progress(who, WorldOf(db, who), WorldOf(RunOne(en, db, x, listed, e, at), who))
  {
    hide FormatTime;
    SameProgress(db, db, who);
    if x in db.workflows {
      RunElsewhere(en, db, db.workflows[x], e, at, who);
    }
  }

  lemma WokenHadWaits(db: Tables, id: string, keys: set<string>)
    requires Owned(db) && keys <= db.subs.Keys && id in IdsOf(db, keys) && id in db.workflows
    ensures OpenSteps(db, WhoOf(db.workflows[id])) != {}
  {
    var key :| key in keys && db.subs[key].who.id == id;
    assert IsWho(db, db.subs[key].who);
    assert db.subs[key].step in OpenSteps(db, WhoOf(db.workflows[id]));
  }

  lemma BetweenLeavesRecord(en: Engine, db: Tables, a: Action, id: string)
    requires AllSound(en, db) && Between(a, id) && id in db.workflows
    ensures id in Act(en, db, a).workflows
    ensures LeftAlone(db.workflows[id], Act(en, db, a).workflows[id], OpenSteps(db, WhoOf(db.workflows[id])) != {})
  {
    hide FormatTime;
    match a
    case TimeOut(at) => TimeOutLeavesRecord(db, ExpiredKeys(db, FormatTime(at)), id);
    case SendEvent(key, payload) => SendLeavesRecord(db, key, payload, id);
    case Execute(x, listed, e, at) =>
      if x in db.workflows {
        RunTouchesOne(en, db, db.workflows[x], e, at);
      }
    case Submit(_, _) =>
    case Signal(_, _) =>
    case Promote(_) =>
  }

  lemma TimeOutLeavesRecord(db: Tables, keys: set<string>, id: string)
    requires Owned(db) && keys <= db.subs.Keys && id in db.workflows
    ensures LeftAlone(db.workflows[id], TimeOutSet(db, keys).workflows[id],
                      OpenSteps(db, WhoOf(db.workflows[id])) != {})
  {
    if id in IdsOf(db, keys) {
      WokenHadWaits(db, id, keys);
    }
  }

  lemma SendLeavesRecord(db: Tables, key: string, payload: Json, id: string)
    requires Owned(db) && id in db.workflows
    ensures var u := Apply(db, ResumeOp(key, payload));
      && id in u.workflows
      && LeftAlone(db.workflows[id], u.workflows[id], OpenSteps(db, WhoOf(db.workflows[id])) != {})
  {
    if key in db.subs && db.subs[key].who.id == id {
      assert id in IdsOf(db, {key});
      WokenHadWaits(db, id, {key});
    }
  }

  /** Whatever is charged stays charged. */
  lemma ChargesStay(en: Engine, db: Tables, a: Action, id: string)
    requires AllSound(en, db) && id in db.workflows && Orderly(en, db.workflows[id])
    ensures var who := WhoOf(db.workflows[id]); Charged(db, who) <= Charged(Act(en, db, a), who)
  {
    var who, u := WhoOf(db.workflows[id]), Act(en, db, a);
    NextKeepsRows(en, db, a, id);
    forall step | step in OpenSteps(db, who)
      ensures step in Charged(u, who)
    {
      var key :| key in db.subs && db.subs[key].who == who && db.subs[key].step == step;
      LiveUntilSettled(en, db, a, key);
    }
  }

  ghost predicate Better(db: Tables, u: Tables, id: string) {
    && SameWorkflow(db, u, id) && u.workflows[id].attempts >= db.workflows[id].attempts
    && Charged(db, WhoOf(db.workflows[id])) <= Charged(u, WhoOf(db.workflows[id]))
  }

  lemma BetweenKeepsTrack(en: Engine, db: Tables, a: Action, id: string, n: nat, clock: Instant)
    requires AllSound(en, db) && Between(a, id) && id in db.workflows && OnTrack(en, db, db.workflows[id], n, clock)
    ensures AllSound(en, Act(en, db, a)) && Better(db, Act(en, db, a), id)
    ensures OnTrack(en, Act(en, db, a), Act(en, db, a).workflows[id], n, clock)
  {
    hide FormatTime;
    var u := Act(en, db, a);
    NextIsSound(en, db, a);
    StandingIsAtMostOne(en, db, db.workflows[id], n);
    ChargesStay(en, db, a, id);
    BetweenProgress(en, db, a, id, n);
    BetweenLeavesRecord(en, db, a, id);
    ProgressKeepsTrack(en, db, u, db.workflows[id], u.workflows[id], n, clock);
  }

  lemma {:induction false} ManyBetween(en: Engine, db: Tables, actions: seq<Action>, id: string, n: nat, clock: Instant)
    requires AllSound(en, db) && id in db.workflows && OnTrack(en, db, db.workflows[id], n, clock)
    requires AllBetween(actions, id)
    ensures var u := Run(en, db, actions);
      AllSound(en, u) && Better(db, u, id) && OnTrack(en, u, u.workflows[id], n, clock)
  {
    if actions != [] {
      var front := actions[..|actions| - 1];
      ManyBetween(en, db, front, id, n, clock);
      BetweenKeepsTrack(en, Run(en, db, front), actions[|actions| - 1], id, n, clock);
    }
  }

  // ---- an execution ----

  lemma ExecutedStanding(en: Engine, db: Tables, rec: Record, n: nat, e: Env)
    requires Standing(en, db, rec, n)
    ensures Standing(en, AfterExecution(en, db, rec, e), rec, n)
    ensures Charged(db, WhoOf(rec)) <= Charged(AfterExecution(en, db, rec, e), WhoOf(rec))
  {
    var p, who, env := ProgramOf(en, rec), WhoOf(rec), EnvFor(en, rec, e);
    var st := Start(WorldOf(db, who));
    var st1 := Exec(p, ROOT, st, env).0;
    SequentialAgrees(p, n, ROOT);
    ExecutionKeepsSound(p, WorldOf(db, who), env);
    ExecGrows(p, ROOT, st, env);
    ExecOnWay(p, n, ROOT, st, env, st1.rows);
    WalkGrows(p, ROOT, {}, st.rows, st1.rows, en.codec);
    OpenStepsTracked(db, AfterExecution(en, db, rec, e), who, st1.seen);
  }

  lemma OpenStepsTracked(db: Tables, u: Tables, who: Who, seen: set<string>)
    requires SubsKept(db, u)
    requires forall k | k in u.subs && k !in db.subs :: u.subs[k].step in seen
    ensures OpenSteps(db, who) <= OpenSteps(u, who) <= OpenSteps(db, who) + seen
  {
    forall step | step in OpenSteps(u, who)
      ensures step in OpenSteps(db, who) || step in seen
    {
      var key :| key in u.subs && u.subs[key].who == who && u.subs[key].step == step;
      assert key in db.subs ==> u.subs[key] == db.subs[key];
    }
    forall step | step in OpenSteps(db, who)
      ensures step in OpenSteps(u, who)
    {
      var key :| key in db.subs && db.subs[key].who == who && db.subs[key].step == step;
      assert u.subs[key] == db.subs[key];
    }
  }

  /** A new row means nothing was awaited. */
  lemma NothingOpen(en: Engine, db: Tables, rec: Record, n: nat, e: Env)
    requires Standing(en, db, rec, n)
    ensures var st := Execution(en, db, rec, e).0;
      OpenSteps(db, WhoOf(rec)) == {} || st.rows == RowsOf(db, WhoOf(rec))
  {
    var p, who, env := ProgramOf(en, rec), WhoOf(rec), EnvFor(en, rec, e);
    var st := Start(WorldOf(db, who));
    if OpenSteps(db, who) != {} {
      var key :| key in db.subs && db.subs[key].who == who;
      StopsAtWait(p, n, ROOT, st, env, db.subs[key].step, key);
    }
  }

  /** A suspended execution has a new row or a new subscription. */
  lemma SuspensionIsCharged(en: Engine, db: Tables, rec: Record, n: nat, e: Env, from: Instant, to: Instant)
    requires Standing(en, db, rec, n) && Over(WayOf(en, db, rec).sleeps, from, {}) && Steady(e, from, to)
    requires var out := Execution(en, db, rec, e).1; out.Erred? && AsSuspend(out.e) != None
    ensures var u := AfterExecution(en, db, rec, e);
      Charged(db, WhoOf(rec)) < Charged(u, WhoOf(rec)) && Execution(en, db, rec, e).1.e.SuspendError?
  {
    var p, who, env := ProgramOf(en, rec), WhoOf(rec), EnvFor(en, rec, e);
    var st, u := Start(WorldOf(db, who)), AfterExecution(en, db, rec, e);
    var (st1, out) := Exec(p, ROOT, st, env);
    SuspensionIsNew(p, n, ROOT, st, env, from, to);
    ExecutedStanding(en, db, rec, n, e);
    if ByNewSleep(st, st1, out) {
      var name :| name in st1.rows && name !in st.rows;
      NothingOpen(en, db, rec, n, e);
      assert name in Charged(u, who) && name !in Charged(db, who);
    } else {
      var key :| key in st1.subs && key !in st.subs;
      NewSubscriptionIsCharged(en, db, rec, n, e, key);
    }
  }

  lemma NewSubscriptionIsCharged(en: Engine, db: Tables, rec: Record, n: nat, e: Env, key: string)
    requires Standing(en, db, rec, n)
    requires var u := AfterExecution(en, db, rec, e); key in u.subs && key !in db.subs
    ensures var u := AfterExecution(en, db, rec, e);
      u.subs[key].step in Charged(u, WhoOf(rec)) && u.subs[key].step !in Charged(db, WhoOf(rec))
  {
    var u, who := AfterExecution(en, db, rec, e), WhoOf(rec);
    ExecutedStanding(en, db, rec, n, e);
    StandingIsAtMostOne(en, u, rec, n);
    ExecutionAdds(en, db, rec, e);
    var step := u.subs[key].step;
    assert !HasRow(u, who, step);
    forall k | k in db.subs && db.subs[k].who == who
      ensures db.subs[k].step != step
    {
      assert u.subs[k] == db.subs[k] && (IsFor(u.subs[k], who, step) ==> k == key);
    }
  }

  /** Every sleep is over, but for one the execution ended with and nothing is awaited. */
  ghost predicate SleepsLeft(en: Engine, db: Tables, rec: Record, out: Outcome, to: Instant)
    requires rec.wtype in en.defs
  {
    forall s | s in WayOf(en, db, rec).sleeps ::
      s <= to || (out == Erred(SuspendError(s)) && FourDigitYear(s) && OpenSteps(db, WhoOf(rec)) == {})
  }

  /** An execution that stops at a sleep awaits nothing. */
  lemma StopsWithNothingOpen(en: Engine, db: Tables, rec: Record, n: nat, e: Env, from: Instant, to: Instant)
    requires Standing(en, db, rec, n) && Over(WayOf(en, db, rec).sleeps, from, {}) && Steady(e, from, to)
    ensures var (st1, out) := Execution(en, db, rec, e);
      StoppedAt(Start(WorldOf(db, WhoOf(rec))), st1, out) != {} ==>
      FourDigitYear(out.e.resumeAt) && OpenSteps(AfterExecution(en, db, rec, e), WhoOf(rec)) == {}
  {
    hide FormatTime, Steady, Over, FourDigitYear;
    var p, who, env := ProgramOf(en, rec), WhoOf(rec), EnvFor(en, rec, e);
    var st := Start(WorldOf(db, who));
    var (st1, out) := Execution(en, db, rec, e);
    SteadyFor(en, rec, e, from, to);
    SuspensionIsNew(p, n, ROOT, st, env, from, to);
    NothingOpen(en, db, rec, n, e);
    if StoppedAt(st, st1, out) != {} {
      assert AsSuspend(out.e) == Some(out.e.resumeAt) && ByNewSleep(st, st1, out);
      assert OpenSteps(AfterExecution(en, db, rec, e), who) == OpenSteps(db, who);
    }
  }

  /** After an execution the sleep it stopped at is the only one not over, and then nothing
      is awaited. */
  lemma ExecutedSleeps(en: Engine, db: Tables, rec: Record, n: nat, e: Env, from: Instant, to: Instant)
    requires Standing(en, db, rec, n) && Over(WayOf(en, db, rec).sleeps, from, {}) && Steady(e, from, to)
    ensures SleepsLeft(en, AfterExecution(en, db, rec, e), rec, Execution(en, db, rec, e).1, to)
  {
    hide FormatTime, Steady;
    var p, who, env := ProgramOf(en, rec), WhoOf(rec), EnvFor(en, rec, e);
    SteadyFor(en, rec, e, from, to);
    SleepsAreOver(p, n, ROOT, Start(WorldOf(db, who)), env, from, to);
    StopsWithNothingOpen(en, db, rec, n, e, from, to);
  }

  lemma SteadyFor(en: Engine, rec: Record, e: Env, from: Instant, to: Instant)
    requires Steady(e, from, to)
    ensures Steady(EnvFor(en, rec, e), from, to)
  {
  }

  // ---- committing the outcome ----

  /** The record as an outcome leaves it: finished, or one attempt more, or suspended. */
  lemma Decided(en: Engine, t: Tables, rec: Record, ended: Ended, at: Instant)
    requires rec.wtype in en.defs && rec.id in t.workflows && t.workflows[rec.id] == rec
    requires rec.status == Status.Pending && 0 <= rec.attempts <= Spare(en, rec)
    ensures var u := Resolve(t, rec, en.defs[rec.wtype].policy, ended, at);
      && u.steps == t.steps && u.subs == t.subs && SameWorkflow(t, u, rec.id)
      && var b := u.workflows[rec.id];
         && b.id == rec.id && b.attempts >= rec.attempts
         && (Terminal(b.status)
             || (b.status == Status.Pending && rec.attempts + 1 == b.attempts <= Spare(en, rec)
                 && ended.Broken? && AsSuspend(ended.e) == None)
             || (b.status == Suspended && b.attempts == rec.attempts && ended.Broken? && AsSuspend(ended.e).Some?
                 && b.retryAfter == FormatTime(AsSuspend(ended.e).value)))
  {
    var policy := en.defs[rec.wtype].policy;
    var d := Decide(rec.attempts, policy, ended, at);
    DecidedWrite(t, rec, d);
    DecidedHow(rec.attempts, policy, ended, at);
  }

  lemma DecidedHow(attempts: nat, policy: RetryPolicy, ended: Ended, at: Instant)
    ensures var d := Decide(attempts, policy, ended, at);
      && (d.Retry? ==> attempts + 1 <= policy.maxAttempts - 1 && ended.Broken? && AsSuspend(ended.e) == None)
      && (d.SuspendUntil? ==> ended.Broken? && AsSuspend(ended.e) == Some(d.resumeAt))
  {
  }

  lemma DecidedWrite(t: Tables, rec: Record, d: Decision)
    requires rec.id in t.workflows && t.workflows[rec.id] == rec
    ensures var u := Apply(t, CommitOp(rec.id, rec.occ, d));
      && u.steps == t.steps && u.subs == t.subs && SameWorkflow(t, u, rec.id)
      && var b := u.workflows[rec.id];
         && b.id == rec.id && b.attempts == rec.attempts + (if d.Retry? then 1 else 0)
         && (Terminal(b.status) <==> !d.Retry? && !d.SuspendUntil?)
         && (d.Retry? ==> b.status == Status.Pending)
         && (d.SuspendUntil? ==> b.status == Suspended && b.retryAfter == FormatTime(d.resumeAt))
  {
    hide FormatTime;
  }

  function Potential(db: Tables, id: string): int
    requires id in db.workflows
  {
    |Charged(db, WhoOf(db.workflows[id]))| + db.workflows[id].attempts
  }

  ghost predicate EndedOrCharged(en: Engine, db: Tables, u: Tables, id: string, n: nat, to: Instant)
    requires id in db.workflows
  {
    && SameWorkflow(db, u, id)
    && (Terminal(u.workflows[id].status)
        || (OnTrack(en, u, u.workflows[id], n, to) && Potential(u, id) > Potential(db, id)))
  }

  lemma ResolvedOnTrack(en: Engine, db: Tables, mid: Tables, rec: Record, n: nat, out: Outcome, at: Instant,
          to: Instant)
    requires rec.status == Status.Pending && rec.wtype in en.defs && 0 <= rec.attempts <= Spare(en, rec)
    requires rec.id in db.workflows && db.workflows[rec.id] == rec && mid.workflows == db.workflows
    requires Standing(en, mid, rec, n) && Charged(db, WhoOf(rec)) <= Charged(mid, WhoOf(rec))
    requires out.Erred? && AsSuspend(out.e) != None ==>
      out.e.SuspendError? && Charged(db, WhoOf(rec)) < Charged(mid, WhoOf(rec))
    requires SleepsLeft(en, mid, rec, out, to)
    ensures var u := Resolve(mid, rec, en.defs[rec.wtype].policy, EndedBy(out, en.codec), at);
      EndedOrCharged(en, db, u, rec.id, n, to)
  {
    hide FormatTime;
    var ended := EndedBy(out, en.codec);
    Decided(en, mid, rec, ended, at);
    var u := Resolve(mid, rec, en.defs[rec.wtype].policy, ended, at);
    if !Terminal(u.workflows[rec.id].status) {
      UnfinishedOnTrack(en, db, mid, u, rec, u.workflows[rec.id], n, out, to);
    }
  }

  /** What a retry or a suspension leaves is on track, and charged. */
  lemma UnfinishedOnTrack(en: Engine, db: Tables, mid: Tables, u: Tables, rec: Record, b: Record, n: nat, out: Outcome,
          to: Instant)
    requires Standing(en, mid, rec, n) && SleepsLeft(en, mid, rec, out, to) && 0 <= rec.attempts <= Spare(en, rec)
    requires u.steps == mid.steps && u.subs == mid.subs && WhoOf(b) == WhoOf(rec) && b.payload == rec.payload
    requires Charged(db, WhoOf(rec)) <= Charged(mid, WhoOf(rec))
    requires
      || (b.status == Status.Pending && rec.attempts + 1 == b.attempts <= Spare(en, rec)
          && (out.Erred? ==> AsSuspend(out.e) == None))
      || (b.status == Suspended && b.attempts == rec.attempts && out.Erred? && AsSuspend(out.e).Some?
          && b.retryAfter == FormatTime(AsSuspend(out.e).value)
          && Charged(db, WhoOf(rec)) < Charged(mid, WhoOf(rec)))
    ensures OnTrack(en, u, b, n, to)
    ensures |Charged(u, WhoOf(b))| + b.attempts > |Charged(db, WhoOf(rec))| + rec.attempts
  {
    hide FormatTime;
    assert OnTrack(en, u, b, n, to) by {
      SameStanding(en, mid, u, rec, b, n);
      SpareIsSame(en, rec, b);
      ResolvedSleeps(en, mid, u, rec, b, out, to);
    }
    SameWay(en, mid, u, rec, b);
    SubsetIsSmaller(Charged(db, WhoOf(rec)), Charged(mid, WhoOf(rec)));
  }

  lemma SpareIsSame(en: Engine, a: Record, b: Record)
    requires a.wtype in en.defs && WhoOf(b) == WhoOf(a)
    ensures Spare(en, b) == Spare(en, a)
  {
  }

  lemma ResolvedSleeps(en: Engine, mid: Tables, u: Tables, rec: Record, b: Record, out: Outcome, to: Instant)
    requires rec.wtype in en.defs && SleepsLeft(en, mid, rec, out, to)
    requires u.steps == mid.steps && u.subs == mid.subs && WhoOf(b) == WhoOf(rec) && b.payload == rec.payload
    requires out.Erred? && AsSuspend(out.e).Some? ==>
      b.status == Suspended && b.retryAfter == FormatTime(AsSuspend(out.e).value)
    ensures SleepsKnown(en, u, b, to)
  {
    hide FormatTime;
    SameWay(en, mid, u, rec, b);
    forall s | s in WayOf(en, mid, rec).sleeps && s > to
      ensures b.status == Suspended && b.retryAfter == FormatTime(s)
    {
      assert AsSuspend(out.e) == Some(s);
    }
  }

  /** An execution ends the workflow, or is charged. */
  lemma ExecutionIsCharged(en: Engine, db: Tables, id: string, n: nat, e: Env, at: Instant, from: Instant, to: Instant)
    requires Owned(db) && id in db.workflows && db.workflows[id].status == Status.Pending
    requires OnTrack(en, db, db.workflows[id], n, from) && Steady(e, from, to)
    ensures EndedOrCharged(en, db, RunRecord(en, db, db.workflows[id], e, at), id, n, to)
  {
    hide FormatTime;
    var rec := db.workflows[id];
    if SignalSet(db, id) {
      CancelledEnds(en, db, rec, at);
    } else {
      var out := Execution(en, db, rec, e).1;
      ExecutedStanding(en, db, rec, n, e);
      ExecutedSleeps(en, db, rec, n, e, from, to);
      if out.Erred? && AsSuspend(out.e) != None {
        SuspensionIsCharged(en, db, rec, n, e, from, to);
      }
      ResolvedOnTrack(en, db, AfterExecution(en, db, rec, e), rec, n, out, at, to);
    }
  }

  lemma CancelledEnds(en: Engine, db: Tables, rec: Record, at: Instant)
    requires rec.wtype in en.defs && rec.id in db.workflows && db.workflows[rec.id] == rec
    ensures var u := Resolve(db, rec, en.defs[rec.wtype].policy, Broken(CancelledError), at);
      SameWorkflow(db, u, rec.id) && Terminal(u.workflows[rec.id].status)
  {
    DecidedWrite(db, rec, Cancel);
  }
}
