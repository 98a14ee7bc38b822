/** Events on the driven engine: every wait ends in exactly one outcome, and a completed
    workflow's result is what its saved values mean. */
module DriverEvents {
  import opened Prelude
  import opened Timestamps
  import opened Database
  import opened Workflow
  import opened StoreOps
  import opened Outcomes
  import opened Backoff
  import opened Trails
  import opened Replay
  import opened Driver

  // ---- subscriptions and rows ----

  predicate RowsKept(t: Tables, u: Tables, who: Who) {
    Extends(RowsOf(t, who), RowsOf(u, who))
  }

  predicate SubsKept(t: Tables, u: Tables) {
    forall key | key in t.subs :: key in u.subs && u.subs[key] == t.subs[key]
  }

  /** The tables once an execution is over, before its outcome is committed. */
  function AfterExecution(en: Engine, db: Tables, rec: Record, e: Env): Tables
    requires rec.wtype in en.defs
  {
    var st := Execution(en, db, rec, e).0;
    db.(steps := db.steps[WhoOf(rec) := st.rows], subs := st.subs)
  }

  lemma ResolvingKeeps(db: Tables, rec: Record, policy: RetryPolicy, ended: Ended, at: Instant)
    ensures var u := Resolve(db, rec, policy, ended, at);
      u.steps == db.steps && u.subs == db.subs
  {
    ResolveTouchesOne(db, rec, policy, ended, at);
  }

  /** An execution adds rows for its own workflow, and subscriptions of it. */
  lemma ExecutionAdds(en: Engine, db: Tables, rec: Record, e: Env)
    requires rec.wtype in en.defs
    ensures var u := AfterExecution(en, db, rec, e);
      && SubsKept(db, u) && RowsKept(db, u, WhoOf(rec))
      && (forall who | who != WhoOf(rec) :: RowsOf(u, who) == RowsOf(db, who))
      && (forall k | k in u.subs && k !in db.subs :: u.subs[k].who == WhoOf(rec))
  {
    ExecGrows(ProgramOf(en, rec), ROOT, Start(WorldOf(db, WhoOf(rec))), EnvFor(en, rec, e));
  }

  lemma RunAdds(en: Engine, db: Tables, rec: Record, e: Env, at: Instant)
    ensures var u := RunRecord(en, db, rec, e, at);
      && SubsKept(db, u) && RowsKept(db, u, WhoOf(rec))
      && (forall who | who != WhoOf(rec) :: RowsOf(u, who) == RowsOf(db, who))
      && (forall k | k in u.subs && k !in db.subs :: u.subs[k].who == WhoOf(rec))
  {
    if rec.wtype in en.defs {
      var policy := en.defs[rec.wtype].policy;
      ExecutionAdds(en, db, rec, e);
      ResolvingKeeps(AfterExecution(en, db, rec, e), rec, policy, EndedBy(Execution(en, db, rec, e).1, en.codec), at);
      ResolvingKeeps(db, rec, policy, Broken(CancelledError), at);
    }
  }

  /** The step's row after the action that took its subscription. */
  predicate TakenBy(a: Action, sub: Subscription, key: string, row: Row) {
    || (a.SendEvent? && a.key == key && row == Row(Some(a.payload), ""))
    || (a.TimeOut? && sub.deadline != "" && LexAtMost(sub.deadline, FormatTime(a.at)) && row == TIMEOUT_MARKER)
  }

  lemma ExpiredAreMarked(db: Tables, keys: set<string>, key: string)
    requires keys <= db.subs.Keys && key in keys
    ensures var sub, u := db.subs[key], TimeOutSet(db, keys);
      HasRow(u, sub.who, sub.step) && RowsOf(u, sub.who)[sub.step] == TIMEOUT_MARKER
  {
    RowsOfMarked(db, keys, db.subs[key].who);
    assert db.subs[key].step in StepsOf(db, keys, db.subs[key].who);
  }

  /** A subscription stays until a delivery on its key or its timeout, and that action writes
      the row of its step. */
  lemma LiveUntilSettled(en: Engine, db: Tables, a: Action, key: string)
    requires key in db.subs
    ensures var u, sub := Act(en, db, a), db.subs[key];
      || (key in u.subs && u.subs[key] == sub)
      || (HasRow(u, sub.who, sub.step) && TakenBy(a, sub, key, RowsOf(u, sub.who)[sub.step]))
  {
    hide FormatTime;
    match a
    case Execute(id, listed, e, at) =>
      if id in db.workflows {
        RunAdds(en, db, db.workflows[id], e, at);
      }
    case TimeOut(at) =>
      if key in ExpiredKeys(db, FormatTime(at)) {
        ExpiredAreMarked(db, ExpiredKeys(db, FormatTime(at)), key);
      }
    case SendEvent(_, _) =>
    case Submit(_, _) =>
    case Promote(_) =>
    case Signal(_, _) =>
  }

  // ---- what holds of every record ----

  function WorldOf(db: Tables, who: Who): World {
    World(RowsOf(db, who), db.subs)
  }

  /** Where the saved values of a record lead. */
  function TrailOf(en: Engine, db: Tables, rec: Record): Trail
    requires rec.wtype in en.defs
  {
    Follow(ProgramOf(en, rec), ROOT, RowsOf(db, WhoOf(rec)), en.codec)
  }

  /** The result is the marshalled response its saved values lead to. */
  predicate Means(en: Engine, db: Tables, rec: Record)
    requires rec.wtype in en.defs
  {
    var end := TrailOf(en, db, rec).end;
    end.Some? && rec.result.Some? && en.codec.encode(end.value) == rec.result
  }

  /** A registered workflow whose parallel branches, if any, ask alike for what they share. */
  ghost predicate Orderly(en: Engine, rec: Record) {
    rec.wtype in en.defs && Agreeing(ProgramOf(en, rec), ROOT)
  }

  ghost predicate SoundRecord(en: Engine, db: Tables, rec: Record) {
    Orderly(en, rec) ==>
      && Sound(ProgramOf(en, rec), WhoOf(rec), en.codec, WorldOf(db, WhoOf(rec)))
      && (rec.status == Status.Completed ==> Means(en, db, rec))
  }

  ghost predicate SoundRecords(en: Engine, db: Tables) {
    forall id | id in db.workflows :: SoundRecord(en, db, db.workflows[id])
  }

  /** Rows and subscriptions belong to submitted workflows. */
  ghost predicate Owned(db: Tables) {
    && (forall id | id in db.workflows :: db.workflows[id].id == id)
    && (forall who, step | HasRow(db, who, step) :: IsWho(db, who))
    && (forall key | key in db.subs :: IsWho(db, db.subs[key].who))
  }

  predicate IsWho(db: Tables, who: Who) {
    who.id in db.workflows && WhoOf(db.workflows[who.id]) == who
  }

  ghost predicate AllSound(en: Engine, db: Tables) {
    RoundTrips(en.codec) && SoundRecords(en, db) && Owned(db)
  }

  lemma SoundIsAtMostOne(en: Engine, db: Tables, rec: Record)
    requires Orderly(en, rec) && SoundRecord(en, db, rec)
    ensures AtMostOne(db, WhoOf(rec))
  {
    var who := WhoOf(rec);
    forall k, l | k in db.subs && l in db.subs && db.subs[k].who == who && IsFor(db.subs[l], who, db.subs[k].step)
      ensures k == l
    {
      OneOpenWait(ProgramOf(en, rec), who, en.codec, WorldOf(db, who), k, l);
    }
  }

  // ---- other records, and other actions than executions ----

  /** The record keeps what names it, and completes only with what its trail means. */
  ghost predicate Kindred(en: Engine, u: Tables, a: Record, b: Record) {
    && WhoOf(b) == WhoOf(a) && b.payload == a.payload
    && ((b.status == a.status && b.result == a.result)
        || (b.status == Status.Completed && b.wtype in en.defs ==> Means(en, u, b)))
  }

  /** More rows for open waits, fewer of them open. */
  ghost predicate Progress(who: Who, x: World, y: World) {
    && Extends(x.rows, y.rows)
    && (forall n | n in y.rows && n !in x.rows :: exists k :: k in x.subs && IsFor(x.subs[k], who, n))
    && (forall k | k in y.subs && y.subs[k].who == who ::
          k in x.subs && x.subs[k] == y.subs[k] && y.subs[k].step !in y.rows)
  }

  lemma ProgressIsSound(en: Engine, db: Tables, u: Tables, a: Record, b: Record)
    requires SoundRecord(en, db, a) && Kindred(en, u, a, b)
    requires Orderly(en, a) ==> Progress(WhoOf(a), WorldOf(db, WhoOf(a)), WorldOf(u, WhoOf(a)))
    ensures SoundRecord(en, u, b)
  {
    if Orderly(en, a) {
      ProgressOnTrail(ProgramOf(en, a), WhoOf(a), en.codec, WorldOf(db, WhoOf(a)), WorldOf(u, WhoOf(a)));
      FollowMonotone(ProgramOf(en, a), ROOT, RowsOf(db, WhoOf(a)), RowsOf(u, WhoOf(a)), en.codec);
    }
  }

  lemma ProgressOnTrail(p: Prog, who: Who, c: Codec, x: World, y: World)
    requires Sound(p, who, c, x) && Progress(who, x, y)
    ensures Sound(p, who, c, y)
  {
    var t, u := Follow(p, ROOT, x.rows, c), Follow(p, ROOT, y.rows, c);
    FollowMonotone(p, ROOT, x.rows, y.rows, c);
    forall n | n in y.rows
      ensures n in u.names && (IsWaited(u, n) || SavedRow(y.rows[n], c))
    {
      if n in x.rows {
        StaysWaited(t, u, n);
      } else {
        var k :| k in x.subs && IsFor(x.subs[k], who, n);
        WaitsAreNames(p, ROOT, x.rows, c, n, k);
        assert (n, k) in u.waits;
      }
    }
  }

  lemma OthersAreSound(en: Engine, db: Tables, u: Tables)
    requires SoundRecords(en, db) && u.workflows.Keys == db.workflows.Keys
    requires forall id | id in db.workflows :: Kindred(en, u, db.workflows[id], u.workflows[id])
    requires forall id | id in db.workflows && Orderly(en, db.workflows[id]) ::
      var who := WhoOf(db.workflows[id]); Progress(who, WorldOf(db, who), WorldOf(u, who))
    ensures SoundRecords(en, u)
  {
    forall id | id in u.workflows
      ensures SoundRecord(en, u, u.workflows[id])
    {
      ProgressIsSound(en, db, u, db.workflows[id], u.workflows[id]);
    }
  }

  lemma WokenAreKindred(en: Engine, t: Tables, u: Tables)
    requires u.workflows.Keys == t.workflows.Keys
    requires forall id | id in t.workflows ::
      || u.workflows[id] == t.workflows[id] || u.workflows[id] == Wake(t.workflows[id])
      || u.workflows[id] == t.workflows[id].(signal := u.workflows[id].signal)
    ensures forall id | id in t.workflows :: Kindred(en, u, t.workflows[id], u.workflows[id])
  {
  }

  lemma SettleProgress(db: Tables, key: string, row: Row, who: Who)
    requires AtMostOne(db, who) && key in db.subs
    ensures Progress(who, WorldOf(db, who), WorldOf(Settle(db, key, row), who))
  {
    var u, sub := Settle(db, key, row), db.subs[key];
    forall k | k in u.subs && u.subs[k].who == who
      ensures u.subs[k].step !in RowsOf(u, who)
    {
      assert k in db.subs && k != key && !HasRow(db, who, db.subs[k].step);
      assert sub.who == who ==> !IsFor(sub, who, db.subs[k].step);
    }
    assert sub.who == who ==> !HasRow(db, who, sub.step);
    assert sub.who == who ==> IsFor(db.subs[key], who, sub.step);
  }

  lemma TimeOutProgress(db: Tables, keys: set<string>, who: Who)
    requires AtMostOne(db, who) && keys <= db.subs.Keys
    ensures Progress(who, WorldOf(db, who), WorldOf(TimeOutSet(db, keys), who))
  {
    var u := TimeOutSet(db, keys);
    RowsOfMarked(db, keys, who);
    forall n | n in RowsOf(db, who)
      ensures n in RowsOf(u, who) && RowsOf(u, who)[n] == RowsOf(db, who)[n]
    {
      assert HasRow(db, who, n);
      assert n !in StepsOf(db, keys, who);
    }
    forall k | k in u.subs && u.subs[k].who == who
      ensures u.subs[k].step !in RowsOf(u, who)
    {
      assert k in db.subs && k !in keys && !HasRow(db, who, db.subs[k].step);
      assert forall l | l in keys && db.subs[l].who == who :: !IsFor(db.subs[l], who, db.subs[k].step);
    }
    forall n | n in RowsOf(u, who) && n !in RowsOf(db, who)
      ensures exists k :: k in db.subs && IsFor(db.subs[k], who, n)
    {
      var k :| k in keys && db.subs[k].who == who && db.subs[k].step == n;
      assert IsFor(db.subs[k], who, n);
    }
  }

  lemma SameProgress(db: Tables, u: Tables, who: Who)
    requires AtMostOne(db, who) && u.steps == db.steps && u.subs == db.subs
    ensures Progress(who, WorldOf(db, who), WorldOf(u, who))
  {
    forall k | k in u.subs && u.subs[k].who == who
      ensures u.subs[k].step !in RowsOf(u, who)
    {
      assert !HasRow(db, who, u.subs[k].step);
    }
  }

  // ---- an execution ----

  lemma ExecutedIsSound(en: Engine, db: Tables, rec: Record, e: Env)
    requires RoundTrips(en.codec) && Orderly(en, rec) && SoundRecord(en, db, rec)
    ensures var u := AfterExecution(en, db, rec, e);
      && Sound(ProgramOf(en, rec), WhoOf(rec), en.codec, WorldOf(u, WhoOf(rec)))
      && (Execution(en, db, rec, e).1.Returned? ==> TrailOf(en, u, rec).end == Some(Execution(en, db, rec, e).1.v))
  {
    var p, env, x := ProgramOf(en, rec), EnvFor(en, rec, e), WorldOf(db, WhoOf(rec));
    ExecutionKeepsSound(p, x, env);
    ExecFollows(p, ROOT, Start(x), env, Exec(p, ROOT, Start(x), env).0.rows);
  }

  /** The record after its outcome is committed. */
  lemma ResolvedRecord(t: Tables, rec: Record, policy: RetryPolicy, ended: Ended, at: Instant)
    requires rec.id in t.workflows && t.workflows[rec.id] == rec
    ensures var u := Resolve(t, rec, policy, ended, at);
      && rec.id in u.workflows
      && var b := u.workflows[rec.id];
         && b.id == rec.id && WhoOf(b) == WhoOf(rec) && b.payload == rec.payload
         && (b.status == Status.Completed <==> ended.Finished?)
         && (ended.Finished? ==> b.result == Some(ended.result))
  {
    DecidedRecord(t, rec, Decide(if rec.attempts >= 0 then rec.attempts else 0, policy, ended, at));
  }

  lemma DecidedRecord(t: Tables, rec: Record, d: Decision)
    requires rec.id in t.workflows && t.workflows[rec.id] == rec
    ensures var u := Apply(t, CommitOp(rec.id, rec.occ, d));
      && rec.id in u.workflows
      && var b := u.workflows[rec.id];
         && b.id == rec.id && WhoOf(b) == WhoOf(rec) && b.payload == rec.payload
         && (b.status == Status.Completed <==> d.Complete?)
         && (d.Complete? ==> b.result == Some(d.result))
  {
    hide FormatTime;
  }

  lemma RunKeepsWho(en: Engine, db: Tables, rec: Record, e: Env, at: Instant)
    requires rec.id in db.workflows && db.workflows[rec.id] == rec
    ensures var u := RunRecord(en, db, rec, e, at);
      && rec.id in u.workflows && u.workflows[rec.id].id == rec.id
      && WhoOf(u.workflows[rec.id]) == WhoOf(rec) && u.workflows[rec.id].payload == rec.payload
  {
    if rec.wtype in en.defs {
      var policy := en.defs[rec.wtype].policy;
      ResolvedRecord(db, rec, policy, Broken(CancelledError), at);
      ResolvedRecord(AfterExecution(en, db, rec, e), rec, policy, EndedBy(Execution(en, db, rec, e).1, en.codec), at);
    }
  }

  lemma RunIsSound(en: Engine, db: Tables, rec: Record, e: Env, at: Instant)
    requires RoundTrips(en.codec) && SoundRecord(en, db, rec) && Orderly(en, rec)
    requires rec.id in db.workflows && db.workflows[rec.id] == rec && rec.status == Pending
    ensures var u := RunRecord(en, db, rec, e, at); rec.id in u.workflows && SoundRecord(en, u, u.workflows[rec.id])
  {
    var policy := en.defs[rec.wtype].policy;
    if SignalSet(db, rec.id) {
      ResolvedRecord(db, rec, policy, Broken(CancelledError), at);
      ResolvingKeeps(db, rec, policy, Broken(CancelledError), at);
    } else {
      var ended := EndedBy(Execution(en, db, rec, e).1, en.codec);
      ExecutedIsSound(en, db, rec, e);
      ResolvedRecord(AfterExecution(en, db, rec, e), rec, policy, ended, at);
      ResolvingKeeps(AfterExecution(en, db, rec, e), rec, policy, ended, at);
    }
  }

  /** An execution of another workflow leaves a workflow's rows and subscriptions alone. */
  lemma RunElsewhere(en: Engine, db: Tables, rec: Record, e: Env, at: Instant, who: Who)
    requires who != WhoOf(rec) && AtMostOne(db, who)
    ensures Progress(who, WorldOf(db, who), WorldOf(RunRecord(en, db, rec, e, at), who))
  {
    RunAdds(en, db, rec, e, at);
    SameProgress(db, db, who);
  }

  lemma OthersStaySound(en: Engine, db: Tables, id: string, e: Env, at: Instant, x: string)
    requires AllSound(en, db) && id in db.workflows && x in db.workflows && x != id
    ensures var u := RunRecord(en, db, db.workflows[id], e, at);
      x in u.workflows && SoundRecord(en, u, u.workflows[x])
  {
    var u := RunRecord(en, db, db.workflows[id], e, at);
    RunTouchesOne(en, db, db.workflows[id], e, at);
    if Orderly(en, db.workflows[x]) {
      SoundIsAtMostOne(en, db, db.workflows[x]);
      RunElsewhere(en, db, db.workflows[id], e, at, WhoOf(db.workflows[x]));
    }
    ProgressIsSound(en, db, u, db.workflows[x], u.workflows[x]);
  }

  lemma ExecuteKeepsOwned(en: Engine, db: Tables, id: string, e: Env, at: Instant)
    requires Owned(db) && id in db.workflows
    ensures Owned(RunRecord(en, db, db.workflows[id], e, at))
  {
    var rec := db.workflows[id];
    var u := RunRecord(en, db, rec, e, at);
    RunTouchesOne(en, db, rec, e, at);
    RunKeepsWho(en, db, rec, e, at);
    RunAdds(en, db, rec, e, at);
    forall who, step | HasRow(u, who, step)
      ensures IsWho(u, who)
    {
      if who != WhoOf(rec) {
        assert HasRow(db, who, step);
      }
    }
    forall key | key in u.subs
      ensures IsWho(u, u.subs[key].who)
    {
      assert key in db.subs ==> u.subs[key] == db.subs[key];
    }
  }

  lemma ExecuteIsSound(en: Engine, db: Tables, id: string, e: Env, at: Instant)
    requires AllSound(en, db) && id in db.workflows && db.workflows[id].status == Pending
    ensures AllSound(en, RunRecord(en, db, db.workflows[id], e, at))
  {
    var rec := db.workflows[id];
    var u := RunRecord(en, db, rec, e, at);
    RunTouchesOne(en, db, rec, e, at);
    RunKeepsWho(en, db, rec, e, at);
    if Orderly(en, rec) {
      RunIsSound(en, db, rec, e, at);
    }
    assert SoundRecord(en, u, u.workflows[id]);
    forall x | x in u.workflows && x != id
      ensures SoundRecord(en, u, u.workflows[x])
    {
      OthersStaySound(en, db, id, e, at, x);
    }
    ExecuteKeepsOwned(en, db, id, e, at);
  }

  // ---- the other actions ----

  lemma SettleKeepsOwned(db: Tables, key: string, row: Row)
    requires Owned(db) && key in db.subs
    ensures Owned(Settle(db, key, row))
  {
    var u := Settle(db, key, row);
    forall who, step | HasRow(u, who, step)
      ensures IsWho(u, who)
    {
      assert HasRow(db, who, step) || who == db.subs[key].who;
    }
  }

  lemma TimeOutKeepsOwned(db: Tables, keys: set<string>)
    requires Owned(db) && keys <= db.subs.Keys
    ensures Owned(TimeOutSet(db, keys))
  {
    var u := TimeOutSet(db, keys);
    forall who, step | HasRow(u, who, step)
      ensures IsWho(u, who)
    {
      RowsOfMarked(db, keys, who);
      if !HasRow(db, who, step) {
        var k :| k in keys && db.subs[k].who == who && db.subs[k].step == step;
      }
    }
  }

  lemma SameKeepsOwned(db: Tables, u: Tables)
    requires Owned(db) && u.steps == db.steps && u.subs == db.subs
    requires forall id | id in db.workflows :: id in u.workflows && WhoOf(u.workflows[id]) == WhoOf(db.workflows[id])
    requires forall id | id in u.workflows :: u.workflows[id].id == id
    ensures Owned(u)
  {
    forall who, step | HasRow(u, who, step)
      ensures IsWho(u, who)
    {
      assert HasRow(db, who, step);
    }
  }

  lemma SendIsSound(en: Engine, db: Tables, key: string, row: Row)
    requires AllSound(en, db) && key in db.subs
    ensures AllSound(en, Settle(db, key, row))
  {
    forall id | id in db.workflows && Orderly(en, db.workflows[id])
      ensures var who := WhoOf(db.workflows[id]); Progress(who, WorldOf(db, who), WorldOf(Settle(db, key, row), who))
    {
      SoundIsAtMostOne(en, db, db.workflows[id]);
      SettleProgress(db, key, row, WhoOf(db.workflows[id]));
    }
    WokenAreKindred(en, db, Settle(db, key, row));
    OthersAreSound(en, db, Settle(db, key, row));
    SettleKeepsOwned(db, key, row);
  }

  lemma TimeOutIsSound(en: Engine, db: Tables, keys: set<string>)
    requires AllSound(en, db) && keys <= db.subs.Keys
    ensures AllSound(en, TimeOutSet(db, keys))
  {
    forall id | id in db.workflows && Orderly(en, db.workflows[id])
      ensures var who := WhoOf(db.workflows[id]); Progress(who, WorldOf(db, who), WorldOf(TimeOutSet(db, keys), who))
    {
      SoundIsAtMostOne(en, db, db.workflows[id]);
      TimeOutProgress(db, keys, WhoOf(db.workflows[id]));
    }
    WokenAreKindred(en, db, TimeOutSet(db, keys));
    OthersAreSound(en, db, TimeOutSet(db, keys));
    TimeOutKeepsOwned(db, keys);
  }

  /** Promotions and signals: the records are woken or signalled, nothing else. */
  lemma TouchedIsSound(en: Engine, db: Tables, u: Tables)
    requires AllSound(en, db) && u.steps == db.steps && u.subs == db.subs && u.workflows.Keys == db.workflows.Keys
    requires forall id | id in db.workflows ::
      || u.workflows[id] == db.workflows[id] || u.workflows[id] == Wake(db.workflows[id])
      || u.workflows[id] == db.workflows[id].(signal := u.workflows[id].signal)
    ensures AllSound(en, u)
  {
    forall id | id in db.workflows && Orderly(en, db.workflows[id])
      ensures var who := WhoOf(db.workflows[id]); Progress(who, WorldOf(db, who), WorldOf(u, who))
    {
      SoundIsAtMostOne(en, db, db.workflows[id]);
      SameProgress(db, u, WhoOf(db.workflows[id]));
    }
    WokenAreKindred(en, db, u);
    OthersAreSound(en, db, u);
    SameKeepsOwned(db, u);
  }

  lemma NothingYet(db: Tables, who: Who)
    requires Owned(db) && who.id !in db.workflows
    ensures RowsOf(db, who) == map[] && forall key | key in db.subs :: db.subs[key].who != who
  {
    forall n: string
      ensures n !in RowsOf(db, who)
    {
      assert !HasRow(db, who, n);
    }
  }

  lemma SubmitIsSound(en: Engine, db: Tables, rec: Record, now: string)
    requires AllSound(en, db) && rec.status == Pending
    ensures AllSound(en, Apply(db, CreateOp(rec, now)))
  {
    var u := Apply(db, CreateOp(rec, now));
    if rec.id !in db.workflows {
      SameKeepsOwned(db, u);
      NothingYet(db, WhoOf(rec));
      forall id | id in db.workflows
        ensures SoundRecord(en, u, u.workflows[id])
      {
        if Orderly(en, db.workflows[id]) {
          SoundIsAtMostOne(en, db, db.workflows[id]);
          SameProgress(db, u, WhoOf(db.workflows[id]));
        }
        ProgressIsSound(en, db, u, db.workflows[id], u.workflows[id]);
      }
    }
  }

  lemma RunOneIsSound(en: Engine, db: Tables, id: string, listed: Instant, e: Env, at: Instant)
    requires AllSound(en, db)
    ensures AllSound(en, RunOne(en, db, id, listed, e, at))
  {
    hide FormatTime;
    if id in db.workflows && db.workflows[id].status == Pending {
      ExecuteIsSound(en, db, id, e, at);
    }
  }

  lemma ResumeIsSound(en: Engine, db: Tables, key: string, payload: Json)
    requires AllSound(en, db)
    ensures AllSound(en, Apply(db, ResumeOp(key, payload)))
  {
    if key in db.subs {
      SendIsSound(en, db, key, Row(Some(payload), ""));
    }
  }

  lemma SignalIsSound(en: Engine, db: Tables, id: string, signal: Database.Signal)
    requires AllSound(en, db)
    ensures AllSound(en, Apply(db, SetSignalOp(id, signal)))
  {
    TouchedIsSound(en, db, Apply(db, SetSignalOp(id, signal)));
  }

  lemma PromoteIsSound(en: Engine, db: Tables, now: string)
    requires AllSound(en, db)
    ensures AllSound(en, PromoteSuspended(db, now))
  {
    TouchedIsSound(en, db, PromoteSuspended(db, now));
  }

  lemma NextIsSound(en: Engine, db: Tables, a: Action)
    requires AllSound(en, db)
    ensures AllSound(en, Act(en, db, a))
  {
    hide FormatTime;
    match a
    case Submit(rec, now) => SubmitIsSound(en, db, rec.(status := Pending, attempts := 0, result := None), now);
    case Execute(id, listed, e, at) => RunOneIsSound(en, db, id, listed, e, at);
    case SendEvent(key, payload) => ResumeIsSound(en, db, key, payload);
    case TimeOut(at) => TimeOutIsSound(en, db, ExpiredKeys(db, FormatTime(at)));
    case Promote(at) => PromoteIsSound(en, db, FormatTime(at));
    case Signal(id, signal) => SignalIsSound(en, db, id, signal);
  }

  lemma {:induction false} RunIsAllSound(en: Engine, db: Tables, actions: seq<Action>)
    requires AllSound(en, db)
    ensures AllSound(en, Run(en, db, actions))
  {
    if actions != [] {
      var front := actions[..|actions| - 1];
      RunIsAllSound(en, db, front);
      NextIsSound(en, Run(en, db, front), actions[|actions| - 1]);
    }
  }

  // ---- rows are kept ----

  /** The workflow is the same one. */
  predicate SameWorkflow(t: Tables, u: Tables, id: string) {
    && id in t.workflows && id in u.workflows
    && WhoOf(u.workflows[id]) == WhoOf(t.workflows[id]) && u.workflows[id].payload == t.workflows[id].payload
  }

  lemma NextIsSameWorkflow(en: Engine, db: Tables, a: Action, id: string)
    requires Owned(db) && id in db.workflows
    ensures SameWorkflow(db, Act(en, db, a), id)
  {
    hide FormatTime;
    if a.Execute? && a.id in db.workflows {
      RunTouchesOne(en, db, db.workflows[a.id], a.e, a.at);
      RunKeepsWho(en, db, db.workflows[a.id], a.e, a.at);
    }
  }

  lemma NextKeepsRows(en: Engine, db: Tables, a: Action, id: string)
    requires AllSound(en, db) && id in db.workflows && Orderly(en, db.workflows[id])
    ensures RowsKept(db, Act(en, db, a), WhoOf(db.workflows[id]))
  {
    SoundIsAtMostOne(en, db, db.workflows[id]);
    ActKeepsRows(en, db, a, WhoOf(db.workflows[id]));
  }

  lemma ActKeepsRows(en: Engine, db: Tables, a: Action, who: Who)
    requires AtMostOne(db, who)
    ensures RowsKept(db, Act(en, db, a), who)
  {
    hide FormatTime;
    match a
    case Execute(x, listed, e, at) => OneKeepsRows(en, db, x, listed, e, at, who);
    case TimeOut(at) => TimeOutProgress(db, ExpiredKeys(db, FormatTime(at)), who);
    case SendEvent(key, payload) =>
      if key in db.subs {
        SettleProgress(db, key, Row(Some(payload), ""), who);
      }
    case Submit(_, _) =>
    case Promote(_) =>
    case Signal(_, _) =>
  }

  lemma OneKeepsRows(en: Engine, db: Tables, x: string, listed: Instant, e: Env, at: Instant, who: Who)
    ensures RowsKept(db, RunOne(en, db, x, listed, e, at), who)
  {
    hide FormatTime, RunRecord;
    if x in db.workflows {
      RunAdds(en, db, db.workflows[x], e, at);
    }
  }

  lemma {:induction false} RunKeepsRows(en: Engine, db: Tables, actions: seq<Action>, id: string)
    requires AllSound(en, db) && id in db.workflows && Orderly(en, db.workflows[id])
    ensures var t := Run(en, db, actions);
      AllSound(en, t) && SameWorkflow(db, t, id) && RowsKept(db, t, WhoOf(db.workflows[id]))
  {
    if actions != [] {
      var front, last := actions[..|actions| - 1], actions[|actions| - 1];
      RunKeepsRows(en, db, front, id);
      NextIsSound(en, Run(en, db, front), last);
      NextIsSameWorkflow(en, Run(en, db, front), last, id);
      NextKeepsRows(en, Run(en, db, front), last, id);
    }
  }

  // ---- exactly one outcome ----

  /** The step is open or settled, not both. */
  predicate ExactlyOne(db: Tables, who: Who, step: string) {
    Live(db, who, step) != HasRow(db, who, step)
  }

  lemma OpenOrSettled(en: Engine, db: Tables, id: string, step: string)
    requires AllSound(en, db) && id in db.workflows && Orderly(en, db.workflows[id])
    requires var who := WhoOf(db.workflows[id]); Live(db, who, step) || HasRow(db, who, step)
    ensures ExactlyOne(db, WhoOf(db.workflows[id]), step)
  {
    SoundIsAtMostOne(en, db, db.workflows[id]);
  }

  lemma StaysOpenOrSettled(en: Engine, db: Tables, a: Action, id: string, step: string)
    requires AllSound(en, db) && id in db.workflows && Orderly(en, db.workflows[id])
    requires var who := WhoOf(db.workflows[id]); Live(db, who, step) || HasRow(db, who, step)
    ensures var u, who := Act(en, db, a), WhoOf(db.workflows[id]); Live(u, who, step) || HasRow(u, who, step)
  {
    var who := WhoOf(db.workflows[id]);
    NextKeepsRows(en, db, a, id);
    if Live(db, who, step) {
      var key :| key in db.subs && IsFor(db.subs[key], who, step);
      LiveUntilSettled(en, db, a, key);
    }
  }

  lemma {:induction false} StaysOneOutcome(en: Engine, db: Tables, actions: seq<Action>, id: string, step: string)
    requires AllSound(en, db) && id in db.workflows && Orderly(en, db.workflows[id])
    requires var who := WhoOf(db.workflows[id]); Live(db, who, step) || HasRow(db, who, step)
    ensures ExactlyOne(Run(en, db, actions), WhoOf(db.workflows[id]), step)
  {
    RunKeepsRows(en, db, actions, id);
    if actions != [] {
      var front, last := actions[..|actions| - 1], actions[|actions| - 1];
      StaysOneOutcome(en, db, front, id, step);
      RunKeepsRows(en, db, front, id);
      StaysOpenOrSettled(en, Run(en, db, front), last, id, step);
    }
    OpenOrSettled(en, Run(en, db, actions), id, step);
  }

  /** From an empty store, whatever a workflow's correlation keys are made from: a live
      subscription and a row for its step never coexist, a step has at most one subscription,
      rows are never replaced, and a wait once subscribed is ever after open or settled. */
  lemma OneEventOutcome(en: Engine, first: seq<Action>, more: seq<Action>, id: string)
    requires RoundTrips(en.codec) && id in Run(en, EMPTY, first).workflows
    requires Orderly(en, Run(en, EMPTY, first).workflows[id])
    ensures var s, t := Run(en, EMPTY, first), Run(en, EMPTY, first + more);
      var who := WhoOf(s.workflows[id]);
      && SameWorkflow(s, t, id) && AtMostOne(t, who) && RowsKept(s, t, who)
      && forall step | Live(s, who, step) || HasRow(s, who, step) :: ExactlyOne(t, who, step)
  {
    var s := Run(en, EMPTY, first);
    RunConcat(en, EMPTY, first, more);
    RunIsAllSound(en, EMPTY, first);
    RunKeepsRows(en, s, more, id);
    SoundIsAtMostOne(en, Run(en, s, more), Run(en, s, more).workflows[id]);
    forall step | var who := WhoOf(s.workflows[id]); Live(s, who, step) || HasRow(s, who, step)
      ensures ExactlyOne(Run(en, s, more), WhoOf(s.workflows[id]), step)
    {
      StaysOneOutcome(en, s, more, id, step);
    }
  }

  /** However a workflow was suspended, retried, promoted and woken: when it is completed, its
      result is the response its saved values lead to, and its rows are exactly that way's. */
  lemma CompletedMeansTrail(en: Engine, actions: seq<Action>, id: string)
    requires RoundTrips(en.codec) && id in Run(en, EMPTY, actions).workflows
    requires var rec := Run(en, EMPTY, actions).workflows[id]; Orderly(en, rec) && rec.status == Status.Completed
    ensures var db := Run(en, EMPTY, actions);
      var rec := db.workflows[id];
      Means(en, db, rec) && RowsOf(db, WhoOf(rec)).Keys == TrailOf(en, db, rec).names
  {
    RunIsAllSound(en, EMPTY, actions);
    var db := Run(en, EMPTY, actions);
    var rec := db.workflows[id];
    assert SoundRecord(en, db, rec);
    EndedTrailHasRows(ProgramOf(en, rec), ROOT, RowsOf(db, WhoOf(rec)), en.codec);
  }
}
