/** The engine driven by hand: whole executions, promotions, timeouts and deliveries are
    atomic, in any order, as RunOnce, Promote, TimeOutSubscriptions and SendEvent make them. */
module Driver {
  import opened Prelude
  import opened Timestamps
  import opened Database
  import opened Workflow
  import opened StoreOps
  import opened Outcomes
  import opened Backoff
  import opened Replay

  /** A registered workflow: the body it runs for a workflow's id and payload, and its retry
      policy. */
  datatype Definition = Definition(program: (string, Json) -> Prog, policy: RetryPolicy)

  datatype Engine = Engine(defs: map<string, Definition>, codec: Codec)

  /** The end of executeWorkflow: the response is marshalled. */
  function EndedBy(out: Outcome, c: Codec): Ended {
    match out
    case Erred(err) => Broken(err)
    case Returned(v) =>
      if c.encode(v) == None then Broken(Plain("marshal result")) else Finished(c.encode(v).value)
  }

  /** What the execution of a record takes from outside, for that record. */
  function EnvFor(en: Engine, rec: Record, e: Env): Env {
    e.(who := WhoOf(rec), codec := en.codec)
  }

  /** The body of a record's workflow; it may depend on anything the record was created with. */
  function ProgramOf(en: Engine, rec: Record): Prog
    requires rec.wtype in en.defs
  {
    en.defs[rec.wtype].program(rec.id, rec.payload)
  }

  /** The execution itself, from the top, on the record's rows. */
  function Execution(en: Engine, db: Tables, rec: Record, e: Env): (State, Outcome)
    requires rec.wtype in en.defs
  {
    Exec(ProgramOf(en, rec), ROOT, Start(World(RowsOf(db, WhoOf(rec)), db.subs)), EnvFor(en, rec, e))
  }

  function Resolve(db: Tables, rec: Record, policy: RetryPolicy, ended: Ended, at: Instant): Tables {
    Apply(db, CommitOp(rec.id, rec.occ, Decide(if rec.attempts >= 0 then rec.attempts else 0, policy, ended, at)))
  }

  /** LocalRunner.Run on a record as it was listed. */
  function RunRecord(en: Engine, db: Tables, rec: Record, e: Env, at: Instant): Tables {
    if rec.wtype !in en.defs || rec.id !in db.workflows then db
    else if SignalSet(db, rec.id) then Resolve(db, rec, en.defs[rec.wtype].policy, Broken(CancelledError), at)
    else
      var (st, out) := Execution(en, db, rec, e);
      Resolve(db.(steps := db.steps[WhoOf(rec) := st.rows], subs := st.subs),
              rec, en.defs[rec.wtype].policy, EndedBy(out, en.codec), at)
  }

  /** A record of a RunOnce: as it is stored, if it is schedulable. */
  function RunOne(en: Engine, db: Tables, id: string, listed: Instant, e: Env, at: Instant): Tables {
    if id in db.workflows && Schedulable(db.workflows[id], FormatTime(listed))
    then RunRecord(en, db, db.workflows[id], e, at) else db
  }

  datatype Action =
    | Submit(rec: Record, now: string)
    | Execute(id: string, listed: Instant, e: Env, at: Instant)
    | Promote(at: Instant)
    | TimeOut(at: Instant)
    | SendEvent(key: string, payload: Json)
    | Signal(id: string, signal: Database.Signal)

  function Act(en: Engine, db: Tables, a: Action): Tables {
    match a
    case Submit(rec, now) => Apply(db, CreateOp(rec.(status := Pending, attempts := 0, result := None), now))
    case Execute(id, listed, e, at) => RunOne(en, db, id, listed, e, at)
    case Promote(at) => PromoteSuspended(db, FormatTime(at))
    case TimeOut(at) => TimeOutSubscriptions(db, FormatTime(at))
    case SendEvent(key, payload) => Apply(db, ResumeOp(key, payload))
    case Signal(id, signal) => Apply(db, SetSignalOp(id, signal))
  }

  function Run(en: Engine, db: Tables, actions: seq<Action>): Tables {
    if actions == [] then db
    else Act(en, Run(en, db, actions[..|actions| - 1]), actions[|actions| - 1])
  }

  lemma {:induction false} RunConcat(en: Engine, db: Tables, first: seq<Action>, more: seq<Action>)
    ensures Run(en, db, first + more) == Run(en, Run(en, db, first), more)
  {
    hide Act;
    if more == [] {
      assert first + more == first;
    } else {
      var front := more[..|more| - 1];
      RunConcat(en, db, first, front);
      assert (first + more)[..|first + more| - 1] == first + front;
    }
  }

  // ---- tables that are the same row by row ----

  lemma SameResolve(t: Tables, u: Tables, rec: Record, policy: RetryPolicy, ended: Ended, at: Instant)
    requires Same(t, u)
    ensures Same(Resolve(t, rec, policy, ended, at), Resolve(u, rec, policy, ended, at))
  {
    var d := Decide(if rec.attempts >= 0 then rec.attempts else 0, policy, ended, at);
    SameApplies(t, u, CommitOp(rec.id, rec.occ, d));
  }

  /** Tables that are the same row by row run the same. */
  lemma SameRun(en: Engine, t: Tables, u: Tables, rec: Record, e: Env, at: Instant)
    requires Same(t, u)
    ensures Same(RunRecord(en, t, rec, e, at), RunRecord(en, u, rec, e, at))
  {
    if rec.wtype in en.defs && rec.id in t.workflows {
      var policy := en.defs[rec.wtype].policy;
      if SignalSet(t, rec.id) {
        SameResolve(t, u, rec, policy, Broken(CancelledError), at);
      } else {
        var (st, out) := Execution(en, t, rec, e);
        assert Execution(en, u, rec, e) == (st, out);
        var t1 := t.(steps := t.steps[WhoOf(rec) := st.rows], subs := st.subs);
        var u1 := u.(steps := u.steps[WhoOf(rec) := st.rows], subs := st.subs);
        forall who
          ensures RowsOf(t1, who) == RowsOf(u1, who)
        {
          assert who != WhoOf(rec) ==> RowsOf(t1, who) == RowsOf(t, who) && RowsOf(u1, who) == RowsOf(u, who);
        }
        SameResolve(t1, u1, rec, policy, EndedBy(out, en.codec), at);
      }
    }
  }

  // ---- a whole RunOnce ----

  /** What RunOnce takes from outside for one of its records. */
  datatype Outside = Outside(e: Env, at: Instant)

  /** The records run one after another, each as it was when the list was taken. */
  function RunListed(en: Engine, db: Tables, records: seq<Record>, out: string -> Outside): Tables {
    if records == [] then db
    else
      var before, rec := RunListed(en, db, records[..|records| - 1], out), records[|records| - 1];
      RunRecord(en, before, rec, out(rec.id).e, out(rec.id).at)
  }

  function Executions(records: seq<Record>, listed: Instant, out: string -> Outside): seq<Action> {
    if records == [] then []
    else
      var rec := records[|records| - 1];
      Executions(records[..|records| - 1], listed, out) + [Execute(rec.id, listed, out(rec.id).e, out(rec.id).at)]
  }

  predicate ListedIn(db: Tables, records: seq<Record>, listed: Instant) {
    && (forall i, j | 0 <= i < j < |records| :: records[i].id != records[j].id)
    && forall i | 0 <= i < |records| ::
         records[i].id in db.workflows && db.workflows[records[i].id] == records[i]
         && Schedulable(records[i], FormatTime(listed))
  }

  predicate Unless(t: Tables, u: Tables, id: string) {
    u.workflows.Keys == t.workflows.Keys && forall x | x in t.workflows && x != id :: u.workflows[x] == t.workflows[x]
  }

  lemma CommitTouchesOne(t: Tables, id: string, occ: int, d: Decision)
    ensures var u := Apply(t, CommitOp(id, occ, d));
      Unless(t, u, id) && u.steps == t.steps && u.subs == t.subs
  {
    hide FormatTime;
  }

  lemma ResolveTouchesOne(db: Tables, rec: Record, policy: RetryPolicy, ended: Ended, at: Instant)
    ensures Unless(db, Resolve(db, rec, policy, ended, at), rec.id)
    ensures Resolve(db, rec, policy, ended, at).steps == db.steps && Resolve(db, rec, policy, ended, at).subs == db.subs
  {
    CommitTouchesOne(db, rec.id, rec.occ, Decide(if rec.attempts >= 0 then rec.attempts else 0, policy, ended, at));
  }

  lemma RunTouchesOne(en: Engine, db: Tables, rec: Record, e: Env, at: Instant)
    ensures Unless(db, RunRecord(en, db, rec, e, at), rec.id)
  {
    if rec.wtype in en.defs {
      var (st, out) := Execution(en, db, rec, e);
      ResolveTouchesOne(db, rec, en.defs[rec.wtype].policy, Broken(CancelledError), at);
      ResolveTouchesOne(db.(steps := db.steps[WhoOf(rec) := st.rows], subs := st.subs), rec,
                        en.defs[rec.wtype].policy, EndedBy(out, en.codec), at);
    }
  }

  /** Each record of the list is still current when its turn comes, so a RunOnce is a run of
      the machine, record by record. */
  lemma {:induction false} RunOnceIsARun(en: Engine, db: Tables, records: seq<Record>, listed: Instant,
          out: string -> Outside)
    requires ListedIn(db, records, listed)
    ensures RunListed(en, db, records, out) == Run(en, db, Executions(records, listed, out))
    ensures forall id | id in db.workflows && (forall i | 0 <= i < |records| :: records[i].id != id) ::
      id in RunListed(en, db, records, out).workflows
      && RunListed(en, db, records, out).workflows[id] == db.workflows[id]
  {
    hide FormatTime;
    if records != [] {
      var front, rec := records[..|records| - 1], records[|records| - 1];
      RunOnceIsARun(en, db, front, listed, out);
      var before := RunListed(en, db, front, out);
      assert before.workflows[rec.id] == rec;
      RunTouchesOne(en, before, rec, out(rec.id).e, out(rec.id).at);
      var actions := Executions(records, listed, out);
      assert actions[..|actions| - 1] == Executions(front, listed, out);
      forall id | id in db.workflows && forall i | 0 <= i < |records| :: records[i].id != id
        ensures id in RunListed(en, db, records, out).workflows
        ensures RunListed(en, db, records, out).workflows[id] == db.workflows[id]
      {
        assert forall i | 0 <= i < |front| :: front[i] == records[i];
      }
    }
  }
}
