/** The driven engine is a run of the concurrent one: every whole execution, with its outcome,
    is what one runner's steps come to when nobody else is at work. */
module FineDriver {
  import opened Prelude
  import opened Names
  import opened Timestamps
  import opened Database
  import opened Workflow
  import opened Backoff
  import opened StoreOps
  import opened Outcomes
  import opened Trails
  import opened Replay
  import opened FineMachine
  import opened FineSafety
  import D = Driver

  // ---- one runner in an execution ----

  lemma Then(cfg: Config, s: Fine, actions: seq<Action>, a: Action)
    ensures Run(cfg, s, actions + [a]) == Act(cfg, Run(cfg, s, actions), a)
  {
    assert (actions + [a])[..|actions|] == actions;
  }

  lemma TwoMore(cfg: Config, s: Fine, actions: seq<Action>, a: Action, b: Action)
    ensures Run(cfg, s, actions + [a, b]) == Act(cfg, Act(cfg, Run(cfg, s, actions), a), b)
  {
    Then(cfg, s, actions, a);
    Then(cfg, s, actions + [a], b);
    assert actions + [a, b] == (actions + [a]) + [b];
  }

  /** The machine with the runner w executing, and these tables. */
  function On(s: Fine, w: nat, rec: Record, cache: map<string, Row>, calls: map<string, CallState>, db: Tables): Fine {
    s.(db := db, runners := s.runners[w := Executing(rec, cache, calls)])
  }

  lemma Overwritten<K, V>(m: map<K, V>, k: K, u: V, v: V)
    ensures m[k := u][k := v] == m[k := v]
  {
  }

  predicate AllOver(calls: map<string, CallState>) {
    forall n | n in calls :: calls[n] == Over
  }

  /** What one action makes of one call. */
  lemma Moves(cfg: Config, s: Fine, w: nat, rec: Record, cache: map<string, Row>, calls: map<string, CallState>,
          db: Tables, name: string, c: CallState, d: CallState)
    ensures On(s, w, rec, cache, calls[name := c], db).runners[w := Executing(rec, cache, calls[name := c][name := d])]
         == On(s, w, rec, cache, calls[name := d], db).runners
  {
    Overwritten(calls, name, c, d);
    Overwritten(s.runners, w, Executing(rec, cache, calls[name := c]), Executing(rec, cache, calls[name := d]));
  }

  lemma Enters(cfg: Config, s: Fine, w: nat, rec: Record, cache: map<string, Row>, calls: map<string, CallState>,
          db: Tables, name: string)
    requires name !in calls
    ensures Act(cfg, On(s, w, rec, cache, calls, db), Enter(w, name))
         == On(s, w, rec, cache, calls[name := Entered], db)
  {
    Overwritten(s.runners, w, Executing(rec, cache, calls), Executing(rec, cache, calls[name := Entered]));
  }

  lemma ReadsNoSignal(cfg: Config, s: Fine, w: nat, rec: Record, cache: map<string, Row>, calls: map<string, CallState>,
          db: Tables, name: string)
    requires !SignalSet(db, rec.id)
    ensures Act(cfg, On(s, w, rec, cache, calls[name := Entered], db), ReadSignal(w, name))
         == On(s, w, rec, cache, calls[name := Clear], db)
  {
    Moves(cfg, s, w, rec, cache, calls, db, name, Entered, Clear);
  }

  lemma ReadsRow(cfg: Config, s: Fine, w: nat, rec: Record, cache: map<string, Row>, calls: map<string, CallState>,
          db: Tables, name: string)
    requires Extends(cache, RowsOf(db, WhoOf(rec)))
    ensures Act(cfg, On(s, w, rec, cache, calls[name := Clear], db), FineMachine.ReadRow(w, name))
         == On(s, w, rec, cache, calls[name := if name in RowsOf(db, WhoOf(rec)) then Over else NotFound], db)
  {
    Moves(cfg, s, w, rec, cache, calls, db, name, Clear, if name in RowsOf(db, WhoOf(rec)) then Over else NotFound);
  }

  lemma Calls(cfg: Config, s: Fine, w: nat, rec: Record, cache: map<string, Row>, calls: map<string, CallState>,
          db: Tables, name: string, row: Row)
    requires !cfg.isWait(WhoOf(rec), name)
    ensures Act(cfg, On(s, w, rec, cache, calls[name := NotFound], db), CallFunction(w, name, Some(row)))
         == On(s, w, rec, cache, calls[name := Computed(row)], db)
  {
    Moves(cfg, s, w, rec, cache, calls, db, name, NotFound, Computed(row));
  }

  lemma Saves(cfg: Config, s: Fine, w: nat, rec: Record, cache: map<string, Row>, calls: map<string, CallState>,
          db: Tables, name: string, row: Row)
    ensures Act(cfg, On(s, w, rec, cache, calls[name := Computed(row)], db), SaveRow(w, name))
         == On(s, w, rec, cache, calls[name := Over], SaveStep(db, WhoOf(rec), name, row))
  {
    Moves(cfg, s, w, rec, cache, calls, db, name, Computed(row), Over);
  }

  lemma Subscribes(cfg: Config, s: Fine, w: nat, rec: Record, cache: map<string, Row>, calls: map<string, CallState>,
          db: Tables, name: string, key: string, deadline: Instant)
    requires cfg.isWait(WhoOf(rec), name)
    ensures var sub := Subscription(WhoOf(rec), name, FormatTime(deadline));
      Act(cfg, On(s, w, rec, cache, calls[name := NotFound], db), SubscribeTo(w, name, key, deadline))
      == On(s, w, rec, cache, calls[name := Over], if key in db.subs then db else db.(subs := db.subs[key := sub]))
  {
    hide FormatTime;
    Moves(cfg, s, w, rec, cache, calls, db, name, NotFound, Over);
  }

  lemma Fails(cfg: Config, s: Fine, w: nat, rec: Record, cache: map<string, Row>, calls: map<string, CallState>,
          db: Tables, name: string, c: CallState)
    ensures Act(cfg, On(s, w, rec, cache, calls[name := c], db), FineMachine.Fail(w, name))
         == On(s, w, rec, cache, calls[name := Over], db)
  {
    Moves(cfg, s, w, rec, cache, calls, db, name, c, Over);
  }

  // ---- one call ----

  /** The runner is at the session's state, with every call so far over. */
  ghost predicate IsAt(s: Fine, w: nat, rec: Record, cache: map<string, Row>, calls: map<string, CallState>, db: Tables,
          st: State)
  {
    && calls.Keys == st.seen && AllOver(calls)
    && RowsOf(db, WhoOf(rec)) == st.rows && db.subs == st.subs && Extends(cache, st.rows)
  }

  /** Only the execution's own rows, and subscriptions, differ. */
  ghost predicate OnlyOf(who: Who, t: Tables, u: Tables) {
    u.workflows == t.workflows && forall x | x != who :: RowsOf(u, x) == RowsOf(t, x)
  }

  /** The way to the lookup: entered, and no signal seen. */
  lemma LooksUp(cfg: Config, s: Fine, w: nat, rec: Record, cache: map<string, Row>, calls: map<string, CallState>,
          db: Tables, name: string)
    requires name !in calls && !SignalSet(db, rec.id) && Extends(cache, RowsOf(db, WhoOf(rec)))
    ensures var c := if name in RowsOf(db, WhoOf(rec)) then Over else NotFound;
      Run(cfg, On(s, w, rec, cache, calls, db), [Enter(w, name), ReadSignal(w, name), FineMachine.ReadRow(w, name)])
      == On(s, w, rec, cache, calls[name := c], db)
  {
    var s0 := On(s, w, rec, cache, calls, db);
    Enters(cfg, s, w, rec, cache, calls, db, name);
    ReadsNoSignal(cfg, s, w, rec, cache, calls, db, name);
    ReadsRow(cfg, s, w, rec, cache, calls, db, name);
    Then(cfg, s0, [], Enter(w, name));
    TwoMore(cfg, s0, [Enter(w, name)], ReadSignal(w, name), FineMachine.ReadRow(w, name));
    assert [] + [Enter(w, name)] == [Enter(w, name)];
    assert [Enter(w, name)] + [ReadSignal(w, name), FineMachine.ReadRow(w, name)]
        == [Enter(w, name), ReadSignal(w, name), FineMachine.ReadRow(w, name)];
  }

  lemma FailsEarly(cfg: Config, s: Fine, w: nat, rec: Record, cache: map<string, Row>, calls: map<string, CallState>,
          db: Tables, name: string)
    requires name !in calls
    ensures Run(cfg, On(s, w, rec, cache, calls, db), [Enter(w, name), FineMachine.Fail(w, name)])
         == On(s, w, rec, cache, calls[name := Over], db)
  {
    Enters(cfg, s, w, rec, cache, calls, db, name);
    Fails(cfg, s, w, rec, cache, calls, db, name, Entered);
    TwoMore(cfg, On(s, w, rec, cache, calls, db), [], Enter(w, name), FineMachine.Fail(w, name));
    assert [] + [Enter(w, name), FineMachine.Fail(w, name)] == [Enter(w, name), FineMachine.Fail(w, name)];
  }

  /** The tables after a call, given those before it. */
  function TablesAfter(db: Tables, who: Who, name: string, st: State, after: State): Tables {
    if after.rows == st.rows then db.(subs := after.subs)
    else SaveStep(db, who, name, if name in after.rows then after.rows[name] else Row(None, ""))
  }

  /** What a call does, by what it finds. */
  lemma CallIsRun(cfg: Config, s: Fine, w: nat, rec: Record, cache: map<string, Row>, calls: map<string, CallState>,
          db: Tables, p: Prog, name: string, st: State, e: Env) returns (actions: seq<Action>)
    requires IsAt(s, w, rec, cache, calls, db, st) && IsCall(p) && name !in st.seen
    requires e.who == WhoOf(rec) && cfg.isWait(e.who, name) == p.Wait? && !SignalSet(db, rec.id) && !e.cancelled(name)
    ensures var after := Perform(p, name, st, e).st;
      Run(cfg, On(s, w, rec, cache, calls, db), actions)
      == On(s, w, rec, cache, calls[name := Over], TablesAfter(db, e.who, name, st, after))
  {
    hide FormatTime, Act, Run;
    var s0 := On(s, w, rec, cache, calls, db);
    var look := [Enter(w, name), ReadSignal(w, name), FineMachine.ReadRow(w, name)];
    var after := Perform(p, name, st, e).st;
    LooksUp(cfg, s, w, rec, cache, calls, db, name);
    if e.fault(name) == SignalUnread || e.fault(name) == LookupFailed {
      FailsEarly(cfg, s, w, rec, cache, calls, db, name);
      actions := [Enter(w, name), FineMachine.Fail(w, name)];
      SameTables(db, after.subs);
    } else if name in st.rows {
      actions := look;
      SameTables(db, after.subs);
    } else if p.Wait? {
      actions := WaitIsRun(cfg, s, w, rec, cache, calls, db, p, name, st, e, look);
    } else if after.rows == st.rows {
      Fails(cfg, s, w, rec, cache, calls, db, name, NotFound);
      Then(cfg, s0, look, FineMachine.Fail(w, name));
      actions := look + [FineMachine.Fail(w, name)];
      SameTables(db, after.subs);
    } else {
      var row := after.rows[name];
      Calls(cfg, s, w, rec, cache, calls, db, name, row);
      Saves(cfg, s, w, rec, cache, calls, db, name, row);
      TwoMore(cfg, s0, look, CallFunction(w, name, Some(row)), SaveRow(w, name));
      actions := look + [CallFunction(w, name, Some(row)), SaveRow(w, name)];
    }
  }

  lemma SameTables(db: Tables, subs: map<string, Subscription>)
    requires subs == db.subs
    ensures db.(subs := subs) == db
  {
  }

  lemma WaitIsRun(cfg: Config, s: Fine, w: nat, rec: Record, cache: map<string, Row>, calls: map<string, CallState>,
          db: Tables, p: Prog, name: string, st: State, e: Env, look: seq<Action>) returns (actions: seq<Action>)
    requires IsAt(s, w, rec, cache, calls, db, st) && p.Wait? && name !in st.seen && name !in st.rows
    requires e.who == WhoOf(rec) && cfg.isWait(e.who, name) && !e.cancelled(name)
    requires e.fault(name) != SignalUnread && e.fault(name) != LookupFailed
    requires Run(cfg, On(s, w, rec, cache, calls, db), look) == On(s, w, rec, cache, calls[name := NotFound], db)
    ensures var after := Perform(p, name, st, e).st;
      Run(cfg, On(s, w, rec, cache, calls, db), actions)
      == On(s, w, rec, cache, calls[name := Over], TablesAfter(db, e.who, name, st, after))
  {
    hide FormatTime, Act, Run;
    var deadline := e.now(name) + p.timeout;
    Subscribes(cfg, s, w, rec, cache, calls, db, name, p.key, deadline);
    Then(cfg, On(s, w, rec, cache, calls, db), look, SubscribeTo(w, name, p.key, deadline));
    actions := look + [SubscribeTo(w, name, p.key, deadline)];
  }

  lemma CallChanges(p: Prog, name: string, st: State, e: Env)
    requires name !in st.seen
    ensures var after := Perform(p, name, st, e).st;
      && after.seen == st.seen + {name}
      && (after.rows == st.rows
          || (name !in st.rows && after.subs == st.subs
              && name in after.rows && after.rows == st.rows[name := after.rows[name]]))
  {
    hide FormatTime;
  }

  /** After the call the runner is at the session's new state. */
  lemma CallKeepsPlace(s: Fine, w: nat, rec: Record, cache: map<string, Row>, calls: map<string, CallState>, db: Tables,
          p: Prog, name: string, st: State, e: Env)
    requires IsAt(s, w, rec, cache, calls, db, st) && name !in st.seen && e.who == WhoOf(rec)
    ensures var after := Perform(p, name, st, e).st;
      var u := TablesAfter(db, e.who, name, st, after);
      IsAt(s, w, rec, cache, calls[name := Over], u, after) && OnlyOf(e.who, db, u)
  {
    hide Perform;
    CallChanges(p, name, st, e);
  }

  // ---- a whole execution ----

  /** The configuration knows the body's waits. */
  ghost predicate Typed(cfg: Config, who: Who, p: Prog, sc: Scope) {
    forall n, a | MayAsk(p, sc, n, a) :: cfg.isWait(who, n) == a.WaitOn?
  }

  lemma TypedOnward(cfg: Config, who: Who, p: Prog, sc: Scope, reply: Reply)
    requires IsCall(p) && Onward(p, reply).Go? && Typed(cfg, who, p, sc)
    ensures Typed(cfg, who, Onward(p, reply).p, Counted(p, sc))
  {
    forall n, a | MayAsk(Onward(p, reply).p, Counted(p, sc), n, a)
      ensures cfg.isWait(who, n) == a.WaitOn?
    {
      OnwardMayAsk(p, sc, reply, n, a);
    }
  }

  lemma TypedCall(cfg: Config, who: Who, p: Prog, sc: Scope)
    requires IsCall(p) && Typed(cfg, who, p, sc)
    ensures cfg.isWait(who, CallName(p, sc)) == p.Wait?
  {
    assert MayAsk(p, sc, CallName(p, sc), AskOf(p));
  }

  lemma TypedJoin(cfg: Config, who: Who, p: Prog, sc: Scope, outs: seq<Outcome>)
    requires p.Parallel? && AfterJoin(p, outs).Go? && Typed(cfg, who, p, sc)
    ensures Typed(cfg, who, AfterJoin(p, outs).p, sc)
  {
    assert Values(outs) in p.join && p.join[Values(outs)] == AfterJoin(p, outs).p;
  }

  lemma TypedBranch(cfg: Config, who: Who, p: Prog, sc: Scope, i: nat)
    requires p.Parallel? && i < |p.branches| && Typed(cfg, who, p, sc)
    ensures Typed(cfg, who, p.branches[i].body, ChildScope(sc, p.branches[i].name))
  {
  }

  /** Where a run of the machine leaves a runner: its calls and the tables. */
  datatype Place = Place(calls: map<string, CallState>, db: Tables)

  /** The actions bring the runner from one place to the next, and the session from st to after. */
  ghost predicate Leads(cfg: Config, s: Fine, w: nat, rec: Record, cache: map<string, Row>, from: Place,
          actions: seq<Action>, to: Place, after: State)
  {
    && Run(cfg, On(s, w, rec, cache, from.calls, from.db), actions) == On(s, w, rec, cache, to.calls, to.db)
    && IsAt(s, w, rec, cache, to.calls, to.db, after) && OnlyOf(WhoOf(rec), from.db, to.db)
  }

  lemma LeadsOn(cfg: Config, s: Fine, w: nat, rec: Record, cache: map<string, Row>, from: Place, a: seq<Action>,
          mid: Place, after: State, b: seq<Action>, to: Place, end: State)
    requires Leads(cfg, s, w, rec, cache, from, a, mid, after) && Leads(cfg, s, w, rec, cache, mid, b, to, end)
    ensures Leads(cfg, s, w, rec, cache, from, a + b, to, end)
  {
    hide Act;
    RunConcat(cfg, On(s, w, rec, cache, from.calls, from.db), a, b);
  }

  /** Nobody cancels, neither before nor meanwhile. */
  ghost predicate Calm(e: Env, db: Tables, id: string) {
    !SignalSet(db, id) && forall n :: !e.cancelled(n)
  }

  lemma OneCallLeads(cfg: Config, s: Fine, w: nat, rec: Record, cache: map<string, Row>, from: Place, p: Prog,
          sc: Scope, st: State, e: Env) returns (actions: seq<Action>, to: Place)
    requires IsAt(s, w, rec, cache, from.calls, from.db, st) && e.who == WhoOf(rec) && Calm(e, from.db, rec.id)
    requires IsCall(p) && Typed(cfg, e.who, p, sc)
    ensures Leads(cfg, s, w, rec, cache, from, actions, to, Perform(p, CallName(p, sc), st, e).st)
  {
    hide Perform, Act, TablesAfter;
    var name := CallName(p, sc);
    TypedCall(cfg, e.who, p, sc);
    if name in st.seen {
      DuplicateStays(p, name, st, e);
      actions, to := [], from;
    } else {
      actions := CallIsRun(cfg, s, w, rec, cache, from.calls, from.db, p, name, st, e);
      CallKeepsPlace(s, w, rec, cache, from.calls, from.db, p, name, st, e);
      to := Place(from.calls[name := Over], TablesAfter(from.db, e.who, name, st, Perform(p, name, st, e).st));
    }
  }

  lemma DuplicateStays(p: Prog, name: string, st: State, e: Env)
    requires name in st.seen
    ensures Perform(p, name, st, e).st == st
  {
  }

  /** The whole body is a run of its runner. */
  lemma ExecLeads(cfg: Config, s: Fine, w: nat, rec: Record, cache: map<string, Row>, from: Place, p: Prog,
          sc: Scope, st: State, e: Env) returns (actions: seq<Action>, to: Place)
    requires IsAt(s, w, rec, cache, from.calls, from.db, st) && e.who == WhoOf(rec) && Calm(e, from.db, rec.id)
    requires Typed(cfg, e.who, p, sc)
    ensures Leads(cfg, s, w, rec, cache, from, actions, to, Exec(p, sc, st, e).0)
    decreases p
  {
    hide Perform, Act, Typed;
    if p.Parallel? {
      var (st1, outs) := ExecAll(p.branches, sc, st, e);
      assert p.branches[0..] == p.branches;
      var mid;
      actions, mid := BranchesLead(cfg, s, w, rec, cache, from, p, 0, sc, st, e);
      to := mid;
      var n := AfterJoin(p, outs);
      if n.Go? {
        TypedJoin(cfg, e.who, p, sc, outs);
        var more;
        more, to := ExecLeads(cfg, s, w, rec, cache, mid, n.p, sc, st1, e);
        LeadsOn(cfg, s, w, rec, cache, from, actions, mid, st1, more, to, Exec(p, sc, st, e).0);
        actions := actions + more;
      }
    } else if IsCall(p) {
      var name := CallName(p, sc);
      var r := Perform(p, name, st, e);
      var mid;
      actions, mid := OneCallLeads(cfg, s, w, rec, cache, from, p, sc, st, e);
      to := mid;
      if r.Replied? && Resume(p, name, r.reply, e).Go? {
        ResumeGoes(p, name, r.reply, e);
        TypedOnward(cfg, e.who, p, sc, r.reply);
        var more;
        more, to := ExecLeads(cfg, s, w, rec, cache, mid, Onward(p, r.reply).p, Counted(p, sc), r.st, e);
        LeadsOn(cfg, s, w, rec, cache, from, actions, mid, r.st, more, to, Exec(p, sc, st, e).0);
        actions := actions + more;
      }
    } else {
      actions, to := [], from;
    }
  }

  lemma BranchesLead(cfg: Config, s: Fine, w: nat, rec: Record, cache: map<string, Row>, from: Place, p: Prog, i: nat,
          sc: Scope, st: State, e: Env) returns (actions: seq<Action>, to: Place)
    requires IsAt(s, w, rec, cache, from.calls, from.db, st) && e.who == WhoOf(rec) && Calm(e, from.db, rec.id)
    requires p.Parallel? && i <= |p.branches| && Typed(cfg, e.who, p, sc)
    ensures Leads(cfg, s, w, rec, cache, from, actions, to, ExecAll(p.branches[i..], sc, st, e).0)
    decreases p, |p.branches| - i
  {
    hide Perform, Act, Typed;
    if i == |p.branches| {
      actions, to := [], from;
    } else {
      var b := p.branches[i];
      assert p.branches[i..][0] == b && p.branches[i..][1..] == p.branches[i + 1..];
      TypedBranch(cfg, e.who, p, sc, i);
      var (st1, _) := Exec(b.body, ChildScope(sc, b.name), st, e);
      var first, mid := ExecLeads(cfg, s, w, rec, cache, from, b.body, ChildScope(sc, b.name), st, e);
      var more;
      more, to := BranchesLead(cfg, s, w, rec, cache, mid, p, i + 1, sc, st1, e);
      LeadsOn(cfg, s, w, rec, cache, from, first, mid, st1, more, to, ExecAll(p.branches[i..], sc, st, e).0);
      actions := first + more;
    }
  }

  // ---- a record, from the list to its outcome ----

  /** The two agree on policies and waits. */
  ghost predicate Agrees(cfg: Config, en: D.Engine) {
    && cfg.policies.Keys == en.defs.Keys
    && forall t | t in en.defs :: cfg.policies[t] == en.defs[t].policy
  }

  function Runner(s: Fine, w: nat, r: FineMachine.Runner): Fine {
    s.(runners := s.runners[w := r])
  }

  function Held(s: Fine, id: string): Fine {
    s.(leases := s.leases + {id})
  }

  lemma Starts(cfg: Config, s: Fine, w: nat, id: string, listed: Instant)
    requires w !in s.runners && id !in s.leases && id in s.db.workflows && s.db.workflows[id].id == id
    requires Schedulable(s.db.workflows[id], FormatTime(listed)) && s.db.workflows[id].wtype in cfg.policies
    ensures var rec := s.db.workflows[id];
      Run(cfg, s, [TakeRecord(w, id, listed), Acquire(w)]) == Runner(Held(s, id), w, FineMachine.Leased(rec))
  {
    hide FormatTime;
    var rec := s.db.workflows[id];
    TwoMore(cfg, s, [], TakeRecord(w, id, listed), Acquire(w));
    assert [] + [TakeRecord(w, id, listed), Acquire(w)] == [TakeRecord(w, id, listed), Acquire(w)];
    Overwritten(s.runners, w, Holding(rec), FineMachine.Leased(rec));
  }

  lemma Prefetches(cfg: Config, s: Fine, w: nat, rec: Record)
    ensures var rows := RowsOf(s.db, WhoOf(rec));
      Run(cfg, Runner(s, w, FineMachine.Leased(rec)), [Prefetch(w), Check(w)])
      == if SignalSet(s.db, rec.id) then Runner(s, w, Resolved(rec, Broken(CancelledError)))
         else Runner(s, w, Executing(rec, rows, map[]))
  {
    var s0, rows := Runner(s, w, FineMachine.Leased(rec)), RowsOf(s.db, WhoOf(rec));
    TwoMore(cfg, s0, [], Prefetch(w), Check(w));
    assert [] + [Prefetch(w), Check(w)] == [Prefetch(w), Check(w)];
    Overwritten(s.runners, w, FineMachine.Leased(rec), Prefetched(rec, rows));
    Overwritten(s.runners, w, Prefetched(rec, rows), Resolved(rec, Broken(CancelledError)));
    Overwritten(s.runners, w, Prefetched(rec, rows), Executing(rec, rows, map[]));
  }

  lemma Finishes(cfg: Config, s: Fine, w: nat, rec: Record, cache: map<string, Row>, place: Place, ended: Ended)
    requires AllOver(place.calls)
    ensures Run(cfg, On(s, w, rec, cache, place.calls, place.db), [Finish(w, ended)])
         == Runner(s.(db := place.db), w, Resolved(rec, ended))
  {
    var s0 := On(s, w, rec, cache, place.calls, place.db);
    Then(cfg, s0, [], Finish(w, ended));
    assert [] + [Finish(w, ended)] == [Finish(w, ended)];
    Overwritten(s.runners, w, Executing(rec, cache, place.calls), Resolved(rec, ended));
  }

  /** The commit is the outcome's write, and the lease is given back. */
  lemma CommitsAndReleases(cfg: Config, s: Fine, w: nat, rec: Record, policy: RetryPolicy, ended: Ended, at: Instant)
    requires rec.wtype in cfg.policies && cfg.policies[rec.wtype] == policy
    ensures var t := Run(cfg, Runner(s, w, Resolved(rec, ended)), [CommitOutcome(w, at), Release(w)]);
      && t.db == D.Resolve(s.db, rec, policy, ended, at)
      && t.runners == s.runners - {w} && t.leases == s.leases - {rec.id}
  {
    hide FormatTime;
    var s0 := Runner(s, w, Resolved(rec, ended));
    TwoMore(cfg, s0, [], CommitOutcome(w, at), Release(w));
    assert [] + [CommitOutcome(w, at), Release(w)] == [CommitOutcome(w, at), Release(w)];
    assert s.runners[w := Resolved(rec, ended)][w := Closing(rec)] - {w} == s.runners - {w};
  }

  /** The same machine, up to tables that are the same row by row, and its log. */
  ghost predicate Quiet(s: Fine, t: Fine) {
    t.runners == s.runners && t.leases == s.leases
  }

  lemma Ends(cfg: Config, s: Fine, t: Fine, w: nat, rec: Record, policy: RetryPolicy, db: Tables, ended: Ended,
          at: Instant)
    requires w !in s.runners && rec.id !in s.leases && rec.wtype in cfg.policies && cfg.policies[rec.wtype] == policy
    requires t == Runner(Held(s, rec.id).(db := db), w, Resolved(rec, ended))
    ensures var u := Run(cfg, t, [CommitOutcome(w, at), Release(w)]);
      Quiet(s, u) && u.db == D.Resolve(db, rec, policy, ended, at)
  {
    CommitsAndReleases(cfg, Held(s, rec.id).(db := db), w, rec, policy, ended, at);
    assert s.runners - {w} == s.runners && s.leases + {rec.id} - {rec.id} == s.leases;
  }

  /** A whole execution of the driven engine is a run of one runner: list, lease, prefetch,
      signal, the body's calls, outcome and release. */
  lemma RecordIsRun(cfg: Config, en: D.Engine, s: Fine, w: nat, id: string, listed: Instant, e: Env, at: Instant)
    returns (actions: seq<Action>)
    requires Agrees(cfg, en) && w !in s.runners && id !in s.leases && (forall n :: !e.cancelled(n))
    requires id in s.db.workflows && s.db.workflows[id].id == id && s.db.workflows[id].wtype in en.defs
    requires Schedulable(s.db.workflows[id], FormatTime(listed))
    requires Typed(cfg, WhoOf(s.db.workflows[id]), D.ProgramOf(en, s.db.workflows[id]), ROOT)
    ensures var t := Run(cfg, s, actions);
      Quiet(s, t) && Same(t.db, D.RunRecord(en, s.db, s.db.workflows[id], e, at))
  {
    hide FormatTime, Act, Exec, Typed;
    var rec := s.db.workflows[id];
    var policy := en.defs[rec.wtype].policy;
    var first := [TakeRecord(w, id, listed), Acquire(w)];
    Starts(cfg, s, w, id, listed);
    Prefetches(cfg, Held(s, id), w, rec);
    RunConcat(cfg, s, first, [Prefetch(w), Check(w)]);
    var begun := first + [Prefetch(w), Check(w)];
    var last := [CommitOutcome(w, at), Release(w)];
    if SignalSet(s.db, id) {
      Ends(cfg, s, Run(cfg, s, begun), w, rec, policy, s.db, Broken(CancelledError), at);
      RunConcat(cfg, s, begun, last);
      actions := begun + last;
    } else {
      var more, place := BodyIsRun(cfg, en, s, w, rec, e);
      var ended := D.EndedBy(D.Execution(en, s.db, rec, e).1, en.codec);
      RunConcat(cfg, s, begun, more);
      Ends(cfg, s, Run(cfg, s, begun + more), w, rec, policy, place.db, ended, at);
      RunConcat(cfg, s, begun + more, last);
      actions := begun + more + last;
      EndsAsDriven(en, s.db, place.db, rec, e, ended, at);
    }
  }

  lemma EndsAsDriven(en: D.Engine, db: Tables, u: Tables, rec: Record, e: Env, ended: Ended, at: Instant)
    requires rec.wtype in en.defs && rec.id in db.workflows && !SignalSet(db, rec.id) && OnlyOf(WhoOf(rec), db, u)
    requires var (st, out) := D.Execution(en, db, rec, e);
      RowsOf(u, WhoOf(rec)) == st.rows && u.subs == st.subs && ended == D.EndedBy(out, en.codec)
    ensures Same(D.Resolve(u, rec, en.defs[rec.wtype].policy, ended, at), D.RunRecord(en, db, rec, e, at))
  {
    hide FormatTime;
    var (st, out) := D.Execution(en, db, rec, e);
    var v := db.(steps := db.steps[WhoOf(rec) := st.rows], subs := st.subs);
    forall who
      ensures RowsOf(u, who) == RowsOf(v, who)
    {
      assert who != WhoOf(rec) ==> RowsOf(v, who) == RowsOf(db, who);
    }
    D.SameResolve(u, v, rec, en.defs[rec.wtype].policy, ended, at);
  }

  lemma BodyIsRun(cfg: Config, en: D.Engine, s: Fine, w: nat, rec: Record, e: Env)
    returns (actions: seq<Action>, place: Place)
    requires rec.wtype in en.defs && !SignalSet(s.db, rec.id) && forall n :: !e.cancelled(n)
    requires Typed(cfg, WhoOf(rec), D.ProgramOf(en, rec), ROOT)
    ensures var (st, out) := D.Execution(en, s.db, rec, e);
      && Run(cfg, Runner(Held(s, rec.id), w, Executing(rec, RowsOf(s.db, WhoOf(rec)), map[])), actions)
         == Runner(Held(s, rec.id).(db := place.db), w, Resolved(rec, D.EndedBy(out, en.codec)))
      && RowsOf(place.db, WhoOf(rec)) == st.rows && place.db.subs == st.subs && OnlyOf(WhoOf(rec), s.db, place.db)
  {
    hide Act, Exec, Typed;
    var cache, h := RowsOf(s.db, WhoOf(rec)), Held(s, rec.id);
    var st0, from := Start(World(cache, s.db.subs)), Place(map[], s.db);
    var p, env := D.ProgramOf(en, rec), D.EnvFor(en, rec, e);
    actions, place := ExecLeads(cfg, h, w, rec, cache, from, p, ROOT, st0, env);
    var ended := D.EndedBy(D.Execution(en, s.db, rec, e).1, en.codec);
    Finishes(cfg, h, w, rec, cache, place, ended);
    RunConcat(cfg, On(h, w, rec, cache, from.calls, from.db), actions, [Finish(w, ended)]);
    actions := actions + [Finish(w, ended)];
  }

  // ---- a whole run ----

  /** A fresh record, as Submit makes it. */
  predicate IsFresh(rec: Record) {
    rec == Record(rec.id, rec.wtype, rec.version, Pending, NoSignal, rec.payload, None, "", "", 0, 1, "")
  }

  /** What the machine can follow: fresh records submitted at a time, and executions in which
      nobody cancels, of bodies whose waits it knows. */
  ghost predicate Suits(cfg: Config, en: D.Engine, db: Tables, a: D.Action) {
    && (a.Submit? ==> IsFresh(a.rec) && exists at :: a.now == FormatTime(at))
    && (a.Execute? ==>
          && (forall n :: !a.e.cancelled(n))
          && (a.id in db.workflows && db.workflows[a.id].wtype in en.defs ==>
                Typed(cfg, WhoOf(db.workflows[a.id]), D.ProgramOf(en, db.workflows[a.id]), ROOT)))
  }

  ghost predicate AllSuit(cfg: Config, en: D.Engine, actions: seq<D.Action>) {
    actions != [] ==>
      var front := actions[..|actions| - 1];
      AllSuit(cfg, en, front) && Suits(cfg, en, D.Run(en, EMPTY, front), actions[|actions| - 1])
  }

  /** The write of an action other than an execution. */
  function OpOf(a: D.Action): Op
    requires !a.Execute?
  {
    match a
    case Submit(rec, now) => CreateOp(rec.(status := Pending, attempts := 0, result := None), now)
    case Promote(at) => PromoteOp(FormatTime(at))
    case TimeOut(at) => TimeOutOp(FormatTime(at))
    case SendEvent(key, payload) => ResumeOp(key, payload)
    case Signal(id, signal) => SetSignalOp(id, signal)
  }

  lemma ActIsWrite(en: D.Engine, t: Tables, a: D.Action)
    requires !a.Execute?
    ensures D.Act(en, t, a) == Apply(t, OpOf(a))
  {
    hide FormatTime, TimeOutSubscriptions, PromoteSuspended;
  }

  /** The step of the machine that makes the same write. */
  function StepOf(a: D.Action, at: Instant): Action
    requires !a.Execute?
  {
    match a
    case Submit(rec, _) => FineMachine.Submit(rec.id, rec.wtype, rec.version, rec.payload, at)
    case Promote(now) => PromoteAll(now)
    case TimeOut(now) => TimeOutAll(now)
    case SendEvent(key, payload) => FineMachine.SendEvent(key, payload)
    case Signal(id, signal) => FineMachine.Signal(id, signal)
  }

  lemma WriteIsStep(cfg: Config, en: D.Engine, s: Fine, a: D.Action, at: Instant)
    requires !a.Execute? && (a.Submit? ==> IsFresh(a.rec) && a.now == FormatTime(at))
    ensures Act(cfg, s, StepOf(a, at)) == s.(db := D.Act(en, s.db, a))
  {
    hide FormatTime, Apply, D.Act;
    ActIsWrite(en, s.db, a);
    assert Write(cfg, s, StepOf(a, at)) == Some(OpOf(a));
  }

  lemma SameWrites(en: D.Engine, t: Tables, u: Tables, a: D.Action)
    requires Same(t, u)
    ensures Same(D.Act(en, t, a), D.Act(en, u, a))
  {
    hide D.Act;
    if a.Execute? {
      SameExecutes(en, t, u, a);
    } else {
      ActIsWrite(en, t, a);
      ActIsWrite(en, u, a);
      SameApplies(t, u, OpOf(a));
    }
  }

  lemma SameExecutes(en: D.Engine, t: Tables, u: Tables, a: D.Action)
    requires a.Execute? && Same(t, u)
    ensures Same(D.Act(en, t, a), D.Act(en, u, a))
  {
    hide FormatTime, D.RunRecord;
    if a.id in t.workflows {
      D.SameRun(en, t, u, t.workflows[a.id], a.e, a.at);
    }
  }

  lemma SameTransitive(t: Tables, u: Tables, v: Tables)
    requires Same(t, u) && Same(u, v)
    ensures Same(t, v)
  {
  }

  /** One action of the driven engine, from a quiet machine to a quiet machine. */
  lemma ActionIsRun(cfg: Config, en: D.Engine, s: Fine, a: D.Action) returns (steps: seq<Action>)
    requires Agrees(cfg, en) && s.runners == map[] && s.leases == {} && Suits(cfg, en, s.db, a)
    requires forall id | id in s.db.workflows :: s.db.workflows[id].id == id
    ensures var t := Run(cfg, s, steps); Quiet(s, t) && Same(t.db, D.Act(en, s.db, a))
  {
    hide FormatTime, Act, Typed, D.RunRecord;
    if !a.Execute? {
      var at :| a.Submit? ==> a.now == FormatTime(at);
      var step := StepOf(a, at);
      WriteIsStep(cfg, en, s, a, at);
      Then(cfg, s, [], step);
      steps := [] + [step];
    } else if a.id in s.db.workflows && Schedulable(s.db.workflows[a.id], FormatTime(a.listed))
           && s.db.workflows[a.id].wtype in en.defs {
      steps := RecordIsRun(cfg, en, s, 0, a.id, a.listed, a.e, a.at);
    } else {
      steps := [];
      NothingRuns(en, s.db, a);
    }
  }

  lemma NothingRuns(en: D.Engine, db: Tables, a: D.Action)
    requires a.Execute?
    requires !(a.id in db.workflows && Schedulable(db.workflows[a.id], FormatTime(a.listed))
               && db.workflows[a.id].wtype in en.defs)
    ensures D.Act(en, db, a) == db
  {
    hide FormatTime;
  }

  /** Every run of the driven engine is, write for write, a run of the concurrent one: what
      holds of all interleavings holds of it. */
  lemma {:induction false} DrivenIsARun(cfg: Config, en: D.Engine, actions: seq<D.Action>) returns (steps: seq<Action>)
    requires Agrees(cfg, en) && AllSuit(cfg, en, actions)
    ensures var s := Run(cfg, START, steps);
      s.runners == map[] && s.leases == {} && Same(s.db, D.Run(en, EMPTY, actions))
  {
    hide FormatTime, Act, Typed, D.Act;
    if actions == [] {
      steps := [];
    } else {
      var front, last := actions[..|actions| - 1], actions[|actions| - 1];
      var before := DrivenIsARun(cfg, en, front);
      var s, db := Run(cfg, START, before), D.Run(en, EMPTY, front);
      RunKeepsVersions(cfg, START, before);
      assert Suits(cfg, en, s.db, last);
      var more := ActionIsRun(cfg, en, s, last);
      RunConcat(cfg, START, before, more);
      steps := before + more;
      SameWrites(en, s.db, db, last);
      SameTransitive(Run(cfg, START, steps).db, D.Act(en, s.db, last), D.Act(en, db, last));
    }
  }

  // ---- what a runner does not do ----

  /** A body's outcome waits for all its calls. */
  lemma OutcomeWaitsForCalls(cfg: Config, s: Fine, w: nat, ended: Ended)
    requires w in s.runners && s.runners[w].Executing?
    ensures var r := s.runners[w];
      Act(cfg, s, Finish(w, ended)) == if AllOver(r.calls) then Runner(s, w, Resolved(r.rec, ended)) else s
  {
  }

  /** A runner takes a record only in its turn. */
  lemma TakesInTurn(cfg: Config, s: Fine, w: nat, id: string, at: Instant)
    requires w !in s.runners
    ensures Act(cfg, s, TakeRecord(w, id, at)) ==
      if id in s.db.workflows && s.db.workflows[id].status == Pending
         && (s.db.workflows[id].retryAfter == "" || LexAtMost(s.db.workflows[id].retryAfter, FormatTime(at)))
      then Runner(s, w, Holding(s.db.workflows[id])) else s
  {
    hide FormatTime;
  }

  /** It drops out where the type is unknown, or the workflow is held in a shared lease store;
      runners without one are not kept apart. */
  lemma LeasedOrDropped(cfg: Config, s: Fine, w: nat, rec: Record)
    requires w !in s.runners
    ensures var t := Act(cfg, Runner(s, w, Holding(rec)), Acquire(w));
      && (rec.wtype !in cfg.policies ==> t == s)
      && (rec.wtype in cfg.policies && rec.id in s.leases && cfg.leased ==> t == s)
      && (rec.wtype in cfg.policies && (rec.id !in s.leases || !cfg.leased) ==>
            t == Runner(Held(s, rec.id), w, FineMachine.Leased(rec)))
  {
    assert s.runners[w := Holding(rec)] - {w} == s.runners;
    if rec.id in s.leases {
      assert s.leases + {rec.id} == s.leases;
    }
    Overwritten(s.runners, w, Holding(rec), FineMachine.Leased(rec));
  }

  /** Until its outcome is committed it may give up, outside its body, and writes nothing. */
  lemma GivesUp(cfg: Config, s: Fine, w: nat, r: FineMachine.Runner)
    ensures var t := Act(cfg, Runner(s, w, r), GiveUp(w));
      t == if r.Leased? || r.Prefetched? || r.Resolved? then Runner(s, w, Closing(r.rec)) else Runner(s, w, r)
  {
    Overwritten(s.runners, w, r, Closing(r.rec));
  }
}
