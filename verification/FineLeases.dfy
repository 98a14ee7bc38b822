/** What one lease store adds on the fine machine: one execution per workflow, plain step rows
    written once, an invisible prefetch, and safe cancellation. */
module FineLeases {
  import opened Prelude
  import opened Timestamps
  import opened Database
  import opened StoreOps
  import opened Outcomes
  import opened FineMachine
  import opened FineSafety

  // ---- the lease set ----

  predicate Holds(s: Fine, w: nat) {
    w in s.runners && HoldsLease(s.runners[w])
  }

  /** The ids of the runners between Acquire and Release. */
  function HeldIds(s: Fine): set<string> {
    set w | w in s.runners && HoldsLease(s.runners[w]) :: s.runners[w].rec.id
  }

  /** The lease set is exactly the ids being executed, each by one runner. */
  ghost predicate Exclusive(s: Fine) {
    && s.leases == HeldIds(s)
    && forall v, w | Holds(s, v) && Holds(s, w) && s.runners[v].rec.id == s.runners[w].rec.id :: v == w
  }

  lemma SameHolders(s: Fine, t: Fine)
    requires t.leases == s.leases
    requires forall w :: Holds(s, w) == Holds(t, w)
    requires forall w | Holds(s, w) && Holds(t, w) :: s.runners[w].rec == t.runners[w].rec
    ensures HeldIds(s) == HeldIds(t)
    ensures Exclusive(s) ==> Exclusive(t)
  {
    forall id | id in HeldIds(s)
      ensures id in HeldIds(t)
    {
      var w :| Holds(s, w) && s.runners[w].rec.id == id;
      assert Holds(t, w);
    }
    forall id | id in HeldIds(t)
      ensures id in HeldIds(s)
    {
      var w :| Holds(t, w) && t.runners[w].rec.id == id;
      assert Holds(s, w);
    }
  }

  lemma AcquireKeepsExclusive(s: Fine, t: Fine, w: nat)
    requires Exclusive(s) && w in s.runners && s.runners[w].Holding? && s.runners[w].rec.id !in s.leases
    requires t.leases == s.leases + {s.runners[w].rec.id} && t.runners == s.runners[w := Leased(s.runners[w].rec)]
    ensures Exclusive(t)
  {
    var id := s.runners[w].rec.id;
    forall v | Holds(s, v)
      ensures s.runners[v].rec.id in s.leases
    {
    }
    forall v: nat | Holds(t, v) && v != w
      ensures Holds(s, v) && s.runners[v].rec.id in s.leases
    {
    }
    forall x | x in t.leases
      ensures x in HeldIds(t)
    {
      if x == id {
        assert Holds(t, w);
      } else {
        var v :| Holds(s, v) && s.runners[v].rec.id == x;
        assert Holds(t, v);
      }
    }
  }

  lemma ReleaseKeepsExclusive(s: Fine, t: Fine, w: nat)
    requires Exclusive(s) && Holds(s, w)
    requires t.leases == s.leases - {s.runners[w].rec.id} && t.runners == s.runners - {w}
    ensures Exclusive(t)
  {
    forall v: nat | Holds(t, v)
      ensures Holds(s, v) && v != w && s.runners[v].rec.id in t.leases
    {
    }
    forall x | x in t.leases
      ensures x in HeldIds(t)
    {
      var v :| Holds(s, v) && s.runners[v].rec.id == x;
      assert Holds(t, v);
    }
  }

  predicate Acquires(cfg: Config, s: Fine, a: Action) {
    && a.Acquire? && a.w in s.runners && s.runners[a.w].Holding?
    && s.runners[a.w].rec.wtype in cfg.policies && s.runners[a.w].rec.id !in s.leases
  }

  predicate Releases(s: Fine, a: Action) {
    a.Release? && a.w in s.runners && s.runners[a.w].Closing?
  }

  lemma HoldersKept(cfg: Config, s: Fine, a: Action)
    requires cfg.leased && !Acquires(cfg, s, a) && !Releases(s, a)
    ensures var t := Act(cfg, s, a);
      && (forall w :: Holds(s, w) == Holds(t, w))
      && (forall w | Holds(s, w) && Holds(t, w) :: s.runners[w].rec == t.runners[w].rec)
  {
  }

  lemma NextKeepsExclusive(cfg: Config, s: Fine, a: Action)
    requires cfg.leased && Exclusive(s)
    ensures Exclusive(Act(cfg, s, a))
  {
    var t := Act(cfg, s, a);
    if Acquires(cfg, s, a) {
      AcquireKeepsExclusive(s, t, a.w);
    } else if Releases(s, a) {
      ReleaseKeepsExclusive(s, t, a.w);
    } else {
      HoldersKept(cfg, s, a);
      assert t.leases == s.leases;
      SameHolders(s, t);
    }
  }

  // ---- plain rows are written once ----

  predicate Plain(cfg: Config, who: Who, step: string) {
    !cfg.isWait(who, step)
  }

  /** The call found no row and has not written one. */
  predicate Missing(c: CallState) {
    c.NotFound? || c.Computed?
  }

  predicate MissingIn(s: Fine, w: nat, step: string) {
    InCall(s, w, step) && Missing(CallOf(s, w, step))
  }

  function WhoRuns(s: Fine, w: nat): Who
    requires w in s.runners
  {
    WhoOf(s.runners[w].rec)
  }

  /** Subscriptions are for waits; only plain calls compute. */
  ghost predicate Apart(cfg: Config, s: Fine) {
    && (forall key | key in s.db.subs :: !Plain(cfg, s.db.subs[key].who, s.db.subs[key].step))
    && (forall w, step | InCall(s, w, step) && CallOf(s, w, step).Computed? :: Plain(cfg, WhoRuns(s, w), step))
  }

  /** And a plain call that found no row still has none in the store. */
  ghost predicate Guarded(cfg: Config, s: Fine) {
    && Apart(cfg, s)
    && (forall w, step | MissingIn(s, w, step) && Plain(cfg, WhoRuns(s, w), step) ::
          step !in RowsOf(s.db, WhoRuns(s, w)))
  }

  /** No plain row of t is gone or different in u. */
  ghost predicate PlainKept(cfg: Config, t: Tables, u: Tables) {
    forall who, step | step in RowsOf(t, who) && Plain(cfg, who, step) ::
      step in RowsOf(u, who) && RowsOf(u, who)[step] == RowsOf(t, who)[step]
  }

  /** No plain row is new. */
  ghost predicate NonePlainNew(cfg: Config, t: Tables, u: Tables) {
    forall who, step | step in RowsOf(u, who) && Plain(cfg, who, step) :: step in RowsOf(t, who)
  }

  lemma SettledRows(cfg: Config, t: Tables, keys: set<string>, who: Who, step: string)
    requires keys <= t.subs.Keys && Plain(cfg, who, step)
    requires forall key | key in t.subs :: !Plain(cfg, t.subs[key].who, t.subs[key].step)
    ensures step in RowsOf(TimeOutSet(t, keys), who) <==> step in RowsOf(t, who)
    ensures step in RowsOf(t, who) ==> RowsOf(TimeOutSet(t, keys), who)[step] == RowsOf(t, who)[step]
  {
    RowsOfMarked(t, keys, who);
    assert forall key | key in keys && t.subs[key].who == who :: t.subs[key].step != step;
  }

  /** Everything but a runner's SaveStepResult leaves plain rows alone. */
  lemma OtherWritesKeepPlain(cfg: Config, t: Tables, op: Op)
    requires !op.SaveStepOp?
    requires forall key | key in t.subs :: !Plain(cfg, t.subs[key].who, t.subs[key].step)
    ensures PlainKept(cfg, t, Apply(t, op)) && NonePlainNew(cfg, t, Apply(t, op))
  {
    if op.TimeOutOp? {
      forall who, step | Plain(cfg, who, step)
        ensures var u := TimeOutSubscriptions(t, op.now);
          && (step in RowsOf(u, who) <==> step in RowsOf(t, who))
          && (step in RowsOf(t, who) ==> RowsOf(u, who)[step] == RowsOf(t, who)[step])
      {
        SettledRows(cfg, t, ExpiredKeys(t, op.now), who, step);
      }
    }
  }

  lemma NextKeepsPlain(cfg: Config, s: Fine, a: Action)
    requires Guarded(cfg, s)
    ensures PlainKept(cfg, s.db, Act(cfg, s, a).db)
    ensures !a.SaveRow? ==> NonePlainNew(cfg, s.db, Act(cfg, s, a).db)
  {
    if Write(cfg, s, a).Some? && !a.SaveRow? {
      OtherWritesKeepPlain(cfg, s.db, Write(cfg, s, a).value);
    }
    if a.SaveRow? && Write(cfg, s, a).Some? {
      assert MissingIn(s, a.w, a.step);
    }
  }

  /** Subscriptions come from SaveSubscription alone. */
  lemma NewSubscription(t: Tables, op: Op, key: string)
    requires key in Apply(t, op).subs
    ensures || (key in t.subs && Apply(t, op).subs[key] == t.subs[key])
            || op == SaveSubscriptionOp(key, Apply(t, op).subs[key])
  {
  }

  lemma SubscriptionsStayForWaits(cfg: Config, s: Fine, a: Action)
    requires Apart(cfg, s)
    ensures var t := Act(cfg, s, a).db;
      forall key | key in t.subs :: !Plain(cfg, t.subs[key].who, t.subs[key].step)
  {
    var op := Write(cfg, s, a);
    if op.Some? {
      forall key | key in Apply(s.db, op.value).subs
        ensures var sub := Apply(s.db, op.value).subs[key]; !Plain(cfg, sub.who, sub.step)
      {
        NewSubscription(s.db, op.value, key);
      }
    }
  }

  /** A call that is missing after a step was missing before, or its row was just looked up. */
  lemma MissingSince(cfg: Config, s: Fine, a: Action, w: nat, step: string)
    requires MissingIn(Act(cfg, s, a), w, step)
    ensures var t := Act(cfg, s, a);
      && InCall(s, w, step) && WhoRuns(t, w) == WhoRuns(s, w)
      && !(a.SaveRow? && a.w == w && a.step == step && Write(cfg, s, a).Some?)
      && (MissingIn(s, w, step)
          || (a.ReadRow? && ReadThrough(s.runners[w].cache, s.db, WhoRuns(s, w), step) == None && t.db == s.db))
      && (CallOf(t, w, step).Computed? ==>
            (CallOf(s, w, step).Computed? || Plain(cfg, WhoRuns(s, w), step)))
  {
    hide FormatTime;
  }

  lemma NextKeepsApart(cfg: Config, s: Fine, a: Action)
    requires Apart(cfg, s)
    ensures Apart(cfg, Act(cfg, s, a))
  {
    var t := Act(cfg, s, a);
    SubscriptionsStayForWaits(cfg, s, a);
    forall w, step | InCall(t, w, step) && CallOf(t, w, step).Computed?
      ensures Plain(cfg, WhoRuns(t, w), step)
    {
      assert MissingIn(t, w, step);
      MissingSince(cfg, s, a, w, step);
    }
  }

  /** Two runners in calls of one workflow are one runner. */
  lemma OneCaller(s: Fine, v: nat, w: nat)
    requires Exclusive(s) && v in s.runners && w in s.runners && s.runners[v].Executing? && s.runners[w].Executing?
    requires WhoRuns(s, v) == WhoRuns(s, w)
    ensures v == w
  {
    assert Holds(s, v) && Holds(s, w);
  }

  lemma NextKeepsGuarded(cfg: Config, s: Fine, a: Action)
    requires cfg.leased && Exclusive(s) && Guarded(cfg, s)
    ensures Guarded(cfg, Act(cfg, s, a))
  {
    var t := Act(cfg, s, a);
    NextKeepsApart(cfg, s, a);
    NextKeepsPlain(cfg, s, a);
    forall w, step | MissingIn(t, w, step) && Plain(cfg, WhoRuns(t, w), step)
      ensures step !in RowsOf(t.db, WhoRuns(t, w))
    {
      MissingSince(cfg, s, a, w, step);
      if a.SaveRow? {
        SavedElsewhere(cfg, s, a.w, a.step, w, step);
      }
    }
  }

  lemma SavedElsewhere(cfg: Config, s: Fine, v: nat, saved: string, w: nat, step: string)
    requires Exclusive(s) && MissingIn(s, w, step) && step !in RowsOf(s.db, WhoRuns(s, w))
    requires !(v == w && saved == step && Write(cfg, s, SaveRow(v, saved)).Some?)
    ensures step !in RowsOf(Act(cfg, s, SaveRow(v, saved)).db, WhoRuns(s, w))
  {
    if Write(cfg, s, SaveRow(v, saved)).Some? && WhoRuns(s, v) == WhoRuns(s, w) {
      OneCaller(s, v, w);
    }
  }

  lemma {:induction false} RunKeepsLeases(cfg: Config, s: Fine, actions: seq<Action>)
    requires cfg.leased && Exclusive(s) && Guarded(cfg, s)
    ensures Exclusive(Run(cfg, s, actions)) && Guarded(cfg, Run(cfg, s, actions))
    ensures PlainKept(cfg, s.db, Run(cfg, s, actions).db)
  {
    if actions != [] {
      var front, last := actions[..|actions| - 1], actions[|actions| - 1];
      RunKeepsLeases(cfg, s, front);
      NextKeepsExclusive(cfg, Run(cfg, s, front), last);
      NextKeepsGuarded(cfg, Run(cfg, s, front), last);
      NextKeepsPlain(cfg, Run(cfg, s, front), last);
    }
  }

  /** The lease set is the ids being executed, one execution each, in every reachable state. */
  lemma SingleExecutor(cfg: Config, actions: seq<Action>)
    requires cfg.leased
    ensures Exclusive(Run(cfg, START, actions))
  {
    RunKeepsLeases(cfg, START, actions);
  }

  /** The runner is about to run the step's function. */
  predicate CallsFunction(cfg: Config, s: Fine, w: nat, step: string) {
    InCall(s, w, step) && CallOf(s, w, step).NotFound? && Plain(cfg, WhoRuns(s, w), step)
  }

  /** A plain step's row, once written, never changes, and its function is not called again. */
  lemma WrittenOnce(cfg: Config, first: seq<Action>, more: seq<Action>, who: Who, step: string)
    requires cfg.leased && Plain(cfg, who, step) && step in RowsOf(Run(cfg, START, first).db, who)
    ensures var s, t := Run(cfg, START, first), Run(cfg, START, first + more);
      && step in RowsOf(t.db, who) && RowsOf(t.db, who)[step] == RowsOf(s.db, who)[step]
      && forall w :: CallsFunction(cfg, t, w, step) ==> WhoRuns(t, w) != who
  {
    RunKeepsLeases(cfg, START, first);
    RunKeepsLeases(cfg, Run(cfg, START, first), more);
    RunConcat(cfg, START, first, more);
    var t := Run(cfg, START, first + more);
    forall w | CallsFunction(cfg, t, w, step)
      ensures WhoRuns(t, w) != who
    {
      assert MissingIn(t, w, step);
    }
  }

  // ---- the prefetch ----

  function StoreRead(db: Tables, who: Who, step: string): Option<Row> {
    if step in RowsOf(db, who) then Some(RowsOf(db, who)[step]) else None
  }

  /** Every prefetched row is still the stored one. */
  predicate Fresh(cache: map<string, Row>, db: Tables, who: Who) {
    forall step | step in cache :: step in RowsOf(db, who) && RowsOf(db, who)[step] == cache[step]
  }

  /** Reading through the prefetched rows is reading the store, for every name, exactly when
      the prefetched rows still stand; rows written since are then seen as well. */
  lemma PrefetchInvisible(cache: map<string, Row>, db: Tables, who: Who)
    ensures Fresh(cache, db, who) <==> forall step :: ReadThrough(cache, db, who, step) == StoreRead(db, who, step)
  {
    if forall step :: ReadThrough(cache, db, who, step) == StoreRead(db, who, step) {
      forall step | step in cache
        ensures step in RowsOf(db, who) && RowsOf(db, who)[step] == cache[step]
      {
        assert ReadThrough(cache, db, who, step) == StoreRead(db, who, step);
      }
    }
  }

  predicate HasCache(r: Runner) {
    r.Prefetched? || r.Executing?
  }

  /** Each plain prefetched row is the stored one. */
  ghost predicate PlainFresh(cfg: Config, s: Fine) {
    forall w, step |
      w in s.runners && HasCache(s.runners[w]) && step in s.runners[w].cache && Plain(cfg, WhoRuns(s, w), step) ::
      StoreRead(s.db, WhoRuns(s, w), step) == Some(s.runners[w].cache[step])
  }

  lemma NextKeepsFresh(cfg: Config, s: Fine, a: Action)
    requires Guarded(cfg, s) && PlainFresh(cfg, s)
    ensures PlainFresh(cfg, Act(cfg, s, a))
  {
    var t := Act(cfg, s, a);
    NextKeepsPlain(cfg, s, a);
    forall w, step |
      w in t.runners && HasCache(t.runners[w]) && step in t.runners[w].cache && Plain(cfg, WhoRuns(t, w), step)
      ensures StoreRead(t.db, WhoRuns(t, w), step) == Some(t.runners[w].cache[step])
    {
      CacheSince(cfg, s, a, w);
    }
  }

  lemma CacheSince(cfg: Config, s: Fine, a: Action, w: nat)
    requires var t := Act(cfg, s, a); w in t.runners && HasCache(t.runners[w])
    ensures var t := Act(cfg, s, a);
      && w in s.runners && WhoRuns(t, w) == WhoRuns(s, w)
      && ((HasCache(s.runners[w]) && s.runners[w].cache == t.runners[w].cache)
          || (t.runners[w].cache == RowsOf(s.db, WhoRuns(s, w)) && t.db == s.db))
  {
    hide FormatTime;
  }

  lemma {:induction false} RunKeepsFresh(cfg: Config, actions: seq<Action>)
    requires cfg.leased
    ensures PlainFresh(cfg, Run(cfg, START, actions))
  {
    if actions != [] {
      var front, last := actions[..|actions| - 1], actions[|actions| - 1];
      RunKeepsFresh(cfg, front);
      RunKeepsLeases(cfg, START, front);
      NextKeepsFresh(cfg, Run(cfg, START, front), last);
    }
  }

  /** At any moment of any run an executing workflow's plain steps read the store's rows,
      however long ago they were prefetched. */
  lemma PlainReadsAreStoreReads(cfg: Config, actions: seq<Action>, w: nat, step: string)
    requires cfg.leased
    ensures var s := Run(cfg, START, actions);
      w in s.runners && s.runners[w].Executing? && Plain(cfg, WhoRuns(s, w), step) ==>
      ReadThrough(s.runners[w].cache, s.db, WhoRuns(s, w), step) == StoreRead(s.db, WhoRuns(s, w), step)
  {
    RunKeepsFresh(cfg, actions);
  }
}
