/** When a wait keeps its one outcome although calls interleave, with or without leases: exactly
    as long as nobody subscribes for a step that has its row, or a subscription, already. */
module FineEvents {
  import opened Prelude
  import opened Timestamps
  import opened Database
  import opened StoreOps
  import opened Outcomes
  import opened FineMachine
  import opened FineSafety
  import opened FineLeases

  // ---- the store ----

  /** The step has its outcome, or somebody waits for it. */
  predicate Taken(t: Tables, who: Who, step: string) {
    HasRow(t, who, step) || Live(t, who, step)
  }

  ghost predicate AllAtMostOne(t: Tables) {
    forall who :: AtMostOne(t, who)
  }

  ghost predicate AllRowsKept(t: Tables, u: Tables) {
    forall who, step | HasRow(t, who, step) :: HasRow(u, who, step) && RowsOf(u, who)[step] == RowsOf(t, who)[step]
  }

  /** No row of t is missing in u or different, but for the one a step saves. */
  ghost predicate RowsKeptBut(t: Tables, u: Tables, op: Op) {
    forall who, step | HasRow(t, who, step) && !(op.SaveStepOp? && op.who == who && op.step == step) ::
      HasRow(u, who, step) && RowsOf(u, who)[step] == RowsOf(t, who)[step]
  }

  /** A write that does not break it: no row under a live wait, no wait for a taken step. */
  predicate OnTime(t: Tables, op: Op) {
    && (op.SaveStepOp? ==> !Live(t, op.who, op.step))
    && (op.SaveSubscriptionOp? && op.key !in t.subs ==> !Taken(t, op.sub.who, op.sub.step))
  }

  lemma SettleKeepsRows(t: Tables, key: string, row: Row)
    requires AllAtMostOne(t) && key in t.subs
    ensures AllAtMostOne(Settle(t, key, row)) && AllRowsKept(t, Settle(t, key, row))
  {
    var u := Settle(t, key, row);
    assert AtMostOne(t, t.subs[key].who);
    forall who
      ensures AtMostOne(u, who)
    {
      assert AtMostOne(t, who);
    }
  }

  lemma TimeOutKeepsRowsOf(t: Tables, keys: set<string>, who: Who)
    requires AtMostOne(t, who) && keys <= t.subs.Keys
    ensures var u := TimeOutSet(t, keys);
      && AtMostOne(u, who)
      && forall step | HasRow(t, who, step) :: HasRow(u, who, step) && RowsOf(u, who)[step] == RowsOf(t, who)[step]
  {
    RowsOfMarked(t, keys, who);
  }

  lemma TimeOutKeepsRows(t: Tables, keys: set<string>)
    requires AllAtMostOne(t) && keys <= t.subs.Keys
    ensures AllAtMostOne(TimeOutSet(t, keys)) && AllRowsKept(t, TimeOutSet(t, keys))
  {
    hide TimeOutSet, AtMostOne;
    var u := TimeOutSet(t, keys);
    forall who
      ensures AtMostOne(u, who)
      ensures forall step | HasRow(t, who, step) :: HasRow(u, who, step) && RowsOf(u, who)[step] == RowsOf(t, who)[step]
    {
      assert AtMostOne(t, who);
      TimeOutKeepsRowsOf(t, keys, who);
    }
  }

  lemma SaveKeepsOne(t: Tables, saved: Who, step: string, row: Row)
    requires AllAtMostOne(t) && !Live(t, saved, step)
    ensures AllAtMostOne(SaveStep(t, saved, step, row))
  {
    forall who
      ensures AtMostOne(SaveStep(t, saved, step, row), who)
    {
      assert AtMostOne(t, who);
      assert forall key | key in t.subs :: !IsFor(t.subs[key], saved, step);
    }
  }

  lemma SubscribingKeepsOne(t: Tables, key: string, sub: Subscription)
    requires AllAtMostOne(t) && key !in t.subs && !Taken(t, sub.who, sub.step)
    ensures AllAtMostOne(t.(subs := t.subs[key := sub]))
  {
    var u := t.(subs := t.subs[key := sub]);
    forall who
      ensures AtMostOne(u, who)
    {
      assert AtMostOne(t, who);
      assert forall k | k in t.subs :: !IsFor(t.subs[k], sub.who, sub.step);
    }
  }

  /** A write in time keeps it, and every row but the one it saves. */
  lemma OnTimeWrites(t: Tables, op: Op)
    requires AllAtMostOne(t) && OnTime(t, op)
    ensures AllAtMostOne(Apply(t, op)) && RowsKeptBut(t, Apply(t, op), op)
  {
    match op
    case ResumeOp(key, payload) =>
      if key in t.subs {
        SettleKeepsRows(t, key, Row(Some(payload), ""));
      }
    case TimeOutOp(now) => TimeOutKeepsRows(t, ExpiredKeys(t, now));
    case SaveStepOp(who, step, row) => SaveKeepsOne(t, who, step, row);
    case SaveSubscriptionOp(key, sub) =>
      if key !in t.subs {
        SubscribingKeepsOne(t, key, sub);
      }
    case CreateOp(_, _) => SameWaits(t, Apply(t, op));
    case UpdateStatusOp(_, _, _, _) => SameWaits(t, Apply(t, op));
    case SetErrorOp(_, _, _, _) => SameWaits(t, Apply(t, op));
    case SetRetryOp(_, _, _) => SameWaits(t, Apply(t, op));
    case SuspendOp(_, _, _) => SameWaits(t, Apply(t, op));
    case PromoteOp(_) => SameWaits(t, Apply(t, op));
    case SetSignalOp(_, _) => SameWaits(t, Apply(t, op));
  }

  lemma SameWaits(t: Tables, u: Tables)
    requires AllAtMostOne(t) && u.steps == t.steps && u.subs == t.subs
    ensures AllAtMostOne(u)
  {
    forall who
      ensures AtMostOne(u, who)
    {
      assert AtMostOne(t, who);
    }
  }

  // ---- deliveries and timeouts ----

  predicate Settles(op: Op) {
    op.ResumeOp? || op.TimeOutOp?
  }

  predicate AllSettle(ops: seq<Op>) {
    forall i :: 0 <= i < |ops| ==> Settles(ops[i])
  }

  /** Whatever deliveries and timeouts come, none replaces a row. */
  ghost predicate NothingReplaced(t: Tables) {
    forall ops, op | AllSettle(ops) && Settles(op) :: AllRowsKept(ApplyAll(t, ops), Apply(ApplyAll(t, ops), op))
  }

  lemma {:induction false} SettlingKeepsOne(t: Tables, ops: seq<Op>)
    requires AllAtMostOne(t) && AllSettle(ops)
    ensures AllAtMostOne(ApplyAll(t, ops))
  {
    if ops != [] {
      var front, op := ops[..|ops| - 1], ops[|ops| - 1];
      assert Settles(op);
      SettlingKeepsOne(t, front);
      OnTimeWrites(ApplyAll(t, front), op);
    }
  }

  /** A payload other than the row's. */
  function NewPayload(row: Row): (p: Json)
    ensures row.result != Some(p)
  {
    if row.result.Some? then
      assert |row.result.value + "x"| > |row.result.value|;
      row.result.value + "x"
    else ""
  }

  lemma LiveRowIsReplaced(t: Tables, ops: seq<Op>, key: string)
    requires AllSettle(ops)
    requires var u := ApplyAll(t, ops); key in u.subs && HasRow(u, u.subs[key].who, u.subs[key].step)
    ensures !NothingReplaced(t)
  {
    var u := ApplyAll(t, ops);
    var who, step := u.subs[key].who, u.subs[key].step;
    var row := Row(Some(NewPayload(RowsOf(u, who)[step])), "");
    var op := ResumeOp(key, row.result.value);
    assert Settles(op) && Apply(u, op) == Settle(u, key, row);
    assert RowsOf(Settle(u, key, row), who)[step] == row;
  }

  lemma TwoLiveAreReplaced(t: Tables, k: string, l: string)
    requires k in t.subs && l in t.subs && k != l && IsFor(t.subs[l], t.subs[k].who, t.subs[k].step)
    ensures !NothingReplaced(t)
  {
    var op := ResumeOp(k, "");
    assert ApplyAll(t, []) == t && [op][..0] == [];
    assert ApplyAll(t, [op]) == Apply(t, op);
    LiveRowIsReplaced(t, [op], l);
  }

  /** No delivery or timeout replaces a row, now or later, exactly when each wait has at most
      one live subscription, and none once it has its row. */
  lemma AtMostOneExactly(t: Tables)
    ensures AllAtMostOne(t) <==> NothingReplaced(t)
  {
    if AllAtMostOne(t) {
      forall ops, op | AllSettle(ops) && Settles(op)
        ensures AllRowsKept(ApplyAll(t, ops), Apply(ApplyAll(t, ops), op))
      {
        SettlingKeepsOne(t, ops);
        OnTimeWrites(ApplyAll(t, ops), op);
      }
    } else {
      var who :| !AtMostOne(t, who);
      if key :| key in t.subs && t.subs[key].who == who && HasRow(t, who, t.subs[key].step) {
        assert ApplyAll(t, []) == t;
        LiveRowIsReplaced(t, [], key);
      } else {
        var k, l :|
          k in t.subs && l in t.subs && t.subs[k].who == who && IsFor(t.subs[l], who, t.subs[k].step) && k != l;
        TwoLiveAreReplaced(t, k, l);
      }
    }
  }

  // ---- late subscriptions ----

  /** The action inserts a subscription for a step that is taken. */
  predicate Late(cfg: Config, s: Fine, a: Action) {
    && a.SubscribeTo? && InCall(s, a.w, a.step) && CallOf(s, a.w, a.step).NotFound?
    && cfg.isWait(WhoRuns(s, a.w), a.step) && a.key !in s.db.subs
    && Taken(s.db, WhoRuns(s, a.w), a.step)
  }

  lemma OthersAreOnTime(cfg: Config, s: Fine, a: Action)
    requires Apart(cfg, s) && !Late(cfg, s, a) && Write(cfg, s, a).Some?
    ensures OnTime(s.db, Write(cfg, s, a).value)
    ensures var op := Write(cfg, s, a).value; op.SaveStepOp? ==> !cfg.isWait(op.who, op.step)
  {
    hide FormatTime;
  }

  lemma LateBreaks(cfg: Config, s: Fine, a: Action)
    requires Late(cfg, s, a)
    ensures !AtMostOne(Act(cfg, s, a).db, WhoRuns(s, a.w))
  {
    hide FormatTime;
    var t, who := Act(cfg, s, a).db, WhoRuns(s, a.w);
    assert a.key in t.subs && IsFor(t.subs[a.key], who, a.step);
    if !HasRow(s.db, who, a.step) {
      var k :| k in s.db.subs && IsFor(s.db.subs[k], who, a.step);
      assert k in t.subs && IsFor(t.subs[k], who, a.step) && k != a.key;
    }
  }

  /** Rows stay as they are: every wait's, and with one lease store every row. */
  ghost predicate OutcomesKept(cfg: Config, t: Tables, u: Tables) {
    forall who, step | HasRow(t, who, step) && (cfg.leased || cfg.isWait(who, step)) ::
      HasRow(u, who, step) && RowsOf(u, who)[step] == RowsOf(t, who)[step]
  }

  lemma StepKeepsOne(cfg: Config, s: Fine, a: Action)
    requires Apart(cfg, s) && AllAtMostOne(s.db) && !Late(cfg, s, a) && (cfg.leased ==> Guarded(cfg, s))
    ensures AllAtMostOne(Act(cfg, s, a).db) && OutcomesKept(cfg, s.db, Act(cfg, s, a).db)
  {
    hide FormatTime;
    if cfg.leased {
      NextKeepsPlain(cfg, s, a);
    }
    if Write(cfg, s, a).Some? {
      var op := Write(cfg, s, a).value;
      OthersAreOnTime(cfg, s, a);
      OnTimeWrites(s.db, op);
    }
  }

  // ---- runs ----

  /** Every wait has at most one outcome to come, and none if it has one, in every state so far. */
  ghost predicate OneOutcomeSoFar(cfg: Config, s: Fine, actions: seq<Action>) {
    && AllAtMostOne(Run(cfg, s, actions).db)
    && (actions != [] ==> OneOutcomeSoFar(cfg, s, actions[..|actions| - 1]))
  }

  /** No subscription of the run is late. */
  predicate NoneLate(cfg: Config, s: Fine, actions: seq<Action>) {
    actions != [] ==>
      var front := actions[..|actions| - 1];
      NoneLate(cfg, s, front) && !Late(cfg, Run(cfg, s, front), actions[|actions| - 1])
  }

  ghost predicate Orderly(cfg: Config, s: Fine) {
    Apart(cfg, s) && (cfg.leased ==> Exclusive(s) && Guarded(cfg, s))
  }

  lemma {:induction false} RunKeepsOrderly(cfg: Config, s: Fine, actions: seq<Action>)
    requires Orderly(cfg, s)
    ensures Orderly(cfg, Run(cfg, s, actions))
  {
    if actions != [] {
      var front, last := actions[..|actions| - 1], actions[|actions| - 1];
      RunKeepsOrderly(cfg, s, front);
      NextKeepsApart(cfg, Run(cfg, s, front), last);
      if cfg.leased {
        NextKeepsExclusive(cfg, Run(cfg, s, front), last);
        NextKeepsGuarded(cfg, Run(cfg, s, front), last);
      }
    }
  }

  lemma {:induction false} RunKeepsOne(cfg: Config, s: Fine, actions: seq<Action>)
    requires Orderly(cfg, s) && AllAtMostOne(s.db)
    ensures NoneLate(cfg, s, actions) <==> OneOutcomeSoFar(cfg, s, actions)
    ensures NoneLate(cfg, s, actions) ==> OutcomesKept(cfg, s.db, Run(cfg, s, actions).db)
  {
    if actions != [] {
      var front, last := actions[..|actions| - 1], actions[|actions| - 1];
      RunKeepsOne(cfg, s, front);
      RunKeepsOrderly(cfg, s, front);
      if NoneLate(cfg, s, front) {
        var u := Run(cfg, s, front);
        if Late(cfg, u, last) {
          LateBreaks(cfg, u, last);
        } else {
          StepKeepsOne(cfg, u, last);
        }
      }
    }
  }

  /** For any runners and any interleaving: in every state of the run each wait has at most one
      live subscription, and none once it has its row, exactly when no subscription is late. */
  lemma OneOutcomeExactly(cfg: Config, actions: seq<Action>)
    ensures NoneLate(cfg, START, actions) <==> OneOutcomeSoFar(cfg, START, actions)
  {
    RunKeepsOne(cfg, START, actions);
  }

  /** And then a wait's row, once written, never changes; with one lease store no row does. */
  lemma OutcomesAreFinal(cfg: Config, first: seq<Action>, more: seq<Action>)
    requires NoneLate(cfg, START, first + more)
    ensures OutcomesKept(cfg, Run(cfg, START, first).db, Run(cfg, START, first + more).db)
  {
    NoneLateConcat(cfg, START, first, more);
    RunKeepsOne(cfg, START, first);
    RunKeepsOrderly(cfg, START, first);
    assert AllAtMostOne(Run(cfg, START, first).db);
    RunKeepsOne(cfg, Run(cfg, START, first), more);
    RunConcat(cfg, START, first, more);
  }

  lemma {:induction false} NoneLateConcat(cfg: Config, s: Fine, first: seq<Action>, more: seq<Action>)
    requires NoneLate(cfg, s, first + more)
    ensures NoneLate(cfg, s, first) && NoneLate(cfg, Run(cfg, s, first), more)
  {
    if more == [] {
      assert first + more == first;
    } else {
      var front := more[..|more| - 1];
      assert (first + more)[..|first + more| - 1] == first + front;
      NoneLateConcat(cfg, s, first, front);
      RunConcat(cfg, s, first, front);
    }
  }
}
