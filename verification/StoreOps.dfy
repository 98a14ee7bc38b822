/** The store's writers as one alphabet, and what every write keeps. */
module StoreOps {
  import opened Prelude
  import opened Database

  datatype Op =
    | CreateOp(r: Record, now: string)
    | UpdateStatusOp(id: string, status: Status, result: Option<Json>, occ: int)
    | SetErrorOp(id: string, status: Status, msg: string, occ: int)
    | SetRetryOp(id: string, retryAfter: string, occ: int)
    | SuspendOp(id: string, resumeAt: string, occ: int)
    | PromoteOp(now: string)
    | SaveStepOp(who: Who, step: string, row: Row)
    | SetSignalOp(id: string, signal: Signal)
    | SaveSubscriptionOp(key: string, sub: Subscription)
    | ResumeOp(key: string, payload: Json)
    | TimeOutOp(now: string)

  function Attempt(t: Tables, op: Op): Option<Tables> {
    match op
    case CreateOp(r, now) => Create(t, r, now)
    case UpdateStatusOp(id, status, result, occ) => UpdateStatus(t, id, status, result, occ)
    case SetErrorOp(id, status, msg, occ) => SetError(t, id, status, msg, occ)
    case SetRetryOp(id, retryAfter, occ) => SetRetry(t, id, retryAfter, occ)
    case SuspendOp(id, resumeAt, occ) => Suspend(t, id, resumeAt, occ)
    case PromoteOp(now) => Some(PromoteSuspended(t, now))
    case SaveStepOp(who, step, row) => Some(SaveStep(t, who, step, row))
    case SetSignalOp(id, signal) => SetSignal(t, id, signal)
    case SaveSubscriptionOp(key, sub) => SaveSubscription(t, key, sub)
    case ResumeOp(key, payload) => ResumeSubscription(t, key, payload)
    case TimeOutOp(now) => Some(TimeOutSubscriptions(t, now))
  }

  /** A writer that fails changes nothing. */
  function Apply(t: Tables, op: Op): Tables {
    if Attempt(t, op).Some? then Attempt(t, op).value else t
  }

  function ApplyAll(t: Tables, ops: seq<Op>): Tables {
    if ops == [] then t else Apply(ApplyAll(t, ops[..|ops| - 1]), ops[|ops| - 1])
  }

  // ---- a record's version ----

  /** b is a later state of a: the same workflow, and the same status, attempts and
      retry_after unless the version has grown. */
  predicate Succeeds(a: Record, b: Record) {
    && b.id == a.id && b.wtype == a.wtype && b.version == a.version && a.occ <= b.occ
    && (a.occ == b.occ ==> b.status == a.status && b.attempts == a.attempts && b.retryAfter == a.retryAfter)
  }

  ghost predicate Advances(t: Tables, u: Tables) {
    forall id | id in t.workflows :: id in u.workflows && Succeeds(t.workflows[id], u.workflows[id])
  }

  /** Whoever writes, and in whatever order: a record's version determines its status,
      attempts and retry_after. */
  lemma ApplyAdvances(t: Tables, op: Op)
    ensures Advances(t, Apply(t, op))
  {
  }

  lemma {:induction false} VersionDetermines(t: Tables, ops: seq<Op>)
    ensures Advances(t, ApplyAll(t, ops))
  {
    if ops != [] {
      VersionDetermines(t, ops[..|ops| - 1]);
      ApplyAdvances(ApplyAll(t, ops[..|ops| - 1]), ops[|ops| - 1]);
    }
  }

  // ---- waits ----

  predicate HasRow(db: Tables, who: Who, step: string) {
    step in RowsOf(db, who)
  }

  predicate IsFor(sub: Subscription, who: Who, step: string) {
    sub.who == who && sub.step == step
  }

  predicate Live(db: Tables, who: Who, step: string) {
    exists key | key in db.subs :: IsFor(db.subs[key], who, step)
  }

  /** The workflow's live subscriptions are for steps without a row, one for a step. */
  ghost predicate AtMostOne(db: Tables, who: Who) {
    && (forall key | key in db.subs && db.subs[key].who == who :: !HasRow(db, who, db.subs[key].step))
    && forall k, l |
         k in db.subs && l in db.subs && db.subs[k].who == who && IsFor(db.subs[l], who, db.subs[k].step) :: k == l
  }

  // ---- tables that are the same row by row ----

  /** Writers cannot tell them apart. */
  lemma SameApplies(t: Tables, u: Tables, op: Op)
    requires Same(t, u)
    ensures Same(Apply(t, op), Apply(u, op))
  {
    var t1, u1 := Apply(t, op), Apply(u, op);
    forall who
      ensures RowsOf(t1, who) == RowsOf(u1, who)
    {
      assert RowsOf(t, who) == RowsOf(u, who);
      SameRowsApplied(t, u, op, who);
    }
  }

  lemma SameRowsApplied(t: Tables, u: Tables, op: Op, who: Who)
    requires Same(t, u)
    ensures RowsOf(Apply(t, op), who) == RowsOf(Apply(u, op), who)
  {
    assert RowsOf(t, who) == RowsOf(u, who);
    if op.TimeOutOp? {
      RowsOfMarked(t, ExpiredKeys(t, op.now), who);
      RowsOfMarked(u, ExpiredKeys(u, op.now), who);
    } else if op.ResumeOp? && op.key in t.subs {
      assert RowsOf(t, t.subs[op.key].who) == RowsOf(u, t.subs[op.key].who);
    }
  }

  // ---- a new record, and a signal ----

  /** A record is stored as given, with version 1 and its creation time, under a free id only. */
  lemma CreatedRecord(t: Tables, r: Record, now: string)
    ensures var u := Apply(t, CreateOp(r, now));
      && u.steps == t.steps && u.subs == t.subs
      && (r.id in t.workflows ==> u == t)
      && (r.id !in t.workflows ==>
            && u.workflows.Keys == t.workflows.Keys + {r.id}
            && u.workflows[r.id] == Record(r.id, r.wtype, r.version, r.status, r.signal, r.payload, r.result, r.error,
                                           r.retryAfter, r.attempts, 1, now)
            && forall id | id in t.workflows :: u.workflows[id] == t.workflows[id])
  {
  }

  /** A signal is all that changes, of one record; its version stays. */
  lemma SignalledRecord(t: Tables, id: string, signal: Signal)
    ensures var u := Apply(t, SetSignalOp(id, signal));
      && u.steps == t.steps && u.subs == t.subs && u.workflows.Keys == t.workflows.Keys
      && forall x | x in t.workflows ::
           var r := t.workflows[x];
           u.workflows[x] == if x != id then r
                             else Record(r.id, r.wtype, r.version, r.status, signal, r.payload, r.result, r.error,
                                         r.retryAfter, r.attempts, r.occ, r.createdAt)
  {
  }

  // ---- conservation of subscriptions ----

  datatype Tally = Tally(saved: nat, delivered: nat, timedOut: nat)

  function Count(t: Tables, op: Op): Tally {
    match op
    case SaveSubscriptionOp(key, _) => Tally(if key !in t.subs then 1 else 0, 0, 0)
    case ResumeOp(key, _) => Tally(0, if key in t.subs then 1 else 0, 0)
    case TimeOutOp(now) => Tally(0, 0, |ExpiredKeys(t, now)|)
    case _ => Tally(0, 0, 0)
  }

  function Tallied(t: Tables, ops: seq<Op>): Tally {
    if ops == [] then Tally(0, 0, 0)
    else
      var front := ops[..|ops| - 1];
      var before, last := Tallied(t, front), Count(ApplyAll(t, front), ops[|ops| - 1]);
      Tally(before.saved + last.saved, before.delivered + last.delivered, before.timedOut + last.timedOut)
  }

  lemma SizeWithout<K, V>(m: map<K, V>, keys: set<K>)
    requires keys <= m.Keys
    ensures |m - keys| == |m| - |keys|
  {
    assert (m - keys).Keys == m.Keys - keys;
    assert m.Keys == (m.Keys - keys) + keys;
    assert |m - keys| == |(m - keys).Keys| && |m| == |m.Keys|;
  }

  lemma SizeWith<K, V>(m: map<K, V>, k: K, v: V)
    requires k !in m
    ensures |m[k := v]| == |m| + 1
  {
    assert m[k := v].Keys == m.Keys + {k};
    assert |m[k := v]| == |m[k := v].Keys|;
  }

  lemma DeliveryConserves(t: Tables, key: string, payload: Json)
    ensures |Apply(t, ResumeOp(key, payload)).subs| + (if key in t.subs then 1 else 0) == |t.subs|
  {
    if key in t.subs {
      SizeWithout(t.subs, {key});
    }
  }

  lemma TimeOutConserves(t: Tables, now: string)
    ensures |Apply(t, TimeOutOp(now)).subs| + |ExpiredKeys(t, now)| == |t.subs|
  {
    SizeWithout(t.subs, ExpiredKeys(t, now));
  }

  lemma SavingConserves(t: Tables, key: string, sub: Subscription)
    ensures |Apply(t, SaveSubscriptionOp(key, sub)).subs| == |t.subs| + if key !in t.subs then 1 else 0
  {
    if key !in t.subs {
      SizeWith(t.subs, key, sub);
    }
  }

  lemma OthersLeaveSubscriptions(t: Tables, op: Op)
    requires !op.ResumeOp? && !op.TimeOutOp? && !op.SaveSubscriptionOp?
    ensures Apply(t, op).subs == t.subs && Count(t, op) == Tally(0, 0, 0)
  {
  }

  lemma OneOpConserves(t: Tables, op: Op)
    ensures var c := Count(t, op);
      |Apply(t, op).subs| + c.delivered + c.timedOut == |t.subs| + c.saved
  {
    if op.ResumeOp? {
      DeliveryConserves(t, op.key, op.payload);
    } else if op.TimeOutOp? {
      TimeOutConserves(t, op.now);
    } else if op.SaveSubscriptionOp? {
      SavingConserves(t, op.key, op.sub);
    } else {
      OthersLeaveSubscriptions(t, op);
    }
  }

  /** Over any run, what was subscribed is still open, was delivered, or timed out. */
  lemma {:induction false} SubscriptionsConserved(t: Tables, ops: seq<Op>)
    ensures var c := Tallied(t, ops);
      |ApplyAll(t, ops).subs| + c.delivered + c.timedOut == |t.subs| + c.saved
  {
    if ops != [] {
      SubscriptionsConserved(t, ops[..|ops| - 1]);
      OneOpConserves(ApplyAll(t, ops[..|ops| - 1]), ops[|ops| - 1]);
    }
  }

  // ---- waking up ----

  /** Pending again, on the next version, due at any time, and otherwise as it was. */
  ghost predicate WokenFrom(a: Record, b: Record) {
    && b.occ == a.occ + 1 && (forall now :: Schedulable(b, now))
    && b.(status := a.status, retryAfter := a.retryAfter, occ := a.occ) == a
  }

  /** A delivery to a suspended workflow, before its deadline or not, makes it schedulable at
      once; one to any other record leaves it alone. */
  lemma DeliveryWakes(t: Tables, key: string, payload: Json)
    requires key in t.subs && t.subs[key].who.id in t.workflows
    ensures var id := t.subs[key].who.id;
      var a, b := t.workflows[id], Apply(t, ResumeOp(key, payload)).workflows[id];
      if a.status == Suspended then WokenFrom(a, b) else b == a
  {
  }

  /** Timing out wakes exactly the suspended workflows with an expired subscription. */
  lemma TimeoutWakes(t: Tables, now: string, id: string)
    requires id in t.workflows
    ensures var a, b := t.workflows[id], Apply(t, TimeOutOp(now)).workflows[id];
      if a.status == Suspended && exists key :: key in ExpiredKeys(t, now) && t.subs[key].who.id == id
      then WokenFrom(a, b) else b == a
  {
    assert id in IdsOf(t, ExpiredKeys(t, now)) <==>
      exists key :: key in ExpiredKeys(t, now) && t.subs[key].who.id == id;
  }
}
