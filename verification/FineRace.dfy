/** Why the event properties need whole executions to be atomic: on the fine machine a delivery
    that falls between a wait's lookup and its subscription is lost. */
module FineRace {
  import opened Prelude
  import opened Timestamps
  import opened Database
  import opened Workflow
  import opened StoreOps
  import opened Outcomes
  import opened Backoff
  import opened FineMachine
  import opened FineSafety

  ghost predicate Reachable(cfg: Config, s: Fine) {
    exists actions :: Run(cfg, START, actions) == s
  }

  lemma ReachStep(cfg: Config, s: Fine, a: Action)
    requires Reachable(cfg, s)
    ensures Reachable(cfg, Act(cfg, s, a))
  {
    var actions :| Run(cfg, START, actions) == s;
    assert (actions + [a])[..|actions|] == actions;
    assert Run(cfg, START, actions + [a]) == Act(cfg, s, a);
  }

  // ---- the way of one call, up to the lookup ----

  predicate Runnable(cfg: Config, s: Fine, w: nat, id: string, step: string) {
    && w !in s.runners && id in s.db.workflows && id !in s.leases
    && var rec := s.db.workflows[id];
       && rec.id == id && rec.status == Pending && rec.retryAfter == "" && rec.signal == NoSignal
       && rec.wtype in cfg.policies && step !in RowsOf(s.db, WhoOf(rec))
  }

  function With(s: Fine, w: nat, r: Runner, id: string): Fine {
    s.(runners := s.runners[w := r], leases := s.leases + {id})
  }

  lemma Takes(cfg: Config, s: Fine, w: nat, id: string, step: string, at: Instant)
    requires Runnable(cfg, s, w, id, step)
    ensures Act(cfg, s, TakeRecord(w, id, at)) == s.(runners := s.runners[w := Holding(s.db.workflows[id])])
  {
  }

  lemma Overwritten<K, V>(m: map<K, V>, k: K, u: V, v: V)
    ensures m[k := u][k := v] == m[k := v]
  {
  }

  lemma TakesLease(cfg: Config, s: Fine, w: nat, id: string, step: string)
    requires Runnable(cfg, s, w, id, step)
    ensures var s1 := s.(runners := s.runners[w := Holding(s.db.workflows[id])]);
      Act(cfg, s1, Acquire(w)) == With(s, w, Leased(s.db.workflows[id]), id)
  {
    Overwritten(s.runners, w, Holding(s.db.workflows[id]), Leased(s.db.workflows[id]));
  }

  lemma Fetches(cfg: Config, s: Fine, w: nat, id: string, step: string)
    requires Runnable(cfg, s, w, id, step)
    ensures var rec := s.db.workflows[id];
      Act(cfg, With(s, w, Leased(rec), id), Prefetch(w)) == With(s, w, Prefetched(rec, RowsOf(s.db, WhoOf(rec))), id)
  {
    var rec := s.db.workflows[id];
    Overwritten(s.runners, w, Leased(rec), Prefetched(rec, RowsOf(s.db, WhoOf(rec))));
  }

  lemma Checks(cfg: Config, s: Fine, w: nat, id: string, step: string, cache: map<string, Row>)
    requires Runnable(cfg, s, w, id, step)
    ensures var rec := s.db.workflows[id];
      Act(cfg, With(s, w, Prefetched(rec, cache), id), Check(w)) == With(s, w, Executing(rec, cache, map[]), id)
  {
    var rec := s.db.workflows[id];
    Overwritten(s.runners, w, Prefetched(rec, cache), Executing(rec, cache, map[]));
  }

  lemma Starts(cfg: Config, s: Fine, w: nat, id: string, step: string, at: Instant)
    requires Reachable(cfg, s) && Runnable(cfg, s, w, id, step)
    ensures var rec := s.db.workflows[id];
      Reachable(cfg, With(s, w, Executing(rec, RowsOf(s.db, WhoOf(rec)), map[]), id))
  {
    var rec := s.db.workflows[id];
    Takes(cfg, s, w, id, step, at);
    ReachStep(cfg, s, TakeRecord(w, id, at));
    TakesLease(cfg, s, w, id, step);
    ReachStep(cfg, s.(runners := s.runners[w := Holding(rec)]), Acquire(w));
    Fetches(cfg, s, w, id, step);
    ReachStep(cfg, With(s, w, Leased(rec), id), Prefetch(w));
    Checks(cfg, s, w, id, step, RowsOf(s.db, WhoOf(rec)));
    ReachStep(cfg, With(s, w, Prefetched(rec, RowsOf(s.db, WhoOf(rec))), id), Check(w));
  }

  function InState(rec: Record, cache: map<string, Row>, step: string, c: CallState): Runner {
    Executing(rec, cache, map[step := c])
  }

  lemma Moves(s: Fine, w: nat, id: string, rec: Record, cache: map<string, Row>, step: string, c: CallState,
          d: CallState)
    ensures WithCall(With(s, w, InState(rec, cache, step, c), id), w, step, d)
         == s.runners[w := InState(rec, cache, step, d)]
    ensures WithCall(With(s, w, Executing(rec, cache, map[]), id), w, step, d)
         == s.runners[w := InState(rec, cache, step, d)]
  {
    Overwritten(map[], step, c, d);
    Overwritten(s.runners, w, InState(rec, cache, step, c), InState(rec, cache, step, d));
    Overwritten(s.runners, w, Executing(rec, cache, map[]), InState(rec, cache, step, d));
  }

  lemma Enters(cfg: Config, s: Fine, w: nat, id: string, step: string, cache: map<string, Row>)
    requires Runnable(cfg, s, w, id, step)
    ensures var rec := s.db.workflows[id];
      Act(cfg, With(s, w, Executing(rec, cache, map[]), id), Enter(w, step))
      == With(s, w, InState(rec, cache, step, Entered), id)
  {
    Moves(s, w, id, s.db.workflows[id], cache, step, Entered, Entered);
  }

  lemma SeesNoSignal(cfg: Config, s: Fine, w: nat, id: string, step: string, cache: map<string, Row>)
    requires Runnable(cfg, s, w, id, step)
    ensures var rec := s.db.workflows[id];
      Act(cfg, With(s, w, InState(rec, cache, step, Entered), id), ReadSignal(w, step))
      == With(s, w, InState(rec, cache, step, Clear), id)
  {
    Moves(s, w, id, s.db.workflows[id], cache, step, Entered, Clear);
  }

  lemma SeesNoRow(cfg: Config, s: Fine, w: nat, id: string, step: string, cache: map<string, Row>)
    requires Runnable(cfg, s, w, id, step) && cache == RowsOf(s.db, WhoOf(s.db.workflows[id]))
    ensures var rec := s.db.workflows[id];
      Act(cfg, With(s, w, InState(rec, cache, step, Clear), id), FineMachine.ReadRow(w, step))
      == With(s, w, InState(rec, cache, step, NotFound), id)
  {
    Moves(s, w, id, s.db.workflows[id], cache, step, Clear, NotFound);
  }

  /** The call has looked for its row and found none. */
  lemma FindsNoRow(cfg: Config, s: Fine, w: nat, id: string, step: string, at: Instant)
    requires Reachable(cfg, s) && Runnable(cfg, s, w, id, step)
    ensures var rec := s.db.workflows[id];
      Reachable(cfg, With(s, w, InState(rec, RowsOf(s.db, WhoOf(rec)), step, NotFound), id))
  {
    var rec := s.db.workflows[id];
    var cache := RowsOf(s.db, WhoOf(rec));
    Starts(cfg, s, w, id, step, at);
    Enters(cfg, s, w, id, step, cache);
    ReachStep(cfg, With(s, w, Executing(rec, cache, map[]), id), Enter(w, step));
    SeesNoSignal(cfg, s, w, id, step, cache);
    ReachStep(cfg, With(s, w, InState(rec, cache, step, Entered), id), ReadSignal(w, step));
    SeesNoRow(cfg, s, w, id, step, cache);
    ReachStep(cfg, With(s, w, InState(rec, cache, step, Clear), id), FineMachine.ReadRow(w, step));
  }

  // ---- the first execution subscribes and suspends ----

  predicate SuspendedUntil(rec: Record, who: Who, deadline: Instant) {
    && rec.id == who.id && WhoOf(rec) == who && rec.status == Suspended && rec.signal == NoSignal
    && rec.retryAfter == FormatTime(deadline)
  }

  /** The workflow is suspended on its one wait, with nobody at it. */
  predicate Waiting(s: Fine, who: Who, step: string, key: string, deadline: Instant) {
    && s.runners == map[] && s.leases == {}
    && who.id in s.db.workflows && SuspendedUntil(s.db.workflows[who.id], who, deadline)
    && step !in RowsOf(s.db, who)
    && key in s.db.subs && s.db.subs[key] == Subscription(who, step, FormatTime(deadline))
  }

  function Submitted(who: Who, payload: Json, at: Instant): Fine {
    var rec := NewRecord(who.id, who.wtype, who.version, payload).(createdAt := FormatTime(at));
    START.(db := EMPTY.(workflows := map[who.id := rec]))
  }

  lemma Submits(cfg: Config, who: Who, payload: Json, at: Instant)
    ensures Reachable(cfg, Submitted(who, payload, at))
  {
    assert Run(cfg, START, []) == START;
    ReachStep(cfg, START, Submit(who.id, who.wtype, who.version, payload, at));
    assert Act(cfg, START, Submit(who.id, who.wtype, who.version, payload, at)) == Submitted(who, payload, at);
  }

  /** A state with one runner, on the one workflow. */
  predicate Alone(s: Fine, r: Runner, who: Who) {
    && s.runners == map[0 := r] && s.leases == {who.id} && WhoOf(r.rec) == who && r.rec.id == who.id
    && who.id in s.db.workflows
  }

  lemma SubscribesFirst(cfg: Config, s: Fine, who: Who, rec: Record, cache: map<string, Row>, step: string,
          key: string, deadline: Instant)
    requires Alone(s, InState(rec, cache, step, NotFound), who) && cfg.isWait(who, step) && key !in s.db.subs
    ensures Act(cfg, s, SubscribeTo(0, step, key, deadline))
         == s.(runners := map[0 := InState(rec, cache, step, Over)],
               db := s.db.(subs := s.db.subs[key := Subscription(who, step, FormatTime(deadline))]))
  {
    assert NextRunners(cfg, s, SubscribeTo(0, step, key, deadline)) == map[0 := InState(rec, cache, step, Over)] by {
      Overwritten(map[], step, NotFound, Over);
    }
    assert MissedBy(s, 0, who, step);
    SubscribesLate(cfg, s, 0, who, step, key, deadline);
  }

  lemma Finishes(cfg: Config, s: Fine, who: Who, rec: Record, cache: map<string, Row>, step: string, ended: Ended)
    requires Alone(s, InState(rec, cache, step, Over), who)
    ensures Act(cfg, s, Finish(0, ended)) == s.(runners := map[0 := Resolved(rec, ended)])
  {
  }

  lemma Commits(cfg: Config, s: Fine, who: Who, rec: Record, deadline: Instant, at: Instant)
    requires Alone(s, Resolved(rec, Broken(SuspendError(deadline))), who)
    requires s.db.workflows[who.id] == rec && rec.signal == NoSignal
    ensures var t := Act(cfg, s, CommitOutcome(0, at));
      && Alone(t, Closing(rec), who) && t.db.steps == s.db.steps && t.db.subs == s.db.subs
      && SuspendedUntil(t.db.workflows[who.id], who, deadline)
  {
    assert DecisionOf(cfg, rec, Broken(SuspendError(deadline)), at) == SuspendUntil(deadline);
  }

  lemma Releases(cfg: Config, s: Fine, who: Who, rec: Record)
    requires Alone(s, Closing(rec), who)
    ensures Act(cfg, s, Release(0)) == s.(runners := map[], leases := {})
  {
  }

  /** From the lookup on: subscribe, suspend until the deadline, release. */
  lemma SubscribesAndSuspends(cfg: Config, s: Fine, who: Who, rec: Record, cache: map<string, Row>, step: string,
          key: string, deadline: Instant, at: Instant)
    requires Reachable(cfg, s) && Alone(s, InState(rec, cache, step, NotFound), who) && key !in s.db.subs
    requires s.db.workflows[who.id] == rec && rec.signal == NoSignal
    requires cfg.isWait(who, step) && step !in RowsOf(s.db, who)
    ensures exists t :: Reachable(cfg, t) && Waiting(t, who, step, key, deadline)
  {
    var ended := Broken(SuspendError(deadline));
    SubscribesFirst(cfg, s, who, rec, cache, step, key, deadline);
    ReachStep(cfg, s, SubscribeTo(0, step, key, deadline));
    var s1 := Act(cfg, s, SubscribeTo(0, step, key, deadline));
    Finishes(cfg, s1, who, rec, cache, step, ended);
    ReachStep(cfg, s1, Finish(0, ended));
    var s2 := Act(cfg, s1, Finish(0, ended));
    Commits(cfg, s2, who, rec, deadline, at);
    ReachStep(cfg, s2, CommitOutcome(0, at));
    var s3 := Act(cfg, s2, CommitOutcome(0, at));
    Releases(cfg, s3, who, rec);
    ReachStep(cfg, s3, Release(0));
    assert Waiting(Act(cfg, s3, Release(0)), who, step, key, deadline);
  }

  lemma Waits(cfg: Config, who: Who, payload: Json, step: string, key: string, deadline: Instant, at: Instant)
    requires who.wtype in cfg.policies && cfg.isWait(who, step)
    ensures exists s :: Reachable(cfg, s) && Waiting(s, who, step, key, deadline)
  {
    var s := Submitted(who, payload, at);
    Submits(cfg, who, payload, at);
    FindsNoRow(cfg, s, 0, who.id, step, at);
    var rec := s.db.workflows[who.id];
    SubscribesAndSuspends(cfg, With(s, 0, InState(rec, RowsOf(s.db, who), step, NotFound), who.id),
                          who, rec, RowsOf(s.db, who), step, key, deadline, at);
  }

  // ---- the race ----

  lemma RunnableAgain(cfg: Config, s: Fine, who: Who, step: string, key: string, deadline: Instant)
    requires Waiting(s, who, step, key, deadline) && who.wtype in cfg.policies && FormatTime(deadline) != ""
    ensures Runnable(cfg, s.(db := PromoteSuspended(s.db, FormatTime(deadline))), 1, who.id, step)
  {
    WokenAtDeadline(s.db, who.id, FormatTime(deadline));
  }

  lemma ActPromotes(cfg: Config, s: Fine, at: Instant)
    ensures Act(cfg, s, PromoteAll(at)) == s.(db := PromoteSuspended(s.db, FormatTime(at)))
  {
    hide FormatTime;
  }

  /** Promoted at its deadline, the workflow runs again and looks for the row in vain. */
  lemma LooksAgain(cfg: Config, s: Fine, who: Who, step: string, key: string, deadline: Instant)
    requires Reachable(cfg, s) && Waiting(s, who, step, key, deadline)
    requires who.wtype in cfg.policies && FormatTime(deadline) != ""
    ensures exists t, w ::
      && Reachable(cfg, t) && MissedBy(t, w, who, step)
      && t.db.subs == s.db.subs && t.db.steps == s.db.steps
  {
    RunnableAgain(cfg, s, who, step, key, deadline);
    ActPromotes(cfg, s, deadline);
    ReachStep(cfg, s, PromoteAll(deadline));
    LooksFrom(cfg, s, s.(db := PromoteSuspended(s.db, FormatTime(deadline))), who, step, deadline);
  }

  lemma LooksFrom(cfg: Config, s: Fine, s1: Fine, who: Who, step: string, at: Instant)
    requires Reachable(cfg, s1) && Runnable(cfg, s1, 1, who.id, step) && WhoOf(s1.db.workflows[who.id]) == who
    requires s1.db.subs == s.db.subs && s1.db.steps == s.db.steps
    ensures exists t, w ::
      && Reachable(cfg, t) && MissedBy(t, w, who, step)
      && t.db.subs == s.db.subs && t.db.steps == s.db.steps
  {
    FindsNoRow(cfg, s1, 1, who.id, step, at);
    var rec := s1.db.workflows[who.id];
    assert MissedBy(With(s1, 1, InState(rec, RowsOf(s1.db, who), step, NotFound), who.id), 1, who, step);
  }

  predicate MissedBy(s: Fine, w: nat, who: Who, step: string) {
    InCall(s, w, step) && CallOf(s, w, step).NotFound? && WhoOf(s.runners[w].rec) == who
  }

  lemma WokenAtDeadline(t: Tables, id: string, stamp: string)
    requires id in t.workflows && t.workflows[id].status == Suspended
    requires t.workflows[id].retryAfter == stamp && stamp != ""
    ensures PromoteSuspended(t, stamp).workflows[id] == Wake(t.workflows[id])
  {
    LexReflexive(stamp);
  }

  /** The states after the event is delivered, subscribed to again, and timed out. */
  function Delivered(cfg: Config, s: Fine, key: string, payload: Json): Fine {
    Act(cfg, s, SendEvent(key, payload))
  }

  function Resubscribed(cfg: Config, s: Fine, w: nat, step: string, key: string, deadline: Instant,
          payload: Json): Fine {
    Act(cfg, Delivered(cfg, s, key, payload), SubscribeTo(w, step, key, deadline))
  }

  function Replaced(cfg: Config, s: Fine, w: nat, step: string, key: string, deadline: Instant, payload: Json): Fine {
    Act(cfg, Resubscribed(cfg, s, w, step, key, deadline, payload), TimeOutAll(deadline))
  }

  predicate RowIs(s: Fine, who: Who, step: string, row: Row) {
    step in RowsOf(s.db, who) && RowsOf(s.db, who)[step] == row
  }

  /** The delivery writes the row; the subscription made on the old lookup outlives it; at the
      deadline the marker replaces the row that was delivered. */
  lemma DeliveryIsReplaced(cfg: Config, s: Fine, w: nat, who: Who, step: string, key: string, deadline: Instant,
          payload: Json)
    requires MissedBy(s, w, who, step) && cfg.isWait(who, step) && deadline != ZERO_TIME
    requires key in s.db.subs && s.db.subs[key] == Subscription(who, step, FormatTime(deadline))
    ensures RowIs(Delivered(cfg, s, key, payload), who, step, Row(Some(payload), ""))
    ensures key in Resubscribed(cfg, s, w, step, key, deadline, payload).db.subs
    ensures RowIs(Resubscribed(cfg, s, w, step, key, deadline, payload), who, step, Row(Some(payload), ""))
    ensures RowIs(Replaced(cfg, s, w, step, key, deadline, payload), who, step, TIMEOUT_MARKER)
  {
    var sub := s.db.subs[key];
    Delivers(cfg, s, key, payload);
    LateSubscription(s.db, key, sub, Row(Some(payload), ""));
    var delivered := Delivered(cfg, s, key, payload);
    SubscribesLate(cfg, delivered, w, who, step, key, deadline);
    StampNonEmpty(deadline);
    TimesOut(cfg, Resubscribed(cfg, s, w, step, key, deadline, payload), who, step, key, deadline);
  }

  lemma TimesOut(cfg: Config, s: Fine, who: Who, step: string, key: string, deadline: Instant)
    requires key in s.db.subs && s.db.subs[key] == Subscription(who, step, FormatTime(deadline))
    requires FormatTime(deadline) != ""
    ensures RowIs(Act(cfg, s, TimeOutAll(deadline)), who, step, TIMEOUT_MARKER)
  {
    MarkedAtDeadline(s.db, key, FormatTime(deadline));
    ActTimesOut(cfg, s, deadline);
  }

  lemma ActTimesOut(cfg: Config, s: Fine, at: Instant)
    ensures Act(cfg, s, TimeOutAll(at)) == s.(db := TimeOutSubscriptions(s.db, FormatTime(at)))
  {
    hide FormatTime;
  }

  /** The delivery leaves its row, and its key free for the late subscription. */
  lemma LateSubscription(t: Tables, key: string, sub: Subscription, row: Row)
    requires key in t.subs && t.subs[key] == sub
    ensures var d := Settle(t, key, row);
      && key !in d.subs && sub.step in RowsOf(d, sub.who) && RowsOf(d, sub.who)[sub.step] == row
      && RowsOf(d.(subs := d.subs[key := sub]), sub.who) == RowsOf(d, sub.who)
  {
  }

  lemma Delivers(cfg: Config, s: Fine, key: string, payload: Json)
    requires key in s.db.subs
    ensures Act(cfg, s, SendEvent(key, payload)) == s.(db := Settle(s.db, key, Row(Some(payload), "")))
  {
  }

  lemma SubscribesLate(cfg: Config, s: Fine, w: nat, who: Who, step: string, key: string, deadline: Instant)
    requires MissedBy(s, w, who, step) && cfg.isWait(who, step) && key !in s.db.subs
    ensures Act(cfg, s, SubscribeTo(w, step, key, deadline)).db
         == s.db.(subs := s.db.subs[key := Subscription(who, step, FormatTime(deadline))])
  {
    hide FormatTime;
  }

  lemma LexReflexive(a: string)
    ensures LexAtMost(a, a)
  {
  }

  lemma MarkedAtDeadline(t: Tables, key: string, stamp: string)
    requires key in t.subs && t.subs[key].deadline == stamp && stamp != ""
    ensures var u, sub := TimeOutSubscriptions(t, stamp), t.subs[key];
      sub.step in RowsOf(u, sub.who) && RowsOf(u, sub.who)[sub.step] == TIMEOUT_MARKER
  {
    var keys, sub := ExpiredKeys(t, stamp), t.subs[key];
    LexReflexive(stamp);
    assert key in keys;
    RowsOfMarked(t, keys, sub.who);
    assert sub.step in StepsOf(t, keys, sub.who);
  }

  /** A delivered event can be lost: a reachable state from which three store calls in a row
      deliver it, subscribe again, and time the subscription out over it. */
  lemma DeliveryCanBeLost(cfg: Config, who: Who, step: string, key: string, deadline: Instant, request: Json,
          payload: Json)
    requires who.wtype in cfg.policies && cfg.isWait(who, step) && deadline != ZERO_TIME
    ensures exists s, w ::
      && Reachable(cfg, s) && MissedBy(s, w, who, step)
      && RowIs(Delivered(cfg, s, key, payload), who, step, Row(Some(payload), ""))
      && RowIs(Replaced(cfg, s, w, step, key, deadline, payload), who, step, TIMEOUT_MARKER)
  {
    Waits(cfg, who, request, step, key, deadline, deadline);
    var s0 :| Reachable(cfg, s0) && Waiting(s0, who, step, key, deadline);
    StampNonEmpty(deadline);
    LooksAgain(cfg, s0, who, step, key, deadline);
    var s, w :| Reachable(cfg, s) && MissedBy(s, w, who, step) && s.db.subs == s0.db.subs && s.db.steps == s0.db.steps;
    DeliveryIsReplaced(cfg, s, w, who, step, key, deadline, payload);
  }
}
