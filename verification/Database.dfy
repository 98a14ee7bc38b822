/** The three tables of the SQLite store and what each statement or transaction does to them. */
module Database {
  import opened Prelude

  type Json = string

  datatype Status = Pending | Running | Completed | Failed | Cancelled | Suspended

  datatype Signal = NoSignal | CancelRequested

  /** A row of `workflows`. Times are kept as text, "" for none. */
  datatype Record = Record(
    id: string, wtype: string, version: string, status: Status, signal: Signal, payload: Json,
    result: Option<Json>, error: string, retryAfter: string, attempts: int, occ: int, createdAt: string)

  /** The part of the step_results key that names the workflow. */
  datatype Who = Who(wtype: string, version: string, id: string)

  /** A row of `step_results`. */
  datatype Row = Row(result: Option<Json>, error: string)

  const EVENT_TIMEOUT := "event_timeout"
  const TIMEOUT_MARKER := Row(None, EVENT_TIMEOUT)

  /** A row of `subscriptions`, under its correlation key. */
  datatype Subscription = Subscription(who: Who, step: string, deadline: string)

  datatype Tables = Tables(
    workflows: map<string, Record>,
    steps: map<Who, map<string, Row>>,
    subs: map<string, Subscription>)

  const EMPTY := Tables(map[], map[], map[])

  function WhoOf(r: Record): Who { Who(r.wtype, r.version, r.id) }

  /** SELECT ... FROM step_results for one workflow. */
  function RowsOf(t: Tables, who: Who): map<string, Row> {
    if who in t.steps then t.steps[who] else map[]
  }

  /** The same tables, row by row. */
  ghost predicate Same(t: Tables, u: Tables) {
    t.workflows == u.workflows && t.subs == u.subs && forall who :: RowsOf(t, who) == RowsOf(u, who)
  }

  predicate Terminal(s: Status) {
    s == Completed || s == Failed || s == Cancelled
  }

  // ---- statements on workflows ----

  function Put(t: Tables, r: Record): Tables {
    t.(workflows := t.workflows[r.id := r])
  }

  /** INSERT: fails on an existing id. */
  function Create(t: Tables, r: Record, now: string): Option<Tables> {
    if r.id in t.workflows then None else Some(Put(t, r.(occ := 1, createdAt := now)))
  }

  /** WHERE id = ? AND occ_version = ? */
  predicate Current(t: Tables, id: string, occ: int) {
    id in t.workflows && t.workflows[id].occ == occ
  }

  function Bump(t: Tables, id: string, r: Record): Tables {
    t.(workflows := t.workflows[id := r.(occ := r.occ + 1)])
  }

  function UpdateStatus(t: Tables, id: string, status: Status, result: Option<Json>, occ: int): Option<Tables> {
    if !Current(t, id, occ) then None
    else Some(Bump(t, id, t.workflows[id].(status := status, result := result)))
  }

  function SetError(t: Tables, id: string, status: Status, msg: string, occ: int): Option<Tables> {
    if !Current(t, id, occ) then None
    else Some(Bump(t, id, t.workflows[id].(status := status, error := msg)))
  }

  function SetRetry(t: Tables, id: string, retryAfter: string, occ: int): Option<Tables> {
    if !Current(t, id, occ) then None
    else
      var r := t.workflows[id];
      Some(Bump(t, id, r.(status := Pending, retryAfter := retryAfter, attempts := r.attempts + 1)))
  }

  function Suspend(t: Tables, id: string, resumeAt: string, occ: int): Option<Tables> {
    if !Current(t, id, occ) then None
    else Some(Bump(t, id, t.workflows[id].(status := Suspended, retryAfter := resumeAt)))
  }

  function Wake(r: Record): Record {
    r.(status := Pending, retryAfter := "", occ := r.occ + 1)
  }

  predicate Due(r: Record, now: string) {
    r.status == Suspended && r.retryAfter != "" && LexAtMost(r.retryAfter, now)
  }

  /** PromoteSuspended: one UPDATE over all rows. */
  function PromoteSuspended(t: Tables, now: string): Tables {
    t.(workflows := map id | id in t.workflows ::
      if Due(t.workflows[id], now) then Wake(t.workflows[id]) else t.workflows[id])
  }

  predicate Schedulable(r: Record, now: string) {
    r.status == Pending && (r.retryAfter == "" || LexAtMost(r.retryAfter, now))
  }

  function SetSignal(t: Tables, id: string, signal: Signal): Option<Tables> {
    if id in t.workflows
    then Some(t.(workflows := t.workflows[id := t.workflows[id].(signal := signal)]))
    else None
  }

  predicate SignalSet(db: Tables, id: string) {
    id in db.workflows && db.workflows[id].signal == CancelRequested
  }

  // ---- statements on step_results and subscriptions ----

  /** INSERT OR REPLACE. */
  function SaveStep(t: Tables, who: Who, step: string, row: Row): Tables {
    t.(steps := t.steps[who := RowsOf(t, who)[step := row]])
  }

  /** INSERT: fails when the correlation key is taken. */
  function SaveSubscription(t: Tables, key: string, sub: Subscription): Option<Tables> {
    if key in t.subs then None else Some(t.(subs := t.subs[key := sub]))
  }

  function WakeIfSuspended(ws: map<string, Record>, id: string): map<string, Record> {
    if id in ws && ws[id].status == Suspended then ws[id := Wake(ws[id])] else ws
  }

  /** What both ends of a wait do in their transaction: write the step's row, drop the
      subscription, wake the workflow if it is suspended. */
  function Settle(t: Tables, key: string, row: Row): Tables
    requires key in t.subs
  {
    var sub := t.subs[key];
    Tables(WakeIfSuspended(t.workflows, sub.who.id),
           SaveStep(t, sub.who, sub.step, row).steps,
           t.subs - {key})
  }

  /** ResumeSubscription. */
  function ResumeSubscription(t: Tables, key: string, payload: Json): Option<Tables> {
    if key in t.subs then Some(Settle(t, key, Row(Some(payload), ""))) else None
  }

  predicate IsExpired(sub: Subscription, now: string) {
    sub.deadline != "" && LexAtMost(sub.deadline, now)
  }

  function ExpiredKeys(t: Tables, now: string): set<string> {
    set key | key in t.subs && IsExpired(t.subs[key], now)
  }

  // ---- timing out: the loop and the set-level update ----

  function StepsOf(t: Tables, keys: set<string>, who: Who): set<string>
    requires keys <= t.subs.Keys
  {
    set key | key in keys && t.subs[key].who == who :: t.subs[key].step
  }

  function WhosOf(t: Tables, keys: set<string>): set<Who>
    requires keys <= t.subs.Keys
  {
    set key | key in keys :: t.subs[key].who
  }

  function IdsOf(t: Tables, keys: set<string>): set<string>
    requires keys <= t.subs.Keys
  {
    set key | key in keys :: t.subs[key].who.id
  }

  function WakeAll(ws: map<string, Record>, ids: set<string>): map<string, Record> {
    map id | id in ws :: if id in ids && ws[id].status == Suspended then Wake(ws[id]) else ws[id]
  }

  function Marked(rows: map<string, Row>, steps: set<string>): map<string, Row> {
    map step | step in rows.Keys + steps :: if step in steps then TIMEOUT_MARKER else rows[step]
  }

  function MarkAll(t: Tables, keys: set<string>): map<Who, map<string, Row>>
    requires keys <= t.subs.Keys
  {
    map who | who in t.steps.Keys + WhosOf(t, keys) :: Marked(RowsOf(t, who), StepsOf(t, keys, who))
  }

  /** All these subscriptions timed out at once: their steps get the marker, they are gone,
      and each suspended workflow with at least one of them is woken once. */
  function TimeOutSet(t: Tables, keys: set<string>): Tables
    requires keys <= t.subs.Keys
  {
    Tables(WakeAll(t.workflows, IdsOf(t, keys)), MarkAll(t, keys), t.subs - keys)
  }

  /** TimeOutSubscriptions as a set-level update. */
  function TimeOutSubscriptions(t: Tables, now: string): Tables {
    TimeOutSet(t, ExpiredKeys(t, now))
  }

  lemma TimeOutNone(t: Tables)
    ensures TimeOutSet(t, {}) == t
  {
    NoneMarked(t);
    assert IdsOf(t, {}) == {} && WakeAll(t.workflows, {}) == t.workflows;
    assert t.subs - {} == t.subs;
  }

  lemma NoneMarked(t: Tables)
    ensures MarkAll(t, {}) == t.steps
  {
    assert WhosOf(t, {}) == {};
    forall who | who in t.steps
      ensures MarkAll(t, {})[who] == t.steps[who]
    {
      assert StepsOf(t, {}, who) == {} && Marked(t.steps[who], {}) == t.steps[who];
    }
  }

  lemma WakeOneMore(ws: map<string, Record>, ids: set<string>, id: string)
    ensures WakeIfSuspended(WakeAll(ws, ids), id) == WakeAll(ws, ids + {id})
  {
  }

  lemma MarkedOneMore(rows: map<string, Row>, steps: set<string>, step: string)
    ensures Marked(rows, steps)[step := TIMEOUT_MARKER] == Marked(rows, steps + {step})
  {
  }

  lemma RowsOfMarked(t: Tables, keys: set<string>, who: Who)
    requires keys <= t.subs.Keys
    ensures RowsOf(TimeOutSet(t, keys), who) == Marked(RowsOf(t, who), StepsOf(t, keys, who))
  {
    if who !in MarkAll(t, keys) {
      assert StepsOf(t, keys, who) == {};
      assert Marked(RowsOf(t, who), StepsOf(t, keys, who)) == map[];
    }
  }

  lemma StepsOfOneMore(t: Tables, keys: set<string>, key: string, who: Who)
    requires keys <= t.subs.Keys && key in t.subs
    ensures StepsOf(t, keys + {key}, who)
         == StepsOf(t, keys, who) + (if who == t.subs[key].who then {t.subs[key].step} else {})
  {
  }

  lemma OtherMarksKept(t: Tables, keys: set<string>, key: string, who: Who)
    requires keys <= t.subs.Keys && key in t.subs && who != t.subs[key].who
    requires who in t.steps.Keys + WhosOf(t, keys)
    ensures who in MarkAll(t, keys + {key}) && MarkAll(t, keys)[who] == MarkAll(t, keys + {key})[who]
  {
    StepsOfOneMore(t, keys, key, who);
    assert StepsOf(t, keys + {key}, who) == StepsOf(t, keys, who);
    WhosOfOneMore(t, keys, key);
  }

  lemma WhosOfOneMore(t: Tables, keys: set<string>, key: string)
    requires keys <= t.subs.Keys && key in t.subs
    ensures WhosOf(t, keys + {key}) == WhosOf(t, keys) + {t.subs[key].who}
  {
  }

  lemma NewMark(t: Tables, keys: set<string>, key: string)
    requires keys <= t.subs.Keys && key in t.subs
    ensures var sub := t.subs[key];
      && sub.who in MarkAll(t, keys + {key})
      && MarkAll(t, keys + {key})[sub.who] == RowsOf(TimeOutSet(t, keys), sub.who)[sub.step := TIMEOUT_MARKER]
  {
    var sub := t.subs[key];
    StepsOfOneMore(t, keys, key, sub.who);
    RowsOfMarked(t, keys, sub.who);
    MarkedOneMore(RowsOf(t, sub.who), StepsOf(t, keys, sub.who), sub.step);
    assert key in keys + {key};
  }

  lemma MarkOneMore(t: Tables, keys: set<string>, key: string)
    requires keys <= t.subs.Keys && key in t.subs && key !in keys
    ensures SaveStep(TimeOutSet(t, keys), t.subs[key].who, t.subs[key].step, TIMEOUT_MARKER).steps
         == MarkAll(t, keys + {key})
  {
    var sub := t.subs[key];
    var before, goal := MarkAll(t, keys), MarkAll(t, keys + {key});
    assert goal.Keys == before.Keys + {sub.who} by {
      assert WhosOf(t, keys + {key}) == WhosOf(t, keys) + {sub.who};
    }
    NewMark(t, keys, key);
    forall who | who in before && who != sub.who
      ensures before[who] == goal[who]
    {
      OtherMarksKept(t, keys, key, who);
    }
    OneKeyUpdated(before, goal, sub.who);
  }

  lemma OneKeyUpdated<K, V>(before: map<K, V>, after: map<K, V>, k: K)
    requires after.Keys == before.Keys + {k}
    requires forall j | j in before && j != k :: before[j] == after[j]
    ensures before[k := after[k]] == after
  {
  }

  /** One more turn of the loop is one more subscription in the set. */
  lemma TimeOutOneMore(t: Tables, keys: set<string>, key: string)
    requires keys <= t.subs.Keys && key in t.subs && key !in keys
    ensures Settle(TimeOutSet(t, keys), key, TIMEOUT_MARKER) == TimeOutSet(t, keys + {key})
  {
    WakeOneMore(t.workflows, IdsOf(t, keys), t.subs[key].who.id);
    assert IdsOf(t, keys + {key}) == IdsOf(t, keys) + {t.subs[key].who.id};
    MarkOneMore(t, keys, key);
    assert t.subs - keys - {key} == t.subs - (keys + {key});
  }

  function KeysOf(order: seq<string>): set<string> {
    set key | key in order
  }

  /** The rows settled one after another, in the given order. */
  function TimeOutEach(t: Tables, order: seq<string>): Tables
    requires forall key <- order :: key in t.subs
    requires forall i, j | 0 <= i < j < |order| :: order[i] != order[j]
    ensures TimeOutEach(t, order) == TimeOutSet(t, KeysOf(order))
  {
    if order == [] then
      TimeOutNone(t);
      assert KeysOf(order) == {};
      t
    else
      var front, last := order[..|order| - 1], order[|order| - 1];
      assert order == front + [last];
      assert KeysOf(order) == KeysOf(front) + {last} && last !in KeysOf(front);
      TimeOutOneMore(t, KeysOf(front), last);
      Settle(TimeOutEach(t, front), last, TIMEOUT_MARKER)
  }
}
