/** The SQLite store: its methods update the three tables in place. */
module Store {
  import opened Prelude
  import opened Timestamps
  import opened Database

  datatype StoreError = OCCConflict | KeyTaken | WorkflowNotFound | SubscriptionNotFound | StepNotFound | BadTime

  // ---- the selections ----

  function SchedulableIds(t: Tables, now: string): set<string> {
    set id | id in t.workflows && Schedulable(t.workflows[id], now)
  }

  predicate SortedByCreation(rs: seq<Record>) {
    forall i, j | 0 <= i < j < |rs| :: LexAtMost(rs[i].createdAt, rs[j].createdAt)
  }

  /** A negative limit is no limit. */
  function Limited(limit: int, n: nat): nat {
    if 0 <= limit < n then limit else n
  }

  /** ORDER BY created_at LIMIT: the earliest of these rows, each once. */
  ghost predicate EarliestOf(ws: map<string, Record>, ids: set<string>, limit: int, rs: seq<Record>)
    requires ids <= ws.Keys
  {
    && (forall r <- rs :: r.id in ids && ws[r.id] == r)
    && (forall i, j | 0 <= i < j < |rs| :: rs[i].id != rs[j].id)
    && SortedByCreation(rs)
    && |rs| == Limited(limit, |ids|)
    && forall id, i | id in ids && 0 <= i < |rs| :: ws[id] in rs || LexAtMost(rs[i].createdAt, ws[id].createdAt)
  }

  ghost predicate EarliestSchedulable(t: Tables, now: string, limit: int, rs: seq<Record>) {
    EarliestOf(t.workflows, SchedulableIds(t, now), limit, rs)
  }

  /** scanWorkflow can read the record's times. */
  predicate Scans(r: Record) {
    ScanTime(r.retryAfter).Some? && ScanTime(r.createdAt).Some?
  }

  /** rows.Next and scanWorkflow: all the rows, or the first that does not scan. */
  method ScanRows(rows: seq<Record>) returns (bad: Option<Record>)
    ensures bad == None ==> forall r <- rows :: Scans(r)
    ensures bad.Some? ==> bad.value in rows && !Scans(bad.value)
  {
    for i := 0 to |rows|
      invariant forall r <- rows[..i] :: Scans(r)
    {
      var scans := Scans(rows[i]);
      if !scans {
        return Some(rows[i]);
      }
    }
    bad := None;
  }

  lemma LexTransitive(a: string, b: string, c: string)
    requires LexAtMost(a, b) && LexAtMost(b, c)
    ensures LexAtMost(a, c)
  {
    if a != "" && b != "" && c != "" && a[0] == b[0] == c[0] {
      assert LexAtMost(a[1..], b[1..]) && LexAtMost(b[1..], c[1..]) by {
        assert a == [a[0]] + a[1..] && b == [b[0]] + b[1..] && c == [c[0]] + c[1..];
      }
      LexTransitive(a[1..], b[1..], c[1..]);
    }
  }

  lemma LexTotal(a: string, b: string)
    ensures LexAtMost(a, b) || LexAtMost(b, a)
  {
    if a != b {
      LexTrichotomy(a, b);
    }
  }

  method Earliest(ws: map<string, Record>, ids: set<string>) returns (id: string)
    requires ids != {} && ids <= ws.Keys
    ensures id in ids && forall x | x in ids :: LexAtMost(ws[id].createdAt, ws[x].createdAt)
  {
    id :| id in ids;
    LexTotal(ws[id].createdAt, ws[id].createdAt);
    var rest := ids - {id};
    while rest != {}
      invariant id in ids && rest <= ids
      invariant forall x | x in ids && x !in rest :: LexAtMost(ws[id].createdAt, ws[x].createdAt)
    {
      var x :| x in rest;
      LexTotal(ws[id].createdAt, ws[x].createdAt);
      if !LexAtMost(ws[id].createdAt, ws[x].createdAt) {
        forall y | y in ids && y !in rest
          ensures LexAtMost(ws[x].createdAt, ws[y].createdAt)
        {
          LexTransitive(ws[x].createdAt, ws[id].createdAt, ws[y].createdAt);
        }
        LexTotal(ws[x].createdAt, ws[x].createdAt);
        id := x;
      }
      rest := rest - {x};
    }
  }

  /** Part of the rows taken: those left come no earlier. */
  ghost predicate Taken(ws: map<string, Record>, ids: set<string>, left: set<string>, rs: seq<Record>)
    requires ids <= ws.Keys
  {
    && left <= ids && |rs| + |left| == |ids|
    && (forall r <- rs :: r.id in ids - left && ws[r.id] == r)
    && (forall id | id in ids - left :: ws[id] in rs)
    && (forall i, j | 0 <= i < j < |rs| :: rs[i].id != rs[j].id)
    && SortedByCreation(rs)
    && NoneEarlier(ws, left, rs)
  }

  predicate NoneEarlier(ws: map<string, Record>, left: set<string>, rs: seq<Record>)
    requires left <= ws.Keys
  {
    forall id, r | id in left && r in rs :: LexAtMost(r.createdAt, ws[id].createdAt)
  }

  lemma SortedAppend(rs: seq<Record>, r: Record)
    requires SortedByCreation(rs) && forall x <- rs :: LexAtMost(x.createdAt, r.createdAt)
    ensures SortedByCreation(rs + [r])
  {
    var all := rs + [r];
    forall i, j | 0 <= i < j < |all|
      ensures LexAtMost(all[i].createdAt, all[j].createdAt)
    {
      if j == |rs| {
        assert all[i] in rs;
      }
    }
  }

  lemma TakeOne(ws: map<string, Record>, ids: set<string>, left: set<string>, rs: seq<Record>, id: string)
    requires ids <= ws.Keys && ws.Keys >= left && Taken(ws, ids, left, rs) && id in left && ws[id].id == id
    requires forall x | x in left :: LexAtMost(ws[id].createdAt, ws[x].createdAt)
    ensures Taken(ws, ids, left - {id}, rs + [ws[id]])
  {
    SortedAppend(rs, ws[id]);
    var all := rs + [ws[id]];
    forall x | x in ids - (left - {id})
      ensures ws[x] in all
    {
      assert x != id ==> ws[x] in rs;
      assert all[|rs|] == ws[id];
    }
  }

  lemma TakenIsEarliest(ws: map<string, Record>, ids: set<string>, left: set<string>, rs: seq<Record>, limit: int)
    requires ids <= ws.Keys && Taken(ws, ids, left, rs)
    requires if left == {} then limit < 0 || |rs| <= limit else limit == |rs|
    ensures EarliestOf(ws, ids, limit, rs)
  {
    forall id, i | id in ids && 0 <= i < |rs|
      ensures ws[id] in rs || LexAtMost(rs[i].createdAt, ws[id].createdAt)
    {
      assert rs[i] in rs;
      assert id in left || id in ids - left;
    }
  }

  /** What the query's ORDER BY and LIMIT leave of the rows. */
  method TakeEarliest(ws: map<string, Record>, ids: set<string>, limit: int) returns (rs: seq<Record>)
    requires ids <= ws.Keys && forall id | id in ids :: ws[id].id == id
    ensures EarliestOf(ws, ids, limit, rs)
  {
    var left := ids;
    rs := [];
    while left != {} && (limit < 0 || |rs| < limit)
      invariant Taken(ws, ids, left, rs) && (limit >= 0 ==> |rs| <= limit)
      decreases left
    {
      var id := Earliest(ws, left);
      TakeOne(ws, ids, left, rs, id);
      rs := rs + [ws[id]];
      left := left - {id};
    }
    TakenIsEarliest(ws, ids, left, rs, limit);
  }

  class SqliteStore {
    var workflows: map<string, Record>
    var steps: map<Who, map<string, Row>>
    var subs: map<string, Subscription>

    constructor ()
      ensures Contents() == EMPTY
    {
      workflows, steps, subs := map[], map[], map[];
    }

    function Contents(): Tables
      reads this
    {
      Tables(workflows, steps, subs)
    }

    // ---- workflows ----

    method Create(r: Record, now: string) returns (err: Option<StoreError>)
      modifies this
      ensures err == if r.id in old(workflows) then Some(KeyTaken) else None
      ensures Contents() == if err == None then Database.Create(old(Contents()), r, now).value else old(Contents())
    {
      if r.id in workflows {
        return Some(KeyTaken);
      }
      workflows := workflows[r.id := r.(createdAt := now, occ := 1)];
      err := None;
    }

    method Get(id: string) returns (r: Option<Record>, err: Option<StoreError>)
      ensures id in workflows && Scans(workflows[id]) ==> r == Some(workflows[id]) && err == None
      ensures id !in workflows ==> r == None && err == Some(WorkflowNotFound)
      ensures id in workflows && !Scans(workflows[id]) ==> r == None && err == Some(BadTime)
    {
      if id !in workflows {
        return None, Some(WorkflowNotFound);
      }
      if !Scans(workflows[id]) {
        return None, Some(BadTime);
      }
      return Some(workflows[id]), None;
    }

    /** The UPDATE of one row by id and version, and checkRowsAffected. */
    method UpdateRow(id: string, occ: int, r: Record) returns (err: Option<StoreError>)
      modifies this`workflows
      ensures err == if Current(old(Contents()), id, occ) then None else Some(OCCConflict)
      ensures workflows == if err == None then old(workflows)[id := r.(occ := occ + 1)] else old(workflows)
    {
      var affected := 0;
      if id in workflows && workflows[id].occ == occ {
        workflows := workflows[id := r.(occ := occ + 1)];
        affected := 1;
      }
      err := if affected == 0 then Some(OCCConflict) else None;
    }

    method UpdateStatus(id: string, status: Status, result: Option<Json>, occ: int) returns (err: Option<StoreError>)
      modifies this
      ensures err == if Current(old(Contents()), id, occ) then None else Some(OCCConflict)
      ensures Contents() == if err == None
        then Database.UpdateStatus(old(Contents()), id, status, result, occ).value else old(Contents())
    {
      if id !in workflows {
        return Some(OCCConflict);
      }
      err := UpdateRow(id, occ, workflows[id].(status := status, result := result));
    }

    method SetError(id: string, status: Status, msg: string, occ: int) returns (err: Option<StoreError>)
      modifies this
      ensures err == if Current(old(Contents()), id, occ) then None else Some(OCCConflict)
      ensures Contents() == if err == None
        then Database.SetError(old(Contents()), id, status, msg, occ).value else old(Contents())
    {
      if id !in workflows {
        return Some(OCCConflict);
      }
      err := UpdateRow(id, occ, workflows[id].(status := status, error := msg));
    }

    method SetRetry(id: string, retryAfter: Instant, occ: int) returns (err: Option<StoreError>)
      modifies this
      ensures err == if Current(old(Contents()), id, occ) then None else Some(OCCConflict)
      ensures Contents() == if err == None
        then Database.SetRetry(old(Contents()), id, FormatTime(retryAfter), occ).value else old(Contents())
    {
      err := SetRetryText(id, FormatTime(retryAfter), occ);
    }

    method SetRetryText(id: string, retryAfter: string, occ: int) returns (err: Option<StoreError>)
      modifies this
      ensures err == if Current(old(Contents()), id, occ) then None else Some(OCCConflict)
      ensures Contents() == if err == None
        then Database.SetRetry(old(Contents()), id, retryAfter, occ).value else old(Contents())
    {
      if id !in workflows {
        return Some(OCCConflict);
      }
      var r := workflows[id];
      err := UpdateRow(id, occ, r.(status := Pending, retryAfter := retryAfter, attempts := r.attempts + 1));
    }

    method Suspend(id: string, resumeAt: Instant, occ: int) returns (err: Option<StoreError>)
      modifies this
      ensures err == if Current(old(Contents()), id, occ) then None else Some(OCCConflict)
      ensures Contents() == if err == None
        then Database.Suspend(old(Contents()), id, FormatTime(resumeAt), occ).value else old(Contents())
    {
      err := SuspendText(id, FormatTime(resumeAt), occ);
    }

    method SuspendText(id: string, resumeAt: string, occ: int) returns (err: Option<StoreError>)
      modifies this
      ensures err == if Current(old(Contents()), id, occ) then None else Some(OCCConflict)
      ensures Contents() == if err == None
        then Database.Suspend(old(Contents()), id, resumeAt, occ).value else old(Contents())
    {
      if id !in workflows {
        return Some(OCCConflict);
      }
      err := UpdateRow(id, occ, workflows[id].(status := Suspended, retryAfter := resumeAt));
    }

    /** One UPDATE; the number of rows affected. */
    method PromoteSuspended(now: Instant) returns (n: nat)
      modifies this
      ensures Contents() == Database.PromoteSuspended(old(Contents()), FormatTime(now))
      ensures n == |set id | id in old(workflows) && Due(old(workflows)[id], FormatTime(now))|
    {
      var stamp := FormatTime(now);
      n := |set id | id in workflows && Due(workflows[id], stamp)|;
      workflows := map id | id in workflows ::
        if Due(workflows[id], stamp)
        then workflows[id].(status := Pending, retryAfter := "", occ := workflows[id].occ + 1)
        else workflows[id];
    }

    method ListSchedulable(now: Instant, limit: int) returns (records: seq<Record>, err: Option<StoreError>)
      requires forall id | id in workflows :: workflows[id].id == id
      ensures err == None ==>
        EarliestSchedulable(Contents(), FormatTime(now), limit, records) && forall r <- records :: Scans(r)
      ensures err != None ==>
        && err == Some(BadTime)
        && exists rs :: EarliestSchedulable(Contents(), FormatTime(now), limit, rs) && exists r <- rs :: !Scans(r)
    {
      var stamp := FormatTime(now);
      records := TakeEarliest(workflows, SchedulableIds(Contents(), stamp), limit);
      var bad := ScanRows(records);
      if bad.Some? {
        assert EarliestSchedulable(Contents(), stamp, limit, records) && bad.value in records;
        return [], Some(BadTime);
      }
      err := None;
    }

    method GetSignal(id: string) returns (signal: Database.Signal, err: Option<StoreError>)
      ensures err == if id in workflows then None else Some(WorkflowNotFound)
      ensures id in workflows ==> signal == workflows[id].signal
    {
      if id !in workflows {
        return NoSignal, Some(WorkflowNotFound);
      }
      return workflows[id].signal, None;
    }

    method SetSignal(id: string, signal: Database.Signal) returns (err: Option<StoreError>)
      modifies this
      ensures err == if id in old(workflows) then None else Some(WorkflowNotFound)
      ensures Contents() == if err == None
        then Database.SetSignal(old(Contents()), id, signal).value else old(Contents())
    {
      if id !in workflows {
        return Some(WorkflowNotFound);
      }
      workflows := workflows[id := workflows[id].(signal := signal)];
      err := None;
    }

    // ---- step results ----

    /** INSERT OR REPLACE. */
    method SaveStepResult(who: Who, step: string, row: Row)
      modifies this
      ensures Contents() == SaveStep(old(Contents()), who, step, row)
    {
      if who !in steps {
        steps := steps[who := map[]];
      }
      steps := steps[who := steps[who][step := row]];
    }

    method GetStepResult(who: Who, step: string) returns (row: Option<Row>, err: Option<StoreError>)
      ensures row == if step in RowsOf(Contents(), who) then Some(RowsOf(Contents(), who)[step]) else None
      ensures err == if row == None then Some(StepNotFound) else None
    {
      if who !in steps || step !in steps[who] {
        return None, Some(StepNotFound);
      }
      return Some(steps[who][step]), None;
    }

    /** The workflow's rows, each once. */
    method ListStepResults(who: Who) returns (results: seq<(string, Row)>)
      ensures forall i, j | 0 <= i < j < |results| :: results[i].0 != results[j].0
      ensures forall i | 0 <= i < |results| ::
        results[i].0 in RowsOf(Contents(), who) && results[i].1 == RowsOf(Contents(), who)[results[i].0]
      ensures |results| == |RowsOf(Contents(), who)|
      ensures forall n | n in RowsOf(Contents(), who) :: exists i :: 0 <= i < |results| && results[i].0 == n
    {
      var rows := RowsOf(Contents(), who);
      var left := rows.Keys;
      results := [];
      while left != {}
        invariant left <= rows.Keys && |results| + |left| == |rows|
        invariant forall i, j | 0 <= i < j < |results| :: results[i].0 != results[j].0
        invariant forall i | 0 <= i < |results| ::
          results[i].0 in rows && results[i].0 !in left && results[i].1 == rows[results[i].0]
        invariant forall n | n in rows && n !in left :: exists i :: 0 <= i < |results| && results[i].0 == n
      {
        var n :| n in left;
        ghost var before := results;
        results := results + [(n, rows[n])];
        left := left - {n};
        assert results[|before|].0 == n;
        assert forall i | 0 <= i < |before| :: results[i] == before[i];
      }
    }

    // ---- subscriptions ----

    method SaveSubscription(key: string, who: Who, step: string, deadline: Instant) returns (err: Option<StoreError>)
      modifies this
      ensures err == if key in old(subs) then Some(KeyTaken) else None
      ensures Contents() == if err == None
        then Database.SaveSubscription(old(Contents()), key, Subscription(who, step, FormatTime(deadline))).value
        else old(Contents())
    {
      err := InsertSubscription(key, Subscription(who, step, FormatTime(deadline)));
    }

    method InsertSubscription(key: string, sub: Subscription) returns (err: Option<StoreError>)
      modifies this
      ensures err == if key in old(subs) then Some(KeyTaken) else None
      ensures Contents() == if err == None
        then Database.SaveSubscription(old(Contents()), key, sub).value else old(Contents())
    {
      if key in subs {
        return Some(KeyTaken);
      }
      subs := subs[key := sub];
      err := None;
    }

    /** The statements both ends of a wait make: the row, the subscription, the workflow. */
    method SettleRow(key: string, row: Row)
      requires key in subs
      modifies this
      ensures Contents() == Settle(old(Contents()), key, row)
    {
      var sub := subs[key];
      SaveStepResult(sub.who, sub.step, row);
      subs := subs - {key};
      var id := sub.who.id;
      if id in workflows && workflows[id].status == Suspended {
        workflows := workflows[id := workflows[id].(status := Pending, retryAfter := "", occ := workflows[id].occ + 1)];
      }
    }

    method ResumeSubscription(key: string, payload: Json) returns (err: Option<StoreError>)
      modifies this
      ensures err == if key in old(subs) then None else Some(SubscriptionNotFound)
      ensures Contents() == if err == None
        then Database.ResumeSubscription(old(Contents()), key, payload).value else old(Contents())
    {
      if key !in subs {
        return Some(SubscriptionNotFound);
      }
      SettleRow(key, Row(Some(payload), ""));
      err := None;
    }

    /** The expired rows, in whatever order the query yields them. */
    method SelectExpired(now: string) returns (keys: seq<string>)
      ensures KeysOf(keys) == ExpiredKeys(Contents(), now) && |keys| == |ExpiredKeys(Contents(), now)|
      ensures forall i, j | 0 <= i < j < |keys| :: keys[i] != keys[j]
    {
      var left := ExpiredKeys(Contents(), now);
      keys := [];
      while left != {}
        invariant left <= ExpiredKeys(Contents(), now)
        invariant KeysOf(keys) == ExpiredKeys(Contents(), now) - left
        invariant |keys| + |left| == |ExpiredKeys(Contents(), now)|
        invariant forall i, j | 0 <= i < j < |keys| :: keys[i] != keys[j]
      {
        var key :| key in left;
        assert key !in KeysOf(keys);
        keys := keys + [key];
        left := left - {key};
        assert KeysOf(keys) == KeysOf(keys[..|keys| - 1]) + {key};
        assert keys[..|keys| - 1] + [key] == keys;
      }
    }

    /** The loop over the expired rows is one update of the whole set, in any order. */
    method TimeOutSubscriptions(now: Instant) returns (n: nat)
      modifies this
      ensures Contents() == Database.TimeOutSubscriptions(old(Contents()), FormatTime(now))
      ensures n == |ExpiredKeys(old(Contents()), FormatTime(now))|
    {
      var expired := SelectExpired(FormatTime(now));
      ghost var t := Contents();
      assert Orderly(t, expired) by {
        assert forall key <- expired :: key in KeysOf(expired);
      }
      for i := 0 to |expired|
        invariant Contents() == TimedOut(t, expired, i)
      {
        NextExpired(t, expired, i);
        SettleRow(expired[i], Row(None, "event_timeout"));
      }
      AllExpired(t, expired, FormatTime(now));
      n := |expired|;
    }
  }

  // ---- the loop of TimeOutSubscriptions ----

  predicate Orderly(t: Tables, expired: seq<string>) {
    && (forall key <- expired :: key in t.subs)
    && forall i, j | 0 <= i < j < |expired| :: expired[i] != expired[j]
  }

  /** The tables once the first i expired rows are settled. */
  function TimedOut(t: Tables, expired: seq<string>, i: nat): (u: Tables)
    requires Orderly(t, expired) && i <= |expired|
    ensures i == 0 ==> u == t
  {
    TimeOutEach(t, expired[..i])
  }

  lemma NextExpired(t: Tables, expired: seq<string>, i: nat)
    requires Orderly(t, expired) && i < |expired|
    ensures expired[i] in TimedOut(t, expired, i).subs
    ensures TimedOut(t, expired, i + 1) == Settle(TimedOut(t, expired, i), expired[i], TIMEOUT_MARKER)
  {
    assert expired[..i + 1][..i] == expired[..i];
    assert expired[i] !in KeysOf(expired[..i]);
  }

  lemma AllExpired(t: Tables, expired: seq<string>, now: string)
    requires Orderly(t, expired) && KeysOf(expired) == ExpiredKeys(t, now)
    ensures TimedOut(t, expired, |expired|) == TimeOutSubscriptions(t, now)
  {
    assert expired[..|expired|] == expired;
  }
}
