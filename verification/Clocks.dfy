/** What the clock lets happen, told by the instants that were stored: which records are
    listed, which suspended ones wake, and which subscriptions time out. */
module Clocks {
  import opened Prelude
  import opened Timestamps
  import opened Database
  import opened StoreOps
  import opened Store

  /** A time column: empty, or the text of an instant. */
  ghost predicate IsStamp(text: string) {
    text == "" || exists t :: Nonzero(t) && text == FormatTime(t)
  }

  /** The column holds an instant, and the clock has reached it. */
  predicate Come(text: string, now: Instant) {
    text != "" && ScanTime(text).Some? && ComesBy(ScanTime(text).value, now)
  }

  lemma StampComes(text: string, now: Instant)
    requires IsStamp(text) && text != "" && Nonzero(now)
    ensures LexAtMost(text, FormatTime(now)) <==> Come(text, now)
  {
    var t :| Nonzero(t) && text == FormatTime(t);
    StampReadsBack(t);
    TextComesBy(t, now);
  }

  /** A record whose times were stamped scans; one with a text that is no time does not. */
  lemma StampedScans(r: Record)
    ensures IsStamp(r.retryAfter) && IsStamp(r.createdAt) ==> Scans(r)
    ensures ScanTime(r.retryAfter) == None || ScanTime(r.createdAt) == None ==> !Scans(r)
  {
    hide FormatTime;
    forall text | text == r.retryAfter || text == r.createdAt
      ensures IsStamp(text) ==> ScanTime(text).Some?
    {
      if text != "" && IsStamp(text) {
        var t :| Nonzero(t) && text == FormatTime(t);
        StampReadsBack(t);
      }
    }
  }

  // ---- listing ----

  /** The record's turn has come. */
  predicate HasTurn(r: Record, now: Instant) {
    r.status == Pending && (r.retryAfter == "" || Come(r.retryAfter, now))
  }

  /** A record is schedulable exactly when it is pending and its retry_after is empty or has
      come. */
  lemma ScheduledExactly(r: Record, now: Instant)
    requires IsStamp(r.retryAfter) && Nonzero(now)
    ensures Schedulable(r, FormatTime(now)) <==> HasTurn(r, now)
  {
    if r.retryAfter != "" {
      StampComes(r.retryAfter, now);
    }
  }

  /** For an instant not shadowed by the clock's: exactly from that instant on. */
  lemma ScheduledFrom(r: Record, t: Instant, now: Instant)
    requires Nonzero(t) && Nonzero(now) && r.retryAfter == FormatTime(t) && !Shadowed(t, now) && !Shadowed(now, t)
    ensures Schedulable(r, FormatTime(now)) <==> r.status == Pending && t <= now
  {
    TextComesBy(t, now);
    ComesByIsOrder(t, now);
    StampNonEmpty(t);
  }

  ghost predicate TimesAreStamps(t: Tables) {
    && (forall id | id in t.workflows :: IsStamp(t.workflows[id].retryAfter))
    && (forall key | key in t.subs :: IsStamp(t.subs[key].deadline))
  }

  /** Writers that stamp their times keep it so. */
  ghost predicate Stamps(op: Op) {
    match op
    case CreateOp(r, _) => IsStamp(r.retryAfter)
    case SetRetryOp(_, retryAfter, _) => IsStamp(retryAfter)
    case SuspendOp(_, resumeAt, _) => IsStamp(resumeAt)
    case SaveSubscriptionOp(_, sub) => IsStamp(sub.deadline)
    case _ => true
  }

  lemma WritesKeepStamps(t: Tables, op: Op)
    requires TimesAreStamps(t) && Stamps(op)
    ensures TimesAreStamps(Apply(t, op))
  {
    hide FormatTime;
  }

  /** A list holds only records whose turn has come, in the order of their creation, and as
      many as the limit allows; without a limit all of them, with one the earliest. */
  lemma ListedExactly(t: Tables, now: Instant, limit: int, rs: seq<Record>)
    requires TimesAreStamps(t) && Nonzero(now) && EarliestSchedulable(t, FormatTime(now), limit, rs)
    ensures forall r <- rs :: HasTurn(r, now) && r.id in t.workflows && t.workflows[r.id] == r
    ensures forall i, j | 0 <= i < j < |rs| :: rs[i].id != rs[j].id && LexAtMost(rs[i].createdAt, rs[j].createdAt)
    ensures limit < 0 ==> forall id | id in t.workflows && HasTurn(t.workflows[id], now) :: t.workflows[id] in rs
    ensures limit >= 0 ==> |rs| <= limit
    ensures forall id, r | id in t.workflows && HasTurn(t.workflows[id], now) && r in rs ::
      t.workflows[id] in rs || LexAtMost(r.createdAt, t.workflows[id].createdAt)
  {
    var ids := SchedulableIds(t, FormatTime(now));
    forall id | id in t.workflows
      ensures id in ids <==> HasTurn(t.workflows[id], now)
    {
      ScheduledExactly(t.workflows[id], now);
    }
    if limit < 0 {
      AllAreListed(t.workflows, ids, rs);
    }
  }

  lemma AllAreListed(ws: map<string, Record>, ids: set<string>, rs: seq<Record>)
    requires ids <= ws.Keys && EarliestOf(ws, ids, |ids|, rs)
    ensures forall id | id in ids :: ws[id] in rs
  {
    var listed := set i | 0 <= i < |rs| :: rs[i].id;
    DistinctAreAsMany(rs, listed);
    assert listed <= ids;
    SameSize(listed, ids);
    forall id | id in ids
      ensures ws[id] in rs
    {
      var i :| 0 <= i < |rs| && rs[i].id == id;
      assert rs[i] in rs;
    }
  }

  lemma {:induction false} DistinctAreAsMany(rs: seq<Record>, listed: set<string>)
    requires forall i, j | 0 <= i < j < |rs| :: rs[i].id != rs[j].id
    requires listed == set i | 0 <= i < |rs| :: rs[i].id
    ensures |listed| == |rs|
  {
    if rs == [] {
      assert listed == {};
    } else {
      var front, last := rs[..|rs| - 1], rs[|rs| - 1];
      var before := set i | 0 <= i < |front| :: front[i].id;
      DistinctAreAsMany(front, before);
      assert listed == before + {last.id} && last.id !in before;
    }
  }

  lemma SameSize<T>(a: set<T>, b: set<T>)
    requires a <= b && |a| == |b|
    ensures a == b
  {
    assert b == a + (b - a);
  }

  // ---- promoting ----

  /** Promoting wakes exactly the suspended records whose time has come. */
  lemma PromotedExactly(t: Tables, now: Instant)
    requires TimesAreStamps(t) && Nonzero(now)
    ensures var u := PromoteSuspended(t, FormatTime(now));
      && u.workflows.Keys == t.workflows.Keys && u.steps == t.steps && u.subs == t.subs
      && forall id | id in t.workflows ::
           var r := t.workflows[id];
           u.workflows[id] == if r.status == Suspended && Come(r.retryAfter, now)
                              then r.(status := Pending, retryAfter := "", occ := r.occ + 1) else r
  {
    hide FormatTime, ScanTime;
    forall id | id in t.workflows && t.workflows[id].retryAfter != ""
      ensures LexAtMost(t.workflows[id].retryAfter, FormatTime(now)) <==> Come(t.workflows[id].retryAfter, now)
    {
      StampComes(t.workflows[id].retryAfter, now);
    }
  }

  // ---- timing out ----

  /** Some subscription of the step, or of the workflow, has run out. */
  predicate StepRanOut(t: Tables, who: Who, step: string, now: Instant) {
    exists key | key in t.subs :: IsFor(t.subs[key], who, step) && Come(t.subs[key].deadline, now)
  }

  predicate WorkflowRanOut(t: Tables, id: string, now: Instant) {
    exists key | key in t.subs :: t.subs[key].who.id == id && Come(t.subs[key].deadline, now)
  }

  lemma ExpiredExactly(t: Tables, now: Instant)
    requires TimesAreStamps(t) && Nonzero(now)
    ensures ExpiredKeys(t, FormatTime(now)) == set key | key in t.subs && Come(t.subs[key].deadline, now)
  {
    hide FormatTime, ScanTime;
    forall key | key in t.subs && t.subs[key].deadline != ""
      ensures LexAtMost(t.subs[key].deadline, FormatTime(now)) <==> Come(t.subs[key].deadline, now)
    {
      StampComes(t.subs[key].deadline, now);
    }
  }

  /** Timing out removes exactly the subscriptions whose deadline has come, and leaves the
      others as they are; a subscription without a deadline never goes. */
  lemma TimedOutExactly(t: Tables, now: Instant)
    requires TimesAreStamps(t) && Nonzero(now)
    ensures var u := TimeOutSubscriptions(t, FormatTime(now));
      && (forall key | key in t.subs :: key in u.subs <==> !Come(t.subs[key].deadline, now))
      && (forall key | key in u.subs :: key in t.subs && u.subs[key] == t.subs[key])
  {
    ExpiredExactly(t, now);
  }

  /** Exactly the steps of those get the marker, every other row stays. */
  lemma TimedOutRows(t: Tables, now: Instant, who: Who, step: string)
    requires TimesAreStamps(t) && Nonzero(now)
    ensures var rows, after := RowsOf(t, who), RowsOf(TimeOutSubscriptions(t, FormatTime(now)), who);
      if StepRanOut(t, who, step, now) then step in after && after[step] == Row(None, "event_timeout")
      else (step in after <==> step in rows) && (step in rows ==> after[step] == rows[step])
  {
    hide FormatTime, ScanTime;
    var keys := ExpiredKeys(t, FormatTime(now));
    ExpiredExactly(t, now);
    RowsOfMarked(t, keys, who);
    assert StepRanOut(t, who, step, now) <==> step in StepsOf(t, keys, who);
  }

  /** Exactly their workflows wake, if they are suspended; every other record stays. */
  lemma TimedOutWorkflows(t: Tables, now: Instant)
    requires TimesAreStamps(t) && Nonzero(now)
    ensures var u := TimeOutSubscriptions(t, FormatTime(now));
      && u.workflows.Keys == t.workflows.Keys
      && forall id | id in t.workflows ::
           var r := t.workflows[id];
           u.workflows[id] == if r.status == Suspended && WorkflowRanOut(t, id, now)
                              then r.(status := Pending, retryAfter := "", occ := r.occ + 1) else r
  {
    hide FormatTime, ScanTime;
    var keys := ExpiredKeys(t, FormatTime(now));
    ExpiredExactly(t, now);
    forall id | id in t.workflows
      ensures id in IdsOf(t, keys) <==> WorkflowRanOut(t, id, now)
    {
    }
  }

  /** A deadline not shadowed by the clock's time: gone exactly from that instant on. */
  lemma GoneFrom(t: Tables, key: string, d: Instant, now: Instant)
    requires key in t.subs && t.subs[key].deadline == FormatTime(d) && Nonzero(d) && Nonzero(now)
    requires !Shadowed(d, now) && !Shadowed(now, d)
    ensures key !in TimeOutSubscriptions(t, FormatTime(now)).subs <==> d <= now
    ensures now < d ==> TimeOutSubscriptions(t, FormatTime(now)).subs[key] == t.subs[key]
  {
    TextComesBy(d, now);
    ComesByIsOrder(d, now);
    StampNonEmpty(d);
  }
}
