/** Every sequential workflow ends: rounds of Promote, TimeOutSubscriptions and RunOnce bring it
    to a terminal state, whatever else happens between them. */
module Termination {
  import opened Prelude
  import opened Timestamps
  import opened Database
  import opened Workflow
  import opened StoreOps
  import opened Outcomes
  import opened Backoff
  import opened Trails
  import opened Replay
  import opened Advance
  import opened Driver
  import opened DriverEvents
  import opened Charges

  // ---- rounds ----

  /** What happens since the last round, and then a round: promote, time out, and run the
      records that a RunOnce lists. */
  datatype Round = Round(
    others: seq<Action>, at: Instant, records: seq<Record>, out: string -> Outside, until: Instant)

  function Ready(en: Engine, db: Tables, r: Round): Tables {
    Act(en, Act(en, Run(en, db, r.others), Promote(r.at)), TimeOut(r.at))
  }

  function Do(en: Engine, db: Tables, r: Round): Tables {
    RunListed(en, Ready(en, db, r), r.records, r.out)
  }

  function Rounds(en: Engine, db: Tables, rs: seq<Round>): Tables {
    if rs == [] then db else Do(en, Rounds(en, db, rs[..|rs| - 1]), rs[|rs| - 1])
  }

  function ClockAfter(rs: seq<Round>, clock: Instant): Instant {
    if rs == [] then clock else rs[|rs| - 1].until
  }

  /** The clock has reached the record's retry_after, by the instants and by their texts. */
  predicate Ripe(rec: Record, at: Instant) {
    && (rec.status == Suspended ==> rec.retryAfter != "")
    && (rec.retryAfter != "" ==>
          && ScanTime(rec.retryAfter).Some? && ScanTime(rec.retryAfter).value <= at
          && LexAtMost(rec.retryAfter, FormatTime(at)))
  }

  predicate Lists(records: seq<Record>, id: string) {
    exists i :: 0 <= i < |records| && records[i].id == id
  }

  /** Nothing executes the workflow, and no promotion wakes it whose time is after `at`. */
  ghost predicate Patient(en: Engine, db: Tables, id: string, actions: seq<Action>, at: Instant) {
    actions != [] ==>
      var front, last := actions[..|actions| - 1], actions[|actions| - 1];
      && Patient(en, db, id, front, at)
      && (Between(last, id) || (last.Promote? && WokenInTime(Run(en, db, front), id, last.at, at)))
  }

  predicate WokenInTime(db: Tables, id: string, now: Instant, at: Instant) {
    id in db.workflows && Due(db.workflows[id], FormatTime(now)) ==>
      ScanTime(db.workflows[id].retryAfter).Some? && ScanTime(db.workflows[id].retryAfter).value <= at
  }

  /** The clock goes on, and has reached the workflow's retry_after; RunOnce lists schedulable
      records, the workflow's among them. */
  ghost predicate FairRound(en: Engine, db: Tables, id: string, r: Round, clock: Instant) {
    var before := Run(en, db, r.others);
    && Patient(en, db, id, r.others, r.at)
    && clock <= r.at <= r.until && Steady(r.out(id).e, r.at, r.until)
    && ListedIn(Ready(en, db, r), r.records, r.at)
    && (id in before.workflows && Unfinished(before.workflows[id]) ==>
          Ripe(before.workflows[id], r.at) && Lists(r.records, id))
  }

  ghost predicate Fair(en: Engine, db: Tables, id: string, rs: seq<Round>, clock: Instant) {
    rs != [] ==>
      var front, r := rs[..|rs| - 1], rs[|rs| - 1];
      Fair(en, db, id, front, clock) && FairRound(en, Rounds(en, db, front), id, r, ClockAfter(front, clock))
  }

  // ---- up to the RunOnce ----

  /** A suspended record's time is reached. */
  predicate Reached(rec: Record, at: Instant) {
    rec.status == Suspended ==> ScanTime(rec.retryAfter).Some? && ScanTime(rec.retryAfter).value <= at
  }

  lemma SleepsAreReached(en: Engine, db: Tables, rec: Record, clock: Instant, at: Instant)
    requires rec.wtype in en.defs && SleepsKnown(en, db, rec, clock) && clock <= at && Reached(rec, at)
    ensures Over(WayOf(en, db, rec).sleeps, at, {})
  {
    forall s | s in WayOf(en, db, rec).sleeps && Asleep(db, rec, s)
      ensures s <= at
    {
      SleepIsReached(rec, s, at);
    }
  }

  lemma SleepIsReached(rec: Record, s: Instant, at: Instant)
    requires rec.status == Suspended && rec.retryAfter == FormatTime(s) && FourDigitYear(s) && Reached(rec, at)
    ensures s <= at
  {
    StampReadsBack(s);
  }

  lemma PromotedRecord(db: Tables, id: string, at: Instant)
    requires id in db.workflows && Unfinished(db.workflows[id]) && Ripe(db.workflows[id], at)
    ensures var u := PromoteSuspended(db, FormatTime(at));
      id in u.workflows && Schedulable(u.workflows[id], FormatTime(at))
      && u.workflows[id] == if db.workflows[id].status == Suspended then Wake(db.workflows[id]) else db.workflows[id]
  {
    hide FormatTime, ScanTime;
  }

  lemma PromotedOnTrack(en: Engine, db: Tables, u: Tables, rec: Record, b: Record, n: nat, clock: Instant, at: Instant)
    requires OnTrack(en, db, rec, n, clock) && clock <= at && Reached(rec, at)
    requires u.steps == db.steps && u.subs == db.subs && (b == rec || b == Wake(rec))
    ensures OnTrack(en, u, b, n, at) && Charged(u, WhoOf(b)) == Charged(db, WhoOf(rec))
  {
    hide FormatTime, ScanTime;
    SleepsAreReached(en, db, rec, clock, at);
    SameStanding(en, db, u, rec, b, n);
    SpareIsSame(en, rec, b);
    SameWay(en, db, u, rec, b);
  }

  lemma PromotedIsReady(en: Engine, db: Tables, id: string, n: nat, clock: Instant, at: Instant)
    requires AllSound(en, db) && id in db.workflows && OnTrack(en, db, db.workflows[id], n, clock)
    requires clock <= at && Ripe(db.workflows[id], at)
    ensures var u := Act(en, db, Promote(at));
      && AllSound(en, u) && Better(db, u, id) && OnTrack(en, u, u.workflows[id], n, at)
      && Schedulable(u.workflows[id], FormatTime(at))
  {
    hide FormatTime, ScanTime;
    var u := PromoteSuspended(db, FormatTime(at));
    PromoteIsSound(en, db, FormatTime(at));
    PromotedRecord(db, id, at);
    PromotedOnTrack(en, db, u, db.workflows[id], u.workflows[id], n, clock, at);
  }

  lemma TimedOutIsReady(en: Engine, db: Tables, id: string, n: nat, at: Instant)
    requires AllSound(en, db) && id in db.workflows && OnTrack(en, db, db.workflows[id], n, at)
    requires Schedulable(db.workflows[id], FormatTime(at))
    ensures var u := Act(en, db, TimeOut(at));
      && AllSound(en, u) && Better(db, u, id) && OnTrack(en, u, u.workflows[id], n, at)
      && Schedulable(u.workflows[id], FormatTime(at))
  {
    hide FormatTime;
    BetweenKeepsTrack(en, db, TimeOut(at), id, n, at);
    BetweenLeavesRecord(en, db, TimeOut(at), id);
  }

  lemma BetterTransitive(t: Tables, u: Tables, v: Tables, id: string)
    requires Better(t, u, id) && Better(u, v, id)
    ensures Better(t, v, id)
  {
  }

  lemma BetterHasMore(db: Tables, u: Tables, id: string)
    requires Better(db, u, id)
    ensures Potential(u, id) >= Potential(db, id)
  {
    SubsetIsSmaller(Charged(db, WhoOf(db.workflows[id])), Charged(u, WhoOf(db.workflows[id])));
  }

  lemma LaterIsOnTrack(en: Engine, db: Tables, rec: Record, n: nat, clock: Instant, at: Instant)
    requires OnTrack(en, db, rec, n, clock) && clock <= at
    ensures OnTrack(en, db, rec, n, at)
  {
  }

  /** A promotion leaves the workflow as it is, or wakes it. */
  lemma PromotionKeepsTrack(en: Engine, db: Tables, id: string, n: nat, now: Instant, at: Instant)
    requires AllSound(en, db) && id in db.workflows && OnTrack(en, db, db.workflows[id], n, at)
    requires WokenInTime(db, id, now, at)
    ensures var u := Act(en, db, Promote(now));
      AllSound(en, u) && Better(db, u, id) && OnTrack(en, u, u.workflows[id], n, at)
  {
    hide FormatTime, ScanTime;
    var u := PromoteSuspended(db, FormatTime(now));
    PromoteIsSound(en, db, FormatTime(now));
    var rec, b := db.workflows[id], u.workflows[id];
    if Due(rec, FormatTime(now)) {
      PromotedOnTrack(en, db, u, rec, b, n, at, at);
    } else {
      SameStanding(en, db, u, rec, b, n);
      SameWay(en, db, u, rec, b);
    }
  }

  /** What comes between the rounds. */
  lemma {:induction false} OthersKeepTrack(en: Engine, db: Tables, id: string, n: nat, actions: seq<Action>,
          at: Instant)
    requires AllSound(en, db) && id in db.workflows && OnTrack(en, db, db.workflows[id], n, at)
    requires Patient(en, db, id, actions, at)
    ensures var u := Run(en, db, actions);
      AllSound(en, u) && Better(db, u, id) && OnTrack(en, u, u.workflows[id], n, at)
  {
    if actions != [] {
      var front, last := actions[..|actions| - 1], actions[|actions| - 1];
      OthersKeepTrack(en, db, id, n, front, at);
      var d := Run(en, db, front);
      if Between(last, id) {
        BetweenKeepsTrack(en, d, last, id, n, at);
      } else {
        PromotionKeepsTrack(en, d, id, n, last.at, at);
      }
      BetterTransitive(db, d, Run(en, db, actions), id);
    }
  }

  lemma ReadyIsOnTrack(en: Engine, db: Tables, id: string, n: nat, clock: Instant, r: Round)
    requires AllSound(en, db) && id in db.workflows && OnTrack(en, db, db.workflows[id], n, clock)
    requires Patient(en, db, id, r.others, r.at) && clock <= r.at
    requires var before := Run(en, db, r.others); id in before.workflows ==> Ripe(before.workflows[id], r.at)
    ensures var u := Ready(en, db, r);
      && AllSound(en, u) && Better(db, u, id) && OnTrack(en, u, u.workflows[id], n, r.at)
      && Schedulable(u.workflows[id], FormatTime(r.at))
  {
    hide FormatTime, ScanTime;
    var d1 := Run(en, db, r.others);
    var d2 := Act(en, d1, Promote(r.at));
    LaterIsOnTrack(en, db, db.workflows[id], n, clock, r.at);
    OthersKeepTrack(en, db, id, n, r.others, r.at);
    PromotedIsReady(en, d1, id, n, r.at, r.at);
    TimedOutIsReady(en, d2, id, n, r.at);
    BetterTransitive(db, d1, d2, id);
    BetterTransitive(db, d2, Ready(en, db, r), id);
  }

  // ---- the RunOnce ----

  lemma {:induction false} RunListedConcat(en: Engine, db: Tables, a: seq<Record>, b: seq<Record>,
          out: string -> Outside)
    ensures RunListed(en, db, a + b, out) == RunListed(en, RunListed(en, db, a, out), b, out)
  {
    if b == [] {
      assert a + b == a;
    } else {
      RunListedConcat(en, db, a, b[..|b| - 1], out);
      assert (a + b)[..|a + b| - 1] == a + b[..|b| - 1];
    }
  }

  /** Running other records is something between. */
  lemma {:induction false} ExecutionsAreBetween(records: seq<Record>, listed: Instant, out: string -> Outside,
          id: string)
    requires forall i :: 0 <= i < |records| ==> records[i].id != id
    ensures AllBetween(Executions(records, listed, out), id)
  {
    if records != [] {
      var front := records[..|records| - 1];
      forall i | 0 <= i < |front|
        ensures front[i].id != id
      {
        assert front[i] == records[i];
      }
      ExecutionsAreBetween(front, listed, out, id);
      assert records[|records| - 1].id != id;
    }
  }

  /** The records before the workflow's leave it and its record alone. */
  lemma RunAhead(en: Engine, db: Tables, id: string, n: nat, clock: Instant, records: seq<Record>, listed: Instant,
          out: string -> Outside)
    requires AllSound(en, db) && id in db.workflows && OnTrack(en, db, db.workflows[id], n, clock)
    requires ListedIn(db, records, listed) && forall i :: 0 <= i < |records| ==> records[i].id != id
    ensures var u := RunListed(en, db, records, out);
      && AllSound(en, u) && Better(db, u, id) && OnTrack(en, u, u.workflows[id], n, clock)
      && id in u.workflows && u.workflows[id] == db.workflows[id]
  {
    RunOnceIsARun(en, db, records, listed, out);
    ExecutionsAreBetween(records, listed, out, id);
    ManyBetween(en, db, Executions(records, listed, out), id, n, clock);
  }

  /** A finished workflow stays finished, any other stays on track. */
  ghost predicate Stays(en: Engine, db: Tables, u: Tables, id: string, n: nat, clock: Instant) {
    && SameWorkflow(db, u, id)
    && if Terminal(db.workflows[id].status) then Terminal(u.workflows[id].status)
       else Better(db, u, id) && OnTrack(en, u, u.workflows[id], n, clock)
  }

  /** The records after it do not undo what came of it. */
  lemma RunBehind(en: Engine, db: Tables, id: string, n: nat, clock: Instant, records: seq<Record>, listed: Instant,
          out: string -> Outside)
    requires AllSound(en, db) && id in db.workflows
    requires Terminal(db.workflows[id].status) || OnTrack(en, db, db.workflows[id], n, clock)
    requires ListedIn(db, records, listed) && forall i :: 0 <= i < |records| ==> records[i].id != id
    ensures var u := RunListed(en, db, records, out); AllSound(en, u) && Stays(en, db, u, id, n, clock)
  {
    if Terminal(db.workflows[id].status) {
      RunOnceIsARun(en, db, records, listed, out);
      ExecutionsAreBetween(records, listed, out, id);
      FinishedStaysOn(en, db, Executions(records, listed, out), id);
    } else {
      RunAhead(en, db, id, n, clock, records, listed, out);
    }
  }

  lemma PrefixIsListed(db: Tables, records: seq<Record>, i: nat, listed: Instant)
    requires ListedIn(db, records, listed) && i <= |records|
    ensures ListedIn(db, records[..i], listed)
  {
    hide FormatTime, Schedulable;
  }

  /** The later records of a list are still listed once the earlier ones have run. */
  lemma RestIsListed(en: Engine, db: Tables, records: seq<Record>, i: nat, listed: Instant, out: string -> Outside)
    requires ListedIn(db, records, listed) && i <= |records|
    ensures ListedIn(db, records[..i], listed) && ListedIn(RunListed(en, db, records[..i], out), records[i..], listed)
  {
    hide FormatTime, Schedulable, RunListed;
    PrefixIsListed(db, records, i, listed);
    RunOnceIsARun(en, db, records[..i], listed, out);
    forall j | i <= j < |records|
      ensures forall k | 0 <= k < i :: records[..i][k].id != records[j].id
    {
    }
  }

  /** One step of the list. */
  lemma RunListedNext(en: Engine, db: Tables, records: seq<Record>, i: nat, out: string -> Outside)
    requires i < |records|
    ensures RunListed(en, db, records[..i + 1], out)
         == RunRecord(en, RunListed(en, db, records[..i], out), records[i], out(records[i].id).e, out(records[i].id).at)
  {
    assert records[..i + 1][..i] == records[..i];
  }

  lemma ListedAround(db: Tables, records: seq<Record>, i: nat, listed: Instant)
    requires ListedIn(db, records, listed) && i < |records|
    ensures records[i].id in db.workflows && records[i] == db.workflows[records[i].id]
    ensures records[i].status == Status.Pending
    ensures forall j :: 0 <= j < |records[..i]| ==> records[..i][j].id != records[i].id
    ensures var rest := records[i + 1..]; forall j :: 0 <= j < |rest| ==> rest[j].id != records[i].id
  {
    hide FormatTime;
  }

  lemma ChargedStands(en: Engine, db: Tables, d: Tables, id: string, n: nat, to: Instant)
    requires id in db.workflows && EndedOrCharged(en, db, d, id, n, to)
    ensures id in d.workflows && (Terminal(d.workflows[id].status) || OnTrack(en, d, d.workflows[id], n, to))
  {
  }

  /** The workflow's own turn in the list. */
  lemma TurnIsCharged(en: Engine, db: Tables, rec: Record, n: nat, e: Env, at: Instant, from: Instant, to: Instant)
    requires AllSound(en, db) && rec.id in db.workflows && db.workflows[rec.id] == rec
    requires rec.status == Status.Pending && OnTrack(en, db, rec, n, from) && Steady(e, from, to)
    ensures var u := RunRecord(en, db, rec, e, at); AllSound(en, u) && EndedOrCharged(en, db, u, rec.id, n, to)
  {
    hide FormatTime;
    ExecutionIsCharged(en, db, rec.id, n, e, at, from, to);
    ExecuteIsSound(en, db, rec.id, e, at);
  }

  /** The list up to the workflow. */
  lemma ListedIsCharged(en: Engine, db: Tables, id: string, n: nat, records: seq<Record>, i: nat, listed: Instant,
          out: string -> Outside, to: Instant)
    requires AllSound(en, db) && id in db.workflows && OnTrack(en, db, db.workflows[id], n, listed)
    requires ListedIn(db, records, listed) && i < |records| && records[i].id == id && Steady(out(id).e, listed, to)
    ensures var u := RunListed(en, db, records[..i + 1], out); AllSound(en, u) && EndedOrCharged(en, db, u, id, n, to)
  {
    hide *;
    ListedAround(db, records, i, listed);
    RestIsListed(en, db, records, i, listed, out);
    RunAhead(en, db, id, n, listed, records[..i], listed, out);
    RunListedNext(en, db, records, i, out);
    var d1 := RunListed(en, db, records[..i], out);
    TurnIsCharged(en, d1, records[i], n, out(id).e, out(id).at, listed, to);
    ChargedAfter(en, db, d1, RunListed(en, db, records[..i + 1], out), id, n, to);
  }

  lemma ChargedAfter(en: Engine, db: Tables, d: Tables, u: Tables, id: string, n: nat, to: Instant)
    requires Better(db, d, id) && EndedOrCharged(en, d, u, id, n, to)
    ensures EndedOrCharged(en, db, u, id, n, to)
  {
    BetterHasMore(db, d, id);
  }

  /** A RunOnce that lists the workflow, others before it and after it, ends or charges it. */
  lemma RunOnceIsCharged(en: Engine, db: Tables, id: string, n: nat, records: seq<Record>, i: nat, listed: Instant,
          out: string -> Outside, to: Instant)
    requires AllSound(en, db) && id in db.workflows && OnTrack(en, db, db.workflows[id], n, listed)
    requires ListedIn(db, records, listed) && i < |records| && records[i].id == id && Steady(out(id).e, listed, to)
    ensures var u := RunListed(en, db, records, out); AllSound(en, u) && EndedOrCharged(en, db, u, id, n, to)
  {
    hide *;
    ListedIsCharged(en, db, id, n, records, i, listed, out, to);
    var d := RunListed(en, db, records[..i + 1], out);
    RestIsListed(en, db, records, i + 1, listed, out);
    ListedAround(db, records, i, listed);
    ChargedStands(en, db, d, id, n, to);
    RunBehind(en, d, id, n, to, records[i + 1..], listed, out);
    RunListedConcat(en, db, records[..i + 1], records[i + 1..], out);
    assert records[..i + 1] + records[i + 1..] == records;
    ChargedOn(en, db, d, RunListed(en, db, records, out), id, n, to);
  }

  lemma ChargedOn(en: Engine, db: Tables, d: Tables, u: Tables, id: string, n: nat, to: Instant)
    requires id in db.workflows && EndedOrCharged(en, db, d, id, n, to) && Stays(en, d, u, id, n, to)
    ensures EndedOrCharged(en, db, u, id, n, to)
  {
    if !Terminal(u.workflows[id].status) {
      BetterHasMore(d, u, id);
    }
  }

  // ---- finished workflows ----

  /** A finished workflow stays as it is. */
  predicate Finished(t: Tables, id: string) {
    id in t.workflows && Terminal(t.workflows[id].status)
  }

  lemma FinishedStays(en: Engine, db: Tables, a: Action, id: string)
    requires AllSound(en, db) && Finished(db, id)
    ensures AllSound(en, Act(en, db, a)) && Finished(Act(en, db, a), id) && SameWorkflow(db, Act(en, db, a), id)
  {
    hide FormatTime;
    NextIsSound(en, db, a);
    NextIsSameWorkflow(en, db, a, id);
    if a.Execute? && a.id in db.workflows {
      RunTouchesOne(en, db, db.workflows[a.id], a.e, a.at);
    }
  }

  lemma {:induction false} FinishedStaysOn(en: Engine, db: Tables, actions: seq<Action>, id: string)
    requires AllSound(en, db) && Finished(db, id)
    ensures var u := Run(en, db, actions); AllSound(en, u) && Finished(u, id) && SameWorkflow(db, u, id)
  {
    if actions != [] {
      var front := actions[..|actions| - 1];
      FinishedStaysOn(en, db, front, id);
      FinishedStays(en, Run(en, db, front), actions[|actions| - 1], id);
    }
  }

  lemma FinishedStaysRound(en: Engine, db: Tables, id: string, r: Round)
    requires AllSound(en, db) && Finished(db, id) && ListedIn(Ready(en, db, r), r.records, r.at)
    ensures var u := Do(en, db, r); AllSound(en, u) && Finished(u, id) && SameWorkflow(db, u, id)
  {
    hide FormatTime;
    var d1 := Run(en, db, r.others);
    var d2 := Act(en, d1, Promote(r.at));
    FinishedStaysOn(en, db, r.others, id);
    FinishedStays(en, d1, Promote(r.at), id);
    FinishedStays(en, d2, TimeOut(r.at), id);
    RunOnceIsARun(en, Ready(en, db, r), r.records, r.at, r.out);
    FinishedStaysOn(en, Ready(en, db, r), Executions(r.records, r.at, r.out), id);
  }

  // ---- the bound ----

  /** A fair round ends the workflow, or is charged. */
  lemma RoundIsCharged(en: Engine, db: Tables, id: string, n: nat, clock: Instant, r: Round)
    requires AllSound(en, db) && id in db.workflows && OnTrack(en, db, db.workflows[id], n, clock)
    requires FairRound(en, db, id, r, clock)
    ensures AllSound(en, Do(en, db, r)) && EndedOrCharged(en, db, Do(en, db, r), id, n, r.until)
  {
    hide FormatTime, ScanTime;
    var ready := Ready(en, db, r);
    LaterIsOnTrack(en, db, db.workflows[id], n, clock, r.at);
    OthersKeepTrack(en, db, id, n, r.others, r.at);
    ReadyIsOnTrack(en, db, id, n, clock, r);
    var i :| 0 <= i < |r.records| && r.records[i].id == id;
    RunOnceIsCharged(en, ready, id, n, r.records, i, r.at, r.out, r.until);
    BetterHasMore(db, ready, id);
  }

  /** After so many fair rounds the workflow has finished, or as much is charged. */
  lemma {:induction false} RoundsAreCharged(en: Engine, db: Tables, id: string, n: nat, clock: Instant, rs: seq<Round>)
    requires AllSound(en, db) && id in db.workflows && OnTrack(en, db, db.workflows[id], n, clock)
    requires Fair(en, db, id, rs, clock)
    ensures var u := Rounds(en, db, rs);
      && AllSound(en, u) && SameWorkflow(db, u, id)
      && (Finished(u, id)
          || (OnTrack(en, u, u.workflows[id], n, ClockAfter(rs, clock))
              && Potential(u, id) >= |rs| + Potential(db, id)))
  {
    if rs != [] {
      var front, r := rs[..|rs| - 1], rs[|rs| - 1];
      RoundsAreCharged(en, db, id, n, clock, front);
      var u := Rounds(en, db, front);
      if Finished(u, id) {
        FinishedStaysRound(en, u, id, r);
      } else {
        RoundIsCharged(en, u, id, n, ClockAfter(front, clock), r);
      }
    }
  }

  /** A fresh workflow, submitted under an id nobody used. */
  lemma SubmittedIsOnTrack(en: Engine, db: Tables, rec: Record, now: string, n: nat, clock: Instant)
    requires AllSound(en, db) && rec.id !in db.workflows
    requires rec.wtype in en.defs && Sequential(ProgramOf(en, rec), n)
    ensures var u := Act(en, db, Submit(rec, now));
      && AllSound(en, u) && rec.id in u.workflows && OnTrack(en, u, u.workflows[rec.id], n, clock)
      && WhoOf(u.workflows[rec.id]) == WhoOf(rec)
  {
    hide FormatTime;
    var u := Act(en, db, Submit(rec, now));
    NextIsSound(en, db, Submit(rec, now));
    NothingYet(db, WhoOf(rec));
    FreshIsStanding(en, u, u.workflows[rec.id], n);
  }

  lemma FreshIsStanding(en: Engine, u: Tables, b: Record, n: nat)
    requires RoundTrips(en.codec) && b.wtype in en.defs && Sequential(ProgramOf(en, b), n)
    requires RowsOf(u, WhoOf(b)) == map[] && forall key | key in u.subs :: u.subs[key].who != WhoOf(b)
    ensures Standing(en, u, b, n) && Charged(u, WhoOf(b)) == {} && WayOf(en, u, b).sleeps == {}
  {
  }

  /** A submitted workflow of at most n durable operations in sequence is in a terminal state
      after n + max(MaxAttempts, 1) rounds whose clocks reach its retry_after, whatever its
      waits' keys are made from, and whatever events, cancellations and other workflows come
      between the rounds and within each RunOnce. */
  lemma Terminates(en: Engine, first: seq<Action>, rec: Record, now: string, n: nat, clock: Instant, rs: seq<Round>)
    requires RoundTrips(en.codec) && rec.id !in Run(en, EMPTY, first).workflows
    requires rec.wtype in en.defs && Sequential(ProgramOf(en, rec), n)
    requires Fair(en, Act(en, Run(en, EMPTY, first), Submit(rec, now)), rec.id, rs, clock)
    requires |rs| >= n + Max(en.defs[rec.wtype].policy.maxAttempts, 1)
    ensures Finished(Rounds(en, Act(en, Run(en, EMPTY, first), Submit(rec, now)), rs), rec.id)
  {
    hide FormatTime;
    RunIsAllSound(en, EMPTY, first);
    SubmittedIsOnTrack(en, Run(en, EMPTY, first), rec, now, n, clock);
    var db := Act(en, Run(en, EMPTY, first), Submit(rec, now));
    RoundsAreCharged(en, db, rec.id, n, clock, rs);
    var u := Rounds(en, db, rs);
    var b := u.workflows[rec.id];
    SpareIsSame(en, rec, b);
    if !Finished(u, rec.id) {
      ChargedIsBounded(en, u, b, n, ClockAfter(rs, clock));
    }
  }
}
