/** Replay transparency: suspended, retried and re-executed from the top, a workflow means
    what its saved values say it means. */
module Replay {
  import opened Prelude
  import opened Names
  import opened Timestamps
  import opened Database
  import opened Workflow
  import opened Trails

  // ---- what an execution may change ----

  /** Rows, subscriptions and calls are only added, and only under names this execution is
      the first to track; a called step had no row, a new subscription's step still has none. */
  ghost predicate Grown(a: State, b: State, who: Who) {
    && a.seen <= b.seen && a.calls <= b.calls && Extends(a.rows, b.rows)
    && (forall n | n in b.rows && n !in a.rows :: n in b.seen && n !in a.seen)
    && (forall n | n in b.calls && n !in a.calls :: n in b.seen && n !in a.seen && n !in a.rows)
    && (forall k | k in a.subs :: k in b.subs && b.subs[k] == a.subs[k])
    && (forall k | k in b.subs && k !in a.subs ::
          b.subs[k].who == who && b.subs[k].step in b.seen && b.subs[k].step !in a.seen && b.subs[k].step !in b.rows)
  }

  lemma GrownTransitive(a: State, b: State, c: State, who: Who)
    requires Grown(a, b, who) && Grown(b, c, who)
    ensures Grown(a, c, who)
  {
  }

  lemma SaveGrows(a: State, name: string, calls: set<string>, v: Val, e: Env)
    requires name !in a.seen && name !in a.rows && calls <= {name}
    ensures Grown(a, SaveValue(name, v, State(a.seen + {name}, a.rows, a.subs, a.calls + calls), e).st, e.who)
  {
  }

  lemma ExecuteGrows(p: Prog, a: State, name: string, e: Env)
    requires name !in a.seen && name !in a.rows
    ensures Grown(a, Execute(p, name, a.(seen := a.seen + {name}), e).st, e.who)
  {
    var st := a.(seen := a.seen + {name});
    if !p.Wait? {
      var invoked := Invoke(p, st, name);
      assert Grown(a, invoked, e.who);
      assert a.calls + {} == a.calls;
      if CallFn(p, name, e).Ok? {
        SaveGrows(a, name, if p.Sleep? then {} else {name}, CallFn(p, name, e).v, e);
      }
    }
  }

  lemma PerformGrows(p: Prog, name: string, a: State, e: Env)
    ensures Grown(a, Perform(p, name, a, e).st, e.who)
  {
    hide FormatTime;
    if name !in a.seen && name !in a.rows {
      ExecuteGrows(p, a, name, e);
    }
  }

  lemma {:induction false} ExecGrows(p: Prog, sc: Scope, st: State, e: Env)
    ensures Grown(st, Exec(p, sc, st, e).0, e.who)
    decreases p
  {
    if p.Parallel? {
      ExecAllGrows(p.branches, sc, st, e);
      var (st1, outs) := ExecAll(p.branches, sc, st, e);
      var n := AfterJoin(p, outs);
      if n.Go? {
        ExecGrows(n.p, sc, st1, e);
        GrownTransitive(st, st1, Exec(p, sc, st, e).0, e.who);
      }
    } else if IsCall(p) {
      var name := CallName(p, sc);
      var r := Perform(p, name, st, e);
      PerformGrows(p, name, st, e);
      if r.Replied? {
        var n := Resume(p, name, r.reply, e);
        if n.Go? {
          ExecGrows(n.p, Counted(p, sc), r.st, e);
          GrownTransitive(st, r.st, Exec(p, sc, st, e).0, e.who);
        }
      }
    }
  }

  lemma {:induction false} ExecAllGrows(bs: seq<Branch>, sc: Scope, st: State, e: Env)
    ensures Grown(st, ExecAll(bs, sc, st, e).0, e.who)
    decreases bs
  {
    if bs != [] {
      var (st1, _) := Exec(bs[0].body, ChildScope(sc, bs[0].name), st, e);
      ExecGrows(bs[0].body, ChildScope(sc, bs[0].name), st, e);
      ExecAllGrows(bs[1..], sc, st1, e);
      GrownTransitive(st, st1, ExecAll(bs, sc, st, e).0, e.who);
    }
  }

  // ---- an execution follows the trail of its final rows ----

  /** A call that replies leaves a row from which the same reply is read again. */
  lemma ReplyIsSaved(p: Prog, name: string, st: State, e: Env)
    requires RoundTrips(e.codec) && Perform(p, name, st, e).Replied?
    ensures var r := Perform(p, name, st, e);
      && name !in st.seen && r.st.seen == st.seen + {name} && r.st.subs == st.subs
      && name in r.st.rows && ReadRow(r.st.rows[name], e.codec) == Readable(r.reply)
  {
  }

  lemma HaltedTracksOne(p: Prog, name: string, st: State, e: Env)
    ensures Perform(p, name, st, e).st.seen <= st.seen + {name}
  {
  }

  /** A call subscribes as a wait, under its own name and key. */
  lemma PerformSubscribes(p: Prog, name: string, st: State, e: Env)
    ensures var subs := Perform(p, name, st, e).st.subs;
      forall k | k in subs && k !in st.subs :: (subs[k].step, k) in WaitAt(p, name)
  {
    hide FormatTime;
  }

  lemma ResumeGoes(p: Prog, name: string, reply: Reply, e: Env)
    requires IsCall(p)
    ensures Resume(p, name, reply, e).Go? ==> Resume(p, name, reply, e) == Onward(p, reply)
  {
  }

  /** A join goes on exactly when every branch returned. */
  lemma {:induction false} JoinErrorNone(outs: seq<Outcome>)
    ensures JoinError(outs) == None <==> forall i :: 0 <= i < |outs| ==> outs[i].Returned?
  {
    if outs != [] {
      JoinErrorNone(outs[1..]);
      assert forall i :: 0 < i < |outs| ==> outs[i] == outs[1..][i - 1];
    }
  }

  predicate AllReturned(outs: seq<Outcome>) {
    forall i :: 0 <= i < |outs| ==> outs[i].Returned?
  }

  function EndsOf(outs: seq<Outcome>): seq<Option<Val>> {
    seq(|outs|, i requires 0 <= i < |outs| => if outs[i].Returned? then Some(outs[i].v) else None)
  }

  lemma {:induction false} EndsOfReturned(outs: seq<Outcome>)
    requires AllReturned(outs)
    ensures None !in EndsOf(outs) && Ended(EndsOf(outs)) == Values(outs)
  {
    if outs != [] {
      EndsOfReturned(outs[1..]);
      assert EndsOf(outs)[1..] == EndsOf(outs[1..]);
    }
  }

  lemma EndsOfCons(out: Outcome, outs: seq<Outcome>)
    requires AllReturned([out] + outs)
    ensures out.Returned? && AllReturned(outs)
    ensures EndsOf([out] + outs) == [Some(out.v)] + EndsOf(outs)
  {
    assert out == ([out] + outs)[0];
    assert forall i :: 0 <= i < |outs| ==> outs[i] == ([out] + outs)[i + 1];
  }

  /** New subscriptions are for waits of the trail. */
  predicate SubscribedOn(a: State, b: State, t: Trail) {
    forall k | k in b.subs && k !in a.subs :: (b.subs[k].step, k) in t.waits
  }

  /** What the execution tracks lies on the trail of the rows; if it returns, the trail ends
      in its response and has no name without a row. */
  ghost predicate Followed(p: Prog, sc: Scope, st: State, e: Env, rows: map<string, Row>) {
    var (st1, out) := Exec(p, sc, st, e);
    var t := Follow(p, sc, rows, e.codec);
    && st1.seen <= st.seen + t.names && SubscribedOn(st, st1, t)
    && (out.Returned? ==> t.end == Some(out.v) && t.names <= st1.rows.Keys)
  }

  lemma CallFollows(p: Prog, sc: Scope, st: State, e: Env, rows: map<string, Row>)
    requires IsCall(p) && RoundTrips(e.codec) && Extends(Exec(p, sc, st, e).0.rows, rows)
    requires var name := CallName(p, sc); var r := Perform(p, name, st, e);
      r.Replied? && Resume(p, name, r.reply, e).Go? ==>
      Followed(Resume(p, name, r.reply, e).p, Counted(p, sc), r.st, e, rows)
    ensures Followed(p, sc, st, e, rows)
  {
    hide Perform;
    var name := CallName(p, sc);
    var r := Perform(p, name, st, e);
    HaltedTracksOne(p, name, st, e);
    PerformSubscribes(p, name, st, e);
    if r.Replied? {
      ReplyIsSaved(p, name, st, e);
      ResumeGoes(p, name, r.reply, e);
      var n := Resume(p, name, r.reply, e);
      if n.Go? {
        ExecGrows(n.p, Counted(p, sc), r.st, e);
      }
    }
  }

  lemma JoinFollows(p: Prog, sc: Scope, st: State, e: Env, rows: map<string, Row>)
    requires p.Parallel? && Extends(Exec(p, sc, st, e).0.rows, rows)
    requires AllFollowed(p.branches, sc, st, e, rows)
    requires var (st1, outs) := ExecAll(p.branches, sc, st, e);
      var n := AfterJoin(p, outs); n.Go? ==> Followed(n.p, sc, st1, e, rows)
    ensures Followed(p, sc, st, e, rows)
  {
    var (st1, outs) := ExecAll(p.branches, sc, st, e);
    var n := AfterJoin(p, outs);
    if n.Go? {
      ExecGrows(n.p, sc, st1, e);
      JoinErrorNone(outs);
      EndsOfReturned(outs);
    }
  }

  /** An execution follows the trail of its final rows, or of any later ones. */
  lemma {:induction false} ExecFollows(p: Prog, sc: Scope, st: State, e: Env, rows: map<string, Row>)
    requires RoundTrips(e.codec) && Extends(Exec(p, sc, st, e).0.rows, rows)
    ensures Followed(p, sc, st, e, rows)
    decreases p
  {
    if p.Parallel? {
      var (st1, outs) := ExecAll(p.branches, sc, st, e);
      var n := AfterJoin(p, outs);
      if n.Go? {
        ExecGrows(n.p, sc, st1, e);
        ExecFollows(n.p, sc, st1, e, rows);
      }
      ExecAllFollows(p.branches, sc, st, e, rows);
      JoinFollows(p, sc, st, e, rows);
    } else if IsCall(p) {
      var name := CallName(p, sc);
      var r := Perform(p, name, st, e);
      if r.Replied? && Resume(p, name, r.reply, e).Go? {
        ExecFollows(Resume(p, name, r.reply, e).p, Counted(p, sc), r.st, e, rows);
      }
      CallFollows(p, sc, st, e, rows);
    }
  }

  ghost predicate AllFollowed(bs: seq<Branch>, sc: Scope, st: State, e: Env, rows: map<string, Row>) {
    var (st1, outs) := ExecAll(bs, sc, st, e);
    var (t, ends) := FollowAll(bs, sc, rows, e.codec);
    && st1.seen <= st.seen + t.names && SubscribedOn(st, st1, t)
    && (AllReturned(outs) ==> ends == EndsOf(outs) && t.names <= st1.rows.Keys)
  }

  lemma {:induction false} ExecAllFollows(bs: seq<Branch>, sc: Scope, st: State, e: Env, rows: map<string, Row>)
    requires RoundTrips(e.codec) && Extends(ExecAll(bs, sc, st, e).0.rows, rows)
    ensures AllFollowed(bs, sc, st, e, rows)
    decreases bs
  {
    if bs != [] {
      var (st1, out) := Exec(bs[0].body, ChildScope(sc, bs[0].name), st, e);
      var (st2, outs) := ExecAll(bs[1..], sc, st1, e);
      ExecAllGrows(bs[1..], sc, st1, e);
      ExecFollows(bs[0].body, ChildScope(sc, bs[0].name), st, e, rows);
      ExecAllFollows(bs[1..], sc, st1, e, rows);
      if AllReturned([out] + outs) {
        EndsOfCons(out, outs);
      }
    }
  }

  // ---- running again ----

  /** The settings under which nothing but a missing row stops a replay. */
  ghost predicate Undisturbed(e: Env, earlier: Env) {
    && e.codec == earlier.codec
    && forall n :: e.now(n) >= earlier.now(n) && !e.cancelled(n) && e.fault(n) == NoFault
  }

  /** A finished execution run again on its rows, or on more, takes the same way: the same
      response, nothing written, no step function called. */
  lemma {:induction false} Rerun(p: Prog, sc: Scope, st: State, e: Env, on: State, again: Env)
    requires RoundTrips(e.codec) && Undisturbed(again, e)
    requires Exec(p, sc, st, e).1.Returned? && Extends(Exec(p, sc, st, e).0.rows, on.rows)
    requires on.seen == st.seen
    ensures Exec(p, sc, on, again) == (on.(seen := Exec(p, sc, st, e).0.seen), Exec(p, sc, st, e).1)
    decreases p
  {
    if p.Parallel? {
      var (st1, outs) := ExecAll(p.branches, sc, st, e);
      var n := AfterJoin(p, outs);
      ExecGrows(n.p, sc, st1, e);
      JoinErrorNone(outs);
      RerunAll(p.branches, sc, st, e, on, again);
      Rerun(n.p, sc, st1, e, on.(seen := st1.seen), again);
    } else if IsCall(p) {
      var name := CallName(p, sc);
      var r := Perform(p, name, st, e);
      ReplyIsSaved(p, name, st, e);
      var n := Resume(p, name, r.reply, e);
      ExecGrows(n.p, Counted(p, sc), r.st, e);
      assert Perform(p, name, on, again) == Replied(on.(seen := r.st.seen), r.reply);
      assert Resume(p, name, r.reply, again) == n;
      Rerun(n.p, Counted(p, sc), r.st, e, on.(seen := r.st.seen), again);
    }
  }

  lemma {:induction false} RerunAll(bs: seq<Branch>, sc: Scope, st: State, e: Env, on: State, again: Env)
    requires RoundTrips(e.codec) && Undisturbed(again, e)
    requires AllReturned(ExecAll(bs, sc, st, e).1) && Extends(ExecAll(bs, sc, st, e).0.rows, on.rows)
    requires on.seen == st.seen
    ensures ExecAll(bs, sc, on, again) == (on.(seen := ExecAll(bs, sc, st, e).0.seen), ExecAll(bs, sc, st, e).1)
    decreases bs
  {
    if bs != [] {
      var (st1, out) := Exec(bs[0].body, ChildScope(sc, bs[0].name), st, e);
      var (st2, outs) := ExecAll(bs[1..], sc, st1, e);
      EndsOfCons(out, outs);
      ExecAllGrows(bs[1..], sc, st1, e);
      Rerun(bs[0].body, ChildScope(sc, bs[0].name), st, e, on, again);
      RerunAll(bs[1..], sc, st1, e, on.(seen := st1.seen), again);
    }
  }

  // ---- which rows an execution writes ----

  /** The row some value was saved as. */
  predicate SavedRow(row: Row, c: Codec) {
    && row.error == "" && row.result.Some? && c.decode(row.result.value).Some?
    && c.encode(c.decode(row.result.value).value) == row.result
  }

  /** New rows hold saved values, under names the program asks for plainly. */
  ghost predicate Proper(p: Prog, sc: Scope, a: State, b: State, c: Codec) {
    forall n | n in b.rows && n !in a.rows :: SavedRow(b.rows[n], c) && MayAsk(p, sc, n, Plainly)
  }

  ghost predicate AllProper(bs: seq<Branch>, sc: Scope, a: State, b: State, c: Codec) {
    forall n | n in b.rows && n !in a.rows :: SavedRow(b.rows[n], c) && AnyMayAsk(bs, sc, n, Plainly)
  }

  lemma PerformProper(p: Prog, sc: Scope, st: State, e: Env)
    requires IsCall(p) && RoundTrips(e.codec)
    ensures Proper(p, sc, st, Perform(p, CallName(p, sc), st, e).st, e.codec)
  {
    SavesOwnRow(p, CallName(p, sc), st, e);
  }

  /** The one row a call may write is its own, and only if it is not a wait. */
  lemma SavesOwnRow(p: Prog, name: string, st: State, e: Env)
    requires RoundTrips(e.codec)
    ensures var rows := Perform(p, name, st, e).st.rows;
      forall n | n in rows && n !in st.rows :: n == name && !p.Wait? && SavedRow(rows[n], e.codec)
  {
  }

  lemma {:induction false} ExecProper(p: Prog, sc: Scope, st: State, e: Env)
    requires RoundTrips(e.codec)
    ensures Proper(p, sc, st, Exec(p, sc, st, e).0, e.codec)
    decreases p
  {
    if p.Parallel? {
      ExecAllProper(p.branches, sc, st, e);
      var (st1, outs) := ExecAll(p.branches, sc, st, e);
      var n := AfterJoin(p, outs);
      if n.Go? {
        ExecProper(n.p, sc, st1, e);
        ExecGrows(n.p, sc, st1, e);
      }
    } else if IsCall(p) {
      var name := CallName(p, sc);
      var r := Perform(p, name, st, e);
      PerformProper(p, sc, st, e);
      if r.Replied? {
        ResumeGoes(p, name, r.reply, e);
        if Resume(p, name, r.reply, e).Go? {
          ExecProper(Onward(p, r.reply).p, Counted(p, sc), r.st, e);
          ExecGrows(Onward(p, r.reply).p, Counted(p, sc), r.st, e);
          ProperOnward(p, sc, st, r, Exec(p, sc, st, e).0, e);
        }
      }
    }
  }

  lemma ProperOnward(p: Prog, sc: Scope, st: State, r: Performed, st1: State, e: Env)
    requires IsCall(p) && r.Replied? && Proper(p, sc, st, r.st, e.codec) && Onward(p, r.reply).Go?
    requires Proper(Onward(p, r.reply).p, Counted(p, sc), r.st, st1, e.codec) && Extends(r.st.rows, st1.rows)
    ensures Proper(p, sc, st, st1, e.codec)
  {
    forall n | n in st1.rows && n !in r.st.rows
      ensures MayAsk(p, sc, n, Plainly)
    {
      OnwardMayAsk(p, sc, r.reply, n, Plainly);
    }
  }

  lemma {:induction false} ExecAllProper(bs: seq<Branch>, sc: Scope, st: State, e: Env)
    requires RoundTrips(e.codec)
    ensures AllProper(bs, sc, st, ExecAll(bs, sc, st, e).0, e.codec)
    decreases bs
  {
    if bs != [] {
      var (st1, _) := Exec(bs[0].body, ChildScope(sc, bs[0].name), st, e);
      ExecProper(bs[0].body, ChildScope(sc, bs[0].name), st, e);
      ExecAllProper(bs[1..], sc, st1, e);
      ExecAllGrows(bs[1..], sc, st1, e);
      forall n: string
        ensures MayAsk(bs[0].body, ChildScope(sc, bs[0].name), n, Plainly) ==> AnyMayAsk(bs, sc, n, Plainly)
        ensures AnyMayAsk(bs[1..], sc, n, Plainly) ==> AnyMayAsk(bs, sc, n, Plainly)
      {
        AnyOfRest(bs, sc, n, Plainly);
      }
    }
  }

  // ---- an open wait keeps its step without a row ----

  /** No execution writes the row of a wait the trail is at, not even in another branch. */
  lemma {:induction false} WaitStays(p: Prog, sc: Scope, rows: map<string, Row>, st: State, e: Env, n: string,
          k: string)
    requires RoundTrips(e.codec) && Agreeing(p, sc) && Extends(rows, st.rows)
    requires (n, k) in Follow(p, sc, rows, e.codec).waits && n !in st.rows
    ensures n !in Exec(p, sc, st, e).0.rows
    decreases p
  {
    if p.Parallel? {
      WaitStaysInParallel(p, sc, rows, st, e, n, k);
    } else {
      var name := CallName(p, sc);
      var r := Perform(p, name, st, e);
      SavesOwnRow(p, name, st, e);
      if n != name && r.Replied? {
        var reply := ReadRow(rows[name], e.codec).reply;
        assert r.reply == reply && r.st.rows == st.rows;
        ResumeGoes(p, name, reply, e);
        if Resume(p, name, reply, e).Go? {
          OnwardAgreeing(p, sc, reply);
          WaitStays(Onward(p, reply).p, Counted(p, sc), rows, r.st, e, n, k);
        }
      } else if n == name {
        StopsAtItsWait(p, sc, rows, st, e, n, k);
      }
    }
  }

  /** A call that is missing and awaited is a wait, and halts. */
  lemma StopsAtItsWait(p: Prog, sc: Scope, rows: map<string, Row>, st: State, e: Env, n: string, k: string)
    requires IsCall(p) && n == CallName(p, sc) && n !in st.rows && Extends(rows, st.rows)
    requires (n, k) in Follow(p, sc, rows, e.codec).waits
    ensures Perform(p, n, st, e).Halted? && Perform(p, n, st, e).st.rows == st.rows
  {
    hide FormatTime;
  }

  lemma {:induction false} WaitStaysInParallel(p: Prog, sc: Scope, rows: map<string, Row>, st: State, e: Env,
          n: string, k: string)
    requires RoundTrips(e.codec) && p.Parallel? && Agreeing(p, sc) && Extends(rows, st.rows)
    requires (n, k) in Follow(p, sc, rows, e.codec).waits && n !in st.rows
    ensures n !in Exec(p, sc, st, e).0.rows
    decreases p, 0
  {
    var (st1, outs) := ExecAll(p.branches, sc, st, e);
    var (t, ends) := FollowAll(p.branches, sc, rows, e.codec);
    ExecAllGrows(p.branches, sc, st, e);
    if (n, k) in t.waits {
      WaitStaysInBranches(p.branches, sc, rows, st, e, n, k);
      NotAllReturned(p.branches, sc, rows, st, e, n, k);
      JoinErrorNone(outs);
    } else {
      EndedBranchesWriteNothing(p.branches, sc, rows, st, e);
      JoinErrorNone(outs);
      var next := AfterJoin(p, outs);
      if next.Go? {
        EndsOfReturned(outs);
        WaitStays(next.p, sc, rows, st1, e, n, k);
      }
    }
  }

  /** Branches that have ended on the trail write nothing more, and return what it says. */
  lemma EndedBranchesWriteNothing(bs: seq<Branch>, sc: Scope, rows: map<string, Row>, st: State, e: Env)
    requires RoundTrips(e.codec) && Extends(rows, st.rows) && None !in FollowAll(bs, sc, rows, e.codec).1
    ensures var (st1, outs) := ExecAll(bs, sc, st, e);
      st1.rows == st.rows && (AllReturned(outs) ==> EndsOf(outs) == FollowAll(bs, sc, rows, e.codec).1)
  {
    var st1 := ExecAll(bs, sc, st, e).0;
    ExecAllGrows(bs, sc, st, e);
    ExecAllFollows(bs, sc, st, e, st1.rows);
    FollowAllMonotone(bs, sc, rows, st1.rows, e.codec);
    EndedBranchesHaveRows(bs, sc, rows, e.codec);
    SameRows(st.rows, st1.rows);
  }

  /** A missing wait keeps its branch from returning. */
  lemma NotAllReturned(bs: seq<Branch>, sc: Scope, rows: map<string, Row>, st: State, e: Env, n: string, k: string)
    requires RoundTrips(e.codec) && Extends(rows, st.rows) && (n, k) in FollowAll(bs, sc, rows, e.codec).0.waits
    requires n !in ExecAll(bs, sc, st, e).0.rows
    ensures !AllReturned(ExecAll(bs, sc, st, e).1)
  {
    var st1 := ExecAll(bs, sc, st, e).0;
    ExecAllGrows(bs, sc, st, e);
    ExecAllFollows(bs, sc, st, e, st1.rows);
    FollowAllMonotone(bs, sc, rows, st1.rows, e.codec);
    BranchWaitsAreNames(bs, sc, rows, e.codec, n, k);
  }

  lemma {:induction false} WaitStaysInBranches(bs: seq<Branch>, sc: Scope, rows: map<string, Row>, st: State, e: Env,
          n: string, k: string)
    requires RoundTrips(e.codec) && AllAgreeing(bs, sc) && Extends(rows, st.rows)
    requires (n, k) in FollowAll(bs, sc, rows, e.codec).0.waits && n !in st.rows
    ensures n !in ExecAll(bs, sc, st, e).0.rows
    decreases bs
  {
    var child := ChildScope(sc, bs[0].name);
    var (st1, _) := Exec(bs[0].body, child, st, e);
    FirstAndRest(bs, sc);
    ExecGrows(bs[0].body, child, st, e);
    ExecProper(bs[0].body, child, st, e);
    ExecAllProper(bs[1..], sc, st1, e);
    if (n, k) in Follow(bs[0].body, child, rows, e.codec).waits {
      WaitStays(bs[0].body, child, rows, st, e, n, k);
      TrailMayAsk(bs[0].body, child, rows, e.codec, n, k);
    } else {
      BranchTrailsMayAsk(bs[1..], sc, rows, e.codec, n, k);
      assert !MayAsk(bs[0].body, child, n, Plainly);
      WaitStaysInBranches(bs[1..], sc, rows, st1, e, n, k);
    }
  }

  // ---- one uninterrupted execution ----

  /** The call of this name, if it is executed, yields the value saved in the row. */
  ghost predicate Yields(e: Env, name: string, row: Row) {
    && e.fn(name).Ok? && row == Row(e.codec.encode(e.fn(name).v), "") && row.result.Some?
    && (e.fn(name).v.At? ==> e.resumeAt(name) == e.fn(name).v.time)
  }

  /** `full` holds every row the program asks for; what is missing in `start` is yielded by
      the calls. */
  ghost predicate Supplied(start: map<string, Row>, full: map<string, Row>, e: Env) {
    Extends(start, full) && forall n | n in full && n !in start :: Yields(e, n, full[n])
  }

  /** The rows hold those of every wait on the trail. */
  ghost predicate WaitsHeld(t: Trail, rows: map<string, Row>) {
    forall n, k | (n, k) in t.waits :: n in rows
  }

  /** From the rows of its events alone, one execution whose calls yield the saved values
      goes the way of the replay: same response, and only rows of the replay. */
  lemma {:induction false} Uninterrupted(p: Prog, sc: Scope, replay: State, e: Env, st: State, once: Env)
    requires RoundTrips(e.codec) && Undisturbed(once, e)
    requires Exec(p, sc, replay, e).1.Returned? && Exec(p, sc, replay, e).0.rows == replay.rows
    requires st.seen == replay.seen && Supplied(st.rows, replay.rows, once)
    requires WaitsHeld(Follow(p, sc, replay.rows, e.codec), st.rows)
    ensures var (st1, out) := Exec(p, sc, st, once);
      && out == Exec(p, sc, replay, e).1
      && st1.seen == Exec(p, sc, replay, e).0.seen && st1.subs == st.subs
      && Supplied(st1.rows, replay.rows, once)
    decreases p
  {
    if p.Parallel? {
      var (replay1, outs) := ExecAll(p.branches, sc, replay, e);
      var n := AfterJoin(p, outs);
      ExecAllGrows(p.branches, sc, replay, e);
      ExecGrows(n.p, sc, replay1, e);
      SameRows(replay.rows, replay1.rows);
      JoinErrorNone(outs);
      EndsOfReturned(outs);
      ExecAllFollows(p.branches, sc, replay, e, replay.rows);
      UninterruptedAll(p.branches, sc, replay, e, st, once);
      ExecAllGrows(p.branches, sc, st, once);
      var (st1, _) := ExecAll(p.branches, sc, st, once);
      Uninterrupted(n.p, sc, replay1, e, st1, once);
    } else if IsCall(p) {
      var name := CallName(p, sc);
      var r := Perform(p, name, replay, e);
      ReplyIsSaved(p, name, replay, e);
      PerformGrows(p, name, replay, e);
      var n := Resume(p, name, r.reply, e);
      ExecGrows(n.p, Counted(p, sc), r.st, e);
      SameRows(replay.rows, r.st.rows);
      SuppliedCall(p, sc, replay, e, st, once);
      var f := Perform(p, name, st, once);
      PerformGrows(p, name, st, once);
      ResumeGoes(p, name, r.reply, e);
      Uninterrupted(n.p, Counted(p, sc), r.st, e, f.st, once);
    }
  }

  lemma SameRows(a: map<string, Row>, b: map<string, Row>)
    requires Extends(a, b)
    ensures Extends(b, a) ==> a == b
  {
  }

  /** One call of the uninterrupted execution: its row is there, or it yields it. */
  lemma SuppliedCall(p: Prog, sc: Scope, replay: State, e: Env, st: State, once: Env)
    requires IsCall(p) && RoundTrips(e.codec) && Undisturbed(once, e)
    requires p.Wait? ==> CallName(p, sc) in st.rows
    requires var r := Perform(p, CallName(p, sc), replay, e);
      && r.Replied? && r.st.rows == replay.rows && r.st.seen == replay.seen + {CallName(p, sc)}
      && CallName(p, sc) !in replay.seen
      && CallName(p, sc) in replay.rows && ReadRow(replay.rows[CallName(p, sc)], e.codec) == Readable(r.reply)
      && Resume(p, CallName(p, sc), r.reply, e).Go?
    requires st.seen == replay.seen && Supplied(st.rows, replay.rows, once)
    ensures var f, r := Perform(p, CallName(p, sc), st, once), Perform(p, CallName(p, sc), replay, e);
      && f.Replied? && f.reply == r.reply && f.st.seen == r.st.seen && f.st.subs == st.subs
      && Supplied(f.st.rows, replay.rows, once)
      && Resume(p, CallName(p, sc), f.reply, once) == Resume(p, CallName(p, sc), r.reply, e)
  {
    var name, r := CallName(p, sc), Perform(p, CallName(p, sc), replay, e);
    if name in st.rows {
      SavedCall(p, name, st, once, r.reply);
    } else {
      YieldedCall(p, name, st, once, replay.rows[name]);
    }
  }

  /** A call whose row is there replies with it. */
  lemma SavedCall(p: Prog, name: string, st: State, once: Env, reply: Reply)
    requires !once.cancelled(name) && once.fault(name) == NoFault && name !in st.seen
    requires name in st.rows && ReadRow(st.rows[name], once.codec) == Readable(reply)
    ensures Perform(p, name, st, once) == Replied(st.(seen := st.seen + {name}), reply)
  {
  }

  /** A call whose row is missing yields the value the row stands for. */
  lemma YieldedCall(p: Prog, name: string, st: State, once: Env, row: Row)
    requires RoundTrips(once.codec) && !once.cancelled(name) && once.fault(name) == NoFault && name !in st.seen
    requires IsCall(p) && !p.Wait? && name !in st.rows && Yields(once, name, row)
    requires p.Sleep? ==> once.fn(name).v.At?
    ensures var f := Perform(p, name, st, once);
      && f.Replied? && Readable(f.reply) == ReadRow(row, once.codec)
      && f.st.seen == st.seen + {name} && f.st.rows == st.rows[name := row] && f.st.subs == st.subs
  {
    var v := once.fn(name).v;
    assert once.codec.decode(row.result.value) == Some(v);
    assert CallFn(p, name, once) == Ok(v);
  }

  lemma {:induction false} UninterruptedAll(bs: seq<Branch>, sc: Scope, replay: State, e: Env, st: State, once: Env)
    requires RoundTrips(e.codec) && Undisturbed(once, e)
    requires WaitsHeld(FollowAll(bs, sc, replay.rows, e.codec).0, st.rows)
    requires AllReturned(ExecAll(bs, sc, replay, e).1) && ExecAll(bs, sc, replay, e).0.rows == replay.rows
    requires st.seen == replay.seen && Supplied(st.rows, replay.rows, once)
    ensures var (st1, outs) := ExecAll(bs, sc, st, once);
      && outs == ExecAll(bs, sc, replay, e).1
      && st1.seen == ExecAll(bs, sc, replay, e).0.seen && st1.subs == st.subs
      && Supplied(st1.rows, replay.rows, once)
    decreases bs
  {
    if bs != [] {
      var (replay1, out) := Exec(bs[0].body, ChildScope(sc, bs[0].name), replay, e);
      var (_, outs) := ExecAll(bs[1..], sc, replay1, e);
      EndsOfCons(out, outs);
      ExecGrows(bs[0].body, ChildScope(sc, bs[0].name), replay, e);
      ExecAllGrows(bs[1..], sc, replay1, e);
      SameRows(replay.rows, replay1.rows);
      ExecGrows(bs[0].body, ChildScope(sc, bs[0].name), st, once);
      Uninterrupted(bs[0].body, ChildScope(sc, bs[0].name), replay, e, st, once);
      var (st1, _) := Exec(bs[0].body, ChildScope(sc, bs[0].name), st, once);
      UninterruptedAll(bs[1..], sc, replay1, e, st1, once);
    }
  }

  // ---- histories of one workflow ----

  /** The durable part of one workflow: its step rows, and the subscriptions of all. */
  datatype World = World(rows: map<string, Row>, subs: map<string, Subscription>)

  /** An execution from the top; an event or a timeout settling one of the workflow's
      subscriptions; or something that concerns other workflows' subscriptions only. */
  datatype Event =
    | Executed(e: Env)
    | Settled(key: string, row: Row)
    | Elsewhere(subs: map<string, Subscription>)

  predicate SameFor(who: Who, a: map<string, Subscription>, b: map<string, Subscription>) {
    && (forall k | k in a && a[k].who == who :: k in b && b[k] == a[k])
    && (forall k | k in b && b[k].who == who :: k in a && b[k] == a[k])
  }

  function Start(x: World): State {
    State({}, x.rows, x.subs, {})
  }

  function Happen(p: Prog, who: Who, x: World, event: Event): World {
    match event
    case Executed(e) =>
      var st := Exec(p, ROOT, Start(x), e).0;
      World(st.rows, st.subs)
    case Settled(key, row) =>
      if key in x.subs && x.subs[key].who == who
      then World(x.rows[x.subs[key].step := row], x.subs - {key})
      else x
    case Elsewhere(subs) => if SameFor(who, x.subs, subs) then World(x.rows, subs) else x
  }

  function After(p: Prog, who: Who, x: World, history: seq<Event>): World {
    if history == [] then x
    else Happen(p, who, After(p, who, x, history[..|history| - 1]), history[|history| - 1])
  }

  ghost predicate OwnEvents(history: seq<Event>, who: Who, c: Codec)
  {
    forall i | 0 <= i < |history| && history[i].Executed? :: history[i].e.who == who && history[i].e.codec == c
  }

  /** The trail waits for an event under this name. */
  ghost predicate IsWaited(t: Trail, n: string) {
    exists k :: (n, k) in t.waits
  }

  /** Every row lies on the trail, and holds a saved value unless a wait asks for it; every
      open wait is one the trail is at, under the key it asks with. */
  ghost predicate Sound(p: Prog, who: Who, c: Codec, x: World) {
    var t := Follow(p, ROOT, x.rows, c);
    && x.rows.Keys <= t.names
    && (forall n | n in x.rows :: IsWaited(t, n) || SavedRow(x.rows[n], c))
    && (forall k | k in x.subs && x.subs[k].who == who :: (x.subs[k].step, k) in t.waits && x.subs[k].step !in x.rows)
  }

  /** A step has at most one open wait, however its key was made. */
  lemma OneOpenWait(p: Prog, who: Who, c: Codec, x: World, k: string, l: string)
    requires Agreeing(p, ROOT) && Sound(p, who, c, x)
    requires k in x.subs && l in x.subs && x.subs[k].who == who && x.subs[l].who == who
    requires x.subs[k].step == x.subs[l].step
    ensures k == l
  {
    OneKey(p, ROOT, x.rows, c, x.subs[k].step, k, l);
  }

  lemma ExecutionKeepsSound(p: Prog, x: World, e: Env)
    requires RoundTrips(e.codec) && Agreeing(p, ROOT) && Sound(p, e.who, e.codec, x)
    ensures Sound(p, e.who, e.codec, Happen(p, e.who, x, Executed(e)))
  {
    var st := Exec(p, ROOT, Start(x), e).0;
    ExecGrows(p, ROOT, Start(x), e);
    ExecProper(p, ROOT, Start(x), e);
    ExecFollows(p, ROOT, Start(x), e, st.rows);
    FollowMonotone(p, ROOT, x.rows, st.rows, e.codec);
    forall k | k in x.subs && x.subs[k].who == e.who
      ensures x.subs[k].step !in st.rows
    {
      WaitStays(p, ROOT, x.rows, Start(x), e, x.subs[k].step, k);
    }
    forall n | n in x.rows
      ensures IsWaited(Follow(p, ROOT, st.rows, e.codec), n) || SavedRow(x.rows[n], e.codec)
    {
      StaysWaited(Follow(p, ROOT, x.rows, e.codec), Follow(p, ROOT, st.rows, e.codec), n);
    }
  }

  lemma StaysWaited(t: Trail, u: Trail, n: string)
    requires t.waits <= u.waits
    ensures IsWaited(t, n) ==> IsWaited(u, n)
  {
    if IsWaited(t, n) {
      var k :| (n, k) in t.waits;
      assert (n, k) in u.waits;
    }
  }

  lemma SettlingKeepsSound(p: Prog, who: Who, c: Codec, x: World, key: string, row: Row)
    requires Agreeing(p, ROOT) && Sound(p, who, c, x)
    ensures Sound(p, who, c, Happen(p, who, x, Settled(key, row)))
    ensures Extends(x.rows, Happen(p, who, x, Settled(key, row)).rows)
  {
    var y := Happen(p, who, x, Settled(key, row));
    var t, u := Follow(p, ROOT, x.rows, c), Follow(p, ROOT, y.rows, c);
    FollowMonotone(p, ROOT, x.rows, y.rows, c);
    if key in x.subs && x.subs[key].who == who {
      var step := x.subs[key].step;
      WaitsAreNames(p, ROOT, x.rows, c, step, key);
      assert (step, key) in t.waits;
      forall k | k in y.subs && y.subs[k].who == who
        ensures y.subs[k].step != step
      {
        if y.subs[k].step == step {
          OneOpenWait(p, who, c, x, k, key);
        }
      }
      forall n | n in y.rows
        ensures IsWaited(u, n) || SavedRow(y.rows[n], c)
      {
        StaysWaited(t, u, n);
      }
    }
  }

  /** Along any history every row stays what it was first written as, and lies on the trail. */
  lemma {:induction false} HistoryIsSound(p: Prog, who: Who, c: Codec, x: World, history: seq<Event>)
    requires RoundTrips(c) && Agreeing(p, ROOT) && OwnEvents(history, who, c) && Sound(p, who, c, x)
    ensures Sound(p, who, c, After(p, who, x, history))
    ensures Extends(x.rows, After(p, who, x, history).rows)
  {
    if history != [] {
      var front, last := history[..|history| - 1], history[|history| - 1];
      var y := After(p, who, x, front);
      HistoryIsSound(p, who, c, x, front);
      match last
      case Executed(e) =>
        ExecutionKeepsSound(p, y, e);
        ExecGrows(p, ROOT, Start(y), e);
      case Settled(key, row) => SettlingKeepsSound(p, who, c, y, key, row);
      case Elsewhere(_) =>
    }
  }

  /** The given settings, with no cancellation and no fault, and with every step function and
      sleep yielding its saved value. */
  function Calm(e: Env, rows: map<string, Row>): Env {
    e.(cancelled := _ => false, fault := _ => NoFault,
       fn := n => if n in rows && SavedRow(rows[n], e.codec) then Ok(e.codec.decode(rows[n].result.value).value)
                  else Err(Plain("not saved")),
       resumeAt := n => if n in rows && SavedRow(rows[n], e.codec) && e.codec.decode(rows[n].result.value).value.At?
                        then e.codec.decode(rows[n].result.value).value.time else 0)
  }

  /** The rows of the waits on the trail: those that events and timeouts wrote. */
  ghost function WaitRows(t: Trail, rows: map<string, Row>): map<string, Row> {
    map n | n in rows && IsWaited(t, n) :: rows[n]
  }

  /** Any history of suspended, failed and resumed executions whose last one returns gives
      the response its saved values lead to, and exactly the rows of that trail. */
  lemma ReplayMeansTrail(p: Prog, subs: map<string, Subscription>, history: seq<Event>, last: Env)
    requires RoundTrips(last.codec) && Agreeing(p, ROOT) && OwnEvents(history, last.who, last.codec)
    requires forall k | k in subs :: subs[k].who != last.who
    requires var x := After(p, last.who, World(map[], subs), history); Exec(p, ROOT, Start(x), last).1.Returned?
    ensures var x := After(p, last.who, World(map[], subs), history);
      var (st, out) := Exec(p, ROOT, Start(x), last);
      var t := Follow(p, ROOT, st.rows, last.codec);
      t.end == Some(out.v) && t.names == st.rows.Keys
  {
    var x := After(p, last.who, World(map[], subs), history);
    HistoryIsSound(p, last.who, last.codec, World(map[], subs), history);
    ExecutionKeepsSound(p, x, last);
    ExecFollows(p, ROOT, Start(x), last, Exec(p, ROOT, Start(x), last).0.rows);
  }

  /** And so does one uninterrupted execution that starts with the rows of the events alone,
      and whose calls yield the saved values: the same response and the same rows. */
  lemma ReplayIsUninterrupted(p: Prog, subs: map<string, Subscription>, history: seq<Event>, last: Env)
    requires RoundTrips(last.codec) && Agreeing(p, ROOT) && OwnEvents(history, last.who, last.codec)
    requires forall k | k in subs :: subs[k].who != last.who
    requires var x := After(p, last.who, World(map[], subs), history); Exec(p, ROOT, Start(x), last).1.Returned?
    ensures var x := After(p, last.who, World(map[], subs), history);
      var (st, out) := Exec(p, ROOT, Start(x), last);
      var events := WaitRows(Follow(p, ROOT, st.rows, last.codec), st.rows);
      var once := Exec(p, ROOT, Start(World(events, subs)), Calm(last, st.rows));
      once.1 == out && once.0.rows == st.rows && once.0.subs == subs
  {
    var x := After(p, last.who, World(map[], subs), history);
    ReplayMeansTrail(p, subs, history, last);
    HistoryIsSound(p, last.who, last.codec, World(map[], subs), history);
    ExecutionKeepsSound(p, x, last);
    CalmRuns(p, x, last, subs);
  }

  /** The uninterrupted execution on the final rows of a sound replay. */
  lemma CalmRuns(p: Prog, x: World, last: Env, subs: map<string, Subscription>)
    requires RoundTrips(last.codec) && Exec(p, ROOT, Start(x), last).1.Returned?
    requires Sound(p, last.who, last.codec, Happen(p, last.who, x, Executed(last)))
    requires var (st, out) := Exec(p, ROOT, Start(x), last);
      var t := Follow(p, ROOT, st.rows, last.codec); t.names == st.rows.Keys && t.end == Some(out.v)
    ensures var (st, out) := Exec(p, ROOT, Start(x), last);
      var events := WaitRows(Follow(p, ROOT, st.rows, last.codec), st.rows);
      var once := Exec(p, ROOT, Start(World(events, subs)), Calm(last, st.rows));
      once.1 == out && once.0.rows == st.rows && once.0.subs == subs
  {
    var (st, out) := Exec(p, ROOT, Start(x), last);
    var t := Follow(p, ROOT, st.rows, last.codec);
    var calm, full, start := Calm(last, st.rows), Start(World(st.rows, subs)), Start(World(WaitRows(t, st.rows), subs));
    Rerun(p, ROOT, Start(x), last, full, calm);
    forall n, k | (n, k) in t.waits
      ensures n in start.rows
    {
      WaitsAreNames(p, ROOT, st.rows, last.codec, n, k);
      assert IsWaited(t, n);
    }
    Uninterrupted(p, ROOT, full, calm, start, calm);
    var once := Exec(p, ROOT, start, calm).0;
    ExecFollows(p, ROOT, start, calm, st.rows);
    SameRows(once.rows, st.rows);
  }

  /** Run again on its final rows, the workflow answers the same and calls no step function,
      whatever its step functions would now do. */
  lemma RerunCallsNothing(p: Prog, x: World, last: Env, again: Env)
    requires RoundTrips(last.codec) && Undisturbed(again, last)
    requires Exec(p, ROOT, Start(x), last).1.Returned?
    ensures var (st, out) := Exec(p, ROOT, Start(x), last);
      Exec(p, ROOT, Start(World(st.rows, st.subs)), again) == (State(st.seen, st.rows, st.subs, {}), out)
  {
    var (st, _) := Exec(p, ROOT, Start(x), last);
    Rerun(p, ROOT, Start(x), last, Start(World(st.rows, st.subs)), again);
  }

  /** No execution calls a step function whose value was saved by an earlier one. */
  lemma SavedNeverCalledAgain(p: Prog, who: Who, c: Codec, x: World, history: seq<Event>, e: Env, n: string)
    requires RoundTrips(c) && Agreeing(p, ROOT) && OwnEvents(history, who, c) && Sound(p, who, c, x)
    requires n in x.rows
    ensures n !in Exec(p, ROOT, Start(After(p, who, x, history)), e).0.calls
  {
    HistoryIsSound(p, who, c, x, history);
    ExecGrows(p, ROOT, Start(After(p, who, x, history)), e);
  }

  /** Where every call sees the cancel signal, an execution writes nothing, subscribes to
      nothing and calls no step function. */
  lemma {:induction false} CancelledDoesNothing(p: Prog, sc: Scope, st: State, e: Env)
    requires forall n :: e.cancelled(n)
    ensures var st1 := Exec(p, sc, st, e).0; st1.rows == st.rows && st1.subs == st.subs && st1.calls == st.calls
    decreases p
  {
    if p.Parallel? {
      CancelledBranchesDoNothing(p.branches, sc, st, e);
      var (st1, outs) := ExecAll(p.branches, sc, st, e);
      var n := AfterJoin(p, outs);
      if n.Go? {
        CancelledDoesNothing(n.p, sc, st1, e);
      }
    }
  }

  lemma {:induction false} CancelledBranchesDoNothing(bs: seq<Branch>, sc: Scope, st: State, e: Env)
    requires forall n :: e.cancelled(n)
    ensures var st1 := ExecAll(bs, sc, st, e).0; st1.rows == st.rows && st1.subs == st.subs && st1.calls == st.calls
    decreases bs
  {
    if bs != [] {
      CancelledDoesNothing(bs[0].body, ChildScope(sc, bs[0].name), st, e);
      CancelledBranchesDoNothing(bs[1..], sc, Exec(bs[0].body, ChildScope(sc, bs[0].name), st, e).0, e);
    }
  }
}
