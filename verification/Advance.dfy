/** Sequential workflows make progress: what one execution of a program without Parallel may
    add, and why it suspends. */
module Advance {
  import opened Prelude
  import opened Timestamps
  import opened Database
  import opened Workflow
  import opened Trails
  import opened Replay

  /** At most n durable calls on any way through the body, none of them in parallel branches,
      and no suspension but those of sleeps and waits. */
  ghost predicate Sequential(p: Prog, n: nat)
    decreases p
  {
    match p
    case Return(_) => true
    case Fail(e) => AsSuspend(e) == None
    case Parallel(_, _) => false
    case Step(_, next) => n > 0 && forall v | v in next :: Sequential(next[v], n - 1)
    case Provide(_, next) => n > 0 && forall v | v in next :: Sequential(next[v], n - 1)
    case Sleep(rest) => n > 0 && Sequential(rest, n - 1)
    case Wait(_, _, _, after) => n > 0 && forall r | r in after :: Sequential(after[r], n - 1)
  }

  /** There are no branches to disagree. */
  lemma {:induction false} SequentialAgrees(p: Prog, n: nat, sc: Scope)
    requires Sequential(p, n)
    ensures Agreeing(p, sc)
    decreases p
  {
    match p
    case Return(_) =>
    case Fail(_) =>
    case Step(_, next) =>
      forall v | v in next
        ensures Agreeing(next[v], Counted(p, sc))
      {
        SequentialAgrees(next[v], n - 1, Counted(p, sc));
      }
    case Provide(_, next) =>
      forall v | v in next
        ensures Agreeing(next[v], Counted(p, sc))
      {
        SequentialAgrees(next[v], n - 1, Counted(p, sc));
      }
    case Sleep(rest) => SequentialAgrees(rest, n - 1, Counted(p, sc));
    case Wait(_, _, _, after) =>
      forall r | r in after
        ensures Agreeing(after[r], Counted(p, sc))
      {
        SequentialAgrees(after[r], n - 1, Counted(p, sc));
      }
  }

  lemma OnwardSequential(p: Prog, n: nat, reply: Reply)
    requires IsCall(p) && Sequential(p, n) && Onward(p, reply).Go?
    ensures n > 0 && Sequential(Onward(p, reply).p, n - 1)
  {
  }

  // ---- the way an execution takes along the saved rows ----

  /** The names it asks for, up to the first without a readable row or asked for twice, and
      the times its saved sleeps end. */
  datatype Way = Way(names: set<string>, sleeps: set<Instant>)

  function SleepEnd(p: Prog, reply: Reply): set<Instant> {
    if p.Sleep? && reply.Value? && reply.v.At? then {reply.v.time} else {}
  }

  function Walk(p: Prog, sc: Scope, seen: set<string>, rows: map<string, Row>, c: Codec): Way
    decreases p
  {
    if !IsCall(p) || CallName(p, sc) in seen then Way({}, {})
    else
      var name := CallName(p, sc);
      if name !in rows || ReadRow(rows[name], c).Unreadable? then Way({name}, {})
      else
        var reply := ReadRow(rows[name], c).reply;
        match Onward(p, reply)
        case Stop(_) => Way({name}, SleepEnd(p, reply))
        case Go(q) =>
          var rest := Walk(q, Counted(p, sc), seen + {name}, rows, c);
          Way({name} + rest.names, SleepEnd(p, reply) + rest.sleeps)
  }

  /** Every sleep is over by `to`, but for the pending ones. */
  predicate Over(sleeps: set<Instant>, to: Instant, pending: set<Instant>) {
    forall s | s in sleeps :: s <= to || s in pending
  }

  /** How Walk goes on past its first call. */
  predicate Passes(p: Prog, sc: Scope, seen: set<string>, rows: map<string, Row>, c: Codec) {
    && IsCall(p) && CallName(p, sc) !in seen && CallName(p, sc) in rows
    && ReadRow(rows[CallName(p, sc)], c).Readable?
    && Onward(p, ReadRow(rows[CallName(p, sc)], c).reply).Go?
  }

  function Past(p: Prog, sc: Scope, seen: set<string>, rows: map<string, Row>, c: Codec): (q: Prog)
    requires Passes(p, sc, seen, rows, c)
    ensures p decreases to q
  {
    Onward(p, ReadRow(rows[CallName(p, sc)], c).reply).p
  }

  lemma {:induction false} WalkIsShort(p: Prog, n: nat, sc: Scope, seen: set<string>, rows: map<string, Row>, c: Codec)
    requires Sequential(p, n)
    ensures |Walk(p, sc, seen, rows, c).names| <= n
    decreases p
  {
    if Passes(p, sc, seen, rows, c) {
      var q := Past(p, sc, seen, rows, c);
      OnwardSequential(p, n, ReadRow(rows[CallName(p, sc)], c).reply);
      WalkIsShort(q, n - 1, Counted(p, sc), seen + {CallName(p, sc)}, rows, c);
    }
  }

  lemma {:induction false} WalkGrows(p: Prog, sc: Scope, seen: set<string>, a: map<string, Row>, b: map<string,
          Row>, c: Codec)
    requires Extends(a, b)
    ensures Walk(p, sc, seen, a, c).names <= Walk(p, sc, seen, b, c).names
    decreases p
  {
    if Passes(p, sc, seen, a, c) {
      WalkGrows(Past(p, sc, seen, a, c), Counted(p, sc), seen + {CallName(p, sc)}, a, b, c);
    }
  }

  /** At most one name on the way has no row. */
  lemma {:induction false} OneMissing(p: Prog, sc: Scope, seen: set<string>, rows: map<string, Row>, c: Codec,
          x: string, y: string)
    requires x in Walk(p, sc, seen, rows, c).names && y in Walk(p, sc, seen, rows, c).names
    requires x !in rows && y !in rows
    ensures x == y
    decreases p
  {
    if Passes(p, sc, seen, rows, c) {
      OneMissing(Past(p, sc, seen, rows, c), Counted(p, sc), seen + {CallName(p, sc)}, rows, c, x, y);
    }
  }

  /** The row of a wait that was missing brings no sleeps. */
  lemma {:induction false} WaitBringsNoSleep(p: Prog, m: nat, sc: Scope, seen: set<string>,
          a: map<string, Row>, b: map<string, Row>, c: Codec, n: string, k: string)
    requires Sequential(p, m) && (n, k) in Follow(p, sc, a, c).waits && n !in a
    requires Extends(a, b) && b.Keys <= a.Keys + {n}
    requires a.Keys <= seen + Walk(p, sc, seen, a, c).names
    ensures Walk(p, sc, seen, b, c).sleeps <= Walk(p, sc, seen, a, c).sleeps
    decreases p
  {
    if IsCall(p) && CallName(p, sc) !in seen {
      var name := CallName(p, sc);
      if Passes(p, sc, seen, a, c) {
        OnwardSequential(p, m, ReadRow(a[name], c).reply);
        WaitBringsNoSleep(Past(p, sc, seen, a, c), m - 1, Counted(p, sc), seen + {name}, a, b, c, n, k);
      } else if name == n && Passes(p, sc, seen, b, c) {
        assert p.Wait?;
        assert Walk(Past(p, sc, seen, b, c), Counted(p, sc), seen + {name}, b, c).sleeps == {};
      }
    }
  }

  // ---- one execution ----

  /** Step functions do not suspend by themselves, sleeps name real times, and the clock is
      between `from` and `to`. */
  ghost predicate Steady(e: Env, from: Instant, to: Instant) {
    forall n ::
      && from <= e.now(n) <= to && FourDigitYear(e.resumeAt(n))
      && (e.fn(n).Err? ==> AsSuspend(e.fn(n).e) == None)
  }

  lemma {:induction false} ExecOnWay(p: Prog, n: nat, sc: Scope, st: State, e: Env, rows: map<string, Row>)
    requires RoundTrips(e.codec) && Sequential(p, n) && Extends(Exec(p, sc, st, e).0.rows, rows)
    ensures Exec(p, sc, st, e).0.seen <= st.seen + Walk(p, sc, st.seen, rows, e.codec).names
    decreases p
  {
    if IsCall(p) {
      var name := CallName(p, sc);
      var r := Perform(p, name, st, e);
      HaltedTracksOne(p, name, st, e);
      if r.Replied? {
        ReplyIsSaved(p, name, st, e);
        ResumeGoes(p, name, r.reply, e);
        var next := Resume(p, name, r.reply, e);
        if next.Go? {
          ExecGrows(next.p, Counted(p, sc), r.st, e);
          OnwardSequential(p, n, r.reply);
          ExecOnWay(next.p, n - 1, Counted(p, sc), r.st, e, rows);
        }
      }
    }
  }

  /** A call whose row is there writes nothing. */
  lemma SavedCallWritesNothing(p: Prog, name: string, st: State, e: Env)
    requires name in st.rows
    ensures Perform(p, name, st, e).st.rows == st.rows
    ensures Perform(p, name, st, e).Replied? ==>
      name !in st.seen && ReadRow(st.rows[name], e.codec) == Readable(Perform(p, name, st, e).reply)
  {
  }

  /** Nothing gets past a wait without a row. */
  lemma {:induction false} StopsAtWait(p: Prog, n: nat, sc: Scope, st: State, e: Env, step: string, k: string)
    requires Sequential(p, n) && (step, k) in Follow(p, sc, st.rows, e.codec).waits && step !in st.rows
    ensures Exec(p, sc, st, e).0.rows == st.rows
    decreases p
  {
    var name := CallName(p, sc);
    var r := Perform(p, name, st, e);
    if name == step {
      StopsAtItsWait(p, sc, st.rows, st, e, step, k);
    } else {
      SavedCallWritesNothing(p, name, st, e);
      if r.Replied? {
        ResumeGoes(p, name, r.reply, e);
        if Resume(p, name, r.reply, e).Go? {
          OnwardSequential(p, n, r.reply);
          StopsAtWait(Onward(p, r.reply).p, n - 1, Counted(p, sc), r.st, e, step, k);
        }
      }
    }
  }

  /** A suspension is by a sleep saved just now, or by a wait subscribed just now. */
  ghost predicate ByNewSleep(st: State, st1: State, out: Outcome) {
    && out.Erred? && out.e.SuspendError? && FourDigitYear(out.e.resumeAt)
    && st1.subs == st.subs && exists n :: n in st1.rows && n !in st.rows
  }

  ghost predicate ByNewWait(st: State, st1: State, out: Outcome) {
    && out.Erred? && out.e.SuspendError?
    && exists k :: k in st1.subs && k !in st.subs
  }

  lemma FirstCallSuspends(p: Prog, sc: Scope, st: State, e: Env, from: Instant, to: Instant)
    requires IsCall(p) && Steady(e, from, to)
    ensures var r := Perform(p, CallName(p, sc), st, e);
      r.Halted? && AsSuspend(r.e) != None ==> ByNewWait(st, r.st, Erred(r.e))
  {
    var name := CallName(p, sc);
    var r := Perform(p, name, st, e);
    if r.Halted? && AsSuspend(r.e) != None {
      assert p.Wait? && p.key in r.st.subs && p.key !in st.subs;
    }
  }

  lemma SavedSleepIsOver(p: Prog, sc: Scope, st: State, e: Env, from: Instant)
    requires IsCall(p) && Perform(p, CallName(p, sc), st, e).Replied?
    requires Over(Walk(p, sc, st.seen, st.rows, e.codec).sleeps, from, {})
    ensures var r := Perform(p, CallName(p, sc), st, e);
      p.Sleep? && r.reply.Value? && r.reply.v.At? && CallName(p, sc) in st.rows ==> r.reply.v.time <= from
  {
    var r := Perform(p, CallName(p, sc), st, e);
    if p.Sleep? && r.reply.Value? && r.reply.v.At? && CallName(p, sc) in st.rows {
      assert r.reply.v.time in SleepEnd(p, r.reply);
      assert SleepEnd(p, r.reply) <= Walk(p, sc, st.seen, st.rows, e.codec).sleeps;
    }
  }

  /** A sleep whose time has not come was saved just now, if the saved ones are over. */
  lemma FirstSleepSuspends(p: Prog, sc: Scope, st: State, e: Env, from: Instant, to: Instant)
    requires IsCall(p) && Steady(e, from, to) && RoundTrips(e.codec)
    requires Over(Walk(p, sc, st.seen, st.rows, e.codec).sleeps, from, {})
    requires Perform(p, CallName(p, sc), st, e).Replied?
    ensures var r := Perform(p, CallName(p, sc), st, e);
      var next := Resume(p, CallName(p, sc), r.reply, e);
      next.Stop? && AsSuspend(next.e) != None ==> ByNewSleep(st, r.st, Erred(next.e))
  {
    var name := CallName(p, sc);
    var r := Perform(p, name, st, e);
    var next := Resume(p, name, r.reply, e);
    if next.Stop? && AsSuspend(next.e) != None {
      assert p.Sleep? && from <= e.now(name) < r.reply.v.time;
      SavedSleepIsOver(p, sc, st, e, from);
      assert name in r.st.rows && r.reply == Value(At(e.resumeAt(name)));
    }
  }

  lemma ReplyKeepsWalk(p: Prog, sc: Scope, st: State, e: Env)
    requires IsCall(p) && RoundTrips(e.codec) && Perform(p, CallName(p, sc), st, e).Replied?
    requires Onward(p, Perform(p, CallName(p, sc), st, e).reply).Go?
    requires forall n | n in st.rows :: n in st.seen + Walk(p, sc, st.seen, st.rows, e.codec).names
    ensures var r := Perform(p, CallName(p, sc), st, e);
      var q := Onward(p, r.reply).p;
      && Walk(q, Counted(p, sc), r.st.seen, r.st.rows, e.codec).sleeps <= Walk(p, sc, st.seen, st.rows, e.codec).sleeps
      && forall n | n in r.st.rows :: n in r.st.seen + Walk(q, Counted(p, sc), r.st.seen, r.st.rows, e.codec).names
  {
    var name := CallName(p, sc);
    var r := Perform(p, name, st, e);
    ReplyIsSaved(p, name, st, e);
    if name !in st.rows {
      assert r.st.rows.Keys == st.rows.Keys + {name};
    }
  }

  /** Why an execution suspends, if the saved sleeps on its way are over. */
  lemma {:induction false} SuspensionIsNew(p: Prog, n: nat, sc: Scope, st: State, e: Env, from: Instant, to: Instant)
    requires RoundTrips(e.codec) && Sequential(p, n) && Steady(e, from, to)
    requires Over(Walk(p, sc, st.seen, st.rows, e.codec).sleeps, from, {})
    requires forall n | n in st.rows :: n in st.seen + Walk(p, sc, st.seen, st.rows, e.codec).names
    ensures var (st1, out) := Exec(p, sc, st, e);
      out.Erred? && AsSuspend(out.e) != None ==> ByNewSleep(st, st1, out) || ByNewWait(st, st1, out)
    decreases p
  {
    if IsCall(p) {
      var name := CallName(p, sc);
      var r := Perform(p, name, st, e);
      FirstCallSuspends(p, sc, st, e, from, to);
      if r.Replied? {
        PerformGrows(p, name, st, e);
        FirstSleepSuspends(p, sc, st, e, from, to);
        ReplyIsSaved(p, name, st, e);
        var next := Resume(p, name, r.reply, e);
        if next.Go? {
          ResumeGoes(p, name, r.reply, e);
          OnwardSequential(p, n, r.reply);
          ReplyKeepsWalk(p, sc, st, e);
          SuspensionIsNew(next.p, n - 1, Counted(p, sc), r.st, e, from, to);
        }
      }
    }
  }

  /** The sleep an execution stopped at, if it did. */
  function StoppedAt(st: State, st1: State, out: Outcome): set<Instant> {
    if out.Erred? && out.e.SuspendError? && st1.subs == st.subs then {out.e.resumeAt} else {}
  }

  lemma HaltKeepsRows(p: Prog, name: string, st: State, e: Env)
    ensures Perform(p, name, st, e).Halted? ==> Perform(p, name, st, e).st.rows == st.rows
  {
    hide FormatTime;
  }

  lemma OverStops(p: Prog, sc: Scope, st: State, e: Env, from: Instant, to: Instant)
    requires IsCall(p) && RoundTrips(e.codec) && Steady(e, from, to)
    requires Over(Walk(p, sc, st.seen, st.rows, e.codec).sleeps, from, {})
    requires forall n | n in st.rows :: n in st.seen + Walk(p, sc, st.seen, st.rows, e.codec).names
    requires var r := Perform(p, CallName(p, sc), st, e);
      r.Halted? || Resume(p, CallName(p, sc), r.reply, e).Stop?
    ensures var (st1, out) := Exec(p, sc, st, e);
      Over(Walk(p, sc, st.seen, st1.rows, e.codec).sleeps, to, StoppedAt(st, st1, out))
  {
    var name := CallName(p, sc);
    assert from <= e.now(name) <= to;
    HaltKeepsRows(p, name, st, e);
    if Perform(p, name, st, e).Replied? {
      StopIsOver(p, sc, st, e, from, to);
    }
  }

  lemma StopIsOver(p: Prog, sc: Scope, st: State, e: Env, from: Instant, to: Instant)
    requires IsCall(p) && RoundTrips(e.codec) && Steady(e, from, to)
    requires Over(Walk(p, sc, st.seen, st.rows, e.codec).sleeps, from, {})
    requires forall n | n in st.rows :: n in st.seen + Walk(p, sc, st.seen, st.rows, e.codec).names
    requires var r := Perform(p, CallName(p, sc), st, e);
      r.Replied? && Resume(p, CallName(p, sc), r.reply, e).Stop?
    ensures var r := Perform(p, CallName(p, sc), st, e);
      var out := Erred(Resume(p, CallName(p, sc), r.reply, e).e);
      Over(Walk(p, sc, st.seen, r.st.rows, e.codec).sleeps, to, StoppedAt(st, r.st, out))
  {
    hide FormatTime;
    var name := CallName(p, sc);
    var r := Perform(p, name, st, e);
    assert from <= e.now(name) <= to;
    ReplyIsSaved(p, name, st, e);
    if Onward(p, r.reply).Go? {
      ReplyKeepsWalk(p, sc, st, e);
    }
  }

  lemma OverGoesOn(p: Prog, sc: Scope, st: State, e: Env, rows: map<string, Row>, to: Instant, pending: set<Instant>)
    requires IsCall(p) && RoundTrips(e.codec)
    requires Perform(p, CallName(p, sc), st, e).Replied? && e.now(CallName(p, sc)) <= to
    requires var r := Perform(p, CallName(p, sc), st, e);
      && Resume(p, CallName(p, sc), r.reply, e).Go? && Extends(r.st.rows, rows)
      && Over(Walk(Onward(p, r.reply).p, Counted(p, sc), r.st.seen, rows, e.codec).sleeps, to, pending)
    ensures Over(Walk(p, sc, st.seen, rows, e.codec).sleeps, to, pending)
  {
    var r := Perform(p, CallName(p, sc), st, e);
    ReplyIsSaved(p, CallName(p, sc), st, e);
    ResumeGoes(p, CallName(p, sc), r.reply, e);
    assert SleepEnd(p, r.reply) == {} || r.reply.v.time <= to;
  }

  /** After an execution every saved sleep on its way is over, but for the one it stopped at. */
  lemma {:induction false} SleepsAreOver(p: Prog, n: nat, sc: Scope, st: State, e: Env, from: Instant, to: Instant)
    requires RoundTrips(e.codec) && Sequential(p, n) && Steady(e, from, to)
    requires Over(Walk(p, sc, st.seen, st.rows, e.codec).sleeps, from, {})
    requires forall n | n in st.rows :: n in st.seen + Walk(p, sc, st.seen, st.rows, e.codec).names
    ensures var (st1, out) := Exec(p, sc, st, e);
      Over(Walk(p, sc, st.seen, st1.rows, e.codec).sleeps, to, StoppedAt(st, st1, out))
    decreases p
  {
    hide FormatTime;
    if IsCall(p) {
      var name := CallName(p, sc);
      var r := Perform(p, name, st, e);
      var (st1, out) := Exec(p, sc, st, e);
      if r.Replied? && Resume(p, name, r.reply, e).Go? {
        ReplyIsSaved(p, name, st, e);
        ResumeGoes(p, name, r.reply, e);
        var q := Onward(p, r.reply).p;
        ExecGrows(q, Counted(p, sc), r.st, e);
        OnwardSequential(p, n, r.reply);
        ReplyKeepsWalk(p, sc, st, e);
        SleepsAreOver(q, n - 1, Counted(p, sc), r.st, e, from, to);
        assert from <= e.now(name) <= to;
        OverGoesOn(p, sc, st, e, st1.rows, to, StoppedAt(st, st1, out));
      } else {
        OverStops(p, sc, st, e, from, to);
      }
    }
  }
}
