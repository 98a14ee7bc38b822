/** Parallel branches as interleaved threads: every schedule ends where running the branches
    one after another ends. */
module Interleave {
  import opened Prelude
  import opened Names
  import opened Database
  import opened Workflow
  import opened Trails

  // ---- threads and their atomic steps ----

  /** How far a call is: its name tracked, the signal clear, no row found, or its step
      function done. */
  datatype Phase = Tracked | Cleared | Missing | Yielded(v: Val)

  /** A thread is before the next call of p, inside one, waiting for its branches, or done. */
  datatype Thread =
    | Ready(p: Prog, sc: Scope)
    | Inside(phase: Phase, p: Prog, sc: Scope)
    | Joining(p: Prog, sc: Scope, branches: seq<Thread>)
    | Done(out: Outcome)

  predicate AllDone(ts: seq<Thread>) {
    forall i :: 0 <= i < |ts| ==> ts[i].Done?
  }

  function Outcomes(ts: seq<Thread>): seq<Outcome>
    requires AllDone(ts)
  {
    if ts == [] then [] else [ts[0].out] + Outcomes(ts[1..])
  }

  function Spawn(branches: seq<Branch>, sc: Scope): (ts: seq<Thread>)
    ensures |ts| == |branches|
    ensures forall i :: 0 <= i < |ts| ==> ts[i] == Ready(branches[i].body, ChildScope(sc, branches[i].name))
  {
    if branches == [] then []
    else [Ready(branches[0].body, ChildScope(sc, branches[0].name))] + Spawn(branches[1..], sc)
  }

  function GoOn(p: Prog, sc: Scope, r: Performed, e: Env): (Thread, State)
    requires IsCall(p)
  {
    match r
    case Halted(st, err) => (Done(Erred(err)), st)
    case Replied(st, reply) =>
      match Resume(p, CallName(p, sc), reply, e)
      case Stop(err) => (Done(Erred(err)), st)
      case Go(q) => (Ready(q, Counted(p, sc)), st)
  }

  /** The rest of the call from its phase on. */
  function Remaining(phase: Phase, p: Prog, name: string, st: State, e: Env): Performed {
    match phase
    case Tracked => CheckSignal(p, name, st, e)
    case Cleared => LookUp(p, name, st, e)
    case Missing => Execute(p, name, st, e)
    case Yielded(v) => SaveValue(name, v, st, e)
  }

  /** Whether the call's next step leads to its next phase rather than to its end. */
  predicate Proceeds(phase: Phase, p: Prog, name: string, st: State, e: Env) {
    match phase
    case Tracked => e.fault(name) != SignalUnread && !e.cancelled(name)
    case Cleared => e.fault(name) != LookupFailed && name !in st.rows
    case Missing => !p.Wait? && CallFn(p, name, e).Ok?
    case Yielded(_) => false
  }

  function NextPhase(phase: Phase, p: Prog, name: string, e: Env): Phase {
    if phase.Tracked? then Cleared
    else if phase.Missing? && CallFn(p, name, e).Ok? then Yielded(CallFn(p, name, e).v)
    else Missing
  }

  /** One atomic step inside a call. */
  function MoveInside(phase: Phase, p: Prog, sc: Scope, st: State, e: Env): (Thread, State)
    requires IsCall(p)
  {
    var name := CallName(p, sc);
    if Proceeds(phase, p, name, st, e)
    then (Inside(NextPhase(phase, p, name, e), p, sc), if phase.Missing? then Invoke(p, st, name) else st)
    else GoOn(p, sc, Remaining(phase, p, name, st, e), e)
  }

  /** One atomic step of a thread that is not waiting for a branch. */
  function Move(t: Thread, st: State, e: Env): Option<(Thread, State)> {
    match t
    case Done(_) => None
    case Joining(p, sc, ts) =>
      if !p.Parallel? || !AllDone(ts) then None
      else (match AfterJoin(p, Outcomes(ts))
            case Stop(err) => Some((Done(Erred(err)), st))
            case Go(q) => Some((Ready(q, sc), st)))
    case Ready(p, sc) =>
      (match p
       case Return(v) => Some((Done(Returned(v)), st))
       case Fail(err) => Some((Done(Erred(err)), st))
       case Parallel(branches, _) => Some((Joining(p, sc, Spawn(branches, sc)), st))
       case _ =>
         if CallName(p, sc) in st.seen then Some((Done(Erred(Plain("duplicate step name"))), st))
         else Some((Inside(Tracked, p, sc), st.(seen := st.seen + {CallName(p, sc)}))))
    case Inside(phase, p, sc) => if IsCall(p) then Some(MoveInside(phase, p, sc, st, e)) else None
  }

  /** The step of the thread at `path`, the way down the branches. */
  function StepAt(t: Thread, path: seq<nat>, st: State, e: Env): Option<(Thread, State)>
    decreases path
  {
    if path == [] then Move(t, st, e)
    else if !t.Joining? || path[0] >= |t.branches| then None
    else match StepAt(t.branches[path[0]], path[1..], st, e)
      case None => None
      case Some((b, st1)) => Some((t.(branches := t.branches[path[0] := b]), st1))
  }

  /** A schedule names a thread for every step; a thread that cannot move is passed over. */
  function Run(t: Thread, st: State, schedule: seq<seq<nat>>, e: Env): (Thread, State)
    decreases schedule
  {
    if schedule == [] then (t, st)
    else match StepAt(t, schedule[0], st, e)
      case None => Run(t, st, schedule[1..], e)
      case Some((t1, st1)) => Run(t1, st1, schedule[1..], e)
  }

  // ---- what a thread comes to when it runs alone, branch after branch ----

  function Finish(p: Prog, sc: Scope, r: Performed, e: Env): (State, Outcome)
    requires IsCall(p)
  {
    match r
    case Halted(st, err) => (st, Erred(err))
    case Replied(st, reply) =>
      match Resume(p, CallName(p, sc), reply, e)
      case Stop(err) => (st, Erred(err))
      case Go(q) => Exec(q, Counted(p, sc), st, e)
  }

  function Eval(t: Thread, st: State, e: Env): (State, Outcome)
    decreases t
  {
    match t
    case Done(out) => (st, out)
    case Ready(p, sc) => Exec(p, sc, st, e)
    case Joining(p, sc, ts) =>
      if !p.Parallel? then (st, Erred(Plain("")))
      else
        var (st1, outs) := EvalAll(ts, st, e);
        (match AfterJoin(p, outs)
         case Stop(err) => (st1, Erred(err))
         case Go(q) => Exec(q, sc, st1, e))
    case Inside(phase, p, sc) =>
      if !IsCall(p) then (st, Erred(Plain("")))
      else Finish(p, sc, Remaining(phase, p, CallName(p, sc), st, e), e)
  }

  function EvalAll(ts: seq<Thread>, st: State, e: Env): (r: (State, seq<Outcome>))
    ensures |r.1| == |ts|
    decreases ts
  {
    if ts == [] then (st, [])
    else
      var (st1, out) := Eval(ts[0], st, e);
      var (st2, outs) := EvalAll(ts[1..], st1, e);
      (st2, [out] + outs)
  }

  // ---- regions: the names and correlation keys below a scope ----

  /** Which step name may wait under each correlation key. */
  type Home = string -> string

  ghost predicate AgreeOn(prefix: string, home: Home, a: State, b: State) {
    && (forall n | Under(prefix, n) ::
          && (n in a.seen <==> n in b.seen) && (n in a.calls <==> n in b.calls)
          && (n in a.rows <==> n in b.rows) && (n in a.rows ==> a.rows[n] == b.rows[n]))
    && (forall k | Under(prefix, home(k)) ::
          (k in a.subs <==> k in b.subs) && (k in a.subs ==> a.subs[k] == b.subs[k]))
  }

  ghost predicate SameOutside(prefix: string, home: Home, a: State, b: State) {
    && (forall n | !Under(prefix, n) ::
          && (n in a.seen <==> n in b.seen) && (n in a.calls <==> n in b.calls)
          && (n in a.rows <==> n in b.rows) && (n in a.rows ==> a.rows[n] == b.rows[n]))
    && (forall k | !Under(prefix, home(k)) ::
          (k in a.subs <==> k in b.subs) && (k in a.subs ==> a.subs[k] == b.subs[k]))
  }

  /** From states alike in the region, two runs end alike in it and touch nothing else. */
  ghost predicate Local(prefix: string, home: Home, a: State, a1: State, b: State, b1: State) {
    AgreeOn(prefix, home, a1, b1) && SameOutside(prefix, home, a, a1) && SameOutside(prefix, home, b, b1)
  }

  lemma LocalTransitive(prefix: string, home: Home, a: State, a1: State, a2: State, b: State, b1: State, b2: State)
    requires Local(prefix, home, a, a1, b, b1) && Local(prefix, home, a1, a2, b1, b2)
    ensures Local(prefix, home, a, a2, b, b2)
  {
  }

  lemma SubRegion(prefix: string, name: string, home: Home, a: State, b: State)
    requires IsPart(name) && AgreeOn(prefix, home, a, b)
    ensures AgreeOn(ScopePrefix(prefix, name), home, a, b)
  {
    forall n | Under(ScopePrefix(prefix, name), n)
      ensures Under(prefix, n)
    {
      UnderParent(prefix, name, n);
    }
  }

  lemma Widen(prefix: string, name: string, home: Home, a: State, a1: State, b: State, b1: State)
    requires IsPart(name) && AgreeOn(prefix, home, a, b) && Local(ScopePrefix(prefix, name), home, a, a1, b, b1)
    ensures Local(prefix, home, a, a1, b, b1)
  {
    forall n | Under(ScopePrefix(prefix, name), n)
      ensures Under(prefix, n)
    {
      UnderParent(prefix, name, n);
    }
  }

  // ---- programs that keep to their own scopes ----

  /** Branch names are distinct path parts, and every wait uses a correlation key of its own. */
  ghost predicate Homed(p: Prog, prefix: string, home: Home)
    decreases p
  {
    match p
    case Return(_) => true
    case Fail(_) => true
    case Step(_, next) => forall v | v in next :: Homed(next[v], prefix, home)
    case Provide(_, next) => forall v | v in next :: Homed(next[v], prefix, home)
    case Sleep(rest) => Homed(rest, prefix, home)
    case Wait(name, key, _, after) =>
      home(key) == ResolveStepName(prefix, name) && forall r | r in after :: Homed(after[r], prefix, home)
    case Parallel(branches, join) =>
      && DistinctParts(branches)
      && (forall i | 0 <= i < |branches| :: Homed(branches[i].body, ScopePrefix(prefix, branches[i].name), home))
      && forall vs | vs in join :: Homed(join[vs], prefix, home)
  }

  /** Without waits, distinct branch names are all it takes. */
  lemma {:induction false} WaitlessIsHomed(p: Prog, prefix: string, home: Home)
    requires DistinctBranches(p) && forall key, timeout :: !HasWait(p, key, timeout)
    ensures Homed(p, prefix, home)
    decreases p
  {
    match p
    case Return(_) =>
    case Fail(_) =>
    case Step(_, next) =>
      forall v | v in next
        ensures Homed(next[v], prefix, home)
      {
        assert forall k, t :: HasWait(next[v], k, t) ==> HasWait(p, k, t);
        WaitlessIsHomed(next[v], prefix, home);
      }
    case Provide(_, next) =>
      forall v | v in next
        ensures Homed(next[v], prefix, home)
      {
        assert forall k, t :: HasWait(next[v], k, t) ==> HasWait(p, k, t);
        WaitlessIsHomed(next[v], prefix, home);
      }
    case Sleep(rest) =>
      assert forall k, t :: HasWait(rest, k, t) ==> HasWait(p, k, t);
      WaitlessIsHomed(rest, prefix, home);
    case Wait(_, key, timeout, _) => assert HasWait(p, key, timeout);
    case Parallel(branches, join) =>
      forall i | 0 <= i < |branches|
        ensures Homed(branches[i].body, ScopePrefix(prefix, branches[i].name), home)
      {
        assert forall k, t :: HasWait(branches[i].body, k, t) ==> HasWait(p, k, t);
        WaitlessIsHomed(branches[i].body, ScopePrefix(prefix, branches[i].name), home);
      }
      forall vs | vs in join
        ensures Homed(join[vs], prefix, home)
      {
        assert forall k, t :: HasWait(join[vs], k, t) ==> HasWait(p, k, t);
        WaitlessIsHomed(join[vs], prefix, home);
      }
  }

  lemma OnwardHomed(p: Prog, prefix: string, home: Home, reply: Reply)
    requires IsCall(p) && Homed(p, prefix, home) && Onward(p, reply).Go?
    ensures Homed(Onward(p, reply).p, prefix, home)
  {
  }

  // ---- a call, and a whole execution, are local to the scope ----

  /** Two runs of a call that come to the same, and stay local. */
  ghost predicate Alike(prefix: string, home: Home, a: State, ra: Performed, b: State, rb: Performed) {
    && ra.Halted? == rb.Halted? && (ra.Halted? ==> ra.e == rb.e) && (ra.Replied? ==> ra.reply == rb.reply)
    && Local(prefix, home, a, ra.st, b, rb.st)
  }

  lemma SaveLocal(prefix: string, home: Home, name: string, v: Val, a: State, b: State, e: Env)
    requires Under(prefix, name) && AgreeOn(prefix, home, a, b)
    ensures Alike(prefix, home, a, SaveValue(name, v, a, e), b, SaveValue(name, v, b, e))
  {
  }

  lemma InvokeLocal(prefix: string, home: Home, p: Prog, name: string, a: State, b: State)
    requires Under(prefix, name) && AgreeOn(prefix, home, a, b)
    ensures Local(prefix, home, a, Invoke(p, a, name), b, Invoke(p, b, name))
  {
  }

  lemma SubscribeLocal(prefix: string, home: Home, p: Prog, name: string, a: State, b: State, e: Env)
    requires p.Wait? && Under(prefix, home(p.key)) && AgreeOn(prefix, home, a, b)
    ensures Alike(prefix, home, a, Subscribe(p, name, a, e), b, Subscribe(p, name, b, e))
  {
  }

  lemma ExecuteLocal(prefix: string, home: Home, p: Prog, name: string, a: State, b: State, e: Env)
    requires Under(prefix, name) && (p.Wait? ==> Under(prefix, home(p.key))) && AgreeOn(prefix, home, a, b)
    ensures Alike(prefix, home, a, Execute(p, name, a, e), b, Execute(p, name, b, e))
  {
    if p.Wait? {
      SubscribeLocal(prefix, home, p, name, a, b, e);
    } else {
      InvokeLocal(prefix, home, p, name, a, b);
      var r := CallFn(p, name, e);
      if r.Ok? {
        SaveLocal(prefix, home, name, r.v, Invoke(p, a, name), Invoke(p, b, name), e);
        LocalTransitive(prefix, home, a, Invoke(p, a, name), Execute(p, name, a, e).st,
                        b, Invoke(p, b, name), Execute(p, name, b, e).st);
      }
    }
  }

  lemma LookUpLocal(prefix: string, home: Home, p: Prog, name: string, a: State, b: State, e: Env)
    requires Under(prefix, name) && (p.Wait? ==> Under(prefix, home(p.key))) && AgreeOn(prefix, home, a, b)
    ensures Alike(prefix, home, a, LookUp(p, name, a, e), b, LookUp(p, name, b, e))
  {
    if name !in a.rows {
      ExecuteLocal(prefix, home, p, name, a, b, e);
    }
  }

  lemma CheckLocal(prefix: string, home: Home, p: Prog, name: string, a: State, b: State, e: Env)
    requires Under(prefix, name) && (p.Wait? ==> Under(prefix, home(p.key))) && AgreeOn(prefix, home, a, b)
    ensures Alike(prefix, home, a, CheckSignal(p, name, a, e), b, CheckSignal(p, name, b, e))
  {
    LookUpLocal(prefix, home, p, name, a, b, e);
  }

  lemma RemainingLocal(phase: Phase, p: Prog, sc: Scope, home: Home, a: State, b: State, e: Env)
    requires IsCall(p) && Homed(p, sc.prefix, home) && AgreeOn(sc.prefix, home, a, b)
    ensures var name := CallName(p, sc);
      Alike(sc.prefix, home, a, Remaining(phase, p, name, a, e), b, Remaining(phase, p, name, b, e))
  {
    var name := CallName(p, sc);
    CallIsUnder(p, sc);
    match phase
    case Tracked => CheckLocal(sc.prefix, home, p, name, a, b, e);
    case Cleared => LookUpLocal(sc.prefix, home, p, name, a, b, e);
    case Missing => ExecuteLocal(sc.prefix, home, p, name, a, b, e);
    case Yielded(v) => SaveLocal(sc.prefix, home, name, v, a, b, e);
  }

  lemma PerformLocal(p: Prog, sc: Scope, home: Home, a: State, b: State, e: Env)
    requires IsCall(p) && Homed(p, sc.prefix, home) && AgreeOn(sc.prefix, home, a, b)
    ensures var name := CallName(p, sc);
      Alike(sc.prefix, home, a, Perform(p, name, a, e), b, Perform(p, name, b, e))
  {
    var name := CallName(p, sc);
    CallIsUnder(p, sc);
    RemainingLocal(Tracked, p, sc, home, a.(seen := a.seen + {name}), b.(seen := b.seen + {name}), e);
  }

  lemma {:induction false} ExecLocal(p: Prog, sc: Scope, home: Home, a: State, b: State, e: Env)
    requires Homed(p, sc.prefix, home) && AgreeOn(sc.prefix, home, a, b)
    ensures Exec(p, sc, a, e).1 == Exec(p, sc, b, e).1
    ensures Local(sc.prefix, home, a, Exec(p, sc, a, e).0, b, Exec(p, sc, b, e).0)
    decreases p
  {
    if p.Parallel? {
      ExecAllLocal(p.branches, sc, home, a, b, e);
      var (a1, outs) := ExecAll(p.branches, sc, a, e);
      var (b1, _) := ExecAll(p.branches, sc, b, e);
      var n := AfterJoin(p, outs);
      if n.Go? {
        ExecLocal(n.p, sc, home, a1, b1, e);
        LocalTransitive(sc.prefix, home, a, a1, Exec(p, sc, a, e).0, b, b1, Exec(p, sc, b, e).0);
      }
    } else if IsCall(p) {
      PerformLocal(p, sc, home, a, b, e);
      FinishLocal(p, sc, home, Perform(p, CallName(p, sc), a, e), Perform(p, CallName(p, sc), b, e), a, b, e);
    }
  }

  lemma {:induction false} FinishLocal(p: Prog, sc: Scope, home: Home, ra: Performed, rb: Performed, a: State,
          b: State, e: Env)
    requires IsCall(p) && Homed(p, sc.prefix, home) && Alike(sc.prefix, home, a, ra, b, rb)
    ensures Finish(p, sc, ra, e).1 == Finish(p, sc, rb, e).1
    ensures Local(sc.prefix, home, a, Finish(p, sc, ra, e).0, b, Finish(p, sc, rb, e).0)
    decreases p, 0
  {
    if ra.Replied? {
      var n := Resume(p, CallName(p, sc), ra.reply, e);
      if n.Go? {
        OnwardHomed(p, sc.prefix, home, ra.reply);
        ExecLocal(n.p, Counted(p, sc), home, ra.st, rb.st, e);
        LocalTransitive(sc.prefix, home, a, ra.st, Finish(p, sc, ra, e).0, b, rb.st, Finish(p, sc, rb, e).0);
      }
    }
  }

  lemma {:induction false} ExecAllLocal(bs: seq<Branch>, sc: Scope, home: Home, a: State, b: State, e: Env)
    requires AgreeOn(sc.prefix, home, a, b) && forall i | 0 <= i < |bs| :: IsPart(bs[i].name)
    requires forall i | 0 <= i < |bs| :: Homed(bs[i].body, ScopePrefix(sc.prefix, bs[i].name), home)
    ensures ExecAll(bs, sc, a, e).1 == ExecAll(bs, sc, b, e).1
    ensures Local(sc.prefix, home, a, ExecAll(bs, sc, a, e).0, b, ExecAll(bs, sc, b, e).0)
    decreases bs
  {
    if bs != [] {
      var child := ChildScope(sc, bs[0].name);
      SubRegion(sc.prefix, bs[0].name, home, a, b);
      ExecLocal(bs[0].body, child, home, a, b, e);
      var a1, b1 := Exec(bs[0].body, child, a, e).0, Exec(bs[0].body, child, b, e).0;
      Widen(sc.prefix, bs[0].name, home, a, a1, b, b1);
      ExecAllLocal(bs[1..], sc, home, a1, b1, e);
      LocalTransitive(sc.prefix, home, a, a1, ExecAll(bs, sc, a, e).0, b, b1, ExecAll(bs, sc, b, e).0);
    }
  }

  // ---- threads are local to their scopes ----

  ghost predicate In(t: Thread, prefix: string, home: Home)
    decreases t
  {
    match t
    case Done(_) => true
    case Ready(p, sc) => sc.prefix == prefix && Homed(p, prefix, home)
    case Inside(_, p, sc) => sc.prefix == prefix && Homed(p, prefix, home) && IsCall(p)
    case Joining(p, sc, ts) =>
      && sc.prefix == prefix && Homed(p, prefix, home) && p.Parallel? && |ts| == |p.branches|
      && forall i | 0 <= i < |ts| :: In(ts[i], ScopePrefix(prefix, p.branches[i].name), home)
  }

  ghost predicate AllIn(ts: seq<Thread>, bs: seq<Branch>, prefix: string, home: Home) {
    && |ts| == |bs| && DistinctParts(bs)
    && forall i | 0 <= i < |ts| :: In(ts[i], ScopePrefix(prefix, bs[i].name), home)
  }

  lemma {:induction false} EvalLocal(t: Thread, prefix: string, home: Home, a: State, b: State, e: Env)
    requires In(t, prefix, home) && AgreeOn(prefix, home, a, b)
    ensures Eval(t, a, e).1 == Eval(t, b, e).1
    ensures Local(prefix, home, a, Eval(t, a, e).0, b, Eval(t, b, e).0)
    decreases t
  {
    match t
    case Done(_) =>
    case Ready(p, sc) => ExecLocal(p, sc, home, a, b, e);
    case Inside(phase, p, sc) =>
      RemainingLocal(phase, p, sc, home, a, b, e);
      FinishLocal(p, sc, home, Remaining(phase, p, CallName(p, sc), a, e),
                  Remaining(phase, p, CallName(p, sc), b, e), a, b, e);
    case Joining(p, sc, ts) =>
      EvalAllLocal(ts, p.branches, prefix, home, a, b, e);
      var (a1, outs) := EvalAll(ts, a, e);
      var (b1, _) := EvalAll(ts, b, e);
      var n := AfterJoin(p, outs);
      if n.Go? {
        ExecLocal(n.p, sc, home, a1, b1, e);
        LocalTransitive(prefix, home, a, a1, Eval(t, a, e).0, b, b1, Eval(t, b, e).0);
      }
  }

  lemma {:induction false} EvalAllLocal(ts: seq<Thread>, bs: seq<Branch>, prefix: string, home: Home, a: State,
          b: State, e: Env)
    requires AllIn(ts, bs, prefix, home) && AgreeOn(prefix, home, a, b)
    ensures EvalAll(ts, a, e).1 == EvalAll(ts, b, e).1
    ensures Local(prefix, home, a, EvalAll(ts, a, e).0, b, EvalAll(ts, b, e).0)
    decreases ts
  {
    if ts != [] {
      SubRegion(prefix, bs[0].name, home, a, b);
      EvalLocal(ts[0], ScopePrefix(prefix, bs[0].name), home, a, b, e);
      var a1, b1 := Eval(ts[0], a, e).0, Eval(ts[0], b, e).0;
      Widen(prefix, bs[0].name, home, a, a1, b, b1);
      EvalAllLocal(ts[1..], bs[1..], prefix, home, a1, b1, e);
      LocalTransitive(prefix, home, a, a1, EvalAll(ts, a, e).0, b, b1, EvalAll(ts, b, e).0);
    }
  }

  lemma GoOnIn(p: Prog, sc: Scope, home: Home, r: Performed, e: Env)
    requires IsCall(p) && Homed(p, sc.prefix, home)
    ensures In(GoOn(p, sc, r, e).0, sc.prefix, home) && GoOn(p, sc, r, e).1 == r.st
  {
    if r.Replied? && Onward(p, r.reply).Go? {
      OnwardHomed(p, sc.prefix, home, r.reply);
    }
  }

  lemma ProceedsAlike(phase: Phase, p: Prog, sc: Scope, home: Home, a: State, b: State, e: Env)
    requires IsCall(p) && AgreeOn(sc.prefix, home, a, b)
    ensures Proceeds(phase, p, CallName(p, sc), a, e) == Proceeds(phase, p, CallName(p, sc), b, e)
  {
    CallIsUnder(p, sc);
  }

  lemma MoveInsideLocal(phase: Phase, p: Prog, sc: Scope, home: Home, a: State, b: State, e: Env)
    requires IsCall(p) && Homed(p, sc.prefix, home) && AgreeOn(sc.prefix, home, a, b)
    ensures var (t1, a1) := MoveInside(phase, p, sc, a, e);
      && In(t1, sc.prefix, home) && MoveInside(phase, p, sc, b, e).0 == t1
      && Local(sc.prefix, home, a, a1, b, MoveInside(phase, p, sc, b, e).1)
  {
    var name := CallName(p, sc);
    ProceedsAlike(phase, p, sc, home, a, b, e);
    if Proceeds(phase, p, name, a, e) {
      CallIsUnder(p, sc);
      InvokeLocal(sc.prefix, home, p, name, a, b);
    } else {
      EndsLocal(phase, p, sc, home, a, b, e);
    }
  }

  lemma EndsLocal(phase: Phase, p: Prog, sc: Scope, home: Home, a: State, b: State, e: Env)
    requires IsCall(p) && Homed(p, sc.prefix, home) && AgreeOn(sc.prefix, home, a, b)
    ensures var name := CallName(p, sc);
      var (t1, a1) := GoOn(p, sc, Remaining(phase, p, name, a, e), e);
      && In(t1, sc.prefix, home) && GoOn(p, sc, Remaining(phase, p, name, b, e), e).0 == t1
      && Local(sc.prefix, home, a, a1, b, GoOn(p, sc, Remaining(phase, p, name, b, e), e).1)
  {
    var name := CallName(p, sc);
    RemainingLocal(phase, p, sc, home, a, b, e);
    GoOnIn(p, sc, home, Remaining(phase, p, name, a, e), e);
    GoOnIn(p, sc, home, Remaining(phase, p, name, b, e), e);
  }

  lemma TrackLocal(prefix: string, home: Home, name: string, a: State, b: State)
    requires AgreeOn(prefix, home, a, b) && Under(prefix, name)
    ensures name in a.seen <==> name in b.seen
    ensures Local(prefix, home, a, a.(seen := a.seen + {name}), b, b.(seen := b.seen + {name}))
  {
  }

  lemma ReadyMoveLocal(p: Prog, sc: Scope, home: Home, a: State, b: State, e: Env)
    requires Homed(p, sc.prefix, home) && AgreeOn(sc.prefix, home, a, b) && Move(Ready(p, sc), a, e).Some?
    ensures var (t1, a1) := Move(Ready(p, sc), a, e).value;
      && In(t1, sc.prefix, home)
      && Move(Ready(p, sc), b, e).Some? && Move(Ready(p, sc), b, e).value.0 == t1
      && Local(sc.prefix, home, a, a1, b, Move(Ready(p, sc), b, e).value.1)
  {
    if IsCall(p) {
      CallIsUnder(p, sc);
      TrackLocal(sc.prefix, home, CallName(p, sc), a, b);
    }
  }

  lemma MoveLocal(t: Thread, prefix: string, home: Home, a: State, b: State, e: Env)
    requires In(t, prefix, home) && AgreeOn(prefix, home, a, b) && Move(t, a, e).Some?
    ensures var (t1, a1) := Move(t, a, e).value;
      && In(t1, prefix, home)
      && Move(t, b, e).Some? && Move(t, b, e).value.0 == t1
      && Local(prefix, home, a, a1, b, Move(t, b, e).value.1)
  {
    match t
    case Inside(phase, p, sc) => MoveInsideLocal(phase, p, sc, home, a, b, e);
    case Ready(p, sc) => ReadyMoveLocal(p, sc, home, a, b, e);
    case Joining(p, sc, ts) =>
  }

  /** A step of one thread does the same in any two states alike in its region. */
  lemma {:induction false} StepLocal(t: Thread, path: seq<nat>, prefix: string, home: Home, a: State, b: State, e: Env)
    requires In(t, prefix, home) && AgreeOn(prefix, home, a, b) && StepAt(t, path, a, e).Some?
    ensures var (t1, a1) := StepAt(t, path, a, e).value;
      && In(t1, prefix, home)
      && StepAt(t, path, b, e).Some? && StepAt(t, path, b, e).value.0 == t1
      && Local(prefix, home, a, a1, b, StepAt(t, path, b, e).value.1)
    decreases path
  {
    if path == [] {
      MoveLocal(t, prefix, home, a, b, e);
    } else {
      var i := path[0];
      var name := t.p.branches[i].name;
      SubRegion(prefix, name, home, a, b);
      StepLocal(t.branches[i], path[1..], ScopePrefix(prefix, name), home, a, b, e);
      var (t1, a1) := StepAt(t.branches[i], path[1..], a, e).value;
      var (_, b1) := StepAt(t.branches[i], path[1..], b, e).value;
      Widen(prefix, name, home, a, a1, b, b1);
    }
  }

  // ---- no step changes what the branches come to ----

  lemma {:induction false} SpawnEval(bs: seq<Branch>, sc: Scope, st: State, e: Env)
    ensures EvalAll(Spawn(bs, sc), st, e) == ExecAll(bs, sc, st, e)
    decreases bs
  {
    if bs != [] {
      SpawnEval(bs[1..], sc, Exec(bs[0].body, ChildScope(sc, bs[0].name), st, e).0, e);
      assert Spawn(bs, sc)[1..] == Spawn(bs[1..], sc);
    }
  }

  lemma {:induction false} DoneEval(ts: seq<Thread>, st: State, e: Env)
    requires AllDone(ts)
    ensures EvalAll(ts, st, e) == (st, Outcomes(ts))
  {
    if ts != [] {
      DoneEval(ts[1..], st, e);
    }
  }

  lemma MoveInsideEval(phase: Phase, p: Prog, sc: Scope, st: State, e: Env)
    requires IsCall(p)
    ensures var (t1, st1) := MoveInside(phase, p, sc, st, e);
      Eval(t1, st1, e) == Eval(Inside(phase, p, sc), st, e)
  {
    var name := CallName(p, sc);
    if Proceeds(phase, p, name, st, e) {
      assert Remaining(NextPhase(phase, p, name, e), p, name, if phase.Missing? then Invoke(p, st, name) else st, e)
          == Remaining(phase, p, name, st, e);
    }
  }

  lemma MoveEval(t: Thread, prefix: string, home: Home, st: State, e: Env)
    requires In(t, prefix, home) && Move(t, st, e).Some?
    ensures var (t1, st1) := Move(t, st, e).value;
      Eval(t1, st1, e) == Eval(t, st, e)
  {
    match t
    case Inside(phase, p, sc) => MoveInsideEval(phase, p, sc, st, e);
    case Ready(p, sc) =>
      if p.Parallel? {
        SpawnEval(p.branches, sc, st, e);
      }
    case Joining(p, sc, ts) => DoneEval(ts, st, e);
  }

  /** Regions of sibling branches have nothing in common. */
  lemma SiblingRegions(prefix: string, x: string, y: string, home: Home, a: State, b: State)
    requires IsPart(x) && IsPart(y) && x != y && SameOutside(ScopePrefix(prefix, x), home, a, b)
    ensures AgreeOn(ScopePrefix(prefix, y), home, a, b)
  {
    forall n | Under(ScopePrefix(prefix, y), n)
      ensures !Under(ScopePrefix(prefix, x), n)
    {
      if Under(ScopePrefix(prefix, x), n) {
        SiblingsDisjoint(prefix, x, y, n);
      }
    }
  }

  lemma RegionsDisjoint(prefix: string, x: string, y: string)
    requires IsPart(x) && IsPart(y) && x != y
    ensures forall n :: !Under(ScopePrefix(prefix, x), n) || !Under(ScopePrefix(prefix, y), n)
  {
    forall n
      ensures !Under(ScopePrefix(prefix, x), n) || !Under(ScopePrefix(prefix, y), n)
    {
      if Under(ScopePrefix(prefix, x), n) && Under(ScopePrefix(prefix, y), n) {
        SiblingsDisjoint(prefix, x, y, n);
      }
    }
  }

  /** Two branches' changes made in either order give one state. */
  lemma ChangesCommute(x: string, y: string, home: Home, st: State, bySecond: State, byFirst: State, one: State,
          other: State)
    requires forall n :: !Under(x, n) || !Under(y, n)
    requires Local(y, home, st, bySecond, byFirst, one)
    requires Local(x, home, st, byFirst, bySecond, other)
    ensures one == other
  {
    NamesCommute(x, y, home, st, bySecond, byFirst, one, other);
    SubscriptionsCommute(x, y, home, st, bySecond, byFirst, one, other);
  }

  lemma NamesCommute(x: string, y: string, home: Home, st: State, bySecond: State, byFirst: State, one: State,
          other: State)
    requires forall n :: !Under(x, n) || !Under(y, n)
    requires Local(y, home, st, bySecond, byFirst, one)
    requires Local(x, home, st, byFirst, bySecond, other)
    ensures one.seen == other.seen && one.calls == other.calls && one.rows == other.rows
  {
    forall n
      ensures (n in one.seen <==> n in other.seen) && (n in one.calls <==> n in other.calls)
      ensures (n in one.rows <==> n in other.rows) && (n in one.rows ==> one.rows[n] == other.rows[n])
    {
      if Under(x, n) {
        assert !Under(y, n);
      } else if Under(y, n) {
      } else {
      }
    }
  }

  lemma SubscriptionsCommute(x: string, y: string, home: Home, st: State, bySecond: State, byFirst: State,
          one: State, other: State)
    requires forall n :: !Under(x, n) || !Under(y, n)
    requires Local(y, home, st, bySecond, byFirst, one)
    requires Local(x, home, st, byFirst, bySecond, other)
    ensures one.subs == other.subs
  {
    forall k
      ensures (k in one.subs <==> k in other.subs) && (k in one.subs ==> one.subs[k] == other.subs[k])
    {
      var n := home(k);
      if Under(x, n) {
        assert !Under(y, n);
      } else if Under(y, n) {
      } else {
      }
    }
  }

  /** A step of one branch, and another branch run to its end, give the same in either order. */
  lemma StepPastBranch(first: Thread, t: Thread, path: seq<nat>, prefix: string, x: string, y: string, home: Home,
          st: State, e: Env)
    requires IsPart(x) && IsPart(y) && x != y
    requires In(first, ScopePrefix(prefix, x), home) && In(t, ScopePrefix(prefix, y), home)
    requires StepAt(t, path, st, e).Some?
    ensures var (t1, st1) := StepAt(t, path, st, e).value;
      && Eval(first, st1, e).1 == Eval(first, st, e).1
      && StepAt(t, path, Eval(first, st, e).0, e) == Some((t1, Eval(first, st1, e).0))
  {
    var px, py := ScopePrefix(prefix, x), ScopePrefix(prefix, y);
    var st1 := StepAt(t, path, st, e).value.1;
    var byFirst, other := Eval(first, st, e).0, Eval(first, st1, e).0;
    StepLocal(t, path, py, home, st, st, e);
    SiblingRegions(prefix, y, x, home, st, st1);
    EvalLocal(first, px, home, st, st1, e);
    SiblingRegions(prefix, x, y, home, st, byFirst);
    StepLocal(t, path, py, home, st, byFirst, e);
    RegionsDisjoint(prefix, x, y);
    ChangesCommute(px, py, home, st, st1, byFirst, StepAt(t, path, byFirst, e).value.1, other);
  }

  /** A step of any thread leaves what its thread comes to unchanged. */
  lemma {:induction false} StepEval(t: Thread, path: seq<nat>, prefix: string, home: Home, st: State, e: Env)
    requires In(t, prefix, home) && StepAt(t, path, st, e).Some?
    ensures var (t1, st1) := StepAt(t, path, st, e).value;
      Eval(t1, st1, e) == Eval(t, st, e)
    decreases path, 0
  {
    if path == [] {
      MoveEval(t, prefix, home, st, e);
    } else {
      EvalAllStep(t.branches, t.p.branches, path[0], path[1..], prefix, home, st, e);
    }
  }

  lemma {:induction false} EvalAllStep(ts: seq<Thread>, bs: seq<Branch>, j: nat, path: seq<nat>, prefix: string,
          home: Home, st: State, e: Env)
    requires AllIn(ts, bs, prefix, home) && j < |ts| && StepAt(ts[j], path, st, e).Some?
    ensures var (t1, st1) := StepAt(ts[j], path, st, e).value;
      EvalAll(ts[j := t1], st1, e) == EvalAll(ts, st, e)
    decreases path, 1 + j
  {
    var (t1, st1) := StepAt(ts[j], path, st, e).value;
    if j == 0 {
      StepEval(ts[0], path, ScopePrefix(prefix, bs[0].name), home, st, e);
      assert ts[0 := t1][1..] == ts[1..];
    } else {
      var byFirst := Eval(ts[0], st, e).0;
      StepPastBranch(ts[0], ts[j], path, prefix, bs[0].name, bs[j].name, home, st, e);
      EvalAllStep(ts[1..], bs[1..], j - 1, path, prefix, home, byFirst, e);
      assert ts[j := t1][1..] == ts[1..][j - 1 := t1];
    }
  }

  lemma {:induction false} RunEval(t: Thread, schedule: seq<seq<nat>>, prefix: string, home: Home, st: State, e: Env)
    requires In(t, prefix, home)
    ensures var (t1, st1) := Run(t, st, schedule, e);
      In(t1, prefix, home) && Eval(t1, st1, e) == Eval(t, st, e)
    decreases schedule
  {
    if schedule != [] {
      var next := StepAt(t, schedule[0], st, e);
      if next.Some? {
        StepLocal(t, schedule[0], prefix, home, st, st, e);
        StepEval(t, schedule[0], prefix, home, st, e);
        RunEval(next.value.0, schedule[1..], prefix, home, next.value.1, e);
      } else {
        RunEval(t, schedule[1..], prefix, home, st, e);
      }
    }
  }

  /** Every complete schedule of a program's parallel branches, nested ones included, ends in
      the state and the outcome of running them one after another. */
  lemma SchedulesConfluent(p: Prog, sc: Scope, home: Home, st: State, schedule: seq<seq<nat>>, e: Env)
    requires Homed(p, sc.prefix, home)
    requires Run(Ready(p, sc), st, schedule, e).0.Done?
    ensures var (t1, st1) := Run(Ready(p, sc), st, schedule, e);
      (st1, t1.out) == Exec(p, sc, st, e)
  {
    RunEval(Ready(p, sc), schedule, sc.prefix, home, st, e);
  }

  /** No thread gets stuck: until all is done some thread can move. */
  lemma {:induction false} SomeThreadMoves(t: Thread, prefix: string, home: Home, st: State,
          e: Env) returns (path: seq<nat>)
    requires In(t, prefix, home) && !t.Done?
    ensures StepAt(t, path, st, e).Some?
    decreases t
  {
    path := [];
    if t.Joining? && !AllDone(t.branches) {
      var i: nat :| i < |t.branches| && !t.branches[i].Done?;
      var rest := SomeThreadMoves(t.branches[i], ScopePrefix(prefix, t.p.branches[i].name), home, st, e);
      path := [i] + rest;
    }
  }

  // ---- the error Parallel returns ----

  predicate NonSuspend(out: Outcome) {
    out.Erred? && AsSuspend(out.e) == None
  }

  predicate Suspends(out: Outcome) {
    out.Erred? && AsSuspend(out.e).Some?
  }

  /** The lowest-index error that is not a suspension; else a suspension at the latest resume
      time; else none, and every branch returned. */
  lemma {:induction false} JoinErrorIs(outs: seq<Outcome>)
    ensures FirstError(outs).Some? <==> exists i :: 0 <= i < |outs| && NonSuspend(outs[i])
    ensures forall i | 0 <= i < |outs| && NonSuspend(outs[i]) ::
      (forall j | 0 <= j < i :: !NonSuspend(outs[j])) ==> JoinError(outs) == Some(outs[i].e)
    ensures LatestSuspend(outs).Some? <==> exists i :: 0 <= i < |outs| && Suspends(outs[i])
    ensures forall i :: 0 <= i < |outs| && Suspends(outs[i]) ==> AsSuspend(outs[i].e).value <= LatestSuspend(outs).value
    ensures LatestSuspend(outs).Some? ==>
      exists i :: 0 <= i < |outs| && Suspends(outs[i]) && AsSuspend(outs[i].e) == LatestSuspend(outs)
    ensures JoinError(outs) == None <==> forall i :: 0 <= i < |outs| ==> outs[i].Returned?
  {
    if outs != [] {
      var rest := outs[1..];
      JoinErrorIs(rest);
      assert forall i :: 0 < i < |outs| ==> outs[i] == rest[i - 1];
      assert forall i :: 0 <= i < |rest| ==> rest[i] == outs[i + 1];
    }
  }
}
