/** An Execute body run on a workflow context, and the join of parallel branches. */
module Executor {
  import opened Prelude
  import opened Names
  import opened Timestamps
  import opened Database
  import opened Workflow
  import opened Store
  import opened Runtime

  // ---- joining branches ----

  function ErrorIn(out: Outcome): Option<Error> {
    if out.Erred? then Some(out.e) else None
  }

  lemma {:induction false} FirstErrorAppend(outs: seq<Outcome>, out: Outcome)
    ensures FirstError(outs + [out])
         == if FirstError(outs) != None then FirstError(outs)
            else if out.Erred? && AsSuspend(out.e) == None then Some(out.e) else None
  {
    if outs == [] {
      assert [] + [out] == [out];
    } else {
      FirstErrorAppend(outs[1..], out);
      assert (outs + [out])[1..] == outs[1..] + [out];
    }
  }

  lemma {:induction false} LatestSuspendAppend(outs: seq<Outcome>, out: Outcome)
    ensures var before, here := LatestSuspend(outs), if out.Erred? then AsSuspend(out.e) else None;
      LatestSuspend(outs + [out])
      == if here != None && (before == None || here.value > before.value) then here else before
  {
    if outs == [] {
      assert [] + [out] == [out];
    } else {
      LatestSuspendAppend(outs[1..], out);
      assert (outs + [out])[1..] == outs[1..] + [out];
    }
  }

  /** The loop over the branches' errors at the end of Parallel. */
  method FoldErrors(errs: array<Option<Error>>, ghost outs: seq<Outcome>) returns (err: Option<Error>)
    requires errs.Length == |outs| && forall i :: 0 <= i < |outs| ==> errs[i] == ErrorIn(outs[i])
    ensures err == JoinError(outs)
  {
    var latestSuspend: Option<Instant> := None;
    var firstErr: Option<Error> := None;
    for i := 0 to errs.Length
      invariant firstErr == FirstError(outs[..i]) && latestSuspend == LatestSuspend(outs[..i])
    {
      FirstErrorAppend(outs[..i], outs[i]);
      LatestSuspendAppend(outs[..i], outs[i]);
      assert outs[..i + 1] == outs[..i] + [outs[i]];
      if errs[i] == None {
        continue;
      }
      var suspend := AsSuspend(errs[i].value);
      if suspend != None {
        if latestSuspend == None || suspend.value > latestSuspend.value {
          latestSuspend := suspend;
        }
      } else if firstErr == None {
        firstErr := errs[i];
      }
    }
    assert outs[..|outs|] == outs;
    if firstErr != None {
      return firstErr;
    }
    if latestSuspend != None {
      return Some(SuspendError(latestSuspend.value));
    }
    return None;
  }

  // ---- running a body ----

  lemma {:induction false} ExecAllPrefix(bs: seq<Branch>, i: nat, sc: Scope, st: State, e: Env)
    requires i < |bs|
    ensures var (st1, outs) := ExecAll(bs[..i], sc, st, e);
      var (st2, out) := Exec(bs[i].body, ChildScope(sc, bs[i].name), st1, e);
      ExecAll(bs[..i + 1], sc, st, e) == (st2, outs + [out])
  {
    if i == 0 {
      assert bs[..0] == [] && bs[..1] == [bs[0]] && bs[..1][1..] == [];
      var (st2, out) := Exec(bs[0].body, ChildScope(sc, bs[0].name), st, e);
      assert ExecAll(bs[..1][1..], sc, st2, e) == (st2, []);
      assert [out] + [] == [] + [out];
    } else {
      var (st1, first) := Exec(bs[0].body, ChildScope(sc, bs[0].name), st, e);
      ExecAllPrefix(bs[1..], i - 1, sc, st1, e);
      assert bs[..i][1..] == bs[1..][..i - 1] && bs[1..][i - 1] == bs[i];
      assert bs[..i + 1][1..] == bs[1..][..i];
      var (st2, outs) := ExecAll(bs[1..][..i - 1], sc, st1, e);
      var (_, out) := Exec(bs[i].body, ChildScope(sc, bs[i].name), st2, e);
      assert [first] + (outs + [out]) == ([first] + outs) + [out];
    }
  }

  /** Runs the body from the top: what the context's session ends as, and the outcome, are
      those of Exec. */
  method Execute(p: Prog, wc: WorkflowContext) returns (out: Outcome)
    requires wc.Valid() && wc.session.Valid()
    modifies wc, wc.Own(), wc.session, wc.session.store
    ensures wc.session.Valid()
    ensures (wc.session.View(), out) == Exec(p, old(wc.scope), old(wc.session.View()), wc.session.e)
    ensures OnlyFor(wc.session.e.who, old(wc.session.store.Contents()), wc.session.store.Contents())
    decreases p
  {
    match p
    case Return(v) => return Returned(v);
    case Fail(err) => return Erred(err);
    case Parallel(branches, _) =>
      var next := JoinBranches(p, wc);
      if next.Stop? {
        return Erred(next.e);
      }
      out := Execute(next.p, wc);
    case _ =>
      var next := Call(p, wc);
      if next.Stop? {
        return Erred(next.e);
      }
      out := Execute(next.p, wc);
  }

  /** One framework call of the body, and where it goes on. */
  method Call(p: Prog, wc: WorkflowContext) returns (next: Next)
    requires IsCall(p) && wc.Valid() && wc.session.Valid()
    modifies wc, wc.Own(), wc.session, wc.session.store
    ensures wc.Valid() && wc.session.Valid() && wc.scope == Counted(p, old(wc.scope)) && fresh(wc.Own() - old(wc.Own()))
    ensures var name := CallName(p, old(wc.scope));
      match Perform(p, name, old(wc.session.View()), wc.session.e)
      case Halted(st, x) => wc.session.View() == st && next == Stop(x)
      case Replied(st, reply) => wc.session.View() == st && next == Resume(p, name, reply, wc.session.e)
    ensures next.Go? ==> (p decreases to next.p)
    ensures OnlyFor(wc.session.e.who, old(wc.session.store.Contents()), wc.session.store.Contents())
  {
    match p
    case Step(name, _) =>
      var v, err := wc.Run(name, p);
      next := if err != None then Stop(err.value) else Onward(p, Value(v));
    case Provide(prefix, _) =>
      var v, err := wc.Provide(prefix, p);
      next := if err != None then Stop(err.value) else Onward(p, Value(v));
    case Sleep(rest) =>
      var name := ResolveStepName(wc.prefix, CounterName("_sleep.until", wc.sleepCounter + 1));
      var err := wc.SleepUntil(wc.session.e.resumeAt(name), p);
      next := if err != None then Stop(err.value) else Go(rest);
    case Wait(name, key, timeout, after) =>
      var v, err := wc.WaitForEvent(name, key, timeout, p);
      next :=
        if err == None then Onward(p, Value(v))
        else if err.value.EventTimeoutError? then Onward(p, Expired)
        else Stop(err.value);
  }

  /** Parallel, and where the body goes on with the branches' values. */
  method JoinBranches(p: Prog, wc: WorkflowContext) returns (next: Next)
    requires p.Parallel? && wc.Valid() && wc.session.Valid()
    modifies wc.session, wc.session.store
    ensures wc.Valid() && wc.session.Valid() && wc.scope == old(wc.scope) && wc.Own() == old(wc.Own())
    ensures var (st, outs) := ExecAll(p.branches, wc.scope, old(wc.session.View()), wc.session.e);
      wc.session.View() == st && next == AfterJoin(p, outs)
    ensures next.Go? ==> (p decreases to next.p)
    ensures OnlyFor(wc.session.e.who, old(wc.session.store.Contents()), wc.session.store.Contents())
    decreases p, 0
  {
    var errs := new Option<Error>[|p.branches|](_ => None);
    var outs := RunBranches(p.branches, errs, wc);
    var err := FoldErrors(errs, outs);
    if err != None {
      return Stop(err.value);
    }
    var values := Values(outs);
    next := if values in p.join then Go(p.join[values]) else Stop(Plain("panic"));
  }

  /** Each branch in a scope of its own, its error kept under its index. */
  method RunBranches(branches: seq<Branch>, errs: array<Option<Error>>,
          wc: WorkflowContext) returns (outs: seq<Outcome>)
    requires wc.Valid() && wc.session.Valid() && errs.Length == |branches|
    modifies errs, wc.session, wc.session.store
    ensures |outs| == |branches| && forall i :: 0 <= i < |outs| ==> errs[i] == ErrorIn(outs[i])
    ensures wc.Valid() && wc.session.Valid() && wc.scope == old(wc.scope) && wc.Own() == old(wc.Own())
    ensures (wc.session.View(), outs) == ExecAll(branches, wc.scope, old(wc.session.View()), wc.session.e)
    ensures OnlyFor(wc.session.e.who, old(wc.session.store.Contents()), wc.session.store.Contents())
    decreases branches
  {
    outs := [];
    assert branches[..0] == [];
    for i := 0 to |branches|
      invariant |outs| == i && forall j :: 0 <= j < i ==> errs[j] == ErrorIn(outs[j])
      invariant wc.Valid() && wc.session.Valid() && wc.scope == old(wc.scope) && wc.Own() == old(wc.Own())
      invariant (wc.session.View(), outs) == ExecAll(branches[..i], wc.scope, old(wc.session.View()), wc.session.e)
      invariant OnlyFor(wc.session.e.who, old(wc.session.store.Contents()), wc.session.store.Contents())
    {
      ExecAllPrefix(branches, i, wc.scope, old(wc.session.View()), wc.session.e);
      var scope := wc.Child(branches[i].name);
      var out := Execute(branches[i].body, scope);
      outs := outs + [out];
      errs[i] := ErrorIn(out);
    }
    assert branches[..|branches|] == branches;
  }
}
