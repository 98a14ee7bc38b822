/** Cancellation on the fine machine with one lease store: after the signal, at most one
    outcome other than cancelled, and no new step functions. */
module FineCancel {
  import opened Prelude
  import opened Timestamps
  import opened Database
  import opened Workflow
  import opened StoreOps
  import opened Outcomes
  import opened FineMachine
  import opened FineSafety
  import opened FineLeases

  predicate LeavesSignal(a: Action, id: string) {
    a.Signal? && a.id == id ==> a.signal == CancelRequested
  }

  predicate SignalKept(actions: seq<Action>, id: string) {
    forall i :: 0 <= i < |actions| ==> LeavesSignal(actions[i], id)
  }

  /** Only SetSignal touches a signal. */
  lemma WritesKeepSignal(t: Tables, op: Op, id: string)
    requires id in t.workflows
    ensures id in Apply(t, op).workflows
    ensures !(op.SetSignalOp? && op.id == id) ==> Apply(t, op).workflows[id].signal == t.workflows[id].signal
  {
  }

  lemma NextKeepsSignal(cfg: Config, s: Fine, a: Action, id: string)
    requires SignalSet(s.db, id) && LeavesSignal(a, id)
    ensures SignalSet(Act(cfg, s, a).db, id)
  {
    if Write(cfg, s, a).Some? {
      var op := Write(cfg, s, a).value;
      WritesKeepSignal(s.db, op, id);
      assert op.SetSignalOp? ==> a.Signal?;
    }
  }

  // ---- executions under way at the time of the signal ----

  /** The runner may still commit an outcome other than cancelled for the workflow. */
  predicate MayStill(r: Runner, id: string) {
    r.rec.id == id && (r.Executing? || (r.Resolved? && r.ended != Broken(CancelledError)))
  }

  predicate MayStillBy(s: Fine, w: nat, id: string) {
    w in s.runners && MayStill(s.runners[w], id)
  }

  /** No execution of the workflow starts once the signal is set. */
  lemma NoneStarts(cfg: Config, s: Fine, a: Action, id: string, w: nat)
    requires SignalSet(s.db, id) && MayStillBy(Act(cfg, s, a), w, id)
    ensures MayStillBy(s, w, id) && s.runners[w].rec == Act(cfg, s, a).runners[w].rec
    ensures Act(cfg, s, a).runners[w].Executing? ==> s.runners[w].Executing?
  {
  }

  /** A call past its own look at the signal. */
  predicate PastSignal(s: Fine, w: nat, step: string) {
    InCall(s, w, step) && (CallOf(s, w, step).Clear? || Missing(CallOf(s, w, step)))
  }

  lemma NonePasses(cfg: Config, s: Fine, a: Action, id: string, w: nat, step: string)
    requires SignalSet(s.db, id) && PastSignal(Act(cfg, s, a), w, step)
    requires Act(cfg, s, a).runners[w].rec.id == id
    ensures PastSignal(s, w, step) && s.runners[w].rec == Act(cfg, s, a).runners[w].rec
  {
    hide FormatTime;
  }

  /** Whatever calls a step function after the signal had passed its check before it. */
  lemma {:induction false} CallsPassedBefore(cfg: Config, s: Fine, more: seq<Action>, id: string, w: nat, step: string)
    requires Snapshots(s) && SignalSet(s.db, id) && SignalKept(more, id)
    requires LogOrdered(s)
    requires PastSignal(Run(cfg, s, more), w, step) && Run(cfg, s, more).runners[w].rec.id == id
    ensures PastSignal(s, w, step) && s.runners[w].rec == Run(cfg, s, more).runners[w].rec
  {
    if more != [] {
      var front, last := more[..|more| - 1], more[|more| - 1];
      SignalStays(cfg, s, front, id);
      NonePasses(cfg, Run(cfg, s, front), last, id, w, step);
      CallsPassedBefore(cfg, s, front, id, w, step);
    }
  }

  lemma {:induction false} SignalStays(cfg: Config, s: Fine, more: seq<Action>, id: string)
    requires Snapshots(s) && LogOrdered(s) && SignalSet(s.db, id) && SignalKept(more, id)
    ensures SignalSet(Run(cfg, s, more).db, id)
  {
    if more != [] {
      var front, last := more[..|more| - 1], more[|more| - 1];
      assert LeavesSignal(last, id);
      SignalStays(cfg, s, front, id);
      RunKeepsVersions(cfg, s, front);
      NextKeepsSignal(cfg, Run(cfg, s, front), last, id);
    }
  }

  // ---- outcomes after the signal ----

  /** Committed outcomes of the workflow other than cancelled. */
  function Others(log: seq<Commit>, id: string): nat {
    if log == [] then 0
    else Others(log[..|log| - 1], id)
         + if log[|log| - 1].id == id && !log[|log| - 1].decision.Cancel? then 1 else 0
  }

  /** At most one outcome other than cancelled since `base`, counting one still under way. */
  ghost predicate OneLeft(s: Fine, id: string, base: nat) {
    && Others(s.log, id) <= base + 1
    && (Others(s.log, id) == base + 1 ==> forall w :: !MayStillBy(s, w, id))
  }

  lemma CommitIsCounted(log: seq<Commit>, c: Commit, id: string)
    ensures Others(log + [c], id) == Others(log, id) + if c.id == id && !c.decision.Cancel? then 1 else 0
  {
    assert (log + [c])[..|log|] == log;
  }

  /** A step that adds another outcome is by the one runner that might. */
  lemma OthersGrowByOne(cfg: Config, s: Fine, a: Action, id: string)
    ensures Others(Act(cfg, s, a).log, id) <= Others(s.log, id) + 1
    ensures Others(Act(cfg, s, a).log, id) > Others(s.log, id) ==>
      a.CommitOutcome? && MayStillBy(s, a.w, id)
      && Act(cfg, s, a).runners == s.runners[a.w := Closing(s.runners[a.w].rec)]
  {
    var t := Act(cfg, s, a);
    if a.CommitOutcome? && t.log != s.log {
      var rec, ended := s.runners[a.w].rec, s.runners[a.w].ended;
      CommitIsCounted(s.log, Commit(rec.id, rec.occ, DecisionOf(cfg, rec, ended, a.at)), id);
    }
  }

  lemma Sole(s: Fine, v: nat, w: nat, id: string)
    requires Exclusive(s) && MayStillBy(s, v, id) && MayStillBy(s, w, id)
    ensures v == w
  {
    assert Holds(s, v) && Holds(s, w);
  }

  lemma NextKeepsOneLeft(cfg: Config, s: Fine, a: Action, id: string, base: nat)
    requires Exclusive(s) && SignalSet(s.db, id) && OneLeft(s, id, base)
    requires Others(s.log, id) >= base
    ensures OneLeft(Act(cfg, s, a), id, base) && Others(Act(cfg, s, a).log, id) >= Others(s.log, id)
  {
    var t := Act(cfg, s, a);
    OthersGrowByOne(cfg, s, a, id);
    OthersNeverShrink(cfg, s, a, id);
    forall w: nat | MayStillBy(t, w, id)
      ensures MayStillBy(s, w, id)
      ensures Others(t.log, id) == Others(s.log, id)
    {
      NoneStarts(cfg, s, a, id, w);
      if Others(t.log, id) > Others(s.log, id) {
        assert w != a.w;
        Sole(s, a.w, w, id);
      }
    }
  }

  lemma OthersNeverShrink(cfg: Config, s: Fine, a: Action, id: string)
    ensures Others(Act(cfg, s, a).log, id) >= Others(s.log, id)
  {
    var t := Act(cfg, s, a);
    if t.log != s.log {
      CommitIsCounted(s.log, t.log[|t.log| - 1], id);
      assert t.log == s.log + [t.log[|t.log| - 1]];
    }
  }

  lemma {:induction false} RunKeepsOneLeft(cfg: Config, s: Fine, more: seq<Action>, id: string)
    requires cfg.leased && Snapshots(s) && LogOrdered(s) && Exclusive(s) && Guarded(cfg, s)
    requires SignalSet(s.db, id) && SignalKept(more, id)
    ensures var t := Run(cfg, s, more);
      OneLeft(t, id, Others(s.log, id)) && Others(t.log, id) >= Others(s.log, id)
  {
    if more != [] {
      var front, last := more[..|more| - 1], more[|more| - 1];
      RunKeepsOneLeft(cfg, s, front, id);
      RunKeepsLeases(cfg, s, front);
      SignalStays(cfg, s, front, id);
      NextKeepsOneLeft(cfg, Run(cfg, s, front), last, id, Others(s.log, id));
    }
  }

  /** Once the cancel signal is set and left alone, at most one outcome other than cancelled
      is committed for the workflow, and a step function is called only by a call that had
      seen a clear signal before. */
  lemma CancelIsSafe(cfg: Config, first: seq<Action>, more: seq<Action>, id: string)
    requires cfg.leased && SignalSet(Run(cfg, START, first).db, id) && SignalKept(more, id)
    ensures var s, t := Run(cfg, START, first), Run(cfg, START, first + more);
      && Others(t.log, id) <= Others(s.log, id) + 1
      && forall w, step | CallsFunction(cfg, t, w, step) && t.runners[w].rec.id == id ::
           PastSignal(s, w, step) && s.runners[w].rec == t.runners[w].rec
  {
    var s, t := Run(cfg, START, first), Run(cfg, START, first + more);
    RunConcat(cfg, START, first, more);
    RunKeepsVersions(cfg, START, first);
    RunKeepsLeases(cfg, START, first);
    RunKeepsOneLeft(cfg, s, more, id);
    forall w, step | CallsFunction(cfg, t, w, step) && t.runners[w].rec.id == id
      ensures PastSignal(s, w, step) && s.runners[w].rec == t.runners[w].rec
    {
      CallsPassedBefore(cfg, s, more, id, w, step);
    }
  }
}
