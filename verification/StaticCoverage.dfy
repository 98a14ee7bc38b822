/** Every step name an execution tracks is matched by the statically extracted steps. */
module StaticCoverage {
  import opened Prelude
  import opened Names
  import opened Database
  import opened Workflow
  import Replay
  import S = StaticSteps

  // ---- programs that come from a body ----

  /** The framework calls of a body, those inside branches and step functions aside. */
  function SitesOf(n: S.Node): seq<S.Node> {
    match n
    case RunCall(_) => [n]
    case WaitCall(_) => [n]
    case ParallelCall(_) => [n]
    case NewProviderCall(_, _) => []
    case SleepCall(children) => [n] + Sites(children)
    case NowCall(children) => [n] + Sites(children)
    case NewIdCall(children) => [n] + Sites(children)
    case Other(children) => Sites(children)
  }

  function Sites(nodes: seq<S.Node>): seq<S.Node> {
    if nodes == [] then [] else SitesOf(nodes[0]) + Sites(nodes[1..])
  }

  predicate IsBranch(arg: S.Arg, name: string) {
    arg.NewBranch? && name != "" && S.MayBe(arg.name, name)
  }

  /** The call is made at this site. */
  predicate MadeAt(p: Prog, site: S.Node)
    requires IsCall(p)
  {
    match p
    case Step(name, _) => site.RunCall? && S.MayBe(site.name, name)
    case Wait(name, _, _, _) => site.WaitCall? && S.MayBe(site.name, name)
    case Sleep(_) => site.SleepCall?
    case Provide(prefix, _) => (site.NowCall? && prefix == "_time.now") || (site.NewIdCall? && prefix == "_id.new")
  }

  /** Every call of the program is made at a site of the body, its branches at the sites of
      their NewBranch literals; which sites run, how often and in what order is free. */
  ghost predicate ComesFrom(p: Prog, body: seq<S.Node>)
    decreases p
  {
    match p
    case Return(_) => true
    case Fail(_) => true
    case Step(_, next) =>
      (exists site <- Sites(body) :: MadeAt(p, site)) && forall v | v in next :: ComesFrom(next[v], body)
    case Provide(_, next) =>
      (exists site <- Sites(body) :: MadeAt(p, site)) && forall v | v in next :: ComesFrom(next[v], body)
    case Sleep(rest) => (exists site <- Sites(body) :: MadeAt(p, site)) && ComesFrom(rest, body)
    case Wait(_, _, _, after) =>
      (exists site <- Sites(body) :: MadeAt(p, site)) && forall r | r in after :: ComesFrom(after[r], body)
    case Parallel(branches, join) =>
      && (exists site <- Sites(body) :: site.ParallelCall? && BranchesComeFrom(branches, site.args))
      && forall vs | vs in join :: ComesFrom(join[vs], body)
  }

  ghost predicate BranchesComeFrom(branches: seq<Branch>, args: seq<S.Arg>)
    decreases branches
  {
    && (branches == [] <==> args == [])
    && (branches != [] && args != [] ==>
          && IsBranch(args[0], branches[0].name) && ComesFrom(branches[0].body, args[0].body)
          && BranchesComeFrom(branches[1..], args[1..]))
  }

  /** All names in the body are written in a way the walker reads right. */
  predicate Readable(q: S.Quoter, n: S.Node) {
    match n
    case RunCall(name) => S.IsLegal(name) && S.Faithful(q, name)
    case WaitCall(name) => S.IsLegal(name) && S.Faithful(q, name)
    case ParallelCall(args) => ArgsReadable(q, args)
    case NewProviderCall(_, _) => true
    case SleepCall(children) => AllReadable(q, children)
    case NowCall(children) => AllReadable(q, children)
    case NewIdCall(children) => AllReadable(q, children)
    case Other(children) => AllReadable(q, children)
  }

  predicate AllReadable(q: S.Quoter, nodes: seq<S.Node>) {
    nodes != [] ==> Readable(q, nodes[0]) && AllReadable(q, nodes[1..])
  }

  predicate ArgsReadable(q: S.Quoter, args: seq<S.Arg>) {
    args != [] ==>
      && (args[0].NewBranch? ==> S.FaithfulBranch(q, args[0].name) && AllReadable(q, args[0].body))
      && ArgsReadable(q, args[1..])
  }

  // ---- what an extracted step matches ----

  ghost predicate IsCounter(pattern: string, name: string) {
    exists prefix: string, k: nat :: pattern == prefix + ":*" && k >= 1 && name == CounterName(prefix, k)
  }

  /** A step matches its name; ":*" is any counter, "<dynamic>" anything, and a Parallel the
      names of its branches' steps after the branch's name. */
  ghost predicate Matches(step: S.Step, name: string)
    decreases step
  {
    if step.stepType == "parallel" then InBranches(step.branches, name)
    else if step.kind.DynamicKind? then true
    else if step.kind.ProviderKind? then IsCounter(step.name, name)
    else step.name == name
  }

  predicate IsNamed(branch: S.Branch, name: string) {
    branch.name == name || branch.name == "<unresolved>"
  }

  ghost predicate InBranches(branches: seq<S.Branch>, name: string)
    decreases branches
  {
    branches != [] &&
    ((exists part, rest :: name == part + "/" + rest && IsNamed(branches[0], part) && Covered(branches[0].steps, rest))
     || InBranches(branches[1..], name))
  }

  ghost predicate Covered(steps: seq<S.Step>, name: string)
    decreases steps
  {
    steps != [] && (Matches(steps[0], name) || Covered(steps[1..], name))
  }

  lemma {:induction false} CoveredBy(steps: seq<S.Step>, step: S.Step, name: string)
    requires step in steps && Matches(step, name)
    ensures Covered(steps, name)
  {
    if steps[0] != step {
      CoveredBy(steps[1..], step, name);
    }
  }

  // ---- every site has its step ----

  function StepOf(q: S.Quoter, site: S.Node): S.Step
    requires S.Find(q, site).steps != []
  {
    S.Find(q, site).steps[0]
  }

  lemma {:induction false} SiteHasStep(q: S.Quoter, nodes: seq<S.Node>, site: S.Node)
    requires AllReadable(q, nodes) && site in Sites(nodes)
    ensures Readable(q, site) && S.Find(q, site).steps != [] && StepOf(q, site) in S.FindAll(q, nodes).steps
    decreases nodes
  {
    if site in SitesOf(nodes[0]) {
      SiteHasStepIn(q, nodes[0], site);
    } else {
      SiteHasStep(q, nodes[1..], site);
    }
  }

  lemma {:induction false} SiteHasStepIn(q: S.Quoter, n: S.Node, site: S.Node)
    requires Readable(q, n) && site in SitesOf(n)
    ensures Readable(q, site) && S.Find(q, site).steps != [] && StepOf(q, site) in S.Find(q, n).steps
    decreases n
  {
    match n
    case SleepCall(children) => if site != n { SiteHasStep(q, children, site); }
    case NowCall(children) => if site != n { SiteHasStep(q, children, site); }
    case NewIdCall(children) => if site != n { SiteHasStep(q, children, site); }
    case Other(children) => SiteHasStep(q, children, site);
    case RunCall(_) =>
    case WaitCall(_) =>
    case ParallelCall(_) =>
    case NewProviderCall(_, _) =>
  }

  lemma CallMatches(q: S.Quoter, p: Prog, sc: Scope, site: S.Node)
    requires S.Spells(q) && IsCall(p) && MadeAt(p, site) && Readable(q, site)
    ensures S.Find(q, site).steps != [] && Matches(StepOf(q, site), LocalName(p, sc))
  {
    match p
    case Step(name, _) => NamedMatches(q, site.name, name);
    case Wait(name, _, _, _) => NamedMatches(q, site.name, name);
    case Sleep(_) => CounterMatches("_sleep.until", Count(sc, Sleeps) + 1);
    case Provide(prefix, _) => CounterMatches(prefix, Count(sc, Provider(prefix)) + 1);
  }

  lemma NamedMatches(q: S.Quoter, e: S.NameExpr, name: string)
    requires S.Spells(q) && S.IsLegal(e) && S.Faithful(q, e) && S.MayBe(e, name)
    ensures S.Classify(q, e).1 == S.DynamicKind || S.Classify(q, e).0 == name
    ensures !S.Classify(q, e).1.ProviderKind?
  {
    if !e.Dynamic? {
      S.NameIsFaithful(q, e, name);
    }
  }

  lemma CounterMatches(prefix: string, k: nat)
    requires k >= 1
    ensures IsCounter(prefix + ":*", CounterName(prefix, k))
  {
  }

  // ---- every tracked name is covered ----

  ghost predicate CoveredName(steps: seq<S.Step>, prefix: string, name: string) {
    exists local :: Covered(steps, local) && name == ResolveStepName(prefix, local)
  }

  ghost predicate AllCovered(steps: seq<S.Step>, prefix: string, before: set<string>, after: set<string>) {
    forall name | name in after && name !in before :: CoveredName(steps, prefix, name)
  }

  lemma CallIsCovered(q: S.Quoter, p: Prog, body: seq<S.Node>, sc: Scope)
    requires S.Spells(q) && IsCall(p) && ComesFrom(p, body) && AllReadable(q, body)
    ensures CoveredName(S.FindAll(q, body).steps, sc.prefix, CallName(p, sc))
  {
    var site :| site in Sites(body) && MadeAt(p, site);
    SiteHasStep(q, body, site);
    CallMatches(q, p, sc, site);
    CoveredBy(S.FindAll(q, body).steps, StepOf(q, site), LocalName(p, sc));
  }

  lemma OnwardComesFrom(p: Prog, body: seq<S.Node>, reply: Reply)
    requires IsCall(p) && ComesFrom(p, body) && Onward(p, reply).Go?
    ensures ComesFrom(Onward(p, reply).p, body)
  {
  }

  /** Every name an execution of the program tracks is matched by the steps extracted from
      its body, whatever its branches, replies and failures. */
  lemma {:induction false} ExtractedStepsCover(q: S.Quoter, p: Prog, body: seq<S.Node>, sc: Scope, st: State, e: Env)
    requires S.Spells(q) && ComesFrom(p, body) && AllReadable(q, body)
    ensures AllCovered(S.FindAll(q, body).steps, sc.prefix, st.seen, Exec(p, sc, st, e).0.seen)
    decreases p
  {
    if p.Parallel? {
      var (st1, outs) := ExecAll(p.branches, sc, st, e);
      ParallelIsCovered(q, p, body, sc, st, e);
      var n := AfterJoin(p, outs);
      if n.Go? {
        ExtractedStepsCover(q, n.p, body, sc, st1, e);
      }
    } else if IsCall(p) {
      var name := CallName(p, sc);
      var r := Perform(p, name, st, e);
      CallIsCovered(q, p, body, sc);
      Replay.HaltedTracksOne(p, name, st, e);
      if r.Replied? {
        var n := Resume(p, name, r.reply, e);
        if n.Go? {
          OnwardComesFrom(p, body, r.reply);
          ExtractedStepsCover(q, n.p, body, Counted(p, sc), r.st, e);
        }
      }
    }
  }

  lemma {:induction false} ParallelIsCovered(q: S.Quoter, p: Prog, body: seq<S.Node>, sc: Scope, st: State, e: Env)
    requires S.Spells(q) && p.Parallel? && ComesFrom(p, body) && AllReadable(q, body)
    ensures AllCovered(S.FindAll(q, body).steps, sc.prefix, st.seen, ExecAll(p.branches, sc, st, e).0.seen)
    decreases p, 0
  {
    var site :| site in Sites(body) && site.ParallelCall? && BranchesComeFrom(p.branches, site.args);
    SiteHasStep(q, body, site);
    BranchesAreCovered(q, p.branches, site.args, sc, st, e);
    forall name | name in ExecAll(p.branches, sc, st, e).0.seen && name !in st.seen
      ensures CoveredName(S.FindAll(q, body).steps, sc.prefix, name)
    {
      assert CoveredInBranches(S.FindBranches(q, site.args).0, sc.prefix, name);
      var local :| InBranches(S.FindBranches(q, site.args).0, local) && name == ResolveStepName(sc.prefix, local);
      assert Matches(StepOf(q, site), local);
      CoveredBy(S.FindAll(q, body).steps, StepOf(q, site), local);
    }
  }

  ghost predicate CoveredInBranches(branches: seq<S.Branch>, prefix: string, name: string) {
    exists local :: InBranches(branches, local) && name == ResolveStepName(prefix, local)
  }

  lemma {:induction false} BranchesAreCovered(q: S.Quoter, bs: seq<Branch>, args: seq<S.Arg>, sc: Scope, st: State,
          e: Env)
    requires S.Spells(q) && BranchesComeFrom(bs, args) && ArgsReadable(q, args)
    ensures forall name | name in ExecAll(bs, sc, st, e).0.seen && name !in st.seen ::
      CoveredInBranches(S.FindBranches(q, args).0, sc.prefix, name)
    decreases bs
  {
    if bs != [] {
      var child := ChildScope(sc, bs[0].name);
      var (st1, _) := Exec(bs[0].body, child, st, e);
      ExtractedStepsCover(q, bs[0].body, args[0].body, child, st, e);
      BranchesAreCovered(q, bs[1..], args[1..], sc, st1, e);
      var found := S.FindBranches(q, args).0;
      assert found[1..] == S.FindBranches(q, args[1..]).0;
      forall name | name in ExecAll(bs, sc, st, e).0.seen && name !in st.seen
        ensures CoveredInBranches(found, sc.prefix, name)
      {
        if name in st1.seen {
          FirstBranchCovers(q, bs[0], args[0], found, sc, name);
        } else {
          var local :| InBranches(found[1..], local) && name == ResolveStepName(sc.prefix, local);
          assert InBranches(found, local);
        }
      }
    }
  }

  lemma FirstBranchCovers(q: S.Quoter, b: Branch, arg: S.Arg, found: seq<S.Branch>, sc: Scope, name: string)
    requires S.Spells(q) && IsBranch(arg, b.name) && S.FaithfulBranch(q, arg.name)
    requires found != [] && found[0] == S.Branch(S.ResolveString(q, arg.name), S.FindAll(q, arg.body).steps)
    requires CoveredName(S.FindAll(q, arg.body).steps, ChildScope(sc, b.name).prefix, name)
    ensures CoveredInBranches(found, sc.prefix, name)
  {
    var rest :| Covered(found[0].steps, rest) && name == ResolveStepName(ChildScope(sc, b.name).prefix, rest);
    if !arg.name.Dynamic? {
      S.BranchNameIsFaithful(q, arg.name, b.name);
    }
    assert IsNamed(found[0], b.name);
    var local := b.name + "/" + rest;
    assert InBranches(found, local);
    assert name == ResolveStepName(sc.prefix, local) by {
      NestedName(sc.prefix, b.name, rest);
    }
  }

  lemma NestedName(prefix: string, branch: string, rest: string)
    requires branch != ""
    ensures ResolveStepName(ScopePrefix(prefix, branch), rest) == ResolveStepName(prefix, branch + "/" + rest)
  {
    assert prefix + "/" + branch + "/" + rest == prefix + "/" + (branch + "/" + rest);
  }

  // ---- where it fails ----

  /** A raw literal keeps its backquotes, so its step is not covered. */
  lemma RawLiteralIsMissed(q: S.Quoter, name: string, c: Codec, e: Env)
    requires S.Spells(q)
    ensures var body, p := [S.RunCall(S.Raw(name))], Step(name, imap[]);
      && ComesFrom(p, body)
      && name in Exec(p, ROOT, State({}, map[], map[], {}), e).0.seen
      && !Covered(S.FindAll(q, body).steps, name)
  {
    var body, p := [S.RunCall(S.Raw(name))], Step(name, imap[]);
    assert Sites(body) == [body[0]] by {
      assert Sites(body[1..]) == [];
    }
    assert MadeAt(p, body[0]) && body[0] in Sites(body);
    S.NameIsFaithful(q, S.Raw(name), name);
    var steps := S.FindAll(q, body).steps;
    assert S.FindAll(q, body[1..]) == S.NOTHING;
    S.JoinAssociative(S.Find(q, body[0]), S.NOTHING, S.NOTHING);
    assert steps == [S.Step(S.Classify(q, S.Raw(name)).0, S.LiteralKind, "run", [])];
    assert !Covered(steps[1..], name);
  }
}
