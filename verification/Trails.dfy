/** The reference meaning of a workflow: the trail its saved values lead along. */
module Trails {
  import opened Prelude
  import opened Names
  import opened Database
  import opened Workflow

  // ---- following the saved values ----

  /** Where a program goes when every call takes its saved value: the names it asks for, the
      waits among them with their correlation keys, and its response if no value is missing. */
  datatype Trail = Trail(names: set<string>, waits: set<(string, string)>, end: Option<Val>)

  function WaitAt(p: Prog, name: string): set<(string, string)> {
    if p.Wait? then {(name, p.key)} else {}
  }

  function Follow(p: Prog, sc: Scope, rows: map<string, Row>, c: Codec): Trail
    decreases p
  {
    match p
    case Return(v) => Trail({}, {}, Some(v))
    case Fail(_) => Trail({}, {}, None)
    case Parallel(branches, join) =>
      var (t, ends) := FollowAll(branches, sc, rows, c);
      if None in ends || Ended(ends) !in join then t
      else
        var rest := Follow(join[Ended(ends)], sc, rows, c);
        Trail(t.names + rest.names, t.waits + rest.waits, rest.end)
    case _ =>
      var name := CallName(p, sc);
      var here := WaitAt(p, name);
      if name !in rows || ReadRow(rows[name], c).Unreadable? then Trail({name}, here, None)
      else
        match Onward(p, ReadRow(rows[name], c).reply)
        case Stop(_) => Trail({name}, here, None)
        case Go(q) =>
          var rest := Follow(q, Counted(p, sc), rows, c);
          Trail({name} + rest.names, here + rest.waits, rest.end)
  }

  function FollowAll(branches: seq<Branch>, sc: Scope, rows: map<string, Row>, c: Codec): (r: (Trail, seq<Option<Val>>))
    ensures |r.1| == |branches| && r.0.end == None
    decreases branches
  {
    if branches == [] then (Trail({}, {}, None), [])
    else
      var first := Follow(branches[0].body, ChildScope(sc, branches[0].name), rows, c);
      var (rest, ends) := FollowAll(branches[1..], sc, rows, c);
      (Trail(first.names + rest.names, first.waits + rest.waits, None), [first.end] + ends)
  }

  function Ended(ends: seq<Option<Val>>): seq<Val> {
    if ends == [] then [] else (if ends[0].Some? then [ends[0].value] else []) + Ended(ends[1..])
  }

  predicate Extends(a: map<string, Row>, b: map<string, Row>) {
    forall n | n in a :: n in b && b[n] == a[n]
  }

  lemma EndsOfBranches(bs: seq<Branch>, sc: Scope, rows: map<string, Row>, c: Codec)
    requires bs != []
    ensures var first := Follow(bs[0].body, ChildScope(sc, bs[0].name), rows, c);
      None !in FollowAll(bs, sc, rows, c).1 <==> first.end != None && None !in FollowAll(bs[1..], sc, rows, c).1
  {
    var first, ends := Follow(bs[0].body, ChildScope(sc, bs[0].name), rows, c), FollowAll(bs[1..], sc, rows, c).1;
    assert FollowAll(bs, sc, rows, c).1 == [first.end] + ends;
    assert first.end in [first.end] + ends && forall x | x in ends :: x in [first.end] + ends;
  }

  /** More saved values never turn the trail back. */
  lemma {:induction false} FollowMonotone(p: Prog, sc: Scope, a: map<string, Row>, b: map<string, Row>, c: Codec)
    requires Extends(a, b)
    ensures Follow(p, sc, a, c).names <= Follow(p, sc, b, c).names
    ensures Follow(p, sc, a, c).waits <= Follow(p, sc, b, c).waits
    ensures Follow(p, sc, a, c).end.Some? ==> Follow(p, sc, b, c) == Follow(p, sc, a, c)
    decreases p
  {
    if p.Parallel? {
      FollowAllMonotone(p.branches, sc, a, b, c);
      var ends := FollowAll(p.branches, sc, a, c).1;
      if None !in ends && Ended(ends) in p.join {
        FollowMonotone(p.join[Ended(ends)], sc, a, b, c);
      }
    } else if IsCall(p) {
      var name := CallName(p, sc);
      if name in a && ReadRow(a[name], c).Readable? {
        var n := Onward(p, ReadRow(a[name], c).reply);
        if n.Go? {
          FollowMonotone(n.p, Counted(p, sc), a, b, c);
        }
      }
    }
  }

  lemma {:induction false} FollowAllMonotone(bs: seq<Branch>, sc: Scope, a: map<string, Row>, b: map<string, Row>,
          c: Codec)
    requires Extends(a, b)
    ensures FollowAll(bs, sc, a, c).0.names <= FollowAll(bs, sc, b, c).0.names
    ensures FollowAll(bs, sc, a, c).0.waits <= FollowAll(bs, sc, b, c).0.waits
    ensures None !in FollowAll(bs, sc, a, c).1 ==> FollowAll(bs, sc, b, c) == FollowAll(bs, sc, a, c)
    decreases bs
  {
    if bs != [] {
      FollowMonotone(bs[0].body, ChildScope(sc, bs[0].name), a, b, c);
      FollowAllMonotone(bs[1..], sc, a, b, c);
      EndsOfBranches(bs, sc, a, c);
    }
  }

  /** A trail that ends has a row for every name on it. */
  lemma {:induction false} EndedTrailHasRows(p: Prog, sc: Scope, rows: map<string, Row>, c: Codec)
    requires Follow(p, sc, rows, c).end.Some?
    ensures Follow(p, sc, rows, c).names <= rows.Keys
    decreases p
  {
    if p.Parallel? {
      var ends := FollowAll(p.branches, sc, rows, c).1;
      EndedBranchesHaveRows(p.branches, sc, rows, c);
      EndedTrailHasRows(p.join[Ended(ends)], sc, rows, c);
    } else if IsCall(p) {
      EndedTrailHasRows(Onward(p, ReadRow(rows[CallName(p, sc)], c).reply).p, Counted(p, sc), rows, c);
    }
  }

  lemma {:induction false} EndedBranchesHaveRows(bs: seq<Branch>, sc: Scope, rows: map<string, Row>, c: Codec)
    requires None !in FollowAll(bs, sc, rows, c).1
    ensures FollowAll(bs, sc, rows, c).0.names <= rows.Keys
    decreases bs
  {
    if bs != [] {
      EndsOfBranches(bs, sc, rows, c);
      EndedTrailHasRows(bs[0].body, ChildScope(sc, bs[0].name), rows, c);
      EndedBranchesHaveRows(bs[1..], sc, rows, c);
    }
  }

  /** The trail waits only under names it asks for. */
  lemma {:induction false} WaitsAreNames(p: Prog, sc: Scope, rows: map<string, Row>, c: Codec, n: string, k: string)
    requires (n, k) in Follow(p, sc, rows, c).waits
    ensures n in Follow(p, sc, rows, c).names
    decreases p
  {
    if p.Parallel? {
      var (t, ends) := FollowAll(p.branches, sc, rows, c);
      if (n, k) in t.waits {
        BranchWaitsAreNames(p.branches, sc, rows, c, n, k);
      } else {
        WaitsAreNames(p.join[Ended(ends)], sc, rows, c, n, k);
      }
    } else if n != CallName(p, sc) {
      WaitsAreNames(Onward(p, ReadRow(rows[CallName(p, sc)], c).reply).p, Counted(p, sc), rows, c, n, k);
    }
  }

  lemma {:induction false} BranchWaitsAreNames(bs: seq<Branch>, sc: Scope, rows: map<string, Row>, c: Codec,
          n: string, k: string)
    requires (n, k) in FollowAll(bs, sc, rows, c).0.waits
    ensures n in FollowAll(bs, sc, rows, c).0.names
    decreases bs
  {
    if (n, k) in Follow(bs[0].body, ChildScope(sc, bs[0].name), rows, c).waits {
      WaitsAreNames(bs[0].body, ChildScope(sc, bs[0].name), rows, c, n, k);
    } else {
      BranchWaitsAreNames(bs[1..], sc, rows, c, n, k);
    }
  }

  // ---- what a program may ask for ----

  /** The program has a wait on this key, with this timeout. */
  ghost predicate HasWait(p: Prog, key: string, timeout: int)
    decreases p
  {
    match p
    case Return(_) => false
    case Fail(_) => false
    case Step(_, next) => exists v | v in next :: HasWait(next[v], key, timeout)
    case Provide(_, next) => exists v | v in next :: HasWait(next[v], key, timeout)
    case Sleep(rest) => HasWait(rest, key, timeout)
    case Wait(_, k, t, after) => (k == key && t == timeout) || exists r | r in after :: HasWait(after[r], key, timeout)
    case Parallel(branches, join) =>
      || (exists i | 0 <= i < |branches| :: HasWait(branches[i].body, key, timeout))
      || exists vs | vs in join :: HasWait(join[vs], key, timeout)
  }

  /** A call asked for: a plain one, or a wait on a key. */
  datatype Ask = Plainly | WaitOn(key: string)

  function AskOf(p: Prog): Ask {
    if p.Wait? then WaitOn(p.key) else Plainly
  }

  /** On some way through the program the name is asked for like this. */
  ghost predicate MayAsk(p: Prog, sc: Scope, n: string, a: Ask)
    decreases p
  {
    match p
    case Return(_) => false
    case Fail(_) => false
    case Step(_, next) => IsAsk(p, sc, n, a) || exists v | v in next :: MayAsk(next[v], Counted(p, sc), n, a)
    case Provide(_, next) => IsAsk(p, sc, n, a) || exists v | v in next :: MayAsk(next[v], Counted(p, sc), n, a)
    case Sleep(rest) => IsAsk(p, sc, n, a) || MayAsk(rest, Counted(p, sc), n, a)
    case Wait(_, _, _, after) => IsAsk(p, sc, n, a) || exists r | r in after :: MayAsk(after[r], Counted(p, sc), n, a)
    case Parallel(branches, join) =>
      || (exists i | 0 <= i < |branches| :: MayAsk(branches[i].body, ChildScope(sc, branches[i].name), n, a))
      || exists vs | vs in join :: MayAsk(join[vs], sc, n, a)
  }

  predicate IsAsk(p: Prog, sc: Scope, n: string, a: Ask)
    requires IsCall(p)
  {
    n == CallName(p, sc) && a == AskOf(p)
  }

  ghost predicate AnyMayAsk(bs: seq<Branch>, sc: Scope, n: string, a: Ask) {
    exists i | 0 <= i < |bs| :: MayAsk(bs[i].body, ChildScope(sc, bs[i].name), n, a)
  }

  /** Branches that run side by side and ask for one name ask for it alike: both plainly, or
      both waiting on the same key. Without Parallel there is nothing to agree on. */
  ghost predicate Agreeing(p: Prog, sc: Scope)
    decreases p
  {
    match p
    case Return(_) => true
    case Fail(_) => true
    case Step(_, next) => forall v | v in next :: Agreeing(next[v], Counted(p, sc))
    case Provide(_, next) => forall v | v in next :: Agreeing(next[v], Counted(p, sc))
    case Sleep(rest) => Agreeing(rest, Counted(p, sc))
    case Wait(_, _, _, after) => forall r | r in after :: Agreeing(after[r], Counted(p, sc))
    case Parallel(branches, join) =>
      && (forall i | 0 <= i < |branches| :: Agreeing(branches[i].body, ChildScope(sc, branches[i].name)))
      && AskAlike(branches, sc)
      && forall vs | vs in join :: Agreeing(join[vs], sc)
  }

  ghost predicate AskAlike(bs: seq<Branch>, sc: Scope) {
    forall i, j, n, a, b |
      0 <= i < j < |bs| && MayAsk(bs[i].body, ChildScope(sc, bs[i].name), n, a)
      && MayAsk(bs[j].body, ChildScope(sc, bs[j].name), n, b) :: a == b
  }

  ghost predicate AllAgreeing(bs: seq<Branch>, sc: Scope) {
    (forall i | 0 <= i < |bs| :: Agreeing(bs[i].body, ChildScope(sc, bs[i].name))) && AskAlike(bs, sc)
  }

  lemma OnwardAgreeing(p: Prog, sc: Scope, reply: Reply)
    requires IsCall(p) && Agreeing(p, sc) && Onward(p, reply).Go?
    ensures Agreeing(Onward(p, reply).p, Counted(p, sc))
  {
  }

  lemma OnwardMayAsk(p: Prog, sc: Scope, reply: Reply, n: string, a: Ask)
    requires IsCall(p) && Onward(p, reply).Go? && MayAsk(Onward(p, reply).p, Counted(p, sc), n, a)
    ensures MayAsk(p, sc, n, a)
  {
  }

  /** The first branch and the others. */
  lemma FirstAndRest(bs: seq<Branch>, sc: Scope)
    requires bs != [] && AllAgreeing(bs, sc)
    ensures AllAgreeing(bs[1..], sc) && Agreeing(bs[0].body, ChildScope(sc, bs[0].name))
    ensures forall n, a, b |
      MayAsk(bs[0].body, ChildScope(sc, bs[0].name), n, a) && AnyMayAsk(bs[1..], sc, n, b) :: a == b
  {
    forall i, j, n, a, b |
      0 <= i < j < |bs[1..]| && MayAsk(bs[1..][i].body, ChildScope(sc, bs[1..][i].name), n, a)
      && MayAsk(bs[1..][j].body, ChildScope(sc, bs[1..][j].name), n, b)
      ensures a == b
    {
      assert bs[1..][i] == bs[i + 1] && bs[1..][j] == bs[j + 1];
    }
    forall n, a, b | MayAsk(bs[0].body, ChildScope(sc, bs[0].name), n, a) && AnyMayAsk(bs[1..], sc, n, b)
      ensures a == b
    {
      var j :| 0 <= j < |bs[1..]| && MayAsk(bs[1..][j].body, ChildScope(sc, bs[1..][j].name), n, b);
      assert bs[1..][j] == bs[j + 1];
    }
  }

  lemma SameAsk(bs: seq<Branch>, sc: Scope, n: string, a: Ask, b: Ask)
    requires bs != [] && AllAgreeing(bs, sc)
    requires MayAsk(bs[0].body, ChildScope(sc, bs[0].name), n, a) && AnyMayAsk(bs[1..], sc, n, b)
    ensures a == b
  {
    FirstAndRest(bs, sc);
  }

  lemma AnyOfRest(bs: seq<Branch>, sc: Scope, n: string, a: Ask)
    requires bs != []
    ensures MayAsk(bs[0].body, ChildScope(sc, bs[0].name), n, a) ==> AnyMayAsk(bs, sc, n, a)
    ensures AnyMayAsk(bs[1..], sc, n, a) ==> AnyMayAsk(bs, sc, n, a)
  {
    if AnyMayAsk(bs[1..], sc, n, a) {
      var j :| 0 <= j < |bs[1..]| && MayAsk(bs[1..][j].body, ChildScope(sc, bs[1..][j].name), n, a);
      assert bs[1..][j] == bs[j + 1];
    }
  }

  /** The waits of the trail are among what the program may ask for. */
  lemma {:induction false} TrailMayAsk(p: Prog, sc: Scope, rows: map<string, Row>, c: Codec, n: string, k: string)
    requires (n, k) in Follow(p, sc, rows, c).waits
    ensures MayAsk(p, sc, n, WaitOn(k))
    decreases p
  {
    if p.Parallel? {
      var (t, ends) := FollowAll(p.branches, sc, rows, c);
      if (n, k) in t.waits {
        BranchTrailsMayAsk(p.branches, sc, rows, c, n, k);
      } else {
        TrailMayAsk(p.join[Ended(ends)], sc, rows, c, n, k);
      }
    } else if !((n, k) in WaitAt(p, CallName(p, sc))) {
      var reply := ReadRow(rows[CallName(p, sc)], c).reply;
      TrailMayAsk(Onward(p, reply).p, Counted(p, sc), rows, c, n, k);
      OnwardMayAsk(p, sc, reply, n, WaitOn(k));
    }
  }

  lemma {:induction false} BranchTrailsMayAsk(bs: seq<Branch>, sc: Scope, rows: map<string, Row>, c: Codec,
          n: string, k: string)
    requires (n, k) in FollowAll(bs, sc, rows, c).0.waits
    ensures AnyMayAsk(bs, sc, n, WaitOn(k))
    decreases bs
  {
    AnyOfRest(bs, sc, n, WaitOn(k));
    if (n, k) in Follow(bs[0].body, ChildScope(sc, bs[0].name), rows, c).waits {
      TrailMayAsk(bs[0].body, ChildScope(sc, bs[0].name), rows, c, n, k);
    } else {
      BranchTrailsMayAsk(bs[1..], sc, rows, c, n, k);
    }
  }

  // ---- a missing wait has one key ----

  /** While a wait has no row, the trail asks for it with one key, however the key came about. */
  lemma {:induction false} OneKey(p: Prog, sc: Scope, rows: map<string, Row>, c: Codec, n: string, k: string, l: string)
    requires Agreeing(p, sc) && n !in rows
    requires (n, k) in Follow(p, sc, rows, c).waits && (n, l) in Follow(p, sc, rows, c).waits
    ensures k == l
    decreases p
  {
    if p.Parallel? {
      var (t, ends) := FollowAll(p.branches, sc, rows, c);
      if (n, k) in t.waits || (n, l) in t.waits {
        MissingInBranch(p.branches, sc, rows, c, n, if (n, k) in t.waits then k else l);
        OneKeyInBranches(p.branches, sc, rows, c, n, k, l);
      } else {
        OneKey(p.join[Ended(ends)], sc, rows, c, n, k, l);
      }
    } else if n != CallName(p, sc) {
      var reply := ReadRow(rows[CallName(p, sc)], c).reply;
      OnwardAgreeing(p, sc, reply);
      OneKey(Onward(p, reply).p, Counted(p, sc), rows, c, n, k, l);
    }
  }

  /** A branch with a missing wait has not ended, so nothing comes after its Parallel. */
  lemma MissingInBranch(bs: seq<Branch>, sc: Scope, rows: map<string, Row>, c: Codec, n: string, k: string)
    requires (n, k) in FollowAll(bs, sc, rows, c).0.waits && n !in rows
    ensures None in FollowAll(bs, sc, rows, c).1
  {
    BranchWaitsAreNames(bs, sc, rows, c, n, k);
    if None !in FollowAll(bs, sc, rows, c).1 {
      EndedBranchesHaveRows(bs, sc, rows, c);
    }
  }

  lemma {:induction false} OneKeyInBranches(bs: seq<Branch>, sc: Scope, rows: map<string, Row>, c: Codec,
          n: string, k: string, l: string)
    requires AllAgreeing(bs, sc) && n !in rows
    requires (n, k) in FollowAll(bs, sc, rows, c).0.waits && (n, l) in FollowAll(bs, sc, rows, c).0.waits
    ensures k == l
    decreases bs
  {
    FirstAndRest(bs, sc);
    var first := Follow(bs[0].body, ChildScope(sc, bs[0].name), rows, c).waits;
    var rest := FollowAll(bs[1..], sc, rows, c).0.waits;
    if (n, k) in first && (n, l) in first {
      OneKey(bs[0].body, ChildScope(sc, bs[0].name), rows, c, n, k, l);
    } else if (n, k) in rest && (n, l) in rest {
      OneKeyInBranches(bs[1..], sc, rows, c, n, k, l);
    } else {
      var x, y := if (n, k) in first then k else l, if (n, k) in first then l else k;
      TrailMayAsk(bs[0].body, ChildScope(sc, bs[0].name), rows, c, n, x);
      BranchTrailsMayAsk(bs[1..], sc, rows, c, n, y);
      SameAsk(bs, sc, n, WaitOn(x), WaitOn(y));
    }
  }

  // ---- branches with names of their own agree ----

  predicate DistinctParts(branches: seq<Branch>) {
    && (forall i | 0 <= i < |branches| :: IsPart(branches[i].name))
    && (forall i, j | 0 <= i < j < |branches| :: branches[i].name != branches[j].name)
  }

  /** The branches of every Parallel have distinct names without slashes. */
  ghost predicate DistinctBranches(p: Prog)
    decreases p
  {
    match p
    case Return(_) => true
    case Fail(_) => true
    case Step(_, next) => forall v | v in next :: DistinctBranches(next[v])
    case Provide(_, next) => forall v | v in next :: DistinctBranches(next[v])
    case Sleep(rest) => DistinctBranches(rest)
    case Wait(_, _, _, after) => forall r | r in after :: DistinctBranches(after[r])
    case Parallel(branches, join) =>
      && DistinctParts(branches)
      && (forall i | 0 <= i < |branches| :: DistinctBranches(branches[i].body))
      && forall vs | vs in join :: DistinctBranches(join[vs])
  }

  lemma CallIsUnder(p: Prog, sc: Scope)
    requires IsCall(p)
    ensures Under(sc.prefix, CallName(p, sc))
  {
  }

  /** What a program asks for lies below its scope. */
  lemma {:induction false} AsksBelowScope(p: Prog, sc: Scope, n: string, a: Ask)
    requires DistinctBranches(p) && MayAsk(p, sc, n, a)
    ensures Under(sc.prefix, n)
    decreases p
  {
    match p
    case Parallel(branches, join) =>
      if i :| 0 <= i < |branches| && MayAsk(branches[i].body, ChildScope(sc, branches[i].name), n, a) {
        AsksBelowScope(branches[i].body, ChildScope(sc, branches[i].name), n, a);
        UnderParent(sc.prefix, branches[i].name, n);
      } else {
        var vs :| vs in join && MayAsk(join[vs], sc, n, a);
        AsksBelowScope(join[vs], sc, n, a);
      }
    case Step(_, next) =>
      CallIsUnder(p, sc);
      if v :| v in next && MayAsk(next[v], Counted(p, sc), n, a) {
        AsksBelowScope(next[v], Counted(p, sc), n, a);
      }
    case Provide(_, next) =>
      CallIsUnder(p, sc);
      if v :| v in next && MayAsk(next[v], Counted(p, sc), n, a) {
        AsksBelowScope(next[v], Counted(p, sc), n, a);
      }
    case Sleep(rest) =>
      CallIsUnder(p, sc);
      if MayAsk(rest, Counted(p, sc), n, a) {
        AsksBelowScope(rest, Counted(p, sc), n, a);
      }
    case Wait(_, _, _, after) =>
      CallIsUnder(p, sc);
      if r :| r in after && MayAsk(after[r], Counted(p, sc), n, a) {
        AsksBelowScope(after[r], Counted(p, sc), n, a);
      }
  }

  /** Branches with distinct slash-free names never ask for one name, so they agree, whatever
      their waits' keys are made from. */
  lemma {:induction false} DistinctBranchesAgree(p: Prog, sc: Scope)
    requires DistinctBranches(p)
    ensures Agreeing(p, sc)
    decreases p
  {
    match p
    case Return(_) =>
    case Fail(_) =>
    case Step(_, next) =>
      forall v | v in next
        ensures Agreeing(next[v], Counted(p, sc))
      {
        DistinctBranchesAgree(next[v], Counted(p, sc));
      }
    case Provide(_, next) =>
      forall v | v in next
        ensures Agreeing(next[v], Counted(p, sc))
      {
        DistinctBranchesAgree(next[v], Counted(p, sc));
      }
    case Sleep(rest) => DistinctBranchesAgree(rest, Counted(p, sc));
    case Wait(_, _, _, after) =>
      forall r | r in after
        ensures Agreeing(after[r], Counted(p, sc))
      {
        DistinctBranchesAgree(after[r], Counted(p, sc));
      }
    case Parallel(branches, join) =>
      forall i | 0 <= i < |branches|
        ensures Agreeing(branches[i].body, ChildScope(sc, branches[i].name))
      {
        DistinctBranchesAgree(branches[i].body, ChildScope(sc, branches[i].name));
      }
      forall vs | vs in join
        ensures Agreeing(join[vs], sc)
      {
        DistinctBranchesAgree(join[vs], sc);
      }
      NeverTheSameName(branches, sc);
  }

  lemma AskedByOne(bs: seq<Branch>, sc: Scope, i: nat, j: nat, n: string, a: Ask, b: Ask)
    requires DistinctParts(bs) && i < |bs| && j < |bs|
    requires DistinctBranches(bs[i].body) && DistinctBranches(bs[j].body)
    requires MayAsk(bs[i].body, ChildScope(sc, bs[i].name), n, a)
    requires MayAsk(bs[j].body, ChildScope(sc, bs[j].name), n, b)
    ensures i == j
  {
    AsksBelowScope(bs[i].body, ChildScope(sc, bs[i].name), n, a);
    AsksBelowScope(bs[j].body, ChildScope(sc, bs[j].name), n, b);
    SiblingsDisjoint(sc.prefix, bs[i].name, bs[j].name, n);
  }

  lemma NeverTheSameName(bs: seq<Branch>, sc: Scope)
    requires DistinctParts(bs) && forall i | 0 <= i < |bs| :: DistinctBranches(bs[i].body)
    ensures AskAlike(bs, sc)
  {
    forall i, j, n, a, b | 0 <= i < j < |bs|
      ensures !MayAsk(bs[i].body, ChildScope(sc, bs[i].name), n, a)
           || !MayAsk(bs[j].body, ChildScope(sc, bs[j].name), n, b)
    {
      if MayAsk(bs[i].body, ChildScope(sc, bs[i].name), n, a) && MayAsk(bs[j].body, ChildScope(sc, bs[j].name), n, b) {
        AskedByOne(bs, sc, i, j, n, a, b);
      }
    }
  }

  /** The waits of two branches with one stored name, for two keys. */
  function Clash(k: string, l: string): Prog {
    Parallel([Branch("a", Wait("b/c", k, 1, imap[])), Branch("a/b", Wait("c", l, 1, imap[]))], imap[])
  }

  /** Names are to be unique: where slashes make two of them one, it may be awaited on two keys. */
  lemma ClashingBranches(k: string, l: string, c: Codec)
    ensures Follow(Clash(k, l), ROOT, map[], c).waits == {("a/b/c", k), ("a/b/c", l)}
    ensures k != l ==> !Agreeing(Clash(k, l), ROOT)
  {
    var bs := Clash(k, l).branches;
    assert CallName(bs[0].body, ChildScope(ROOT, "a")) == "a/b/c";
    assert CallName(bs[1].body, ChildScope(ROOT, "a/b")) == "a/b/c";
    assert FollowAll(bs[1..], ROOT, map[], c).0.waits == {("a/b/c", l)};
    assert FollowAll(bs, ROOT, map[], c).0.waits == {("a/b/c", k), ("a/b/c", l)};
    assert None in FollowAll(bs, ROOT, map[], c).1 by { EndsOfBranches(bs, ROOT, map[], c); }
    if Agreeing(Clash(k, l), ROOT) {
      OneKey(Clash(k, l), ROOT, map[], c, "a/b/c", k, l);
    }
  }
}
