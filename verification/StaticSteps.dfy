/** The contract extractor's walk over an Execute body: which steps, providers and errors it
    finds, and when a step's extracted name is its real one. */
module StaticSteps {
  import opened Prelude

  // ---- string expressions ----

  /** A character of an interpreted string literal: itself, or an escape sequence for it. */
  datatype Char = Plain(c: char) | Escape(text: string, c: char)

  /** An expression for a name: a quoted or raw literal, a constant, or anything else. */
  datatype NameExpr = Quoted(chars: seq<Char>) | Raw(body: string) | Constant(value: string) | Dynamic

  /** How Go spells a string's characters between quotes: printable ones as they are. */
  datatype Quoter = Quoter(printable: char -> bool, escape: char -> string)

  ghost predicate Spells(q: Quoter) {
    forall c :: |q.escape(c)| >= 2
  }

  predicate PlainChar(q: Quoter, c: char) {
    q.printable(c) && c != '"' && c != '\\'
  }

  predicate AllPlain(q: Quoter, s: string) {
    forall i :: 0 <= i < |s| ==> PlainChar(q, s[i])
  }

  function Spell(q: Quoter, s: string): string {
    if s == "" then "" else (if PlainChar(q, s[0]) then [s[0]] else q.escape(s[0])) + Spell(q, s[1..])
  }

  lemma {:induction false} SpellIsLong(q: Quoter, s: string)
    requires Spells(q)
    ensures |Spell(q, s)| >= |s|
    ensures |Spell(q, s)| == |s| ==> AllPlain(q, s)
  {
    if s != "" {
      SpellIsLong(q, s[1..]);
      assert forall i :: 0 < i < |s| ==> s[i] == s[1..][i - 1];
    }
  }

  lemma {:induction false} SpellPlain(q: Quoter, s: string)
    requires AllPlain(q, s)
    ensures Spell(q, s) == s
  {
    if s != "" {
      SpellPlain(q, s[1..]);
    }
  }

  /** The source text between the quotes, and the string it stands for. */
  function TextOf(chars: seq<Char>): string {
    if chars == [] then ""
    else (match chars[0] case Plain(c) => [c] case Escape(text, _) => text) + TextOf(chars[1..])
  }

  function MeaningOf(chars: seq<Char>): string {
    if chars == [] then "" else [chars[0].c] + MeaningOf(chars[1..])
  }

  predicate NoEscapes(chars: seq<Char>) {
    forall i :: 0 <= i < |chars| ==> chars[i].Plain?
  }

  /** An escape sequence is a backslash and at least one more character. */
  predicate WellFormed(chars: seq<Char>) {
    forall i :: 0 <= i < |chars| && chars[i].Escape? ==> |chars[i].text| >= 2
  }

  lemma {:induction false} TextIsMeaning(chars: seq<Char>)
    requires WellFormed(chars)
    ensures |TextOf(chars)| >= |MeaningOf(chars)|
    ensures TextOf(chars) == MeaningOf(chars) <==> NoEscapes(chars)
    ensures |TextOf(chars)| == |MeaningOf(chars)| ==> NoEscapes(chars)
  {
    if chars != [] {
      TextIsMeaning(chars[1..]);
      assert forall i :: 0 < i < |chars| ==> chars[i] == chars[1..][i - 1];
      if NoEscapes(chars) {
        assert NoEscapes(chars[1..]);
      }
    }
  }

  /** What the expression evaluates to; a dynamic one may be anything. */
  predicate MayBe(e: NameExpr, value: string) {
    match e
    case Quoted(chars) => value == MeaningOf(chars)
    case Raw(body) => value == body
    case Constant(v) => value == v
    case Dynamic => true
  }

  /** The source of a literal. */
  function LiteralSource(e: NameExpr): string
    requires e.Quoted? || e.Raw?
  {
    match e
    case Quoted(chars) => "\"" + TextOf(chars) + "\""
    case Raw(body) => "`" + body + "`"
  }

  function Unquote(s: string): string {
    if |s| >= 2 && s[0] == '"' && s[|s| - 1] == '"' then s[1..|s| - 1] else s
  }

  datatype Kind = LiteralKind | ConstantKind | ProviderKind | DynamicKind

  /** classifyStepName: a literal as it is written, a constant as Go spells it. */
  function Classify(q: Quoter, e: NameExpr): (string, Kind) {
    match e
    case Quoted(_) => (Unquote(LiteralSource(e)), LiteralKind)
    case Raw(_) => (Unquote(LiteralSource(e)), LiteralKind)
    case Constant(value) => (Unquote("\"" + Spell(q, value) + "\""), ConstantKind)
    case Dynamic => ("<dynamic>", DynamicKind)
  }

  /** resolveStringArg: the constant value first, as Go spells it. */
  function ResolveString(q: Quoter, e: NameExpr): string {
    match e
    case Quoted(chars) => Unquote("\"" + Spell(q, MeaningOf(chars)) + "\"")
    case Raw(body) => Unquote("\"" + Spell(q, body) + "\"")
    case Constant(value) => Unquote("\"" + Spell(q, value) + "\"")
    case Dynamic => "<unresolved>"
  }

  /** The name is written in a way the walker reads right. */
  predicate Faithful(q: Quoter, e: NameExpr) {
    match e
    case Quoted(chars) => NoEscapes(chars)
    case Raw(_) => false
    case Constant(value) => AllPlain(q, value)
    case Dynamic => true
  }

  predicate FaithfulBranch(q: Quoter, e: NameExpr) {
    match e
    case Quoted(chars) => AllPlain(q, MeaningOf(chars))
    case Raw(body) => AllPlain(q, body)
    case Constant(value) => AllPlain(q, value)
    case Dynamic => true
  }

  predicate IsLegal(e: NameExpr) {
    e.Quoted? ==> WellFormed(e.chars)
  }

  lemma UnquoteQuoted(s: string)
    ensures Unquote("\"" + s + "\"") == s
  {
    var t := "\"" + s + "\"";
    assert t[1..|t| - 1] == s;
  }

  lemma SpellIsSame(q: Quoter, s: string)
    requires Spells(q)
    ensures Spell(q, s) == s <==> AllPlain(q, s)
  {
    SpellIsLong(q, s);
    if AllPlain(q, s) {
      SpellPlain(q, s);
    }
  }

  /** The extracted name is the runtime's exactly for interpreted literals without escapes and
      for constants of plain characters; raw literals keep their backquotes. */
  lemma NameIsFaithful(q: Quoter, e: NameExpr, value: string)
    requires Spells(q) && IsLegal(e) && !e.Dynamic? && MayBe(e, value)
    ensures Classify(q, e).0 == value <==> Faithful(q, e)
  {
    match e
    case Quoted(chars) =>
      UnquoteQuoted(TextOf(chars));
      TextIsMeaning(chars);
    case Raw(body) =>
      assert LiteralSource(e)[0] == '`';
      assert |Classify(q, e).0| == |body| + 2;
    case Constant(v) =>
      UnquoteQuoted(Spell(q, v));
      SpellIsSame(q, v);
  }

  /** Go spells a text as it is exactly if it holds no quote, no backslash and nothing that
      cannot be printed. */
  lemma SpelledAsItIs(q: Quoter, s: string)
    requires Spells(q)
    ensures Spell(q, s) == s <==> '"' !in s && '\\' !in s && forall c <- s :: q.printable(c)
  {
    SpellIsSame(q, s);
    assert forall i :: 0 <= i < |s| ==> s[i] in s;
  }

  /** The kind tells how the name is written. */
  lemma KindTellsSpelling(q: Quoter, e: NameExpr)
    ensures match Classify(q, e).1
      case LiteralKind => e.Quoted? || e.Raw?
      case ConstantKind => e.Constant?
      case DynamicKind => e.Dynamic?
      case ProviderKind => false
  {
  }

  lemma BranchNameIsFaithful(q: Quoter, e: NameExpr, value: string)
    requires Spells(q) && !e.Dynamic? && MayBe(e, value)
    ensures ResolveString(q, e) == value <==> FaithfulBranch(q, e)
  {
    UnquoteQuoted(Spell(q, value));
    SpellIsSame(q, value);
  }

  // ---- the body and what is found in it ----

  /** A syntax tree as the walker tells its nodes apart. The arguments of a Run or a
      WaitForEvent are not walked; a NewProvider may be unreadable. */
  datatype Node =
    | RunCall(name: NameExpr)
    | WaitCall(name: NameExpr)
    | ParallelCall(args: seq<Arg>)
    | NewProviderCall(prefix: NameExpr, readable: bool)
    | SleepCall(children: seq<Node>)
    | NowCall(children: seq<Node>)
    | NewIdCall(children: seq<Node>)
    | Other(children: seq<Node>)

  /** An argument of Parallel: a NewBranch with a function literal, or something else. */
  datatype Arg = NewBranch(name: NameExpr, body: seq<Node>) | OtherArg

  datatype Step = Step(name: string, kind: Kind, stepType: string, branches: seq<Branch>)

  datatype Branch = Branch(name: string, steps: seq<Step>)

  const DYNAMIC_ERROR := "step name is not a string literal or constant: " + "<dynamic>"

  datatype Found = Found(steps: seq<Step>, providers: seq<string>, errors: seq<string>)

  function Join(a: Found, b: Found): Found {
    Found(a.steps + b.steps, a.providers + b.providers, a.errors + b.errors)
  }

  const NOTHING := Found([], [], [])

  function NamedStep(q: Quoter, e: NameExpr, stepType: string): Found {
    var (name, kind) := Classify(q, e);
    Found([Step(name, kind, stepType, [])], [], if kind.DynamicKind? then [DYNAMIC_ERROR] else [])
  }

  function CounterStep(name: string, stepType: string): Found {
    Found([Step(name, ProviderKind, stepType, [])], [], [])
  }

  function Find(q: Quoter, n: Node): Found {
    match n
    case RunCall(name) => NamedStep(q, name, "run")
    case WaitCall(name) => NamedStep(q, name, "wait_for_event")
    case ParallelCall(args) =>
      var (branches, found) := FindBranches(q, args);
      found.(steps := [Step("_parallel", ProviderKind, "parallel", branches)])
    case NewProviderCall(prefix, readable) => NOTHING.(providers := if readable then [ResolveString(q, prefix)] else [])
    case SleepCall(children) => Join(CounterStep("_sleep.until:*", "sleep_until"), FindAll(q, children))
    case NowCall(children) => Join(CounterStep("_time.now:*", "provider"), FindAll(q, children))
    case NewIdCall(children) => Join(CounterStep("_id.new:*", "provider"), FindAll(q, children))
    case Other(children) => FindAll(q, children)
  }

  function FindAll(q: Quoter, nodes: seq<Node>): Found {
    if nodes == [] then NOTHING else Join(Find(q, nodes[0]), FindAll(q, nodes[1..]))
  }

  /** The branches of a Parallel, and the providers and errors found in them. */
  function FindBranches(q: Quoter, args: seq<Arg>): (seq<Branch>, Found) {
    if args == [] then ([], NOTHING)
    else
      var (rest, found) := FindBranches(q, args[1..]);
      match args[0]
      case OtherArg => (rest, found)
      case NewBranch(name, body) =>
        var here := FindAll(q, body);
        ([Branch(ResolveString(q, name), here.steps)] + rest, Join(here, found).(steps := []))
  }

  // ---- the walker ----

  lemma JoinAssociative(a: Found, b: Found, c: Found)
    ensures Join(Join(a, b), c) == Join(a, Join(b, c))
    ensures Join(a, NOTHING) == a && Join(NOTHING, a) == a
  {
  }

  lemma {:induction false} FindAllAppend(q: Quoter, a: seq<Node>, n: Node)
    ensures FindAll(q, a + [n]) == Join(FindAll(q, a), Find(q, n))
  {
    if a == [] {
      assert a + [n] == [n];
      JoinAssociative(Find(q, n), NOTHING, NOTHING);
    } else {
      FindAllAppend(q, a[1..], n);
      assert (a + [n])[1..] == a[1..] + [n];
      JoinAssociative(Find(q, a[0]), FindAll(q, a[1..]), Find(q, n));
    }
  }

  lemma {:induction false} FindBranchesAppend(q: Quoter, args: seq<Arg>, arg: Arg)
    ensures var (bs, found) := FindBranches(q, args);
      var (bs1, found1) := FindBranches(q, args + [arg]);
      match arg
      case OtherArg => bs1 == bs && found1 == found
      case NewBranch(name, body) =>
        var here := FindAll(q, body);
        bs1 == bs + [Branch(ResolveString(q, name), here.steps)] && found1 == Join(found, here).(steps := [])
  {
    if args == [] {
      assert args + [arg] == [arg];
    } else {
      FindBranchesAppend(q, args[1..], arg);
      assert (args + [arg])[1..] == args[1..] + [arg];
    }
  }

  lemma {:induction false} BranchesFindNoSteps(q: Quoter, args: seq<Arg>)
    ensures FindBranches(q, args).1.steps == []
  {
    if args != [] {
      BranchesFindNoSteps(q, args[1..]);
    }
  }

  class Walker {
    const q: Quoter
    var steps: seq<Step>
    var providers: seq<string>
    var errors: seq<string>

    constructor (q: Quoter)
      ensures this.q == q && Contents() == NOTHING
    {
      this.q := q;
      steps, providers, errors := [], [], [];
    }

    function Contents(): Found
      reads this
    {
      Found(steps, providers, errors)
    }

    method WalkBlock(nodes: seq<Node>)
      modifies this
      ensures Contents() == Join(old(Contents()), FindAll(q, nodes))
      decreases nodes
    {
      assert nodes[..0] == [];
      JoinAssociative(Contents(), NOTHING, NOTHING);
      for i := 0 to |nodes|
        invariant Contents() == Join(old(Contents()), FindAll(q, nodes[..i]))
      {
        ghost var before := Contents();
        InspectNode(nodes[i]);
        FindAllAppend(q, nodes[..i], nodes[i]);
        assert nodes[..i + 1] == nodes[..i] + [nodes[i]];
        JoinAssociative(old(Contents()), FindAll(q, nodes[..i]), Find(q, nodes[i]));
      }
      assert nodes[..|nodes|] == nodes;
    }

    method InspectNode(n: Node)
      modifies this
      ensures Contents() == Join(old(Contents()), Find(q, n))
      decreases n
    {
      match n
      case ParallelCall(args) => ExtractParallelStep(args);
      case RunCall(name) => ExtractNamedStep(name, "run");
      case WaitCall(name) => ExtractNamedStep(name, "wait_for_event");
      case NewProviderCall(prefix, readable) =>
        if readable {
          providers := providers + [ResolveString(q, prefix)];
        }
      case SleepCall(children) =>
        steps := steps + [Step("_sleep.until:*", ProviderKind, "sleep_until", [])];
        WalkBlock(children);
      case NowCall(children) =>
        steps := steps + [Step("_time.now:*", ProviderKind, "provider", [])];
        WalkBlock(children);
      case NewIdCall(children) =>
        steps := steps + [Step("_id.new:*", ProviderKind, "provider", [])];
        WalkBlock(children);
      case Other(children) => WalkBlock(children);
    }

    /** extractRunStep and extractWaitForEventStep. */
    method ExtractNamedStep(e: NameExpr, stepType: string)
      modifies this
      ensures Contents() == Join(old(Contents()), NamedStep(q, e, stepType))
    {
      var (name, kind) := Classify(q, e);
      if kind.DynamicKind? {
        errors := errors + ["step name is not a string literal or constant: " + name];
      }
      steps := steps + [Step(name, kind, stepType, [])];
    }

    method ExtractParallelStep(args: seq<Arg>)
      modifies this
      ensures Contents() == Join(old(Contents()), Find(q, ParallelCall(args)))
      decreases args
    {
      var branches: seq<Branch> := [];
      assert args[..0] == [];
      for i := 0 to |args|
        invariant branches == FindBranches(q, args[..i]).0
        invariant Contents() == Join(old(Contents()), FindBranches(q, args[..i]).1)
      {
        BranchesFindNoSteps(q, args[..i]);
        FindBranchesAppend(q, args[..i], args[i]);
        assert args[..i + 1] == args[..i] + [args[i]];
        var branch := ExtractBranch(args[i]);
        if branch.Some? {
          branches := branches + [branch.value];
        }
      }
      assert args[..|args|] == args;
      BranchesFindNoSteps(q, args);
      steps := steps + [Step("_parallel", ProviderKind, "parallel", branches)];
    }

    /** A branch body is walked by a walker of its own; its errors and providers are kept. */
    method ExtractBranch(arg: Arg) returns (branch: Option<Branch>)
      modifies this
      ensures steps == old(steps)
      ensures arg.OtherArg? ==> branch == None && Contents() == old(Contents())
      ensures arg.NewBranch? ==>
        var here := FindAll(q, arg.body);
        && branch == Some(Branch(ResolveString(q, arg.name), here.steps))
        && providers == old(providers) + here.providers && errors == old(errors) + here.errors
      decreases arg
    {
      if arg.OtherArg? {
        return None;
      }
      var sub := new Walker(q);
      sub.WalkBlock(arg.body);
      JoinAssociative(FindAll(q, arg.body), NOTHING, NOTHING);
      errors := errors + sub.errors;
      providers := providers + sub.providers;
      branch := Some(Branch(ResolveString(q, arg.name), sub.steps));
    }
  }

  // ---- hoisting ----

  /** Every step name and every readable provider at any depth, in the order of the source. */
  function NamesOf(n: Node): seq<NameExpr> {
    match n
    case RunCall(name) => [name]
    case WaitCall(name) => [name]
    case ParallelCall(args) => NamesInArgs(args)
    case NewProviderCall(_, _) => []
    case SleepCall(children) => NamesIn(children)
    case NowCall(children) => NamesIn(children)
    case NewIdCall(children) => NamesIn(children)
    case Other(children) => NamesIn(children)
  }

  function NamesIn(nodes: seq<Node>): seq<NameExpr> {
    if nodes == [] then [] else NamesOf(nodes[0]) + NamesIn(nodes[1..])
  }

  function NamesInArgs(args: seq<Arg>): seq<NameExpr> {
    if args == [] then []
    else (if args[0].NewBranch? then NamesIn(args[0].body) else []) + NamesInArgs(args[1..])
  }

  function ProvidersOf(n: Node): seq<NameExpr> {
    match n
    case RunCall(_) => []
    case WaitCall(_) => []
    case ParallelCall(args) => ProvidersInArgs(args)
    case NewProviderCall(prefix, readable) => if readable then [prefix] else []
    case SleepCall(children) => ProvidersIn(children)
    case NowCall(children) => ProvidersIn(children)
    case NewIdCall(children) => ProvidersIn(children)
    case Other(children) => ProvidersIn(children)
  }

  function ProvidersIn(nodes: seq<Node>): seq<NameExpr> {
    if nodes == [] then [] else ProvidersOf(nodes[0]) + ProvidersIn(nodes[1..])
  }

  function ProvidersInArgs(args: seq<Arg>): seq<NameExpr> {
    if args == [] then []
    else (if args[0].NewBranch? then ProvidersIn(args[0].body) else []) + ProvidersInArgs(args[1..])
  }

  function Each<A, B>(f: A -> seq<B>, s: seq<A>): seq<B> {
    if s == [] then [] else f(s[0]) + Each(f, s[1..])
  }

  lemma {:induction false} EachConcat<A, B>(f: A -> seq<B>, a: seq<A>, b: seq<A>)
    ensures Each(f, a + b) == Each(f, a) + Each(f, b)
  {
    if a == [] {
      assert a + b == b;
    } else {
      EachConcat(f, a[1..], b);
      assert (a + b)[1..] == a[1..] + b && (a + b)[0] == a[0];
      assert f(a[0]) + (Each(f, a[1..]) + Each(f, b)) == (f(a[0]) + Each(f, a[1..])) + Each(f, b);
    }
  }

  lemma EachOne<A, B>(f: A -> seq<B>, x: A)
    ensures Each(f, [x]) == f(x)
  {
    assert Each(f, [x][1..]) == [];
  }

  /** One error for a dynamic name. */
  function ErrorOf(e: NameExpr): seq<string> {
    if e.Dynamic? then [DYNAMIC_ERROR] else []
  }

  function Prefix(q: Quoter): NameExpr -> seq<string> {
    e => [ResolveString(q, e)]
  }

  /** The errors and providers found are those of every call, however deep in branches. */
  lemma {:induction false} AllAreHoisted(q: Quoter, nodes: seq<Node>)
    ensures FindAll(q, nodes).errors == Each(ErrorOf, NamesIn(nodes))
    ensures FindAll(q, nodes).providers == Each(Prefix(q), ProvidersIn(nodes))
    decreases nodes
  {
    if nodes != [] {
      HoistedHere(q, nodes[0]);
      AllAreHoisted(q, nodes[1..]);
      EachConcat(ErrorOf, NamesOf(nodes[0]), NamesIn(nodes[1..]));
      EachConcat(Prefix(q), ProvidersOf(nodes[0]), ProvidersIn(nodes[1..]));
    }
  }

  lemma {:induction false} HoistedHere(q: Quoter, n: Node)
    ensures Find(q, n).errors == Each(ErrorOf, NamesOf(n))
    ensures Find(q, n).providers == Each(Prefix(q), ProvidersOf(n))
    decreases n
  {
    match n
    case ParallelCall(args) => HoistedFromBranches(q, args);
    case SleepCall(children) => AllAreHoisted(q, children);
    case NowCall(children) => AllAreHoisted(q, children);
    case NewIdCall(children) => AllAreHoisted(q, children);
    case Other(children) => AllAreHoisted(q, children);
    case RunCall(name) => EachOne(ErrorOf, name);
    case WaitCall(name) => EachOne(ErrorOf, name);
    case NewProviderCall(prefix, _) => EachOne(Prefix(q), prefix);
  }

  lemma {:induction false} HoistedFromBranches(q: Quoter, args: seq<Arg>)
    ensures FindBranches(q, args).1.errors == Each(ErrorOf, NamesInArgs(args))
    ensures FindBranches(q, args).1.providers == Each(Prefix(q), ProvidersInArgs(args))
    decreases args
  {
    if args != [] {
      HoistedFromBranches(q, args[1..]);
      if args[0].NewBranch? {
        AllAreHoisted(q, args[0].body);
        EachConcat(ErrorOf, NamesIn(args[0].body), NamesInArgs(args[1..]));
        EachConcat(Prefix(q), ProvidersIn(args[0].body), ProvidersInArgs(args[1..]));
      } else {
        assert NamesInArgs(args) == NamesInArgs(args[1..]);
        assert ProvidersInArgs(args) == ProvidersInArgs(args[1..]);
      }
    }
  }
}
