/** Step names: scope prefixes joined with '/', and counters joined with ':'. */
module Names {
  import opened Prelude

  /** resolveStepName: the name the store knows a step by. */
  function ResolveStepName(prefix: string, name: string): string {
    if prefix == "" then name else prefix + "/" + name
  }

  /** Scope: the prefix of a child scope. */
  function ScopePrefix(prefix: string, name: string): string {
    if prefix == "" then name else prefix + "/" + name
  }

  /** The name of a provider's n-th value, and of the n-th sleep. */
  function CounterName(prefix: string, n: nat): string {
    prefix + ":" + Decimal(n)
  }

  predicate SlashFree(s: string) {
    '/' !in s
  }

  /** A scope path part as NewBranch accepts it, without a slash. */
  predicate IsPart(s: string) {
    s != "" && SlashFree(s)
  }

  predicate AreParts(path: seq<string>) {
    forall i :: 0 <= i < |path| ==> IsPart(path[i])
  }

  /** The prefix of the scope reached from the root through the given scopes. */
  function PathPrefix(path: seq<string>): string {
    if path == [] then "" else ScopePrefix(PathPrefix(path[..|path| - 1]), path[|path| - 1])
  }

  /** The name of a step called `name` in the scope at `path`. */
  function StepName(path: seq<string>, name: string): string {
    ResolveStepName(PathPrefix(path), name)
  }

  // ---- reading a name back ----

  /** The text cut at its slashes. */
  function Split(s: string): (parts: seq<string>)
    ensures |parts| >= 1
  {
    if s == "" then [""]
    else
      var rest := Split(s[1..]);
      if s[0] == '/' then [""] + rest else [[s[0]] + rest[0]] + rest[1..]
  }

  lemma {:induction false} SplitPlain(s: string)
    requires SlashFree(s)
    ensures Split(s) == [s]
  {
    if s != "" {
      SplitPlain(s[1..]);
      assert [s[0]] + s[1..] == s;
    }
  }

  lemma {:induction false} SplitAtLast(s: string, name: string)
    requires SlashFree(name)
    ensures Split(s + "/" + name) == Split(s) + [name]
  {
    if s == "" {
      assert s + "/" + name == "/" + name;
      assert ("/" + name)[1..] == name;
      SplitPlain(name);
    } else {
      SplitAtLast(s[1..], name);
      assert (s + "/" + name)[1..] == s[1..] + "/" + name;
    }
  }

  lemma {:induction false} PathReadBack(path: seq<string>)
    requires AreParts(path) && path != []
    ensures PathPrefix(path) != "" && Split(PathPrefix(path)) == path
  {
    var front, last := path[..|path| - 1], path[|path| - 1];
    assert IsPart(last);
    assert path == front + [last];
    if front == [] {
      SplitPlain(last);
    } else {
      PathReadBack(front);
      SplitAtLast(PathPrefix(front), last);
    }
  }

  /** Scope path and step name can be read back from the joined name. */
  lemma StepNameReadBack(path: seq<string>, name: string)
    requires AreParts(path) && SlashFree(name)
    ensures Split(StepName(path, name)) == path + [name]
  {
    if path == [] {
      SplitPlain(name);
    } else {
      PathReadBack(path);
      SplitAtLast(PathPrefix(path), name);
    }
  }

  /** Steps of different scopes, or of different names in one scope, have different names. */
  lemma StepNameInjective(p1: seq<string>, n1: string, p2: seq<string>, n2: string)
    requires AreParts(p1) && AreParts(p2) && SlashFree(n1) && SlashFree(n2)
    requires StepName(p1, n1) == StepName(p2, n2)
    ensures p1 == p2 && n1 == n2
  {
    StepNameReadBack(p1, n1);
    StepNameReadBack(p2, n2);
    assert p1 == (p1 + [n1])[..|p1|] && p2 == (p2 + [n2])[..|p2|];
  }

  function TrailingDigits(s: string): (r: string)
    ensures |r| <= |s|
  {
    if s != "" && IsDigit(s[|s| - 1]) then TrailingDigits(s[..|s| - 1]) + [s[|s| - 1]] else ""
  }

  lemma {:induction false} DigitsAfterColon(prefix: string, digits: string)
    requires AllDigits(digits)
    ensures TrailingDigits(prefix + ":" + digits) == digits
  {
    var s := prefix + ":" + digits;
    if digits != "" {
      var front := digits[..|digits| - 1];
      DigitsAfterColon(prefix, front);
      assert s[..|s| - 1] == prefix + ":" + front;
      assert front + [digits[|digits| - 1]] == digits;
    }
  }

  /** A counter name determines its prefix and its counter, whatever the prefix. */
  lemma CounterNameInjective(p1: string, n1: nat, p2: string, n2: nat)
    requires CounterName(p1, n1) == CounterName(p2, n2)
    ensures p1 == p2 && n1 == n2
  {
    DigitsAfterColon(p1, Decimal(n1));
    DigitsAfterColon(p2, Decimal(n2));
    DecimalInjective(n1, n2);
    assert p1 == CounterName(p1, n1)[..|p1|] && p2 == CounterName(p2, n2)[..|p2|];
  }

  /** So two durable counters never meet: not in one scope, not across scopes. */
  lemma CountersNeverCollide(path1: seq<string>, p1: string, n1: nat, path2: seq<string>, p2: string, n2: nat)
    requires AreParts(path1) && AreParts(path2) && SlashFree(p1) && SlashFree(p2)
    requires StepName(path1, CounterName(p1, n1)) == StepName(path2, CounterName(p2, n2))
    ensures path1 == path2 && p1 == p2 && n1 == n2
  {
    DigitsAreSlashFree(Decimal(n1));
    DigitsAreSlashFree(Decimal(n2));
    StepNameInjective(path1, CounterName(p1, n1), path2, CounterName(p2, n2));
    CounterNameInjective(p1, n1, p2, n2);
  }

  lemma DigitsAreSlashFree(s: string)
    requires AllDigits(s)
    ensures SlashFree(s)
  {
    forall i | 0 <= i < |s|
      ensures s[i] != '/'
    {
      assert IsDigit(s[i]);
    }
  }

  // ---- names below a scope ----

  /** n is a name of the scope with this prefix, or of a scope inside it. */
  predicate Under(prefix: string, n: string) {
    prefix == "" || prefix + "/" <= n
  }

  lemma UnderParent(prefix: string, name: string, n: string)
    requires name != "" && Under(ScopePrefix(prefix, name), n)
    ensures Under(prefix, n)
  {
    if prefix != "" {
      assert prefix + "/" <= prefix + "/" + name + "/";
    }
  }

  function FirstSlash(s: string): nat {
    if s == "" || s[0] == '/' then 0 else 1 + FirstSlash(s[1..])
  }

  lemma {:induction false} FirstSlashAfter(part: string, s: string)
    requires SlashFree(part) && part + "/" <= s
    ensures FirstSlash(s) == |part|
  {
    if part != "" {
      assert s[0] == part[0] && s[1..][..|part|] == s[..|part| + 1][1..] == part[1..] + "/";
      FirstSlashAfter(part[1..], s[1..]);
    }
  }

  /** Sibling scopes share no names. */
  lemma SiblingsDisjoint(prefix: string, a: string, b: string, n: string)
    requires IsPart(a) && IsPart(b)
    requires Under(ScopePrefix(prefix, a), n) && Under(ScopePrefix(prefix, b), n)
    ensures a == b
  {
    var rest := if prefix == "" then n else n[|prefix| + 1..];
    BelowPart(prefix, a, n, rest);
    BelowPart(prefix, b, n, rest);
    FirstSlashAfter(a, rest);
    FirstSlashAfter(b, rest);
    assert a == (a + "/")[..|a|] == rest[..|a|];
    assert b == (b + "/")[..|b|] == rest[..|b|];
  }

  lemma BelowPart(prefix: string, part: string, n: string, rest: string)
    requires IsPart(part) && Under(ScopePrefix(prefix, part), n)
    requires |prefix| < |n| && rest == if prefix == "" then n else n[|prefix| + 1..]
    ensures part + "/" <= rest
  {
    if prefix != "" {
      var s := prefix + "/" + part + "/";
      assert n[..|s|] == s && s[|prefix| + 1..] == part + "/";
      assert rest[..|part| + 1] == n[..|s|][|prefix| + 1..];
    }
  }
}
