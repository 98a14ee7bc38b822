/** Durable workflows: programs as trees of framework calls, and one execution of a program. */
module Workflow {
  import opened Prelude
  import opened Names
  import opened Timestamps
  import opened Database

  // ---- values and errors ----

  /** A value a step yields: some data, or a time. */
  datatype Val = Data(text: string) | At(time: Instant)

  /** JSON encoding; either direction may fail. */
  datatype Codec = Codec(encode: Val -> Option<Json>, decode: Json -> Option<Val>)

  /** What is encoded is decoded to the same value. */
  ghost predicate RoundTrips(c: Codec) {
    forall v: Val :: c.encode(v).Some? ==> c.decode(c.encode(v).value) == Some(v)
  }

  /** Go errors, with the chains that errors.As walks. */
  datatype Error =
    | Plain(msg: string)
    | Wrapped(msg: string, inner: Error)
    | Permanent(inner: Error)
    | CancelledError
    | SuspendError(resumeAt: Instant)
    | EventTimeoutError

  predicate AsCancelled(e: Error) {
    e.CancelledError? || ((e.Wrapped? || e.Permanent?) && AsCancelled(e.inner))
  }

  function AsPermanent(e: Error): Option<Error> {
    match e
    case Permanent(inner) => Some(inner)
    case Wrapped(_, inner) => AsPermanent(inner)
    case _ => None
  }

  /** IsSuspend. */
  function AsSuspend(e: Error): Option<Instant> {
    match e
    case SuspendError(t) => Some(t)
    case Wrapped(_, inner) => AsSuspend(inner)
    case Permanent(inner) => AsSuspend(inner)
    case _ => None
  }

  // ---- programs ----

  /** What a framework call hands back to the workflow: a value, or an event that timed out. */
  datatype Reply = Value(v: Val) | Expired

  /** A deterministic Execute body. Each call carries the rest of the body for every value it
      may get; a value without an entry makes the workflow panic. The errors of calls are
      passed straight up, except the timeout of a wait. */
  datatype Prog =
    | Return(v: Val)
    | Fail(e: Error)
    | Step(name: string, next: imap<Val, Prog>)
    | Provide(prefix: string, next: imap<Val, Prog>)
    | Sleep(rest: Prog)
    | Wait(name: string, key: string, timeout: int, after: imap<Reply, Prog>)
    | Parallel(branches: seq<Branch>, join: imap<seq<Val>, Prog>)

  datatype Branch = Branch(name: string, body: Prog)

  predicate IsCall(p: Prog) {
    p.Step? || p.Provide? || p.Sleep? || p.Wait?
  }

  // ---- scopes and the names of calls ----

  datatype Source = Sleeps | Provider(prefix: string)

  /** A WorkflowContext's own part: its prefix, and the counters of its sleeps and providers. */
  datatype Scope = Scope(prefix: string, counters: map<Source, nat>)

  const ROOT := Scope("", map[])

  function Count(sc: Scope, s: Source): nat {
    if s in sc.counters then sc.counters[s] else 0
  }

  function ChildScope(sc: Scope, name: string): Scope {
    Scope(ScopePrefix(sc.prefix, name), map[])
  }

  function LocalName(p: Prog, sc: Scope): string
    requires IsCall(p)
  {
    match p
    case Step(name, _) => name
    case Wait(name, _, _, _) => name
    case Provide(prefix, _) => CounterName(prefix, Count(sc, Provider(prefix)) + 1)
    case Sleep(_) => CounterName("_sleep.until", Count(sc, Sleeps) + 1)
  }

  /** The name the call is tracked and stored under. */
  function CallName(p: Prog, sc: Scope): string
    requires IsCall(p)
  {
    ResolveStepName(sc.prefix, LocalName(p, sc))
  }

  /** The scope after the call: sleeps and providers count up. */
  function Counted(p: Prog, sc: Scope): Scope {
    match p
    case Provide(prefix, _) => sc.(counters := sc.counters[Provider(prefix) := Count(sc, Provider(prefix)) + 1])
    case Sleep(_) => sc.(counters := sc.counters[Sleeps := Count(sc, Sleeps) + 1])
    case _ => sc
  }

  // ---- one call ----

  datatype FnResult = Ok(v: Val) | Err(e: Error)

  datatype Fault = NoFault | SignalUnread | LookupFailed | SaveFailed

  /** Everything one execution takes from outside, by the name of the call that asks: the
      clock, the signal, store failures, the step functions' results, and the times the
      workflow asks to sleep until. A name is asked for at most once in an execution. */
  datatype Env = Env(
    who: Who, codec: Codec, now: string -> Instant, cancelled: string -> bool,
    fault: string -> Fault, fn: string -> FnResult, resumeAt: string -> Instant)

  /** What the calls of one execution share: the tracked names, the workflow's step rows, the
      subscriptions, and the names of the step functions called. */
  datatype State = State(
    seen: set<string>, rows: map<string, Row>, subs: map<string, Subscription>, calls: set<string>)

  datatype Performed = Halted(st: State, e: Error) | Replied(st: State, reply: Reply)

  datatype Read = Unreadable(e: Error) | Readable(reply: Reply)

  /** A stored row as Run hands it back; a timeout marker is an expired event. */
  function ReadRow(row: Row, c: Codec): Read {
    if row.error == EVENT_TIMEOUT then Readable(Expired)
    else if row.error != "" then Unreadable(Plain("cached step error: " + row.error))
    else if row.result == None || c.decode(row.result.value) == None then Unreadable(Plain("unmarshal cached result"))
    else Readable(Value(c.decode(row.result.value).value))
  }

  /** The step function of the call: a sleep's always yields its time. */
  function CallFn(p: Prog, name: string, e: Env): FnResult {
    if p.Sleep? then Ok(At(e.resumeAt(name))) else e.fn(name)
  }

  /** Write-through of a successful result. */
  function SaveValue(name: string, v: Val, st: State, e: Env): Performed {
    if e.codec.encode(v) == None then Halted(st, Plain("marshal step result"))
    else if e.fault(name) == SaveFailed then Halted(st, Plain("save step result"))
    else Replied(st.(rows := st.rows[name := Row(e.codec.encode(v), "")]), Value(v))
  }

  function Invoke(p: Prog, st: State, name: string): State {
    if p.Sleep? then st else st.(calls := st.calls + {name})
  }

  /** The row a wait made at `now` saves. */
  function NewSubscription(who: Who, step: string, now: Instant, timeout: int): Subscription {
    Subscription(who, step, FormatTime(now + timeout))
  }

  /** INSERT and suspend until the deadline; the key may be taken. */
  function Subscribed(key: string, sub: Subscription, deadline: Instant, st: State): Performed {
    if key in st.subs then Halted(st, Plain("save subscription"))
    else Halted(st.(subs := st.subs[key := sub]), SuspendError(deadline))
  }

  /** A wait that finds no row subscribes and suspends. */
  function Subscribe(p: Prog, name: string, st: State, e: Env): Performed
    requires p.Wait?
  {
    Subscribed(p.key, NewSubscription(e.who, name, e.now(name), p.timeout), e.now(name) + p.timeout, st)
  }

  /** The call from a missing row on. */
  function Execute(p: Prog, name: string, st: State, e: Env): Performed {
    if p.Wait? then Subscribe(p, name, st, e)
    else match CallFn(p, name, e)
      case Err(err) => Halted(Invoke(p, st, name), err)
      case Ok(v) => SaveValue(name, v, Invoke(p, st, name), e)
  }

  /** The call from the read-through on. */
  function LookUp(p: Prog, name: string, st: State, e: Env): Performed {
    if e.fault(name) == LookupFailed then Halted(st, Plain("get step result"))
    else if name !in st.rows then Execute(p, name, st, e)
    else match ReadRow(st.rows[name], e.codec)
      case Unreadable(err) => Halted(st, err)
      case Readable(reply) => Replied(st, reply)
  }

  /** The call from the signal check on. */
  function CheckSignal(p: Prog, name: string, st: State, e: Env): Performed {
    if e.fault(name) == SignalUnread then Halted(st, Plain("check signal"))
    else if e.cancelled(name) then Halted(st, CancelledError)
    else LookUp(p, name, st, e)
  }

  /** Run: track the name, check the signal, read through, execute, write through. */
  function Perform(p: Prog, name: string, st: State, e: Env): Performed {
    if name in st.seen then Halted(st, Plain("duplicate step name"))
    else CheckSignal(p, name, st.(seen := st.seen + {name}), e)
  }

  datatype Next = Stop(e: Error) | Go(p: Prog)

  /** How the workflow goes on from a call's reply, the clock aside. */
  function Onward(p: Prog, reply: Reply): (n: Next)
    requires IsCall(p)
    ensures n.Go? ==> (p decreases to n.p)
  {
    if p.Wait? then (if reply in p.after then Go(p.after[reply]) else Stop(Plain("panic")))
    else if reply.Expired? then Stop(EventTimeoutError)
    else match p
      case Step(_, next) => if reply.v in next then Go(next[reply.v]) else Stop(Plain("panic"))
      case Provide(_, next) => if reply.v in next then Go(next[reply.v]) else Stop(Plain("panic"))
      case Sleep(rest) => if reply.v.At? then Go(rest) else Stop(Plain("unmarshal cached result"))
  }

  /** A sleep whose time has not come suspends until then. */
  function Resume(p: Prog, name: string, reply: Reply, e: Env): (n: Next)
    requires IsCall(p)
    ensures n.Go? ==> (p decreases to n.p)
  {
    if p.Sleep? && reply.Value? && reply.v.At? && e.now(name) < reply.v.time
    then Stop(SuspendError(reply.v.time))
    else Onward(p, reply)
  }

  // ---- a whole execution ----

  datatype Outcome = Returned(v: Val) | Erred(e: Error)

  /** The error of the first branch that failed for a reason other than a suspension. */
  function FirstError(outs: seq<Outcome>): Option<Error> {
    if outs == [] then None
    else if outs[0].Erred? && AsSuspend(outs[0].e) == None then Some(outs[0].e)
    else FirstError(outs[1..])
  }

  /** The latest time any suspended branch asks to resume at. */
  function LatestSuspend(outs: seq<Outcome>): Option<Instant> {
    if outs == [] then None
    else
      var rest := LatestSuspend(outs[1..]);
      var here := if outs[0].Erred? then AsSuspend(outs[0].e) else None;
      if here == None then rest
      else if rest == None || here.value > rest.value then here else rest
  }

  function Values(outs: seq<Outcome>): seq<Val> {
    if outs == [] then [] else (if outs[0].Returned? then [outs[0].v] else []) + Values(outs[1..])
  }

  /** The error Parallel returns once all branches are done, if any. */
  function JoinError(outs: seq<Outcome>): Option<Error> {
    if FirstError(outs) != None then FirstError(outs)
    else if LatestSuspend(outs) != None then Some(SuspendError(LatestSuspend(outs).value))
    else None
  }

  function AfterJoin(p: Prog, outs: seq<Outcome>): (n: Next)
    requires p.Parallel?
    ensures n.Go? ==> (p decreases to n.p)
  {
    if JoinError(outs) != None then Stop(JoinError(outs).value)
    else if Values(outs) in p.join then Go(p.join[Values(outs)])
    else Stop(Plain("panic"))
  }

  /** One execution of a program, its parallel branches taken one after another. */
  function Exec(p: Prog, sc: Scope, st: State, e: Env): (State, Outcome)
    decreases p
  {
    match p
    case Return(v) => (st, Returned(v))
    case Fail(err) => (st, Erred(err))
    case Parallel(branches, _) =>
      var (st1, outs) := ExecAll(branches, sc, st, e);
      (match AfterJoin(p, outs)
       case Stop(err) => (st1, Erred(err))
       case Go(q) => Exec(q, sc, st1, e))
    case _ =>
      var name := CallName(p, sc);
      match Perform(p, name, st, e)
      case Halted(st1, err) => (st1, Erred(err))
      case Replied(st1, reply) =>
        match Resume(p, name, reply, e)
        case Stop(err) => (st1, Erred(err))
        case Go(q) => Exec(q, Counted(p, sc), st1, e)
  }

  function ExecAll(branches: seq<Branch>, sc: Scope, st: State, e: Env): (r: (State, seq<Outcome>))
    ensures |r.1| == |branches|
    decreases branches
  {
    if branches == [] then (st, [])
    else
      var (st1, out) := Exec(branches[0].body, ChildScope(sc, branches[0].name), st, e);
      var (st2, outs) := ExecAll(branches[1..], sc, st1, e);
      (st2, [out] + outs)
  }
}
