/** The workflow context at work: calls track their names, read through the prefetched rows and
    the store, and write through, all in place. */
module Runtime {
  import opened Prelude
  import opened Names
  import opened Timestamps
  import opened Database
  import opened Workflow
  import opened Store

  /** What a step's function does: something outside, yield a sleep's time, or subscribe and
      suspend. */
  datatype Fn = Outside | Yield(time: Instant) | Await(key: string, timeout: int)

  /** The call of a program that runs this function. */
  ghost predicate Runs(p: Prog, fn: Fn, name: string, e: Env) {
    match fn
    case Outside => p.Step? || p.Provide?
    case Yield(t) => p.Sleep? && t == e.resumeAt(name)
    case Await(key, timeout) => p.Wait? && p.key == key && p.timeout == timeout
  }

  /** The error a call returns; a stored timeout is one. */
  function ErrorOf(r: Performed): Option<Error> {
    match r
    case Halted(_, err) => Some(err)
    case Replied(_, reply) => if reply.Expired? then Some(EventTimeoutError) else None
  }

  /** Only rows and subscriptions of one workflow may differ. */
  ghost predicate OnlyFor(who: Who, t: Tables, u: Tables) {
    u.workflows == t.workflows && forall x | x != who :: RowsOf(u, x) == RowsOf(t, x)
  }

  /** What the contexts of one execution share. */
  class Session {
    const store: SqliteStore
    const e: Env
    const stepCache: map<string, Row>
    var seenSteps: set<string>
    ghost var calls: set<string>

    constructor (store: SqliteStore, e: Env, stepCache: map<string, Row>)
      ensures this.store == store && this.e == e && this.stepCache == stepCache
      ensures seenSteps == {} && calls == {}
    {
      this.store, this.e, this.stepCache := store, e, stepCache;
      seenSteps, calls := {}, {};
    }

    ghost function View(): State
      reads this, store
    {
      State(seenSteps, RowsOf(store.Contents(), e.who), store.subs, calls)
    }

    /** The prefetched rows are still the stored ones. */
    ghost predicate Valid()
      reads this, store
    {
      forall n | n in stepCache :: n in View().rows && View().rows[n] == stepCache[n]
    }

    method TrackStep(name: string) returns (err: Option<Error>)
      modifies this`seenSteps
      ensures err == if name in old(seenSteps) then Some(Plain("duplicate step name")) else None
      ensures seenSteps == old(seenSteps) + {name}
    {
      if name in seenSteps {
        assert seenSteps == seenSteps + {name};
        return Some(Plain("duplicate step name"));
      }
      seenSteps := seenSteps + {name};
      err := None;
    }

    /** The prefetched rows first, then the store. */
    method ReadThrough(name: string) returns (cached: Option<Row>)
      requires Valid()
      ensures cached == if name in View().rows then Some(View().rows[name]) else None
    {
      if name in stepCache {
        return Some(stepCache[name]);
      }
      var row, _ := store.GetStepResult(e.who, name);
      return row;
    }

    /** A step's function that is not a wait: a value or an error from outside, or a time. */
    method CallFunction(name: string, fn: Fn, ghost p: Prog) returns (r: FnResult)
      requires Runs(p, fn, name, e) && !fn.Await?
      modifies this`calls
      ensures r == CallFn(p, name, e) && View() == Invoke(p, old(View()), name)
    {
      match fn
      case Outside =>
        calls := calls + {name};
        r := e.fn(name);
      case Yield(t) => r := Ok(At(t));
    }

    /** A wait's function. */
    method AwaitEvent(key: string, timeout: int, name: string, ghost p: Prog) returns (r: FnResult)
      requires p.Wait? && p.key == key && p.timeout == timeout
      modifies store
      ensures r.Err? && Halted(View(), r.e) == Subscribe(p, name, old(View()), e)
      ensures OnlyFor(e.who, old(store.Contents()), store.Contents())
    {
      r := SubscribeUntil(key, NewSubscription(e.who, name, e.now(name), timeout), e.now(name) + timeout);
    }

    /** Save the subscription and suspend until its deadline. */
    method SubscribeUntil(key: string, sub: Subscription, deadline: Instant) returns (r: FnResult)
      modifies store
      ensures r.Err? && Halted(View(), r.e) == Subscribed(key, sub, deadline, old(View()))
      ensures OnlyFor(e.who, old(store.Contents()), store.Contents())
    {
      var err := store.InsertSubscription(key, sub);
      r := Err(if err.Some? then Plain("save subscription") else SuspendError(deadline));
    }

    /** Run, on a resolved name. */
    method Run(name: string, fn: Fn, ghost p: Prog) returns (v: Val, err: Option<Error>)
      requires Valid() && Runs(p, fn, name, e)
      modifies this, store
      ensures Valid()
      ensures var r := Perform(p, name, old(View()), e);
        View() == r.st && err == ErrorOf(r) && (err == None ==> v == r.reply.v)
      ensures OnlyFor(e.who, old(store.Contents()), store.Contents())
    {
      v := Data("");
      err := TrackStep(name);
      if err.Some? {
        assert View().seen == old(View().seen);
        return;
      }
      if e.fault(name) == SignalUnread {
        return v, Some(Plain("check signal"));
      }
      if e.cancelled(name) {
        return v, Some(CancelledError);
      }
      if e.fault(name) == LookupFailed {
        return v, Some(Plain("get step result"));
      }
      var cached := ReadThrough(name);
      if cached.Some? {
        v, err := Unmarshal(cached.value);
        return;
      }
      v, err := CallAndSave(name, fn, p);
    }

    /** A stored row as a value or an error (cachedStepError). */
    method Unmarshal(row: Row) returns (v: Val, err: Option<Error>)
      ensures match ReadRow(row, e.codec)
        case Unreadable(x) => err == Some(x)
        case Readable(Expired) => err == Some(EventTimeoutError)
        case Readable(Value(x)) => err == None && v == x
    {
      v := Data("");
      if row.error != "" {
        if row.error == EVENT_TIMEOUT {
          return v, Some(EventTimeoutError);
        }
        return v, Some(Plain("cached step error: " + row.error));
      }
      if row.result == None || e.codec.decode(row.result.value) == None {
        return v, Some(Plain("unmarshal cached result"));
      }
      return e.codec.decode(row.result.value).value, None;
    }

    /** A missing row: run the function and write its result through. */
    method CallAndSave(name: string, fn: Fn, ghost p: Prog) returns (v: Val, err: Option<Error>)
      requires Valid() && Runs(p, fn, name, e) && name !in View().rows
      modifies this, store
      ensures Valid() && seenSteps == old(seenSteps)
      ensures var r := Execute(p, name, old(View()), e);
        View() == r.st && err == ErrorOf(r) && (err == None ==> v == r.reply.v)
      ensures OnlyFor(e.who, old(store.Contents()), store.Contents())
    {
      v := Data("");
      var r;
      if fn.Await? {
        r := AwaitEvent(fn.key, fn.timeout, name, p);
      } else {
        r := CallFunction(name, fn, p);
      }
      if r.Err? {
        return v, Some(r.e);
      }
      var data := e.codec.encode(r.v);
      if data == None {
        return v, Some(Plain("marshal step result"));
      }
      if e.fault(name) == SaveFailed {
        return v, Some(Plain("save step result"));
      }
      store.SaveStepResult(e.who, name, Row(data, ""));
      return r.v, None;
    }
  }

  /** A durable provider: the prefix of its steps, and how many values it gave. */
  class Provider {
    const prefix: string
    var counter: nat

    constructor (prefix: string)
      ensures this.prefix == prefix && counter == 0
    {
      this.prefix, counter := prefix, 0;
    }

    /** Get, for a context with this scope prefix. */
    method Get(session: Session, scopePrefix: string, ghost p: Prog) returns (v: Val, err: Option<Error>)
      requires session.Valid() && p.Provide? && p.prefix == prefix
      modifies this, session, session.store
      ensures counter == old(counter) + 1 && session.Valid()
      ensures var name := ResolveStepName(scopePrefix, CounterName(prefix, counter));
        var r := Perform(p, name, old(session.View()), session.e);
        session.View() == r.st && err == ErrorOf(r) && (err == None ==> v == r.reply.v)
      ensures OnlyFor(session.e.who, old(session.store.Contents()), session.store.Contents())
    {
      counter := counter + 1;
      v, err := session.Run(ResolveStepName(scopePrefix, CounterName(prefix, counter)), Outside, p);
    }
  }

  class WorkflowContext {
    const session: Session
    const prefix: string
    var sleepCounter: nat
    var providers: map<string, Provider>
    ghost var scope: Scope

    constructor (session: Session, prefix: string)
      ensures this.session == session && Valid() && scope == Scope(prefix, map[]) && providers == map[]
    {
      this.session, this.prefix := session, prefix;
      sleepCounter, providers := 0, map[];
      scope := Scope(prefix, map[]);
    }

    ghost function Own(): set<Provider>
      reads this
    {
      set k | k in providers :: providers[k]
    }

    /** The counters are those of the scope. */
    ghost predicate Valid()
      reads this, Own()
    {
      && scope.prefix == prefix && Count(scope, Sleeps) == sleepCounter
      && forall k ::
           && (k in providers ==> providers[k].prefix == k)
           && Count(scope, Source.Provider(k)) == if k in providers then providers[k].counter else 0
    }

    /** Scope: a child context with counters of its own. */
    method Child(name: string) returns (child: WorkflowContext)
      requires Valid()
      ensures fresh(child) && child.Valid() && child.session == session && child.Own() == {}
      ensures child.scope == ChildScope(scope, name)
    {
      var childPrefix := if prefix == "" then name else prefix + "/" + name;
      child := new WorkflowContext(session, childPrefix);
    }

    method Run(stepName: string, ghost p: Prog) returns (v: Val, err: Option<Error>)
      requires Valid() && session.Valid() && p.Step? && p.name == stepName
      modifies session, session.store
      ensures session.Valid() && scope == Counted(p, old(scope))
      ensures var r := Perform(p, CallName(p, old(scope)), old(session.View()), session.e);
        session.View() == r.st && err == ErrorOf(r) && (err == None ==> v == r.reply.v)
      ensures OnlyFor(session.e.who, old(session.store.Contents()), session.store.Contents())
    {
      v, err := session.Run(ResolveStepName(prefix, stepName), Outside, p);
    }

    /** SleepUntil: the time is saved once; before it, the workflow suspends. */
    method SleepUntil(resumeAt: Instant, ghost p: Prog) returns (err: Option<Error>)
      requires Valid() && session.Valid() && p.Sleep? && resumeAt == session.e.resumeAt(CallName(p, scope))
      modifies this, session, session.store
      ensures Valid() && session.Valid() && scope == Counted(p, old(scope)) && providers == old(providers)
      ensures var name := CallName(p, old(scope));
        var r := Perform(p, name, old(session.View()), session.e);
        && session.View() == r.st
        && err == (match r
                   case Halted(_, x) => Some(x)
                   case Replied(_, reply) =>
                     match Resume(p, name, reply, session.e) case Stop(x) => Some(x) case Go(_) => None)
      ensures OnlyFor(session.e.who, old(session.store.Contents()), session.store.Contents())
    {
      sleepCounter := sleepCounter + 1;
      scope := Counted(p, scope);
      var name := ResolveStepName(prefix, CounterName("_sleep.until", sleepCounter));
      var cached;
      cached, err := session.Run(name, Yield(resumeAt), p);
      if err.Some? {
        return;
      }
      if !cached.At? {
        return Some(Plain("unmarshal cached result"));
      }
      if session.e.now(name) < cached.time {
        return Some(SuspendError(cached.time));
      }
    }

    /** WaitForEvent: no row yet means subscribe and suspend. */
    method WaitForEvent(stepName: string, key: string, timeout: int, ghost p: Prog) returns (v: Val, err: Option<Error>)
      requires Valid() && session.Valid() && p.Wait? && p.name == stepName && p.key == key && p.timeout == timeout
      modifies session, session.store
      ensures session.Valid() && scope == Counted(p, old(scope))
      ensures var r := Perform(p, CallName(p, old(scope)), old(session.View()), session.e);
        session.View() == r.st && err == ErrorOf(r) && (err == None ==> v == r.reply.v)
      ensures OnlyFor(session.e.who, old(session.store.Contents()), session.store.Contents())
    {
      v, err := session.Run(ResolveStepName(prefix, stepName), Await(key, timeout), p);
    }

    /** The value of the provider with this prefix, made on first use. */
    method Provide(prefix: string, ghost p: Prog) returns (v: Val, err: Option<Error>)
      requires Valid() && session.Valid() && p.Provide? && p.prefix == prefix
      modifies this, Own(), session, session.store
      ensures Valid() && session.Valid() && scope == Counted(p, old(scope)) && fresh(Own() - old(Own()))
      ensures var r := Perform(p, CallName(p, old(scope)), old(session.View()), session.e);
        session.View() == r.st && err == ErrorOf(r) && (err == None ==> v == r.reply.v)
      ensures OnlyFor(session.e.who, old(session.store.Contents()), session.store.Contents())
    {
      if prefix !in providers {
        var provider := new Provider(prefix);
        providers := providers[prefix := provider];
      }
      v, err := providers[prefix].Get(session, this.prefix, p);
      scope := Counted(p, scope);
    }
  }
}
