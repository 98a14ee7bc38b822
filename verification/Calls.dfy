/** What one framework call does and where the body goes on, case by case, told by the values
    handed over. */
module Calls {
  import opened Prelude
  import opened Names
  import opened Timestamps
  import opened Database
  import opened Workflow
  import opened Trails

  // ---- the call ----

  /** Nothing stops the call before it looks for its row. */
  predicate Reaches(name: string, st: State, e: Env) {
    name !in st.seen && !e.cancelled(name) && e.fault(name) == NoFault
  }

  lemma SeenIsRefused(p: Prog, name: string, st: State, e: Env)
    ensures name in st.seen ==> Perform(p, name, st, e) == Halted(st, Plain("duplicate step name"))
  {
  }

  /** A set signal stops every call before it reads, calls or writes anything. */
  lemma SignalStops(p: Prog, name: string, st: State, e: Env)
    requires name !in st.seen && e.fault(name) != SignalUnread && e.cancelled(name)
    ensures Perform(p, name, st, e) == Halted(st.(seen := st.seen + {name}), CancelledError)
  {
  }

  /** A saved row is handed back, without a call and without a write. */
  lemma SavedIsReturned(p: Prog, name: string, st: State, e: Env)
    requires Reaches(name, st, e) && name in st.rows
    ensures var row, st1 := st.rows[name], st.(seen := st.seen + {name});
      var r := Perform(p, name, st, e);
      if row.error == "event_timeout" then r == Replied(st1, Expired)
      else if row.error != "" then r == Halted(st1, Plain("cached step error: " + row.error))
      else if row.result.Some? && e.codec.decode(row.result.value).Some?
      then r == Replied(st1, Value(e.codec.decode(row.result.value).value))
      else r == Halted(st1, Plain("unmarshal cached result"))
  {
  }

  /** Without a row a step's function is called once, its value saved and handed back. */
  lemma MissingIsCalled(p: Prog, name: string, st: State, e: Env)
    requires (p.Step? || p.Provide?) && Reaches(name, st, e) && name !in st.rows
    ensures var r := Perform(p, name, st, e);
      match e.fn(name)
      case Err(x) => r == Halted(State(st.seen + {name}, st.rows, st.subs, st.calls + {name}), x)
      case Ok(v) =>
        var data := e.codec.encode(v);
        if data == None
        then r == Halted(State(st.seen + {name}, st.rows, st.subs, st.calls + {name}), Plain("marshal step result"))
        else r == Replied(State(st.seen + {name}, st.rows[name := Row(data, "")], st.subs, st.calls + {name}), Value(v))
  {
  }

  /** Without a row a sleep saves the time it was asked for, and no function is called. */
  lemma SleepIsSaved(p: Prog, name: string, st: State, e: Env)
    requires p.Sleep? && Reaches(name, st, e) && name !in st.rows && e.codec.encode(At(e.resumeAt(name))).Some?
    ensures Perform(p, name, st, e)
         == Replied(State(st.seen + {name}, st.rows[name := Row(e.codec.encode(At(e.resumeAt(name))), "")],
                          st.subs, st.calls), Value(At(e.resumeAt(name))))
  {
  }

  /** Without a row a wait subscribes under its key until now + timeout, and suspends until
      then; a taken key is an error, and nothing is stored. */
  lemma WaitSubscribes(p: Prog, name: string, st: State, e: Env)
    requires p.Wait? && Reaches(name, st, e) && name !in st.rows
    ensures var st1, deadline := st.(seen := st.seen + {name}), e.now(name) + p.timeout;
      Perform(p, name, st, e) ==
      if p.key in st.subs then Halted(st1, Plain("save subscription"))
      else Halted(st1.(subs := st.subs[p.key := Subscription(e.who, name, FormatTime(deadline))]),
                  SuspendError(deadline))
  {
    hide FormatTime;
  }

  // ---- where the body goes on ----

  /** The value of a step or of a provider is what the body goes on with. */
  lemma ValueGoesOn(p: Prog, sc: Scope, st: State, e: Env)
    requires (p.Step? || p.Provide?) && Perform(p, CallName(p, sc), st, e).Replied?
    ensures var Replied(st1, reply) := Perform(p, CallName(p, sc), st, e);
      match reply
      case Value(v) =>
        Exec(p, sc, st, e)
        == if v in p.next then Exec(p.next[v], Counted(p, sc), st1, e) else (st1, Erred(Plain("panic")))
      case Expired => Exec(p, sc, st, e) == (st1, Erred(EventTimeoutError))
  {
  }

  /** A sleep whose saved time has come goes on, any other suspends until that time. */
  lemma SleepGoesOn(p: Prog, sc: Scope, st: State, e: Env)
    requires p.Sleep? && Perform(p, CallName(p, sc), st, e).Replied?
    requires Perform(p, CallName(p, sc), st, e).reply.Value? && Perform(p, CallName(p, sc), st, e).reply.v.At?
    ensures var Replied(st1, reply) := Perform(p, CallName(p, sc), st, e);
      Exec(p, sc, st, e)
      == if reply.v.time <= e.now(CallName(p, sc)) then Exec(p.rest, Counted(p, sc), st1, e)
         else (st1, Erred(SuspendError(reply.v.time)))
  {
  }

  /** A wait goes on with its event's payload, or with the timeout. */
  lemma WaitGoesOn(p: Prog, sc: Scope, st: State, e: Env)
    requires p.Wait? && Perform(p, CallName(p, sc), st, e).Replied?
    ensures var Replied(st1, reply) := Perform(p, CallName(p, sc), st, e);
      Exec(p, sc, st, e) == if reply in p.after then Exec(p.after[reply], sc, st1, e) else (st1, Erred(Plain("panic")))
  {
  }

  /** A call that halts ends the body with its error. */
  lemma HaltEnds(p: Prog, sc: Scope, st: State, e: Env)
    requires IsCall(p) && Perform(p, CallName(p, sc), st, e).Halted?
    ensures var Halted(st1, x) := Perform(p, CallName(p, sc), st, e); Exec(p, sc, st, e) == (st1, Erred(x))
  {
  }

  lemma {:induction false} AllReturnedValues(outs: seq<Outcome>, vs: seq<Val>)
    requires |vs| == |outs| && forall i | 0 <= i < |outs| :: outs[i] == Returned(vs[i])
    ensures Values(outs) == vs && JoinError(outs) == None
  {
    if outs != [] {
      AllReturnedValues(outs[1..], vs[1..]);
      assert outs[0] == Returned(vs[0]);
      assert vs == [vs[0]] + vs[1..];
    }
  }

  /** Parallel goes on with the values of all its branches, in their order. */
  lemma JoinGoesOn(p: Prog, sc: Scope, st: State, e: Env, vs: seq<Val>)
    requires p.Parallel? && |vs| == |p.branches|
    requires forall i | 0 <= i < |vs| :: ExecAll(p.branches, sc, st, e).1[i] == Returned(vs[i])
    ensures var st1 := ExecAll(p.branches, sc, st, e).0;
      Exec(p, sc, st, e) == if vs in p.join then Exec(p.join[vs], sc, st1, e) else (st1, Erred(Plain("panic")))
  {
    AllReturnedValues(ExecAll(p.branches, sc, st, e).1, vs);
  }

  // ---- a step, a sleep and a wait over two executions ----

  /** A step's value is what the body goes on with, both when it is computed and when a later
      execution finds its row. */
  lemma StepIsDurable(p: Prog, sc: Scope, st: State, e: Env, v: Val, on: State, again: Env)
    requires RoundTrips(e.codec) && again.codec == e.codec && p.Step? && v in p.next && e.codec.encode(v).Some?
    requires Reaches(CallName(p, sc), st, e) && CallName(p, sc) !in st.rows && e.fn(CallName(p, sc)) == Ok(v)
    requires Reaches(CallName(p, sc), on, again) && CallName(p, sc) in on.rows
    requires on.rows[CallName(p, sc)] == Perform(p, CallName(p, sc), st, e).st.rows[CallName(p, sc)]
    ensures var name := CallName(p, sc);
      && Exec(p, sc, st, e) == Exec(p.next[v], sc, Perform(p, name, st, e).st, e)
      && Exec(p, sc, on, again) == Exec(p.next[v], sc, on.(seen := on.seen + {name}), again)
  {
    MissingIsCalled(p, CallName(p, sc), st, e);
    ValueGoesOn(p, sc, st, e);
    SavedIsReturned(p, CallName(p, sc), on, again);
    ValueGoesOn(p, sc, on, again);
  }

  /** A delivered event is what the body goes on with; so is a timeout. */
  lemma EventArrives(p: Prog, sc: Scope, st: State, e: Env, t: Tables, key: string, row: Row)
    requires p.Wait? && Reaches(CallName(p, sc), st, e) && key in t.subs
    requires t.subs[key].who == e.who && t.subs[key].step == CallName(p, sc)
    requires st.rows == RowsOf(Settle(t, key, row), e.who)
    requires row == TIMEOUT_MARKER
          || (row.error == "" && row.result.Some? && e.codec.decode(row.result.value).Some?)
    ensures var st1 := st.(seen := st.seen + {CallName(p, sc)});
      var reply := if row == TIMEOUT_MARKER then Expired else Value(e.codec.decode(row.result.value).value);
      Exec(p, sc, st, e) == if reply in p.after then Exec(p.after[reply], sc, st1, e) else (st1, Erred(Plain("panic")))
  {
    SavedIsReturned(p, CallName(p, sc), st, e);
    WaitGoesOn(p, sc, st, e);
  }

  // ---- the trail ----

  /** The trail goes the same ways, with the saved rows as replies. */
  lemma TrailGoesOn(p: Prog, sc: Scope, rows: map<string, Row>, c: Codec)
    requires IsCall(p) && CallName(p, sc) in rows
    ensures var row := rows[CallName(p, sc)];
      var t := Follow(p, sc, rows, c);
      && (p.Wait? && row.error == "event_timeout" && Expired in p.after ==> Joins(t, p, sc, p.after[Expired], rows, c))
      && (row.error == "" && row.result.Some? && c.decode(row.result.value).Some? ==>
            var v := c.decode(row.result.value).value;
            && (p.Wait? && Value(v) in p.after ==> Joins(t, p, sc, p.after[Value(v)], rows, c))
            && ((p.Step? || p.Provide?) && v in p.next ==> Joins(t, p, sc, p.next[v], rows, c))
            && (p.Sleep? && v.At? ==> Joins(t, p, sc, p.rest, rows, c)))
  {
  }

  /** The trail t of a call, that goes on as q. */
  predicate Joins(t: Trail, p: Prog, sc: Scope, q: Prog, rows: map<string, Row>, c: Codec)
    requires IsCall(p)
  {
    var rest := Follow(q, Counted(p, sc), rows, c);
    && t.names == {CallName(p, sc)} + rest.names && t.end == rest.end
    && t.waits == (if p.Wait? then {(CallName(p, sc), p.key)} else {}) + rest.waits
  }

  /** And past a Parallel whose branches' trails all end, with the values they end in. */
  lemma TrailJoins(p: Prog, sc: Scope, rows: map<string, Row>, c: Codec, vs: seq<Val>)
    requires p.Parallel? && |vs| == |p.branches| && vs in p.join
    requires forall i | 0 <= i < |vs| ::
      Follow(p.branches[i].body, ChildScope(sc, p.branches[i].name), rows, c).end == Some(vs[i])
    ensures Follow(p, sc, rows, c).end == Follow(p.join[vs], sc, rows, c).end
  {
    BranchEnds(p.branches, sc, rows, c, vs);
  }

  lemma {:induction false} BranchEnds(bs: seq<Branch>, sc: Scope, rows: map<string, Row>, c: Codec, vs: seq<Val>)
    requires |vs| == |bs|
    requires forall i | 0 <= i < |vs| :: Follow(bs[i].body, ChildScope(sc, bs[i].name), rows, c).end == Some(vs[i])
    ensures var ends := FollowAll(bs, sc, rows, c).1; None !in ends && Ended(ends) == vs
  {
    if bs != [] {
      forall i | 0 <= i < |vs| - 1
        ensures Follow(bs[1..][i].body, ChildScope(sc, bs[1..][i].name), rows, c).end == Some(vs[1..][i])
      {
        assert bs[1..][i] == bs[i + 1];
      }
      BranchEnds(bs[1..], sc, rows, c, vs[1..]);
      EndsOfBranches(bs, sc, rows, c);
      var first := Follow(bs[0].body, ChildScope(sc, bs[0].name), rows, c);
      var ends := FollowAll(bs, sc, rows, c).1;
      assert ends == [first.end] + FollowAll(bs[1..], sc, rows, c).1 && ends[1..] == FollowAll(bs[1..], sc, rows, c).1;
      assert vs == [vs[0]] + vs[1..];
    }
  }
}
