/** How the runner turns the end of an execution into one write (resolveOutcome). */
module Outcomes {
  import opened Prelude
  import opened Timestamps
  import opened Database
  import opened Workflow
  import opened StoreOps
  import opened Backoff

  /** The end of an execution: a marshalled response, or an error. */
  datatype Ended = Finished(result: Json) | Broken(e: Error)

  datatype Decision =
    | Complete(result: Json)
    | Cancel
    | Reject(msg: string)
    | Retry(retryAfter: Instant)
    | SuspendUntil(resumeAt: Instant)

  /** Error(). */
  function ErrorText(e: Error): string {
    match e
    case Plain(msg) => msg
    case Wrapped(msg, inner) => msg + ": " + ErrorText(inner)
    case Permanent(inner) => ErrorText(inner)
    case CancelledError => "workflow cancelled"
    case SuspendError(t) => "workflow suspended until " + SecondText(WholeSecond(t)) + "Z"
    case EventTimeoutError => "event wait timed out"
  }

  /** Cancellation, then permanent failure, then suspension, then the retry budget. */
  function Decide(attempts: nat, policy: RetryPolicy, ended: Ended, now: Instant): Decision {
    match ended
    case Finished(result) => Complete(result)
    case Broken(e) =>
      if AsCancelled(e) then Cancel
      else if AsPermanent(e).Some? then Reject(ErrorText(AsPermanent(e).value))
      else if AsSuspend(e).Some? then SuspendUntil(AsSuspend(e).value)
      else if attempts + 1 >= policy.maxAttempts then Reject(ErrorText(e))
      else Retry(now + RetryDelay(policy, attempts))
  }

  /** The write that commits a decision on the record as it was read. */
  function CommitOp(id: string, occ: int, d: Decision): Op {
    match d
    case Complete(result) => UpdateStatusOp(id, Status.Completed, Some(result), occ)
    case Cancel => UpdateStatusOp(id, Cancelled, None, occ)
    case Reject(msg) => SetErrorOp(id, Failed, msg, occ)
    case Retry(t) => SetRetryOp(id, FormatTime(t), occ)
    case SuspendUntil(t) => SuspendOp(id, FormatTime(t), occ)
  }

  // ---- error chains ----

  /** The error and what Unwrap finds in it, outermost first: what errors.As walks. */
  function Chain(e: Error): seq<Error> {
    [e] + if e.Wrapped? || e.Permanent? then Chain(e.inner) else []
  }

  /** The first error of the chain that a target type takes, if any. */
  function FirstOf(chain: seq<Error>, takes: Error -> bool): (found: Option<Error>)
    ensures found == None <==> forall i | 0 <= i < |chain| :: !takes(chain[i])
    ensures found.Some? ==> exists i | 0 <= i < |chain| ::
      chain[i] == found.value && takes(chain[i]) && forall j | 0 <= j < i :: !takes(chain[j])
  {
    if chain == [] then None
    else if takes(chain[0]) then Some(chain[0])
    else
      assert forall i | 1 <= i < |chain| :: chain[i] == chain[1..][i - 1];
      FirstOf(chain[1..], takes)
  }

  function FirstPermanent(e: Error): Option<Error> {
    FirstOf(Chain(e), (x: Error) => x.Permanent?)
  }

  function FirstSuspension(e: Error): Option<Error> {
    FirstOf(Chain(e), (x: Error) => x.SuspendError?)
  }

  lemma FirstOfChain(e: Error, takes: Error -> bool)
    ensures FirstOf(Chain(e), takes)
         == if takes(e) then Some(e)
            else if e.Wrapped? || e.Permanent? then FirstOf(Chain(e.inner), takes) else None
  {
    assert Chain(e)[0] == e;
    assert Chain(e)[1..] == if e.Wrapped? || e.Permanent? then Chain(e.inner) else [];
  }

  /** errors.As for the three: the first of its kind in the chain, and none if there is none. */
  lemma {:induction false} AsWalksChain(e: Error)
    ensures AsCancelled(e) <==> exists x <- Chain(e) :: x.CancelledError?
    ensures AsPermanent(e) == match FirstPermanent(e) case Some(x) => Some(x.inner) case None => None
    ensures AsSuspend(e) == match FirstSuspension(e) case Some(x) => Some(x.resumeAt) case None => None
  {
    FirstOfChain(e, (x: Error) => x.Permanent?);
    FirstOfChain(e, (x: Error) => x.SuspendError?);
    assert e in Chain(e);
    if e.Wrapped? || e.Permanent? {
      AsWalksChain(e.inner);
      assert forall x | x in Chain(e.inner) :: x in Chain(e);
    }
  }

  /** What an error of the chain adds in front of the next one's text. */
  function Message(e: Error): string {
    match e
    case Plain(msg) => msg
    case Wrapped(msg, _) => msg + ": "
    case Permanent(_) => ""
    case CancelledError => "workflow cancelled"
    case SuspendError(t) => "workflow suspended until " + SecondText(WholeSecond(t)) + "Z"
    case EventTimeoutError => "event wait timed out"
  }

  function Messages(chain: seq<Error>): string {
    if chain == [] then "" else Message(chain[0]) + Messages(chain[1..])
  }

  /** An error's text is its chain's messages, in order. */
  lemma {:induction false} TextIsMessages(e: Error)
    ensures ErrorText(e) == Messages(Chain(e))
  {
    if e.Wrapped? || e.Permanent? {
      TextIsMessages(e.inner);
      assert Chain(e)[1..] == Chain(e.inner);
    } else {
      assert Chain(e)[1..] == [];
      assert Message(e) + "" == Message(e);
    }
  }

  // ---- the write ----

  /** The decision, by what is in the chain. */
  lemma DecidedOnChain(attempts: nat, policy: RetryPolicy, ended: Ended, now: Instant)
    ensures Decide(attempts, policy, ended, now) ==
      match ended
      case Finished(result) => Complete(result)
      case Broken(e) =>
        if exists x <- Chain(e) :: x.CancelledError? then Cancel
        else match FirstPermanent(e)
          case Some(permanent) => Reject(Messages(Chain(permanent.inner)))
          case None =>
            match FirstSuspension(e)
            case Some(suspension) => SuspendUntil(suspension.resumeAt)
            case None =>
              if policy.maxAttempts - attempts <= 1 then Reject(Messages(Chain(e)))
              else Retry(now + RetryDelay(policy, attempts))
  {
    if ended.Broken? {
      var e := ended.e;
      AsWalksChain(e);
      TextIsMessages(e);
      if AsPermanent(e).Some? {
        TextIsMessages(AsPermanent(e).value);
      }
    }
  }

  lemma DecisionIsWritten(t: Tables, rec: Record, d: Decision)
    requires rec.id in t.workflows
    ensures var u, next := Apply(t, CommitOp(rec.id, rec.occ, d)), rec.(occ := rec.occ + 1);
      && (t.workflows[rec.id].occ != rec.occ ==> u == t)
      && (t.workflows[rec.id] == rec ==> u == Put(t,
            match d
            case Complete(result) => next.(status := Status.Completed, result := Some(result))
            case Cancel => next.(status := Cancelled, result := None)
            case Reject(msg) => next.(status := Failed, error := msg)
            case Retry(at) => next.(status := Pending, attempts := rec.attempts + 1, retryAfter := FormatTime(at))
            case SuspendUntil(at) => next.(status := Suspended, retryAfter := FormatTime(at))))
  {
    hide FormatTime;
  }

  /** The record the outcome leaves, written out: only these fields move, on the next version. */
  function RecordAfter(rec: Record, policy: RetryPolicy, ended: Ended, now: Instant): Record
    requires rec.attempts >= 0
  {
    var next := rec.(occ := rec.occ + 1);
    match ended
    case Finished(result) => next.(status := Status.Completed, result := Some(result))
    case Broken(e) =>
      if exists x <- Chain(e) :: x.CancelledError? then next.(status := Cancelled, result := None)
      else match FirstPermanent(e)
        case Some(permanent) => next.(status := Failed, error := Messages(Chain(permanent.inner)))
        case None =>
          match FirstSuspension(e)
          case Some(suspension) => next.(status := Suspended, retryAfter := FormatTime(suspension.resumeAt))
          case None =>
            if policy.maxAttempts - rec.attempts <= 1 then next.(status := Failed, error := Messages(Chain(e)))
            else next.(status := Pending, attempts := rec.attempts + 1,
                       retryAfter := FormatTime(now + RetryDelay(policy, rec.attempts)))
  }

  /** The chain is walked for a cancellation first, then for a permanent failure, then for a
      suspension: on a current record resolveOutcome writes exactly the record for that case
      and nothing else; on a stale one it writes nothing. */
  lemma OutcomeRecorded(t: Tables, rec: Record, policy: RetryPolicy, ended: Ended, now: Instant)
    requires rec.attempts >= 0 && rec.id in t.workflows
    ensures var op := CommitOp(rec.id, rec.occ, Decide(rec.attempts, policy, ended, now));
      && (t.workflows[rec.id] == rec ==> Apply(t, op) == Put(t, RecordAfter(rec, policy, ended, now)))
      && (t.workflows[rec.id].occ != rec.occ ==> Apply(t, op) == t)
  {
    hide FormatTime, Chain, Messages, FirstPermanent, FirstSuspension;
    DecidedOnChain(rec.attempts, policy, ended, now);
    DecisionIsWritten(t, rec, Decide(rec.attempts, policy, ended, now));
  }
}
