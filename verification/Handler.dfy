/**
 Handler.Handle and the classification of its errors. An error is the chain that
 errors.As walks: the error itself, what it wraps, and so on.
 */
module Handler {
  import opened Common
  import opened Queue

  datatype Link =
    | Provider(code: string, retryable: bool)
    | SyncError(code: string, retryable: bool)
    | Handled(code: string, retryable: bool, preserveAttempt: bool)
    | DeadlineExceeded
    | Plain

  type Chain = seq<Link>

  function FirstProvider(e: Chain): (p: Option<Link>)
    ensures p.Some? ==> exists i :: 0 <= i < |e| && e[i] == p.value && e[i].Provider?
                                  && forall j :: 0 <= j < i ==> !e[j].Provider?
    ensures p.None? ==> forall l :: l in e ==> !l.Provider?
  {
    if e == [] then None else if e[0].Provider? then Some(e[0]) else FirstProvider(e[1..])
  }

  function FirstSyncError(e: Chain): (s: Option<Link>)
    ensures s.Some? ==> exists i :: 0 <= i < |e| && e[i] == s.value && e[i].SyncError?
                                  && forall j :: 0 <= j < i ==> !e[j].SyncError?
    ensures s.None? ==> forall l :: l in e ==> !l.SyncError?
  {
    if e == [] then None else if e[0].SyncError? then Some(e[0]) else FirstSyncError(e[1..])
  }

  function FirstHandled(e: Chain): (h: Option<Link>)
    ensures h.Some? ==> exists i :: 0 <= i < |e| && e[i] == h.value && e[i].Handled?
                                  && forall j :: 0 <= j < i ==> !e[j].Handled?
    ensures h.None? ==> forall l :: l in e ==> !l.Handled?
  {
    if e == [] then None else if e[0].Handled? then Some(e[0]) else FirstHandled(e[1..])
  }

  const BUSY_CODE := "sync_already_running"

  /** classifyHandlerError: a provider error anywhere in the chain goes before a sync error. */
  function Classify(e: Chain): Chain {
    var provider, sync := FirstProvider(e), FirstSyncError(e);
    var handled :=
      if provider.Some? then Handled(provider.value.code, provider.value.retryable, false)
      else if sync.Some? then Handled(sync.value.code, sync.value.retryable, sync.value.code == BUSY_CODE)
      else if DeadlineExceeded in e then Handled("sync_timeout", true, false)
      else Handled("sync_failed", false, false);
    [handled] + e
  }

  predicate IsRetryable(e: Chain) {
    FirstHandled(e).Some? && FirstHandled(e).value.retryable
  }

  predicate ShouldPreserveAttempt(e: Chain) {
    FirstHandled(e).Some? && FirstHandled(e).value.preserveAttempt
  }

  /** What the envelope holds, as the handler finds out step by step. */
  datatype Job = UnsupportedType | MalformedPayload | InvalidRequest | SyncRequested

  /** What running it brings: nil, an error of Sync, a panic, or no syncer to run. */
  datatype Run = Succeeds | Fails(error: Chain) | Panics | NotConfigured

  /** safeHandle: Handle, with a panic turned into a retryable error. */
  function SafeHandle(job: Job, run: Run): Option<Chain> {
    match job
    case UnsupportedType => Some([Handled("unsupported_job_type", false, false), Plain])
    case MalformedPayload => Some([Handled("invalid_job_payload", false, false), Plain])
    case InvalidRequest => Some([Handled("invalid_job_payload", false, false), Plain])
    case SyncRequested =>
      match run
      case Succeeds => None
      case Fails(error) => Some(Classify(error))
      case Panics => Some([Handled("handler_panic", true, false), Plain])
      case NotConfigured => Some([Handled("handler_not_configured", false, false), Plain])
  }

  /** What the queue learns about an error. */
  function CauseOf(e: Chain, text: string): Cause {
    Cause(IsRetryable(e), ShouldPreserveAttempt(e), text)
  }

  /** Which errors of Sync bring the job back to the main queue later, in terms of the error itself. */
  predicate ComesBack(e: Chain, attempt: nat, maxAttempts: nat) {
    var provider, sync := FirstProvider(e), FirstSyncError(e);
    if provider.Some? then provider.value.retryable && attempt < maxAttempts
    else if sync.Some? then sync.value.retryable && (attempt < maxAttempts || sync.value.code == BUSY_CODE)
    else DeadlineExceeded in e && attempt < maxAttempts
  }

  /** The hand-off after a failed Sync goes to the retry queue exactly for those, and else to the dead queue. */
  lemma FailedSyncGoes(raw: Message, e: Chain, text: string, maxAttempts: nat)
    ensures var cause := CauseOf(SafeHandle(SyncRequested, Fails(e)).value, text);
            var back := ComesBack(e, HeaderAttempt(raw.headers), maxAttempts);
            && (HandOffTarget(raw, cause, maxAttempts) == RetryQueue <==> back)
            && (HandOffTarget(raw, cause, maxAttempts) == DeadQueue <==> !back)
  {
  }

  /** The attempt is kept exactly when a sync error says that another run is active and no provider error is wrapped. */
  lemma AttemptIsKept(raw: Message, e: Chain, text: string, maxAttempts: nat)
    requires ComesBack(e, HeaderAttempt(raw.headers), maxAttempts)
    ensures var cause := CauseOf(SafeHandle(SyncRequested, Fails(e)).value, text);
            HeaderAttempt(HandOffCopy(raw, cause, maxAttempts).headers) == HeaderAttempt(raw.headers) <==>
              FirstProvider(e).None? && FirstSyncError(e).Some? && FirstSyncError(e).value.code == BUSY_CODE
  {
  }

  /** What Sync answers when another run of the store is active. */
  const BUSY_ERROR: Chain := [SyncError(BUSY_CODE, true)]

  /** So a busy store never buries a job, nor does it use up an attempt. */
  lemma BusyComesBack(raw: Message, text: string, maxAttempts: nat)
    ensures var cause := CauseOf(SafeHandle(SyncRequested, Fails(BUSY_ERROR)).value, text);
            && HandOffTarget(raw, cause, maxAttempts) == RetryQueue
            && HeaderAttempt(HandOffCopy(raw, cause, maxAttempts).headers) == HeaderAttempt(raw.headers)
  {
    assert FirstSyncError(BUSY_ERROR) == Some(BUSY_ERROR[0]) && FirstProvider(BUSY_ERROR).None?;
  }

  /** A job that can never be handled is buried at once, on whatever attempt it is. */
  lemma UnusableJobsAreBuried(raw: Message, job: Job, run: Run, text: string, maxAttempts: nat)
    requires !job.SyncRequested? || run.NotConfigured?
    ensures SafeHandle(job, run).Some?
    ensures HandOffTarget(raw, CauseOf(SafeHandle(job, run).value, text), maxAttempts) == DeadQueue
  {
  }
}
