/**
 Token rotation under the row lock (section 6 of RFC 6749): the callback of
 AccessToken, the commit and rollback rules around it, and the other writers of
 the same rows. Encryption is an inverse pair; `Garbled` is a blob that does not
 decrypt to a token. Times are in seconds.
 */
module TokenRotation {
  import opened Common
  import opened Strings
  import opened Scopes
  import opened SyncDatabase

  const TOKEN_REFRESH_SKEW: int := 300
  const PHASE_ONE_SCOPES: seq<string> := ["read_products", "read_themes"]

  datatype Token = Token(access: string, refresh: string)

  datatype Blob = Sealed(token: Token) | Garbled

  /** The joined row: the account's columns and the store's status. */
  datatype Connection = Connection(
    credentials: Option<Blob>, expiresAt: Option<int>, refreshExpiresAt: Option<int>,
    status: StoreStatus, lastError: Option<string>, scopes: seq<string>, storeStatus: StoreStatus)

  datatype CredentialUpdate = CredentialUpdate(
    changed: bool, credentials: Option<Blob>, expiresAt: Option<int>, refreshExpiresAt: Option<int>,
    status: Option<StoreStatus>, lastError: string)

  /** What the token endpoint answers; a successful answer holds two tokens that are not empty. */
  datatype Answer =
    | Issued(token: Token, expiresIn: int, refreshExpiresIn: int)
    | InvalidRefreshToken
    | ProviderFailure

  datatype AccessError = ReauthorizationRequired | BadCredentials | IncompleteClient | ProviderError | StorageError

  /** Whether the row could be locked, the updates written and the transaction committed. */
  datatype Storage = Storage(locks: bool, writes: bool, commits: bool)

  /** What the outside world sees: a refresh token sent to the provider, credentials made durable. */
  datatype Event =
    | Presented(token: string, at: int)
    | Stored(token: string, expiresAt: Option<int>, origin: Origin)

  /** Where credentials come from: a rotation, with the time and the lifetime in the answer, or an authorisation. */
  datatype Origin = Rotated(access: string, at: int, lifetime: int) | Authorized

  datatype State = State(connection: Connection, log: seq<Event>)

  // ---- The callback -------------------------------------------------------------------------------

  const NO_UPDATE := CredentialUpdate(false, None, None, None, None, "")
  const ACTION_REQUIRED_UPDATE := CredentialUpdate(true, None, None, None, Some(ActionRequired),
                                                 "reauthorization_required")

  function ExpiryFromDuration(now: int, seconds: int): Option<int> {
    if seconds <= 0 then None else Some(now + seconds)
  }

  predicate IsFresh(c: Connection, now: int) {
    c.expiresAt.None? || now + TOKEN_REFRESH_SKEW < c.expiresAt.value
  }

  datatype Decision = Decision(update: CredentialUpdate, result: Result<string, AccessError>, presented: Option<string>)

  function Decide(c: Connection, now: int, clientOk: bool, answer: Answer): Decision {
    if !ExactScopes(c.scopes, PHASE_ONE_SCOPES) then
      Decision(ACTION_REQUIRED_UPDATE, Failure(ReauthorizationRequired), None)
    else if c.credentials.None? || c.credentials.value.Garbled? then Decision(NO_UPDATE, Failure(BadCredentials), None)
    else
      var token := c.credentials.value.token;
      if IsFresh(c, now) then
        Decision(NO_UPDATE, if Trim(token.access) == "" then Failure(BadCredentials) else Success(token.access), None)
      else if Trim(token.refresh) == "" then Decision(ACTION_REQUIRED_UPDATE, Failure(ReauthorizationRequired), None)
      else if !clientOk then Decision(NO_UPDATE, Failure(IncompleteClient), None)
      else
        match answer
        case InvalidRefreshToken =>
          Decision(ACTION_REQUIRED_UPDATE, Failure(ReauthorizationRequired), Some(token.refresh))
        case ProviderFailure => Decision(NO_UPDATE, Failure(ProviderError), Some(token.refresh))
        case Issued(rotated, expiresIn, refreshExpiresIn) =>
          if rotated.access == "" || rotated.refresh == "" then
            Decision(NO_UPDATE, Failure(ProviderError), Some(token.refresh))
          else
            Decision(
              CredentialUpdate(true, Some(Sealed(rotated)), ExpiryFromDuration(now, expiresIn),
                               ExpiryFromDuration(now, refreshExpiresIn), Some(Connected), ""),
              Success(rotated.access), Some(token.refresh))
  }

  // ---- The locked transaction ------------------------------------------------------------------------

  function NullIfEmpty(s: string): Option<string> {
    if s == "" then None else Some(s)
  }

  /** The two UPDATE statements: without new credentials the old ones and their expiry stay. */
  function Updated(c: Connection, u: CredentialUpdate): Connection {
    var status := if u.status.Some? then u.status.value else c.storeStatus;
    Connection(
      if u.credentials.Some? then u.credentials else c.credentials,
      if u.credentials.Some? then u.expiresAt else c.expiresAt,
      if u.credentials.Some? then u.refreshExpiresAt else c.refreshExpiresAt,
      status, NullIfEmpty(u.lastError), c.scopes, status)
  }

  function StoredEvent(credentials: Option<Blob>, expiresAt: Option<int>, origin: Origin): seq<Event> {
    if credentials.Some? && credentials.value.Sealed?
    then [Stored(credentials.value.token.refresh, expiresAt, origin)] else []
  }

  function OriginOf(answer: Answer, now: int): Origin {
    if answer.Issued? then Rotated(answer.token.access, now, answer.expiresIn) else Authorized
  }

  predicate Commits(d: Decision, storage: Storage) {
    storage.writes && storage.commits && d.update.changed
  }

  function Reported(d: Decision, storage: Storage): Result<string, AccessError> {
    if d.update.changed && !storage.writes then Failure(StorageError)
    else if d.result.Failure? && !d.update.changed then d.result
    else if !storage.commits then Failure(StorageError)
    else d.result
  }

  function AccessStep(s: State, now: int, clientOk: bool, answer: Answer, storage: Storage): State {
    if !storage.locks then s
    else
      var d := Decide(s.connection, now, clientOk, answer);
      var sent := s.log + if d.presented.Some? then [Presented(d.presented.value, now)] else [];
      if Commits(d, storage)
      then State(Updated(s.connection, d.update),
                 sent + StoredEvent(d.update.credentials, d.update.expiresAt, OriginOf(answer, now)))
      else State(s.connection, sent)
  }

  /** The connection's rows as the repository holds them, and the manager's call on them. */
  class TokenManager {
    var connection: Connection
    ghost var log: seq<Event>

    constructor (connection: Connection)
      ensures this.connection == connection
      ensures log == StoredEvent(connection.credentials, connection.expiresAt, Authorized)
    {
      this.connection := connection;
      log := StoredEvent(connection.credentials, connection.expiresAt, Authorized);
    }

    ghost function View(): State
      reads this
    {
      State(connection, log)
    }

    method Callback(now: int, clientOk: bool, answer: Answer)
      returns (update: CredentialUpdate, result: Result<string, AccessError>)
      modifies `log
      ensures var d := Decide(connection, now, clientOk, answer);
              && update == d.update && result == d.result
              && log == old(log) + if d.presented.Some? then [Presented(d.presented.value, now)] else []
    {
      var exact := ExactScopeSet(connection.scopes, PHASE_ONE_SCOPES);
      if !exact {
        return ACTION_REQUIRED_UPDATE, Failure(ReauthorizationRequired);
      }
      if connection.credentials.None? || connection.credentials.value.Garbled? {
        return NO_UPDATE, Failure(BadCredentials);
      }
      var token := connection.credentials.value.token;
      if connection.expiresAt.None? || now + TOKEN_REFRESH_SKEW < connection.expiresAt.value {
        if Trim(token.access) == "" {
          return NO_UPDATE, Failure(BadCredentials);
        }
        return NO_UPDATE, Success(token.access);
      }
      if Trim(token.refresh) == "" {
        return ACTION_REQUIRED_UPDATE, Failure(ReauthorizationRequired);
      }
      if !clientOk {
        return NO_UPDATE, Failure(IncompleteClient);
      }
      log := log + [Presented(token.refresh, now)];
      if answer.InvalidRefreshToken? {
        return ACTION_REQUIRED_UPDATE, Failure(ReauthorizationRequired);
      }
      if answer.ProviderFailure? || answer.token.access == "" || answer.token.refresh == "" {
        return NO_UPDATE, Failure(ProviderError);
      }
      update := CredentialUpdate(
        true, Some(Sealed(answer.token)), ExpiryFromDuration(now, answer.expiresIn),
        ExpiryFromDuration(now, answer.refreshExpiresIn), Some(Connected), "");
      return update, Success(answer.token.access);
    }

    /** WithLockedConnection around the callback. An update is committed even when the callback reports an error. */
    method AccessToken(now: int, clientOk: bool, answer: Answer, storage: Storage)
      returns (result: Result<string, AccessError>)
      modifies this
      ensures View() == AccessStep(old(View()), now, clientOk, answer, storage)
      ensures result ==
              if storage.locks then Reported(Decide(old(connection), now, clientOk, answer), storage)
              else Failure(StorageError)
    {
      if !storage.locks {
        return Failure(StorageError);
      }
      var saved := connection;
      var update;
      update, result := Callback(now, clientOk, answer);
      if update.changed {
        if !storage.writes {
          return Failure(StorageError);
        }
        if update.status.None? {
          update := update.(status := Some(connection.storeStatus));
        }
        if update.credentials.Some? {
          connection := connection.(credentials := update.credentials, expiresAt := update.expiresAt,
          refreshExpiresAt := update.refreshExpiresAt);
        }
        connection := connection.(status := update.status.value, lastError := NullIfEmpty(update.lastError));
        connection := connection.(storeStatus := update.status.value);
      }
      if result.Failure? && !update.changed {
        return;
      }
      if !storage.commits {
        connection := saved;
        return Failure(StorageError);
      }
      if update.changed {
        log := log + StoredEvent(update.credentials, update.expiresAt, OriginOf(answer, now));
      }
    }
  }

  // ---- The other writers -----------------------------------------------------------------------------

  datatype Step =
    | Access(now: int, clientOk: bool, answer: Answer, storage: Storage)
    | Authorize(token: Token, scopes: seq<string>, expiresAt: Option<int>, refreshExpiresAt: Option<int>)
    | Disconnect
    | SetStoreStatus(status: StoreStatus)

  function Next(s: State, step: Step): State {
    match step
    case Access(now, clientOk, answer, storage) => AccessStep(s, now, clientOk, answer, storage)
    case Authorize(token, scopes, expiresAt, refreshExpiresAt) =>
      State(Connection(Some(Sealed(token)), expiresAt, refreshExpiresAt, Connected, None, scopes, Connected),
            s.log + [Stored(token.refresh, expiresAt, Authorized)])
    case Disconnect =>
      s.(connection := s.connection.(credentials := None, status := Disconnected, storeStatus := Disconnected))
    case SetStoreStatus(status) => s.(connection := s.connection.(storeStatus := status))
  }

  function Run(s: State, steps: seq<Step>): State
    decreases |steps|
  {
    if steps == [] then s else Run(Next(s, steps[0]), steps[1..])
  }

  ghost predicate Initial(s: State) {
    s.log == StoredEvent(s.connection.credentials, s.connection.expiresAt, Authorized)
  }

  // ---- Single calls -----------------------------------------------------------------------------------

  /** A token with more than five minutes left, or without an expiry, is not refreshed and not changed. */
  lemma FreshTokensAreLeftAlone(s: State, now: int, clientOk: bool, answer: Answer, storage: Storage)
    requires IsFresh(s.connection, now)
    ensures AccessStep(s, now, clientOk, answer, storage).log == s.log
    ensures AccessStep(s, now, clientOk, answer, storage).connection.credentials == s.connection.credentials
  {
    var d := Decide(s.connection, now, clientOk, answer);
    assert d.presented.None? && d.update.credentials.None?;
  }

  /** A reauthorisation failure changes statuses and the error, never the credentials or an expiry. */
  lemma ReauthorizationKeepsCredentials(s: State, now: int, clientOk: bool, answer: Answer, storage: Storage)
    requires storage.locks
             && Reported(Decide(s.connection, now, clientOk, answer), storage) == Failure(ReauthorizationRequired)
    ensures AccessStep(s, now, clientOk, answer, storage).connection ==
            s.connection.(status := ActionRequired, storeStatus := ActionRequired,
                          lastError := Some("reauthorization_required"))
  {
  }

  /**
   The token handed out is the access token that is stored when the call returns, under exactly the required scopes.
   */
  lemma SuccessReturnsTheStoredToken(s: State, now: int, clientOk: bool, answer: Answer, storage: Storage)
    requires storage.locks && Reported(Decide(s.connection, now, clientOk, answer), storage).Success?
    ensures var after := AccessStep(s, now, clientOk, answer, storage).connection;
            && after.credentials.Some? && after.credentials.value.Sealed?
            && after.credentials.value.token.access ==
               Reported(Decide(s.connection, now, clientOk, answer), storage).value
            && after.credentials.value.token.access != ""
            && multiset(TrimAll(after.scopes)) == multiset(PHASE_ONE_SCOPES)
            && (IsFresh(s.connection, now) || after.status == after.storeStatus == Connected)
  {
    PhaseOneIsScopeList();
    ExactScopesArePermutations(s.connection.scopes, PHASE_ONE_SCOPES);
    TrimTrims("");
  }

  lemma PhaseOneIsScopeList()
    ensures IsScopeList(PHASE_ONE_SCOPES)
  {
    assert PHASE_ONE_SCOPES[0] == "read_products" && PHASE_ONE_SCOPES[1] == "read_themes";
    assert PHASE_ONE_SCOPES[0][5] != PHASE_ONE_SCOPES[1][5];
    TrimTrims("read_products");
    TrimTrims("read_themes");
  }

  /**
   The account becomes connected only together with new credentials; so does the store, unless an operator sets it.
   */
  lemma ConnectedMeansNewCredentials(s: State, step: Step)
    requires (s.connection.status != Connected && Next(s, step).connection.status == Connected)
             || (s.connection.storeStatus != Connected && Next(s, step).connection.storeStatus == Connected
                 && !step.SetStoreStatus?)
    ensures Next(s, step).connection.credentials.Some? && Next(s, step).connection.credentials.value.Sealed?
    ensures Next(s, step).log != [] && Next(s, step).log[|Next(s, step).log| - 1].Stored?
    ensures var after, last := Next(s, step).connection, Next(s, step).log[|Next(s, step).log| - 1];
            last.token == after.credentials.value.token.refresh && last.expiresAt == after.expiresAt
  {
  }

  // ---- Whole runs ----------------------------------------------------------------------------------------

  /** Credentials that are still there are the ones stored last, with the expiry stored with them. */
  ghost predicate StoredLast(s: State) {
    s.connection.credentials.Some? && s.connection.credentials.value.Sealed? ==>
      exists j :: LastStored(s.log, |s.log|, j) && Tells(s.log[j], s.connection)
  }

  /** The event stored these credentials, and its expiry and its origin are about them. */
  ghost predicate Tells(event: Event, c: Connection)
    requires c.credentials.Some? && c.credentials.value.Sealed?
  {
    && event.Stored? && event.token == c.credentials.value.token.refresh && event.expiresAt == c.expiresAt
    && (event.origin.Rotated? ==>
          && event.origin.access == c.credentials.value.token.access
          && c.expiresAt == if event.origin.lifetime > 0 then Some(event.origin.at + event.origin.lifetime) else None)
  }

  /** Event j is the last before event k to store credentials. */
  ghost predicate LastStored(log: seq<Event>, k: int, j: int) {
    0 <= j < k <= |log| && log[j].Stored? && forall i :: j < i < k ==> !log[i].Stored?
  }

  /** Event k, if it presents a refresh token, presents the one stored last, at most five minutes before it expires. */
  ghost predicate PresentsTheLast(log: seq<Event>, k: int) {
    0 <= k < |log| && log[k].Presented? ==>
      exists j :: LastStored(log, k, j) && log[j].token == log[k].token
                  && log[j].expiresAt.Some? && log[j].expiresAt.value <= log[k].at + TOKEN_REFRESH_SKEW
  }

  ghost predicate Honest(s: State) {
    StoredLast(s) && forall k :: 0 <= k < |s.log| ==> PresentsTheLast(s.log, k)
  }

  lemma LongerLog(log: seq<Event>, more: seq<Event>, k: int, j: int)
    requires LastStored(log, k, j)
    ensures LastStored(log + more, k, j)
  {
  }

  lemma LongerLogIsHonest(log: seq<Event>, more: seq<Event>)
    requires forall k :: 0 <= k < |log| ==> PresentsTheLast(log, k)
    ensures forall k :: 0 <= k < |log| ==> PresentsTheLast(log + more, k)
  {
    forall k | 0 <= k < |log| && log[k].Presented? ensures PresentsTheLast(log + more, k) {
      assert PresentsTheLast(log, k);
      var j :| LastStored(log, k, j) && log[j].token == log[k].token
               && log[j].expiresAt.Some? && log[j].expiresAt.value <= log[k].at + TOKEN_REFRESH_SKEW;
      LongerLog(log, more, k, j);
    }
  }

  /** Sending the stored token to the provider. */
  lemma PresentingIsHonest(s: State, now: int)
    requires Honest(s) && s.connection.credentials.Some? && s.connection.credentials.value.Sealed?
             && !IsFresh(s.connection, now)
    ensures Honest(s.(log := s.log + [Presented(s.connection.credentials.value.token.refresh, now)]))
  {
    var sent := s.log + [Presented(s.connection.credentials.value.token.refresh, now)];
    var j :| LastStored(s.log, |s.log|, j) && Tells(s.log[j], s.connection);
    LongerLogIsHonest(s.log, [Presented(s.connection.credentials.value.token.refresh, now)]);
    assert LastStored(sent, |s.log|, j) && LastStored(sent, |sent|, j);
  }

  /** Replacing the credentials. */
  lemma StoringIsHonest(s: State, c: Connection, origin: Origin)
    requires Honest(s) && c.credentials.Some? && c.credentials.value.Sealed?
    requires Tells(Stored(c.credentials.value.token.refresh, c.expiresAt, origin), c)
    ensures Honest(State(c, s.log + [Stored(c.credentials.value.token.refresh, c.expiresAt, origin)]))
  {
    var event := Stored(c.credentials.value.token.refresh, c.expiresAt, origin);
    LongerLogIsHonest(s.log, [event]);
    assert LastStored(s.log + [event], |s.log| + 1, |s.log|);
  }

  lemma StepIsHonest(s: State, step: Step)
    requires Honest(s)
    ensures Honest(Next(s, step))
  {
    match step
    case Access(now, clientOk, answer, storage) =>
      AccessIsHonest(s, now, clientOk, answer, storage);
    case Authorize(token, scopes, expiresAt, refreshExpiresAt) =>
      StoringIsHonest(s, Next(s, step).connection, Authorized);
    case Disconnect =>
    case SetStoreStatus(status) =>
  }

  lemma AccessIsHonest(s: State, now: int, clientOk: bool, answer: Answer, storage: Storage)
    requires Honest(s)
    ensures Honest(AccessStep(s, now, clientOk, answer, storage))
  {
    var d := Decide(s.connection, now, clientOk, answer);
    var after := AccessStep(s, now, clientOk, answer, storage);
    if storage.locks {
      var sent := s;
      if d.presented.Some? {
        PresentingIsHonest(s, now);
        sent := s.(log := s.log + [Presented(d.presented.value, now)]);
      }
      assert s.log + [] == s.log;
      assert sent.log + [] == sent.log;
      if Commits(d, storage) && d.update.credentials.Some? {
        StoringIsHonest(sent, after.connection, OriginOf(answer, now));
      } else {
        assert after.log == sent.log;
        assert after.connection.credentials == s.connection.credentials
               && after.connection.expiresAt == s.connection.expiresAt;
      }
    }
  }

  lemma {:induction false} RunIsHonest(s: State, steps: seq<Step>)
    requires Honest(s)
    ensures Honest(Run(s, steps))
    decreases |steps|
  {
    if steps != [] {
      StepIsHonest(s, steps[0]);
      RunIsHonest(Next(s, steps[0]), steps[1..]);
    }
  }

  lemma InitialIsHonest(s: State)
    requires Initial(s)
    ensures Honest(s)
  {
    if s.log != [] {
      assert LastStored(s.log, 1, 0);
    }
  }

  /** The provider, and whoever authorises, never hands out a refresh token twice. */
  ghost predicate FreshTokens(log: seq<Event>) {
    forall i, j :: 0 <= i < j < |log| && log[i].Stored? && log[j].Stored? ==> log[i].token != log[j].token
  }

  /** Once other credentials are durable, the refresh token they replaced is never presented again. */
  lemma ReplacedTokensAreNotPresented(s: State, steps: seq<Step>, i: nat, j: nat, k: nat)
    requires Initial(s) && FreshTokens(Run(s, steps).log)
    requires var log := Run(s, steps).log;
             i < j < k < |log| && log[i].Stored? && log[j].Stored? && log[k].Presented?
    ensures Run(s, steps).log[k].token != Run(s, steps).log[i].token
  {
    InitialIsHonest(s);
    RunIsHonest(s, steps);
    var log := Run(s, steps).log;
    assert PresentsTheLast(log, k);
    var last :| LastStored(log, k, last) && log[last].token == log[k].token
                && log[last].expiresAt.Some? && log[last].expiresAt.value <= log[k].at + TOKEN_REFRESH_SKEW;
    assert last >= j;
  }

  /** And none is presented while more than five minutes are left on it, or if it was stored without an expiry. */
  lemma PresentedTokensAreDue(s: State, steps: seq<Step>, k: nat)
    requires Initial(s) && k < |Run(s, steps).log| && Run(s, steps).log[k].Presented?
    ensures PresentsTheLast(Run(s, steps).log, k)
  {
    InitialIsHonest(s);
    RunIsHonest(s, steps);
  }

  /**
   After the provider has rotated, the next call that is due presents the old refresh
   token again exactly when the rotation was not committed.
   */
  lemma LostRotationIsRepeated(s: State, now: int, later: int, answer: Answer, again: Answer, storage: Storage)
    requires var d := Decide(s.connection, now, true, answer);
             && storage.locks && now <= later && d.presented.Some? && d.update.credentials.Some?
             && d.update.credentials.value.token.refresh != d.presented.value
    ensures var d := Decide(s.connection, now, true, answer);
            var after := AccessStep(s, now, true, answer, storage);
            Decide(after.connection, later, true, again).presented == d.presented <==> !Commits(d, storage)
  {
  }

  // ---- What a call does, in times and columns --------------------------------------------------------

  const ALL_GOOD := Storage(true, true, true)

  function AnswerOf(s: State, now: int, clientOk: bool, answer: Answer, storage: Storage): Result<string, AccessError> {
    if storage.locks then Reported(Decide(s.connection, now, clientOk, answer), storage) else Failure(StorageError)
  }

  /** Granted exactly these two, in any order and with any padding. */
  ghost predicate HasPhaseOneScopes(c: Connection) {
    multiset(TrimAll(c.scopes)) == multiset{"read_products", "read_themes"}
  }

  /** The row holds a readable token, which expires within the next five minutes or has expired. */
  predicate IsDue(c: Connection, now: int) {
    && c.credentials.Some? && c.credentials.value.Sealed?
    && c.expiresAt.Some? && c.expiresAt.value - now <= 300
  }

  lemma ScopesAreExact(c: Connection)
    ensures ExactScopes(c.scopes, PHASE_ONE_SCOPES) <==> HasPhaseOneScopes(c)
  {
    PhaseOneIsScopeList();
    ExactScopesArePermutations(c.scopes, PHASE_ONE_SCOPES);
    assert multiset(PHASE_ONE_SCOPES) == multiset{"read_products", "read_themes"};
  }

  /** After a rotation the row holds the new pair, and the two lifetimes count from the time of the call. */
  lemma RotationStoresTheAnswer(s: State, now: int, token: Token, lifetime: int, refreshLifetime: int)
    requires HasPhaseOneScopes(s.connection) && IsDue(s.connection, now)
    requires Trim(s.connection.credentials.value.token.refresh) != ""
    requires token.access != "" && token.refresh != ""
    ensures var after := AccessStep(s, now, true, Issued(token, lifetime, refreshLifetime), ALL_GOOD).connection;
            && after.credentials == Some(Sealed(token))
            && after.expiresAt == (if lifetime > 0 then Some(now + lifetime) else None)
            && after.refreshExpiresAt == (if refreshLifetime > 0 then Some(now + refreshLifetime) else None)
            && after.status == Connected && after.storeStatus == Connected && after.lastError.None?
            && after.scopes == s.connection.scopes
    ensures AnswerOf(s, now, true, Issued(token, lifetime, refreshLifetime), ALL_GOOD) == Success(token.access)
  {
    ScopesAreExact(s.connection);
  }

  /** Who has to authorise again: without the exact scopes, or due with a refresh token that is blank or refused. */
  lemma ReauthorizationIsAsked(s: State, now: int, clientOk: bool, answer: Answer)
    ensures AnswerOf(s, now, clientOk, answer, ALL_GOOD) == Failure(ReauthorizationRequired) <==>
            || !HasPhaseOneScopes(s.connection)
            || (IsDue(s.connection, now)
                && (Trim(s.connection.credentials.value.token.refresh) == ""
                    || (clientOk && answer == InvalidRefreshToken)))
  {
    ScopesAreExact(s.connection);
  }

  /** A token that is not due is handed out as it is, and a failure that is no reauthorisation changes no column. */
  lemma OtherCallsKeepTheRow(s: State, now: int, clientOk: bool, answer: Answer, storage: Storage)
    requires HasPhaseOneScopes(s.connection) && (!IsDue(s.connection, now) || !clientOk || answer == ProviderFailure)
    requires IsDue(s.connection, now) ==> Trim(s.connection.credentials.value.token.refresh) != ""
    ensures AccessStep(s, now, clientOk, answer, storage).connection == s.connection
    ensures storage.locks && (s.connection.credentials.None? || s.connection.credentials.value.Garbled?) ==>
              AnswerOf(s, now, clientOk, answer, storage) == Failure(BadCredentials)
    ensures storage.locks && IsDue(s.connection, now) ==>
              AnswerOf(s, now, clientOk, answer, storage) ==
              Failure(if clientOk then ProviderError else IncompleteClient)
    ensures s.connection.credentials.Some? && s.connection.credentials.value.Sealed? && !IsDue(s.connection, now)
            && storage.locks ==>
              var access := s.connection.credentials.value.token.access;
              AnswerOf(s, now, clientOk, answer, storage) ==
              if Trim(access) == "" then Failure(BadCredentials)
              else if storage.commits then Success(access) else Failure(StorageError)
  {
    ScopesAreExact(s.connection);
  }

  /** If the updates cannot be written or committed, the row stays as it was, and whoever needed them learns of it. */
  lemma LostUpdatesAreReported(s: State, now: int, clientOk: bool, answer: Answer, storage: Storage)
    requires !storage.locks || !storage.writes || !storage.commits
    ensures AccessStep(s, now, clientOk, answer, storage).connection == s.connection
    ensures AccessStep(s, now, clientOk, answer, ALL_GOOD).connection != s.connection ==>
              AnswerOf(s, now, clientOk, answer, storage) == Failure(StorageError)
  {
  }

  /**
   Over any run: an access token that came from a rotation with a positive lifetime, and is handed
   out without contacting the provider, has more than five minutes of that lifetime left.
   */
  lemma UnrefreshedTokensHaveTimeLeft(s: State, steps: seq<Step>, now: int, clientOk: bool, answer: Answer,
                                      storage: Storage, j: nat)
    requires Initial(s)
    requires var before := Run(s, steps);
             && LastStored(before.log, |before.log|, j)
             && before.log[j].origin.Rotated? && before.log[j].origin.lifetime > 0
             && AnswerOf(before, now, clientOk, answer, storage).Success?
             && AccessStep(before, now, clientOk, answer, storage).log == before.log
    ensures var before := Run(s, steps);
            var origin := before.log[j].origin;
            && AnswerOf(before, now, clientOk, answer, storage) == Success(origin.access)
            && origin.at + origin.lifetime - now > 300
  {
    InitialIsHonest(s);
    RunIsHonest(s, steps);
    var before := Run(s, steps);
    NothingSentMeansFresh(before, now, clientOk, answer, storage);
    var k :| LastStored(before.log, |before.log|, k) && Tells(before.log[k], before.connection);
    assert k == j;
  }

  lemma NothingSentMeansFresh(s: State, now: int, clientOk: bool, answer: Answer, storage: Storage)
    requires AnswerOf(s, now, clientOk, answer, storage).Success?
    requires AccessStep(s, now, clientOk, answer, storage).log == s.log
    ensures s.connection.credentials.Some? && s.connection.credentials.value.Sealed? && IsFresh(s.connection, now)
    ensures AnswerOf(s, now, clientOk, answer, storage).value == s.connection.credentials.value.token.access
  {
    var d := Decide(s.connection, now, clientOk, answer);
    var sent := s.log + if d.presented.Some? then [Presented(d.presented.value, now)] else [];
    assert |AccessStep(s, now, clientOk, answer, storage).log| >= |sent|;
  }

  /** After a disconnection no token is handed out or sent, whatever the time. */
  lemma DisconnectedGivesNothing(s: State, now: int, clientOk: bool, answer: Answer, storage: Storage)
    ensures var gone := Next(s, Disconnect);
            && AnswerOf(gone, now, clientOk, answer, storage).Failure?
            && AccessStep(gone, now, clientOk, answer, storage).log == s.log
            && AccessStep(gone, now, clientOk, answer, storage).connection.credentials.None?
            && gone.connection.status == Disconnected && gone.connection.storeStatus == Disconnected
  {
  }

  /** An authorisation connects the store and replaces everything; its token is handed out until it is due. */
  lemma AuthorizedGivesItsToken(s: State, token: Token, scopes: seq<string>, expiresAt: Option<int>,
                                refreshExpiresAt: Option<int>, now: int, clientOk: bool, answer: Answer)
    ensures var given := Next(s, Authorize(token, scopes, expiresAt, refreshExpiresAt));
            var after := given.connection;
            && after == Connection(Some(Sealed(token)), expiresAt, refreshExpiresAt, Connected, None, scopes, Connected)
            && (HasPhaseOneScopes(after) && Trim(token.access) != "" && !IsDue(after, now) ==>
                  AnswerOf(given, now, clientOk, answer, ALL_GOOD) == Success(token.access))
  {
    ScopesAreExact(Next(s, Authorize(token, scopes, expiresAt, refreshExpiresAt)).connection);
  }
}
