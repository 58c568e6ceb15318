/**
 One browser tab of the auth session provider (frontend/context/AuthSessionContext.tsx).

 The async functions are cut at their awaits. Each piece is a function on the tab and the storage
 cell it shares with the other tabs, and a method of `AuthSessionTab` that does the same in place.
 */
module AuthClient {
  import opened Wrappers
  import opened AuthServer

  datatype Status = SignedOut | Authenticating | Active | Refreshing | Expired | RevokedStatus | Failed

  /** What a rejected request throws: a typed client error, or anything else. */
  datatype ClientError = ApiClientError(code: Code, retryable: bool) | OtherError

  /** The shared localStorage entry. `Corrupt` stands for any text that does not parse to an issued session. */
  datatype Cell = Empty | Corrupt | Stored(issued: Issued)

  /** Whether the browser lets this access read and write its storage. */
  datatype Health = Health(canRead: bool, canWrite: bool)

  /** `hadInitial` records that the first render found a stored session; `inflight` names the refresh under way. */
  datatype Tab = Tab(status: Status, session: Option<Info>, error: Option<ClientError>, persistenceError: bool,
                     hadInitial: bool, hydrated: bool, tokens: Option<Issued>, inflight: Option<nat>)

  datatype Local = Local(tab: Tab, cell: Cell)

  function StatusAfterRefreshError(err: ClientError): Status {
    match err
    case OtherError => Failed
    case ApiClientError(SessionRevoked, _) => RevokedStatus
    case ApiClientError(SessionExpired, _) => Expired
    case ApiClientError(SessionInvalid, _) => Expired
    case ApiClientError(Unauthenticated, _) => Expired
    case ApiClientError(_, retryable) => if retryable then Active else Failed
  }

  /** The cell afterwards (corrupt text is removed), the session read, and whether to report a storage problem. */
  function ReadStored(cell: Cell, h: Health): (Cell, Option<Issued>, bool) {
    if !h.canRead then (cell, None, true)
    else match cell
      case Empty => (Empty, None, false)
      case Corrupt => (if h.canWrite then Empty else Corrupt, None, true)
      case Stored(issued) => (cell, Some(issued), false)
  }

  function WriteStored(cell: Cell, value: Option<Issued>, h: Health): (Cell, bool) {
    if !h.canWrite then (cell, true)
    else match value
      case Some(issued) => (Stored(issued), false)
      case None => (Empty, false)
  }

  function InfoOf(issued: Option<Issued>): Option<Info> {
    match issued
    case Some(i) => Some(i.session)
    case None => None
  }

  function Adopt(l: Local, issued: Option<Issued>, persist: bool, h: Health): Local {
    var tab := l.tab.(tokens := issued, session := InfoOf(issued));
    if persist then
      var (cell, failed) := WriteStored(l.cell, issued, h);
      Local(tab.(persistenceError := failed), cell)
    else Local(tab, l.cell)
  }

  function End(l: Local, next: Status, err: Option<ClientError>, h: Health): Local {
    var a := Adopt(l, None, true, h);
    a.(tab := a.tab.(error := err, status := next))
  }

  predicate Usable(issued: Option<Issued>, now: int) {
    issued.Some? && issued.value.session.refreshExpiresAt > now
  }

  /** First render: read storage synchronously. */
  function Render(cell: Cell, now: int, h: Health): Local {
    var (cell', initial, failed) := ReadStored(cell, h);
    var tokens := if Usable(initial, now) then initial else None;
    var status := if tokens.Some? then Active else if initial.Some? then Expired else SignedOut;
    Local(Tab(status, InfoOf(tokens), None, failed, initial.Some?, false, tokens, None), cell')
  }

  /** A read that reports its storage problem, if it has one. */
  function ReadReporting(l: Local, h: Health): (Local, Option<Issued>) {
    var (cell, stored, failed) := ReadStored(l.cell, h);
    (Local(if failed then l.tab.(persistenceError := true) else l.tab, cell), stored)
  }

  /** The mount effect: validate storage once more. */
  function Hydrate(l: Local, now: int, h: Health): Local {
    var (r, stored) := ReadReporting(l, h);
    var next :=
      if Usable(stored, now) then
        var a := Adopt(r, stored, false, h);
        a.(tab := a.tab.(status := Active))
      else if stored.Some? then End(r, Expired, None, h)
      else if l.tab.hadInitial then End(r, SignedOut, None, h)
      else r;
    next.(tab := next.tab.(hydrated := true))
  }

  /** A storage event: another tab changed the cell. */
  function OnStorage(l: Local, now: int, h: Health): Local {
    var (r, next) := ReadReporting(l, h);
    if Usable(next, now) then
      var a := Adopt(r, next, false, h);
      a.(tab := a.tab.(error := None, status := Active))
    else
      var a := Adopt(r, None, false, h);
      a.(tab := a.tab.(status := SignedOut))
  }

  function BeginRefresh(l: Local): Local { l.(tab := l.tab.(status := Refreshing)) }

  /** The refresh request was answered with new tokens. */
  function RefreshSucceeded(l: Local, issued: Issued, h: Health): Local {
    var a := Adopt(l, Some(issued), true, h);
    a.(tab := a.tab.(error := None, status := Active))
  }

  /** The refresh request failed and no newer tokens were found. */
  function RefreshFailed(l: Local, err: ClientError, h: Health): Local {
    var next := StatusAfterRefreshError(err);
    var clientError := if err.ApiClientError? then Some(err) else None;
    if next == Active then l.(tab := l.tab.(error := clientError, status := Active))
    else End(l, next, clientError, h)
  }

  predicate Superseded(err: ClientError) { err.ApiClientError? && err.code == RefreshSuperseded }

  /** After the settle delay: storage holds tokens other than the ones this refresh presented. */
  predicate Newer(stored: Option<Issued>, current: Issued) {
    stored.Some? && stored.value.refresh != current.refresh
  }

  function AfterSettle(l: Local, current: Issued, err: ClientError, h: Health): Local {
    var (r, stored) := ReadReporting(l, h);
    if Newer(stored, current) then
      var a := Adopt(r, stored, false, h);
      a.(tab := a.tab.(error := None, status := Active))
    else RefreshFailed(r, err, h)
  }

  function BeginLogin(l: Local): Local { l.(tab := l.tab.(status := Authenticating, error := None)) }

  function LoginSucceeded(l: Local, issued: Issued, h: Health): Local {
    var a := Adopt(l, Some(issued), true, h);
    a.(tab := a.tab.(status := Active))
  }

  function LoginFailed(l: Local, err: ClientError, h: Health): Local {
    var a := Adopt(l, None, true, h);
    a.(tab := a.tab.(error := if err.ApiClientError? then Some(err) else None, status := Failed))
  }

  function Logout(l: Local, h: Health): Local { End(l, SignedOut, None, h) }

  // --- Coherence of status, tokens and published session --------------------------------------

  /** What consumers rely on: a usable status comes with tokens, an ended one without, and the session shown is theirs. */
  predicate Coherent(t: Tab) {
    t.session == InfoOf(t.tokens) &&
    (t.status in {Active, Refreshing} ==> t.tokens.Some?) &&
    (t.status in {SignedOut, Expired, RevokedStatus, Failed} ==> t.tokens.None?)
  }

  /** Every transition but one keeps coherence, whatever storage holds and whether or not it works. */
  lemma TransitionsKeepCoherence(l: Local, now: int, h: Health, issued: Issued, err: ClientError)
    requires Coherent(l.tab)
    ensures Coherent(Render(l.cell, now, h).tab)
    ensures Coherent(Hydrate(l, now, h).tab) && Coherent(OnStorage(l, now, h).tab)
    ensures l.tab.tokens.Some? ==> Coherent(BeginRefresh(l).tab)
    ensures Coherent(RefreshSucceeded(l, issued, h).tab)
    ensures Coherent(BeginLogin(l).tab) && Coherent(LoginSucceeded(l, issued, h).tab) && Coherent(LoginFailed(l, err, h).tab)
    ensures Coherent(Logout(l, h).tab)
  {
  }

  /**
   The exception, exactly: a failed refresh leaves the tab incoherent if and only if the failure is
   retryable and the tab was signed out while the request was under way.
   */
  lemma FailedRefreshCoherence(l: Local, err: ClientError, h: Health)
    requires Coherent(l.tab)
    ensures Coherent(RefreshFailed(l, err, h).tab) <==> !(StatusAfterRefreshError(err) == Active && l.tab.tokens.None?)
  {
  }

  // --- The tab in place -----------------------------------------------------------------------

  /** The storage entry, shared by the tabs of one origin. */
  class BrowserStorage {
    var cell: Cell

    constructor ()
      ensures cell == Empty
    {
      cell := Empty;
    }

    method Read(h: Health) returns (stored: Option<Issued>, failed: bool)
      modifies this
      ensures (cell, stored, failed) == ReadStored(old(cell), h)
    {
      if !h.canRead {
        return None, true;
      }
      match cell
      case Empty => return None, false;
      case Corrupt =>
        if h.canWrite { cell := Empty; }
        return None, true;
      case Stored(issued) => return Some(issued), false;
    }

    method Write(value: Option<Issued>, h: Health) returns (failed: bool)
      modifies this
      ensures (cell, failed) == WriteStored(old(cell), value, h)
    {
      if !h.canWrite {
        return true;
      }
      cell := if value.Some? then Stored(value.value) else Empty;
      failed := false;
    }
  }

  /** Refs and React state of one provider; a state setter takes effect at once here. */
  class AuthSessionTab {
    var status: Status
    var session: Option<Info>
    var error: Option<ClientError>
    var persistenceError: bool
    var hadInitial: bool
    var hydrated: bool
    var tokens: Option<Issued>
    var inflight: Option<nat>
    const storage: BrowserStorage

    function State(): Local
      reads this, storage
    {
      Local(Tab(status, session, error, persistenceError, hadInitial, hydrated, tokens, inflight), storage.cell)
    }

    constructor (storage: BrowserStorage, now: int, h: Health)
      modifies storage
      ensures this.storage == storage && State() == Render(old(storage.cell), now, h)
    {
      this.storage := storage;
      status, session, error, persistenceError := SignedOut, None, None, false;
      hadInitial, hydrated, tokens, inflight := false, false, None, None;
      new;
      var initial, failed := storage.Read(h);
      persistenceError := failed;
      hadInitial := initial.Some?;
      if Usable(initial, now) {
        tokens, session, status := initial, Some(initial.value.session), Active;
      } else if initial.Some? {
        status := Expired;
      }
    }

    method AdoptTokens(issued: Option<Issued>, persist: bool, h: Health)
      modifies this, storage
      ensures State() == Adopt(old(State()), issued, persist, h)
    {
      tokens := issued;
      session := InfoOf(issued);
      if persist {
        persistenceError := storage.Write(issued, h);
      }
    }

    method EndSession(next: Status, err: Option<ClientError>, h: Health)
      modifies this, storage
      ensures State() == End(old(State()), next, err, h)
    {
      AdoptTokens(None, true, h);
      error := err;
      status := next;
    }

    method ReadAndReport(h: Health) returns (stored: Option<Issued>)
      modifies this, storage
      ensures (State(), stored) == ReadReporting(old(State()), h)
    {
      var failed;
      stored, failed := storage.Read(h);
      if failed {
        persistenceError := true;
      }
    }

    method MountEffect(now: int, h: Health)
      modifies this, storage
      ensures State() == Hydrate(old(State()), now, h)
    {
      var stored := ReadAndReport(h);
      if Usable(stored, now) {
        AdoptTokens(stored, false, h);
        status := Active;
      } else if stored.Some? {
        EndSession(Expired, None, h);
      } else if hadInitial {
        EndSession(SignedOut, None, h);
      }
      hydrated := true;
    }

    method HandleStorageEvent(now: int, h: Health)
      modifies this, storage
      ensures State() == OnStorage(old(State()), now, h)
    {
      var next := ReadAndReport(h);
      if Usable(next, now) {
        AdoptTokens(next, false, h);
        error, status := None, Active;
      } else {
        AdoptTokens(None, false, h);
        status := SignedOut;
      }
    }

    /** `runRefresh` up to its request; false when there is nothing to refresh. */
    method StartRefresh() returns (sent: bool)
      modifies this
      ensures sent == old(tokens).Some?
      ensures State() == if sent then BeginRefresh(old(State())) else old(State())
    {
      if tokens.None? {
        return false;
      }
      status := Refreshing;
      sent := true;
    }

    /** `runRefresh` when its request resolves. */
    method FinishRefresh(issued: Issued, h: Health)
      modifies this, storage
      ensures State() == RefreshSucceeded(old(State()), issued, h)
    {
      AdoptTokens(Some(issued), true, h);
      error, status := None, Active;
    }

    /** The rules for a failed refresh. */
    method FailRefresh(err: ClientError, h: Health)
      modifies this, storage
      ensures State() == RefreshFailed(old(State()), err, h)
    {
      var next := StatusAfterRefreshError(err);
      var clientError := if err.ApiClientError? then Some(err) else None;
      if next == Active {
        error, status := clientError, Active;
      } else {
        EndSession(next, clientError, h);
      }
    }

    /** `runRefresh` after the settle delay that follows a superseded answer. */
    method SettleRefresh(current: Issued, err: ClientError, h: Health)
      modifies this, storage
      ensures State() == AfterSettle(old(State()), current, err, h)
    {
      var stored := ReadAndReport(h);
      if Newer(stored, current) {
        AdoptTokens(stored, false, h);
        error, status := None, Active;
      } else {
        FailRefresh(err, h);
      }
    }

    /**
     `runRefresh` in one piece, for a tab that handles nothing else meanwhile; other tabs may write to
     storage until a superseded refresh has settled. The tab ends coherent and is not left refreshing.
     */
    method RunRefresh(reply: Option<Issued>, err: ClientError, h: Health)
      requires Coherent(State().tab)
      modifies this, storage
      ensures Coherent(State().tab) && inflight == old(inflight)
      ensures old(tokens).None? ==> State() == old(State())
      ensures old(tokens).Some? ==> status != Refreshing && status != SignedOut
      ensures old(tokens).Some? && reply.Some? ==> status == Active && tokens == reply
      ensures old(tokens).Some? && reply.None? && !Superseded(err) ==> (tokens.Some? <==> StatusAfterRefreshError(err) == Active)
    {
      var current := tokens;
      var sent := StartRefresh();
      if !sent {
        return;
      }
      if reply.Some? {
        FinishRefresh(reply.value, h);
      } else if Superseded(err) {
        storage.cell := *;
        SettleRefresh(current.value, err, h);
      } else {
        FailRefresh(err, h);
      }
    }

    /** `login` in one piece. */
    method Login(reply: Option<Issued>, err: ClientError, h: Health)
      modifies this, storage
      ensures Coherent(State().tab)
      ensures tokens == reply && status == (if reply.Some? then Active else Failed)
    {
      StartLogin();
      FinishLogin(reply, err, h);
    }

    method StartLogin()
      modifies this
      ensures State() == BeginLogin(old(State()))
    {
      status := Authenticating;
      error := None;
    }

    method FinishLogin(reply: Option<Issued>, err: ClientError, h: Health)
      modifies this, storage
      ensures State() == if reply.Some? then LoginSucceeded(old(State()), reply.value, h)
                         else LoginFailed(old(State()), err, h)
    {
      AdoptTokens(reply, true, h);
      if reply.Some? {
        status := Active;
      } else {
        error := if err.ApiClientError? then Some(err) else None;
        status := Failed;
      }
    }

    /** The access token to send in the DELETE request, if there was a session. */
    method SignOutLocally(h: Health) returns (toRevoke: Option<Token>)
      modifies this, storage
      ensures State() == Logout(old(State()), h)
      ensures toRevoke == if old(tokens).Some? then Some(old(tokens).value.access) else None
    {
      toRevoke := if tokens.Some? then Some(tokens.value.access) else None;
      EndSession(SignedOut, None, h);
    }
  }
}
