/**
 The whole auth-session protocol: one server, one shared storage cell and any number of tabs.

 A run is any sequence of enabled steps, so refreshes, rotations, lost messages, storage events,
 sign-ins and sign-outs interleave freely. `issued` and `delivered` are history: every session the
 server ever granted, and every one a tab took from a reply and tried to write to storage, in order.
 Session records live in the server's memory, so a restart empties them.
 A request a client has given up on is not gone: the server may still act on it, with nobody waiting.
 */
module AuthProtocol {
  import opened Wrappers
  import opened AuthServer
  import opened AuthClient

  datatype Kind = RefreshOf(current: Issued) | NothingToRefresh | Login

  datatype Reply = Delivers(issued: Issued) | Rejects(err: ClientError)

  /** An async call: `Finishing` is past its last await but its `finally` has not run. */
  datatype Phase = Sent | Answered(reply: Reply) | Settling(err: ClientError) | Finishing | Closed

  datatype Op = Op(tab: nat, kind: Kind, phase: Phase)

  datatype System = System(policy: Policy, server: Server, now: int, cell: Cell, tabs: seq<Tab>, ops: seq<Op>,
                           deletes: set<Token>, late: multiset<Issued>, lateLogins: nat,
                           issued: seq<Issued>, delivered: seq<Issued>)

  datatype Step =
    | Tick(ms: nat)
    | OpenTab(h: Health)
    | MountEffect(t: nat, h: Health)
    | StorageEvent(t: nat, h: Health)
    | RefreshCall(t: nat)
    | ServeRefresh(k: nat)
    | ServeLogin(k: nat)
    | Lose(k: nat, err: ClientError)
    | HandleReply(k: nat, h: Health)
    | Settle(k: nat, h: Health)
    | RunFinally(k: nat)
    | LoginCall(t: nat)
    | LogoutCall(t: nat, h: Health)
    | ServeDelete(access: Token)
    | ServeLate(current: Issued)
    | ServeLateLogin
    | RestartServer
    | Tamper(cell: Cell)

  predicate Initial(s: System) {
    s.server == Server([], 0, 0) && s.cell in {Empty, Corrupt} && s.tabs == [] && s.ops == [] &&
    s.deletes == {} && s.late == multiset{} && s.lateLogins == 0 && s.issued == [] && s.delivered == []
  }

  predicate InFlight(op: Op) { op.phase.Answered? && op.phase.reply.Delivers? }

  predicate Enabled(s: System, step: Step) {
    match step
    case Tick(_) => true
    case OpenTab(_) => true
    case MountEffect(t, _) => t < |s.tabs| && !s.tabs[t].hydrated
    case StorageEvent(t, _) => t < |s.tabs| && s.tabs[t].hydrated
    case RefreshCall(t) => t < |s.tabs|
    case ServeRefresh(k) => k < |s.ops| && s.ops[k].kind.RefreshOf? && s.ops[k].phase.Sent?
    case ServeLogin(k) => k < |s.ops| && s.ops[k].kind.Login? && s.ops[k].phase.Sent?
    case Lose(k, _) => k < |s.ops| && !s.ops[k].kind.NothingToRefresh? && (s.ops[k].phase.Sent? || s.ops[k].phase.Answered?)
    case HandleReply(k, _) => k < |s.ops| && s.ops[k].tab < |s.tabs| && !s.ops[k].kind.NothingToRefresh? && s.ops[k].phase.Answered?
    case Settle(k, _) => k < |s.ops| && s.ops[k].tab < |s.tabs| && s.ops[k].kind.RefreshOf? && s.ops[k].phase.Settling?
    case RunFinally(k) => k < |s.ops| && s.ops[k].tab < |s.tabs| && !s.ops[k].kind.Login? && s.ops[k].phase.Finishing?
    case LoginCall(t) => t < |s.tabs|
    case LogoutCall(t, _) => t < |s.tabs|
    case ServeDelete(access) => access in s.deletes
    case ServeLate(current) => current in s.late
    case ServeLateLogin => s.lateLogins > 0
    case RestartServer => true
    case Tamper(cell) => !cell.Stored?
  }

  /** The client error a refused request turns into: of the session codes only SUPERSEDED is retryable. */
  function ErrorOf(code: Code): ClientError { ApiClientError(code, code == RefreshSuperseded) }

  function LocalOf(s: System, t: nat): Local
    requires t < |s.tabs|
  {
    Local(s.tabs[t], s.cell)
  }

  function WithLocal(s: System, t: nat, l: Local): System
    requires t < |s.tabs|
  {
    s.(tabs := s.tabs[t := l.tab], cell := l.cell)
  }

  function WithPhase(s: System, k: nat, phase: Phase): System
    requires k < |s.ops|
  {
    s.(ops := s.ops[k := s.ops[k].(phase := phase)])
  }

  /** `refresh()`: join the refresh under way, or start one. */
  function Refreshed(s: System, t: nat): System
    requires t < |s.tabs|
  {
    var tab := s.tabs[t];
    if tab.inflight.Some? then s
    else if tab.tokens.None? then
      s.(tabs := s.tabs[t := tab.(inflight := Some(|s.ops|))], ops := s.ops + [Op(t, NothingToRefresh, Finishing)])
    else
      var l := BeginRefresh(LocalOf(s, t));
      WithLocal(s, t, l.(tab := l.tab.(inflight := Some(|s.ops|)))).(ops := s.ops + [Op(t, RefreshOf(tab.tokens.value), Sent)])
  }

  function Served(s: System, k: nat): System
    requires k < |s.ops| && s.ops[k].kind.RefreshOf?
  {
    var (server, answer) := RefreshSession(s.server, s.ops[k].kind.current.refresh, s.now, s.policy);
    match answer
    case Granted(i) => WithPhase(s, k, Answered(Delivers(i))).(server := server, issued := s.issued + [i])
    case Refused(code) => WithPhase(s, k, Answered(Rejects(ErrorOf(code)))).(server := server)
  }

  function LoggedIn(s: System, k: nat): System
    requires k < |s.ops|
  {
    var (server, i) := CreateSession(s.server, s.now, s.policy);
    WithPhase(s, k, Answered(Delivers(i))).(server := server, issued := s.issued + [i])
  }

  /** The continuation of a refresh or login after its request. */
  function Handled(s: System, k: nat, h: Health): System
    requires k < |s.ops| && s.ops[k].tab < |s.tabs| && s.ops[k].phase.Answered?
  {
    var op := s.ops[k];
    var l := LocalOf(s, op.tab);
    var last := if op.kind.Login? then Closed else Finishing;
    match op.phase.reply
    case Delivers(i) =>
      var l' := if op.kind.Login? then LoginSucceeded(l, i, h) else RefreshSucceeded(l, i, h);
      WithPhase(WithLocal(s, op.tab, l'), k, last)
        .(delivered := s.delivered + [i])
    case Rejects(err) =>
      if op.kind.Login? then WithPhase(WithLocal(s, op.tab, LoginFailed(l, err, h)), k, last)
      else if Superseded(err) then WithPhase(s, k, Settling(err))
      else WithPhase(WithLocal(s, op.tab, RefreshFailed(l, err, h)), k, last)
  }

  /** The client gives up on a call; a request still on its way stays on its way. */
  function Dropped(s: System, k: nat, err: ClientError): System
    requires k < |s.ops|
  {
    var out := WithPhase(s, k, Answered(Rejects(err)));
    if !s.ops[k].phase.Sent? then out
    else match s.ops[k].kind
      case RefreshOf(current) => out.(late := s.late + multiset{current})
      case Login => out.(lateLogins := s.lateLogins + 1)
      case NothingToRefresh => out
  }

  /** The server handles a refresh nobody waits for any more. */
  function ServedLate(s: System, current: Issued): System {
    var (server, answer) := RefreshSession(s.server, current.refresh, s.now, s.policy);
    var out := s.(server := server, late := s.late - multiset{current});
    if answer.Granted? then out.(issued := s.issued + [answer.issued]) else out
  }

  function LoggedInLate(s: System): System
    requires s.lateLogins > 0
  {
    var (server, i) := CreateSession(s.server, s.now, s.policy);
    s.(server := server, lateLogins := s.lateLogins - 1, issued := s.issued + [i])
  }

  function Next(s: System, step: Step): System
    requires Enabled(s, step)
  {
    match step
    case Tick(ms) => s.(now := s.now + ms)
    case OpenTab(h) =>
      var l := Render(s.cell, s.now, h);
      s.(tabs := s.tabs + [l.tab], cell := l.cell)
    case MountEffect(t, h) => WithLocal(s, t, Hydrate(LocalOf(s, t), s.now, h))
    case StorageEvent(t, h) => WithLocal(s, t, OnStorage(LocalOf(s, t), s.now, h))
    case RefreshCall(t) => Refreshed(s, t)
    case ServeRefresh(k) => Served(s, k)
    case ServeLogin(k) => LoggedIn(s, k)
    case Lose(k, err) => Dropped(s, k, err)
    case HandleReply(k, h) => Handled(s, k, h)
    case Settle(k, h) =>
      var op := s.ops[k];
      WithPhase(WithLocal(s, op.tab, AfterSettle(LocalOf(s, op.tab), op.kind.current, op.phase.err, h)), k, Finishing)
    case RunFinally(k) =>
      var t := s.ops[k].tab;
      WithPhase(s.(tabs := s.tabs[t := s.tabs[t].(inflight := None)]), k, Closed)
    case LoginCall(t) => WithLocal(s, t, BeginLogin(LocalOf(s, t))).(ops := s.ops + [Op(t, Login, Sent)])
    case LogoutCall(t, h) =>
      var out := WithLocal(s, t, AuthClient.Logout(LocalOf(s, t), h));
      if s.tabs[t].tokens.Some? then out.(deletes := s.deletes + {s.tabs[t].tokens.value.access}) else out
    case ServeDelete(access) => s.(server := SignOut(s.server, access, s.now), deletes := s.deletes - {access})
    case ServeLate(current) => ServedLate(s, current)
    case ServeLateLogin => LoggedInLate(s)
    case RestartServer => s.(server := s.server.(records := []))
    case Tamper(cell) => s.(cell := cell)
  }

  /** The system after a step, if it is enabled. */
  function Took(s: System, step: Step): System { if Enabled(s, step) then Next(s, step) else s }

  predicate ValidRun(s: System, steps: seq<Step>)
    decreases |steps|
  {
    steps == [] || (Enabled(s, steps[0]) && ValidRun(Next(s, steps[0]), steps[1..]))
  }

  function Run(s: System, steps: seq<Step>): System
    requires ValidRun(s, steps)
    decreases |steps|
  {
    if steps == [] then s else Run(Next(s, steps[0]), steps[1..])
  }

  // --- The invariant --------------------------------------------------------------------------

  /** Generations of one session increase along a history. */
  predicate Increasing(log: seq<Issued>) {
    forall a, b :: 0 <= a < b < |log| && log[a].session.sid == log[b].session.sid ==>
      log[a].session.generation < log[b].session.generation
  }

  predicate DistinctTokens(log: seq<Issued>) {
    forall a, b :: 0 <= a < b < |log| ==> log[a].refresh != log[b].refresh
  }

  predicate Newest(log: seq<Issued>, e: Issued) {
    e in log && forall f :: f in log && f.session.sid == e.session.sid ==> f.session.generation <= e.session.generation
  }

  /** A record carries the tokens of the newest session issued for it; its previous token is an older one. */
  ghost predicate Tracked(r: SessionRecord, log: seq<Issued>) {
    && (exists e :: Newest(log, e) && Carries(r, e))
    && (r.previous.Some? ==> exists e :: e in log && e.session.sid == r.sid && e.session.generation < r.generation && e.refresh == r.previous.value)
  }

  predicate Carries(r: SessionRecord, e: Issued) {
    e.session.sid == r.sid && e.session.generation == r.generation && e.refresh == r.refresh && e.access == r.access
  }

  predicate DistinctSids(records: seq<SessionRecord>) {
    forall a, b :: 0 <= a < b < |records| ==> records[a].sid != records[b].sid
  }

  predicate Numbered(e: Issued, server: Server) {
    e.refresh.RefreshToken? && e.refresh.id < server.nextToken && e.session.sid < server.nextSid &&
    e.refresh.id > 0 && e.access == AccessToken(e.refresh.id - 1)
  }

  ghost predicate Ledger(server: Server, log: seq<Issued>) {
    && Increasing(log) && DistinctTokens(log) && DistinctSids(server.records)
    && (forall e :: e in log ==> Numbered(e, server))
    && (forall r :: r in server.records ==> Tracked(r, log))
  }

  /**
   Who may hold what: tabs, storage and requests only what was delivered, each reply something
   undelivered, and a refresh reply the session that was presented.
   */
  predicate Custody(s: System) {
    && (forall d :: d in s.delivered ==> d in s.issued)
    && (forall t :: 0 <= t < |s.tabs| && s.tabs[t].tokens.Some? ==> s.tabs[t].tokens.value in s.delivered)
    && (s.cell.Stored? ==> s.cell.issued in s.delivered)
    && (forall k :: 0 <= k < |s.ops| && s.ops[k].kind.RefreshOf? ==> s.ops[k].kind.current in s.delivered)
    && (forall c :: c in s.late ==> c in s.delivered)
    && (forall k :: 0 <= k < |s.ops| && InFlight(s.ops[k]) ==>
          s.ops[k].phase.reply.issued in s.issued && s.ops[k].phase.reply.issued !in s.delivered)
    && (forall k :: 0 <= k < |s.ops| && InFlight(s.ops[k]) && s.ops[k].kind.RefreshOf? ==>
          s.ops[k].phase.reply.issued.session.sid == s.ops[k].kind.current.session.sid)
    && (forall j, k :: 0 <= j < k < |s.ops| && InFlight(s.ops[j]) && InFlight(s.ops[k]) ==>
          s.ops[j].phase.reply.issued != s.ops[k].phase.reply.issued)
  }

  /** Anything not delivered is the newest of its session: nobody could have presented its token. */
  predicate OnlyNewestUndelivered(s: System) {
    forall e :: e in s.issued && e !in s.delivered ==> Newest(s.issued, e)
  }

  ghost predicate Inv(s: System) {
    Ledger(s.server, s.issued) && Custody(s) && OnlyNewestUndelivered(s) && Increasing(s.delivered)
  }

  lemma SameTokenSameEntry(log: seq<Issued>, e: Issued, f: Issued)
    requires DistinctTokens(log) && e in log && f in log && e.refresh == f.refresh
    ensures e == f
  {
  }

  lemma SameGenerationSameEntry(log: seq<Issued>, e: Issued, f: Issued)
    requires Increasing(log) && e in log && f in log
    requires e.session.sid == f.session.sid && e.session.generation == f.session.generation
    ensures e == f
  {
  }

  lemma {:induction false} PurgeKeepsSome(records: seq<SessionRecord>, now: int, p: Policy)
    requires DistinctSids(records)
    ensures DistinctSids(Purge(records, now, p))
    ensures forall r :: r in Purge(records, now, p) ==> r in records
  {
    if records != [] {
      PurgeKeepsSome(records[1..], now, p);
      var rest := Purge(records[1..], now, p);
      forall j | 0 <= j < |rest| ensures rest[j].sid != records[0].sid {
        assert rest[j] in records[1..];
      }
    }
  }

  /** Adding an entry that tops its session, with a token not seen before, keeps a log in order. */
  lemma Extend(log: seq<Issued>, e: Issued)
    requires Increasing(log)
    requires forall f :: f in log && f.session.sid == e.session.sid ==> f.session.generation < e.session.generation
    ensures Increasing(log + [e])
    ensures DistinctTokens(log) && (forall f :: f in log ==> f.refresh != e.refresh) ==> DistinctTokens(log + [e])
  {
  }

  lemma TrackedFrame(r: SessionRecord, log: seq<Issued>, e: Issued)
    requires Tracked(r, log) && e.session.sid != r.sid
    ensures Tracked(r, log + [e])
  {
  }

  /** The session numbers of records have all been issued. */
  lemma RecordNumbered(server: Server, log: seq<Issued>, r: SessionRecord)
    requires Ledger(server, log) && r in server.records
    ensures r.sid < server.nextSid
  {
  }

  /** A login issues generation 1 of a session number never used before. */
  lemma LoginKeepsLedger(server: Server, log: seq<Issued>, now: int, p: Policy)
    requires Ledger(server, log)
    ensures var (server', i) := CreateSession(server, now, p);
            Ledger(server', log + [i]) && forall f :: f in log ==> f.session.sid != i.session.sid
  {
    var (server', i) := CreateSession(server, now, p);
    var kept := Purge(server.records, now, p);
    PurgeKeepsSome(server.records, now, p);
    Extend(log, i);
    forall r | r in kept ensures Tracked(r, log + [i]) && r.sid < server.nextSid {
      RecordNumbered(server, log, r);
      TrackedFrame(r, log, i);
    }
    assert Newest(log + [i], i) && Carries(server'.records[|kept|], i);
    forall j | 0 <= j < |kept| ensures kept[j] in kept {}
  }

  /** Replacing one record by a tracked record of the same session keeps the records in order. */
  lemma ReplaceRecord(records: seq<SessionRecord>, k: nat, r: SessionRecord, log: seq<Issued>, log': seq<Issued>)
    requires DistinctSids(records) && k < |records| && r.sid == records[k].sid
    requires Tracked(r, log')
    requires forall q :: q in records && q.sid != r.sid ==> Tracked(q, log')
    ensures DistinctSids(records[k := r])
    ensures forall q :: q in records[k := r] ==> Tracked(q, log')
  {
  }

  lemma RevokeKeepsLedger(server: Server, log: seq<Issued>, k: nat, now: int)
    requires Ledger(server, log) && k < |server.records|
    ensures Ledger(server.(records := server.records[k := Revoke(server.records[k], now)]), log)
  {
    var r := server.records[k];
    var r' := Revoke(r, now);
    assert r in server.records;
    var e :| Newest(log, e) && Carries(r, e);
    assert Carries(r', e);
    assert Tracked(r', log);
    ReplaceRecord(server.records, k, r', log, log);
  }

  /** A granted refresh issues exactly the generation after the one presented. */
  lemma GrantKeepsLedger(server: Server, log: seq<Issued>, current: Issued, k: nat, now: int, p: Policy)
    requires Ledger(server, log) && current in log
    requires k < |server.records| && server.records[k].refresh == current.refresh
    ensures var r := Advance(server.records[k], now, p, server.nextToken);
            var i := IssuedFor(r, now, p);
            && Ledger(server.(records := server.records[k := r], nextToken := server.nextToken + 2), log + [i])
            && Newest(log, current)
            && i.session.sid == current.session.sid && i.session.generation == current.session.generation + 1
  {
    var r := server.records[k];
    var r' := Advance(r, now, p, server.nextToken);
    var i := IssuedFor(r', now, p);
    assert r in server.records;
    var e :| Newest(log, e) && Carries(r, e);
    SameTokenSameEntry(log, e, current);
    Extend(log, i);
    assert Newest(log + [i], i) && Carries(r', i);
    assert e in log + [i];
    assert Tracked(r', log + [i]);
    forall q | q in server.records && q.sid != r'.sid ensures Tracked(q, log + [i]) {
      TrackedFrame(q, log, i);
    }
    ReplaceRecord(server.records, k, r', log, log + [i]);
  }

  lemma RefreshKeepsLedger(server: Server, log: seq<Issued>, current: Issued, now: int, p: Policy)
    requires Ledger(server, log) && current in log
    ensures var (server', answer) := RefreshSession(server, current.refresh, now, p);
            match answer
            case Refused(_) => Ledger(server', log)
            case Granted(i) =>
              && Ledger(server', log + [i])
              && Newest(log, current)
              && i.session.sid == current.session.sid && i.session.generation == current.session.generation + 1
  {
    var k := Locate(server.records, current.refresh, 0);
    if k < |server.records| {
      if server.records[k].refresh == current.refresh {
        GrantKeepsLedger(server, log, current, k, now, p);
      } else {
        RevokeKeepsLedger(server, log, k, now);
      }
    }
  }

  lemma SignOutKeepsLedger(server: Server, log: seq<Issued>, access: Token, now: int)
    requires Ledger(server, log)
    ensures Ledger(SignOut(server, access, now), log)
  {
    var k := LocateAccess(server.records, access, 0);
    if k < |server.records| {
      RevokeKeepsLedger(server, log, k, now);
    }
  }

  /** The server issues a session, to whoever may be waiting for it. */
  lemma IssueKeepsInv(s: System, server: Server, i: Issued)
    requires Inv(s) && i !in s.issued && Ledger(server, s.issued + [i])
    requires forall e :: e in s.issued && e !in s.delivered ==> e.session.sid != i.session.sid
    ensures Inv(s.(server := server, issued := s.issued + [i]))
  {
    var s' := s.(server := server, issued := s.issued + [i]);
    assert i !in s.delivered && Increasing(s.issued + [i]);
    hide Ledger;
    forall e | e in s'.issued && e !in s'.delivered ensures Newest(s'.issued, e) {
      if e == i {
        forall f | f in s'.issued && f.session.sid == i.session.sid ensures f.session.generation <= i.session.generation {
          if f != i {
            var a :| 0 <= a < |s.issued| && s.issued[a] == f;
            assert s'.issued[a] == f && s'.issued[|s.issued|] == i;
          }
        }
      } else {
        assert e in s.issued;
      }
    }
  }

  /** A call is answered with an issued session that nobody has seen. */
  lemma AnswerKeepsInv(s: System, k: nat, i: Issued)
    requires Inv(s) && k < |s.ops| && s.ops[k].phase.Sent? && i in s.issued && i !in s.delivered
    requires forall j :: 0 <= j < |s.ops| && InFlight(s.ops[j]) ==> s.ops[j].phase.reply.issued != i
    requires s.ops[k].kind.RefreshOf? ==> i.session.sid == s.ops[k].kind.current.session.sid
    ensures Inv(WithPhase(s, k, Answered(Delivers(i))))
  {
    hide Ledger;
  }

  /** A grant continues a session of which nothing is undelivered. */
  lemma GrantIsFresh(s: System, current: Issued)
    requires Inv(s) && current in s.delivered
    ensures var (server, answer) := RefreshSession(s.server, current.refresh, s.now, s.policy);
            if answer.Granted? then
              && Ledger(server, s.issued + [answer.issued]) && answer.issued !in s.issued
              && answer.issued.session.sid == current.session.sid
              && forall e :: e in s.issued && e !in s.delivered ==> e.session.sid != answer.issued.session.sid
            else Ledger(server, s.issued)
  {
    RefreshKeepsLedger(s.server, s.issued, current, s.now, s.policy);
    forall e | e in s.issued && e !in s.delivered && e.session.sid == current.session.sid ensures !Newest(s.issued, current) {
      if Newest(s.issued, current) { SameGenerationSameEntry(s.issued, e, current); }
    }
  }

  lemma ServeRefreshKeepsInv(s: System, k: nat)
    requires Inv(s) && Enabled(s, ServeRefresh(k))
    ensures Inv(Served(s, k))
  {
    var current := s.ops[k].kind.current;
    GrantIsFresh(s, current);
    var (server, answer) := RefreshSession(s.server, current.refresh, s.now, s.policy);
    if answer.Granted? {
      IssueKeepsInv(s, server, answer.issued);
      AnswerKeepsInv(s.(server := server, issued := s.issued + [answer.issued]), k, answer.issued);
    } else {
      QuietPhaseKeepsInv(s.(server := server), k, Answered(Rejects(ErrorOf(answer.code))));
    }
  }

  lemma ServeLoginKeepsInv(s: System, k: nat)
    requires Inv(s) && Enabled(s, ServeLogin(k))
    ensures Inv(LoggedIn(s, k))
  {
    LoginKeepsLedger(s.server, s.issued, s.now, s.policy);
    var (server, i) := CreateSession(s.server, s.now, s.policy);
    IssueKeepsInv(s, server, i);
    AnswerKeepsInv(s.(server := server, issued := s.issued + [i]), k, i);
  }

  lemma ServeLateKeepsInv(s: System, current: Issued)
    requires Inv(s) && current in s.late
    ensures Inv(ServedLate(s, current))
  {
    GrantIsFresh(s, current);
    var (server, answer) := RefreshSession(s.server, current.refresh, s.now, s.policy);
    var late := s.late - multiset{current};
    assert forall c :: c in late ==> c in s.late;
    if answer.Granted? { IssueKeepsInv(s, server, answer.issued); }
  }

  lemma ServeLateLoginKeepsInv(s: System)
    requires Inv(s) && s.lateLogins > 0
    ensures Inv(LoggedInLate(s))
  {
    LoginKeepsLedger(s.server, s.issued, s.now, s.policy);
    var (server, i) := CreateSession(s.server, s.now, s.policy);
    IssueKeepsInv(s, server, i);
  }

  lemma DropKeepsInv(s: System, k: nat, err: ClientError)
    requires Inv(s) && k < |s.ops|
    ensures Inv(Dropped(s, k, err))
  {
    hide Ledger;
    QuietPhaseKeepsInv(s, k, Answered(Rejects(err)));
  }

  /** What a reply carries is newer than everything delivered for its session. */
  lemma ReplyIsAhead(s: System, k: nat)
    requires Inv(s) && k < |s.ops| && InFlight(s.ops[k])
    ensures var i := s.ops[k].phase.reply.issued;
            forall d :: d in s.delivered && d.session.sid == i.session.sid ==> d.session.generation < i.session.generation
  {
  }

  lemma TakeKeepsCustody(s: System, t: nat, l: Local, i: Issued)
    requires Custody(s) && t < |s.tabs| && i in s.issued
    requires forall k :: 0 <= k < |s.ops| && InFlight(s.ops[k]) ==> s.ops[k].phase.reply.issued != i
    requires l.tab.tokens == Some(i) && (l.cell == s.cell || l.cell == Stored(i))
    ensures Custody(WithLocal(s, t, l).(delivered := s.delivered + [i]))
  {
    var s' := WithLocal(s, t, l).(delivered := s.delivered + [i]);
    assert forall d :: d in s'.delivered <==> d in s.delivered || d == i;
  }

  /** A tab takes an issued session that is ahead of all deliveries. */
  lemma TakeKeepsInv(s: System, t: nat, l: Local, i: Issued)
    requires Inv(s) && t < |s.tabs| && i in s.issued && i !in s.delivered
    requires forall k :: 0 <= k < |s.ops| && InFlight(s.ops[k]) ==> s.ops[k].phase.reply.issued != i
    requires forall d :: d in s.delivered && d.session.sid == i.session.sid ==> d.session.generation < i.session.generation
    requires l.tab.tokens == Some(i) && (l.cell == s.cell || l.cell == Stored(i))
    ensures Inv(WithLocal(s, t, l).(delivered := s.delivered + [i]))
  {
    Extend(s.delivered, i);
    TakeKeepsCustody(s, t, l, i);
    hide Ledger, Newest, Custody;
  }

  lemma DeliveryKeepsInv(s: System, k: nat, h: Health)
    requires Inv(s) && Enabled(s, HandleReply(k, h)) && InFlight(s.ops[k])
    ensures Inv(Handled(s, k, h))
  {
    var op := s.ops[k];
    var i, l, last := op.phase.reply.issued, LocalOf(s, op.tab), if op.kind.Login? then Closed else Finishing;
    ReplyIsAhead(s, k);
    QuietPhaseKeepsInv(s, k, last);
    TakeKeepsInv(WithPhase(s, k, last), op.tab, if op.kind.Login? then LoginSucceeded(l, i, h) else RefreshSucceeded(l, i, h), i);
  }

  /** The client transitions other than a delivery take tokens only from the tab itself or from storage. */
  predicate TakesNothingNew(l: Local, l': Local) {
    && (l'.tab.tokens.Some? ==> l'.tab.tokens == l.tab.tokens || (l.cell.Stored? && l'.tab.tokens == Some(l.cell.issued)))
    && (l'.cell.Stored? ==> l'.cell == l.cell)
  }

  /** A change to one tab and to storage that takes nothing new. */
  lemma QuietChangeKeepsInv(s: System, t: nat, l: Local)
    requires Inv(s) && t < |s.tabs| && TakesNothingNew(LocalOf(s, t), l)
    ensures Inv(WithLocal(s, t, l))
  {
  }

  /** An op moving to a phase that carries no tokens. */
  lemma QuietPhaseKeepsInv(s: System, k: nat, phase: Phase)
    requires Inv(s) && k < |s.ops| && (phase.Answered? ==> phase.reply.Rejects?)
    ensures Inv(WithPhase(s, k, phase))
  {
  }

  lemma NewOpKeepsInv(s: System, op: Op)
    requires Inv(s) && !InFlight(op) && (op.kind.RefreshOf? ==> op.kind.current in s.delivered)
    ensures Inv(s.(ops := s.ops + [op]))
  {
  }

  /** The transitions that read storage or drop tokens, seen from one tab. */
  lemma TabTransitionsTakeNothingNew(l: Local, now: int, h: Health, current: Issued, err: ClientError)
    ensures TakesNothingNew(l, Hydrate(l, now, h)) && TakesNothingNew(l, OnStorage(l, now, h))
    ensures TakesNothingNew(l, RefreshFailed(l, err, h)) && TakesNothingNew(l, AfterSettle(l, current, err, h))
    ensures TakesNothingNew(l, LoginFailed(l, err, h)) && TakesNothingNew(l, AuthClient.Logout(l, h))
  {
  }

  const NoTokens := Issued(Info(0, 0, 0, 0, 0, 0), AccessToken(0), RefreshToken(0))

  lemma RejectionKeepsInv(s: System, k: nat, h: Health)
    requires Inv(s) && Enabled(s, HandleReply(k, h)) && !InFlight(s.ops[k])
    ensures Inv(Handled(s, k, h))
  {
    var op := s.ops[k];
    var err := op.phase.reply.err;
    var l := LocalOf(s, op.tab);
    TabTransitionsTakeNothingNew(l, s.now, h, NoTokens, err);
    if op.kind.Login? {
      QuietChangeKeepsInv(s, op.tab, LoginFailed(l, err, h));
      QuietPhaseKeepsInv(WithLocal(s, op.tab, LoginFailed(l, err, h)), k, Closed);
    } else if Superseded(err) {
      QuietPhaseKeepsInv(s, k, Settling(err));
    } else {
      QuietChangeKeepsInv(s, op.tab, RefreshFailed(l, err, h));
      QuietPhaseKeepsInv(WithLocal(s, op.tab, RefreshFailed(l, err, h)), k, Finishing);
    }
  }

  lemma SettleKeepsInv(s: System, k: nat, h: Health)
    requires Inv(s) && Enabled(s, Settle(k, h))
    ensures Inv(Next(s, Settle(k, h)))
  {
    var op := s.ops[k];
    var l := LocalOf(s, op.tab);
    var l' := AfterSettle(l, op.kind.current, op.phase.err, h);
    TabTransitionsTakeNothingNew(l, s.now, h, op.kind.current, op.phase.err);
    QuietChangeKeepsInv(s, op.tab, l');
    QuietPhaseKeepsInv(WithLocal(s, op.tab, l'), k, Finishing);
  }

  lemma FinallyKeepsInv(s: System, k: nat)
    requires Inv(s) && Enabled(s, RunFinally(k))
    ensures Inv(Next(s, RunFinally(k)))
  {
    var t := s.ops[k].tab;
    var l := Local(s.tabs[t].(inflight := None), s.cell);
    QuietChangeKeepsInv(s, t, l);
    QuietPhaseKeepsInv(WithLocal(s, t, l), k, Closed);
  }

  lemma RefreshCallKeepsInv(s: System, t: nat)
    requires Inv(s) && Enabled(s, RefreshCall(t))
    ensures Inv(Refreshed(s, t))
  {
    var tab := s.tabs[t];
    if tab.inflight.None? {
      var idle := Local(tab.(inflight := Some(|s.ops|)), s.cell);
      var l := if tab.tokens.None? then idle else idle.(tab := idle.tab.(status := Refreshing));
      QuietChangeKeepsInv(s, t, l);
      NewOpKeepsInv(WithLocal(s, t, l), if tab.tokens.None? then Op(t, NothingToRefresh, Finishing) else Op(t, RefreshOf(tab.tokens.value), Sent));
    }
  }

  lemma LoginCallKeepsInv(s: System, t: nat)
    requires Inv(s) && Enabled(s, LoginCall(t))
    ensures Inv(Next(s, LoginCall(t)))
  {
    var l := BeginLogin(LocalOf(s, t));
    QuietChangeKeepsInv(s, t, l);
    NewOpKeepsInv(WithLocal(s, t, l), Op(t, Login, Sent));
  }

  lemma TabStepKeepsInv(s: System, t: nat, step: Step)
    requires Inv(s) && Enabled(s, step)
    requires (step.MountEffect? || step.StorageEvent? || step.LogoutCall?) && t == step.t
    ensures Inv(Next(s, step))
  {
    hide Inv;
    var l := LocalOf(s, t);
    TabTransitionsTakeNothingNew(l, s.now, step.h, NoTokens, OtherError);
    match step
    case MountEffect(_, h) => QuietChangeKeepsInv(s, t, Hydrate(l, s.now, h));
    case StorageEvent(_, h) => QuietChangeKeepsInv(s, t, OnStorage(l, s.now, h));
    case LogoutCall(_, h) =>
      QuietChangeKeepsInv(s, t, AuthClient.Logout(l, h));
      DeletesDoNotMatter(WithLocal(s, t, AuthClient.Logout(l, h)), Next(s, step).deletes);
  }

  lemma DeletesDoNotMatter(s: System, deletes: set<Token>)
    requires Inv(s)
    ensures Inv(s.(deletes := deletes))
  {
  }

  /** A new tab has at most what is in storage. */
  lemma OpenTabKeepsInv(s: System, h: Health)
    requires Inv(s)
    ensures Inv(Next(s, OpenTab(h)))
  {
  }

  lemma OutsideStepKeepsInv(s: System, step: Step)
    requires Inv(s) && Enabled(s, step) && (step.Tick? || step.Tamper? || step.ServeDelete? || step.RestartServer?)
    ensures Inv(Next(s, step))
  {
    if step.ServeDelete? { SignOutKeepsLedger(s.server, s.issued, step.access, s.now); }
  }

  lemma StepKeepsInv(s: System, step: Step)
    requires Inv(s) && Enabled(s, step)
    ensures Inv(Next(s, step))
  {
    hide Inv;
    match step
    case ServeRefresh(k) => ServeRefreshKeepsInv(s, k);
    case ServeLogin(k) => ServeLoginKeepsInv(s, k);
    case HandleReply(k, h) => if InFlight(s.ops[k]) { DeliveryKeepsInv(s, k, h); } else { RejectionKeepsInv(s, k, h); }
    case Settle(k, h) => SettleKeepsInv(s, k, h);
    case RunFinally(k) => FinallyKeepsInv(s, k);
    case MountEffect(t, _) => TabStepKeepsInv(s, t, step);
    case StorageEvent(t, _) => TabStepKeepsInv(s, t, step);
    case LogoutCall(t, _) => TabStepKeepsInv(s, t, step);
    case LoginCall(t) => LoginCallKeepsInv(s, t);
    case RefreshCall(t) => RefreshCallKeepsInv(s, t);
    case Lose(k, err) => DropKeepsInv(s, k, err);
    case ServeLate(current) => ServeLateKeepsInv(s, current);
    case ServeLateLogin => ServeLateLoginKeepsInv(s);
    case OpenTab(h) => OpenTabKeepsInv(s, h);
    case ServeDelete(_) => OutsideStepKeepsInv(s, step);
    case Tick(_) => OutsideStepKeepsInv(s, step);
    case Tamper(_) => OutsideStepKeepsInv(s, step);
    case RestartServer => OutsideStepKeepsInv(s, step);
  }

  lemma {:induction false} RunKeepsInv(s: System, steps: seq<Step>)
    requires Inv(s) && ValidRun(s, steps)
    ensures Inv(Run(s, steps))
    decreases |steps|
  {
    if steps != [] {
      StepKeepsInv(s, steps[0]);
      RunKeepsInv(Next(s, steps[0]), steps[1..]);
    }
  }
}
