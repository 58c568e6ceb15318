/**
 Which sessions can still be renewed. A rotation whose reply nobody gets leaves nobody with the
 current refresh token; the design notes promise that a transient outage does not sign the user out.
 */
module AuthRenewal {
  import opened Wrappers
  import opened AuthServer
  import opened AuthClient
  import opened AuthProtocol
  import opened AuthTheorems
  import opened AuthCoherence

  /** Nobody can present this token: no tab, no stored session, no request on its way, awaited or not, and no reply. */
  predicate Unheld(s: System, token: Token) {
    && (forall t :: 0 <= t < |s.tabs| && s.tabs[t].tokens.Some? ==> s.tabs[t].tokens.value.refresh != token)
    && (s.cell.Stored? ==> s.cell.issued.refresh != token)
    && (forall k :: 0 <= k < |s.ops| && s.ops[k].kind.RefreshOf? && s.ops[k].phase.Sent? ==> s.ops[k].kind.current.refresh != token)
    && (forall k :: 0 <= k < |s.ops| && InFlight(s.ops[k]) ==> s.ops[k].phase.reply.issued.refresh != token)
    && (forall c :: c in s.late ==> c.refresh != token)
  }

  /** Nobody holds the current token of this session. */
  predicate Stranded(s: System, sid: nat) {
    sid < s.server.nextSid && forall r :: r in s.server.records && r.sid == sid ==> Unheld(s, r.refresh)
  }

  /** What was issued, is delivered to nobody and on its way to nobody strands its session. */
  lemma UndeliveredStrands(s: System, i: Issued)
    requires Inv(s) && i in s.issued && i !in s.delivered
    requires forall k :: 0 <= k < |s.ops| && InFlight(s.ops[k]) ==> s.ops[k].phase.reply.issued != i
    ensures Stranded(s, i.session.sid)
  {
    assert Newest(s.issued, i);
    forall r | r in s.server.records && r.sid == i.session.sid ensures r.refresh == i.refresh {
      var e :| Newest(s.issued, e) && Carries(r, e);
      SameGenerationSameEntry(s.issued, e, i);
    }
    forall e | e in s.issued && e != i ensures e.refresh != i.refresh {
      if e.refresh == i.refresh { SameTokenSameEntry(s.issued, e, i); }
    }
    hide Ledger, OnlyNewestUndelivered, Increasing;
  }

  /** Losing a reply that carries tokens strands its session, whatever error the client sees instead. */
  lemma LostGrantStrands(s: System, k: nat, err: ClientError)
    requires Inv(s) && Enabled(s, Lose(k, err)) && InFlight(s.ops[k])
    ensures Stranded(Next(s, Lose(k, err)), s.ops[k].phase.reply.issued.session.sid)
  {
    StepKeepsInv(s, Lose(k, err));
    UndeliveredStrands(Next(s, Lose(k, err)), s.ops[k].phase.reply.issued);
  }

  /** So does what the server grants to a request the client has given up on. */
  lemma LateGrantStrands(s: System, current: Issued)
    requires Inv(s) && current in s.late && RefreshSession(s.server, current.refresh, s.now, s.policy).1.Granted?
    ensures Stranded(Next(s, ServeLate(current)), current.session.sid)
  {
    ServeLateKeepsInv(s, current);
    GrantIsFresh(s, current);
    RefreshKeepsLedger(s.server, s.issued, current, s.now, s.policy);
    var i := RefreshSession(s.server, current.refresh, s.now, s.policy).1.issued;
    assert i in Next(s, ServeLate(current)).issued && i !in s.delivered;
    UndeliveredStrands(Next(s, ServeLate(current)), i);
  }

  /**
   The client has given up on a refresh, and its tab still holds the current token. When the server
   handles the request after all, the session is stranded if and only if it is live by then.
   */
  lemma WhenLateRefreshStrands(s: System, t: nat, current: Issued, n: nat)
    requires Inv(s) && current in s.late && t < |s.tabs| && s.tabs[t].tokens == Some(current)
    requires n < |s.server.records| && s.server.records[n].refresh == current.refresh
    ensures Stranded(Next(s, ServeLate(current)), s.server.records[n].sid) <==> StateOf(s.server.records[n], s.now) == Live
  {
    var r := s.server.records[n];
    assert current in s.issued && r in s.server.records;
    SameTokenSameSession(s, r, current);
    CurrentTokenIsFound(s, r, n);
    if StateOf(r, s.now) == Live {
      LateGrantStrands(s, current);
    } else {
      var s' := Next(s, ServeLate(current));
      assert s'.server == s.server && s'.tabs == s.tabs;
      hide Inv;
      assert !Unheld(s', r.refresh);
    }
  }

  /**
   An outage during a refresh: the tab stays active with the tokens it has, and their session can no
   longer be renewed if and only if the reply that was lost carried new ones.
   */
  lemma OutageStrands(s: System, k: nat, r: SessionRecord, h: Health)
    requires Inv(s) && k < |s.ops| && s.ops[k].kind.RefreshOf? && (s.ops[k].phase.Sent? || s.ops[k].phase.Answered?)
    requires s.ops[k].tab < |s.tabs| && s.tabs[s.ops[k].tab].tokens == Some(s.ops[k].kind.current)
    requires r in s.server.records
    requires r.refresh == if InFlight(s.ops[k]) then s.ops[k].phase.reply.issued.refresh else s.ops[k].kind.current.refresh
    ensures var t, outage := s.ops[k].tab, Lose(k, ApiClientError(NetworkError, true));
            var s1 := Took(s, outage);
            var s2 := Took(s1, HandleReply(k, h));
            && Enabled(s, outage) && Enabled(s1, HandleReply(k, h)) && t < |s2.tabs|
            && s2.tabs[t].status == Active && s2.tabs[t].tokens == s.tabs[t].tokens
            && (Stranded(s2, r.sid) <==> InFlight(s.ops[k]))
  {
    var outage := Lose(k, ApiClientError(NetworkError, true));
    OutageEffect(s, k, h);
    var s1 := Next(s, outage);
    if InFlight(s.ops[k]) {
      SameTokenSameSession(s, r, s.ops[k].phase.reply.issued);
      LostGrantStrands(s, k, outage.err);
      StepKeepsInv(s, outage);
      StepKeepsStranded(s1, HandleReply(k, h), r.sid);
      hide Inv, Stranded, Next, Enabled;
    } else {
      hide Inv, Next, Enabled;
      var s2 := Took(s1, HandleReply(k, h));
      assert s2.tabs[s.ops[k].tab].tokens.value.refresh == r.refresh && !Unheld(s2, r.refresh);
    }
  }

  lemma OutageEffect(s: System, k: nat, h: Health)
    requires k < |s.ops| && s.ops[k].kind.RefreshOf? && (s.ops[k].phase.Sent? || s.ops[k].phase.Answered?)
    requires s.ops[k].tab < |s.tabs|
    ensures var t, outage := s.ops[k].tab, Lose(k, ApiClientError(NetworkError, true));
            var s1 := Took(s, outage);
            var s2 := Took(s1, HandleReply(k, h));
            && Enabled(s, outage) && Enabled(s1, HandleReply(k, h)) && s2.server == s.server && |s2.tabs| == |s.tabs|
            && s2.tabs[t].status == Active && s2.tabs[t].tokens == s.tabs[t].tokens
  {
  }

  lemma SameTokenSameSession(s: System, r: SessionRecord, i: Issued)
    requires Inv(s) && r in s.server.records && i in s.issued && r.refresh == i.refresh
    ensures r.sid == i.session.sid
  {
    var e :| Newest(s.issued, e) && Carries(r, e);
    SameTokenSameEntry(s.issued, e, i);
  }

  /** A change of one tab and of storage that brings in nothing new leaves an unheld token unheld. */
  lemma UnheldLocally(s: System, t: nat, l: Local, token: Token)
    requires Unheld(s, token) && t < |s.tabs| && TakesNothingNew(LocalOf(s, t), l)
    ensures Unheld(WithLocal(s, t, l), token)
  {
  }

  lemma UnheldPhase(s: System, k: nat, phase: Phase, token: Token)
    requires Unheld(s, token) && k < |s.ops| && !phase.Sent?
    requires phase.Answered? && phase.reply.Delivers? ==> phase.reply.issued.refresh != token
    ensures Unheld(WithPhase(s, k, phase), token)
  {
  }

  lemma UnheldAfterDelivery(s: System, k: nat, h: Health, token: Token)
    requires Unheld(s, token) && Enabled(s, HandleReply(k, h)) && InFlight(s.ops[k])
    ensures Unheld(Handled(s, k, h), token)
  {
  }

  lemma UnheldAfterRejection(s: System, k: nat, h: Health, token: Token)
    requires Unheld(s, token) && Enabled(s, HandleReply(k, h)) && !InFlight(s.ops[k])
    ensures Unheld(Handled(s, k, h), token)
  {
    var op := s.ops[k];
    var err := op.phase.reply.err;
    var l := LocalOf(s, op.tab);
    TabTransitionsTakeNothingNew(l, s.now, h, NoTokens, err);
    if op.kind.Login? {
      UnheldLocally(s, op.tab, LoginFailed(l, err, h), token);
      UnheldPhase(WithLocal(s, op.tab, LoginFailed(l, err, h)), k, Closed, token);
    } else if Superseded(err) {
      UnheldPhase(s, k, Settling(err), token);
    } else {
      UnheldLocally(s, op.tab, RefreshFailed(l, err, h), token);
      UnheldPhase(WithLocal(s, op.tab, RefreshFailed(l, err, h)), k, Finishing, token);
    }
  }

  lemma UnheldAfterSettle(s: System, k: nat, h: Health, token: Token)
    requires Unheld(s, token) && Enabled(s, Settle(k, h))
    ensures Unheld(Next(s, Settle(k, h)), token)
  {
  }

  lemma UnheldAfterTabStep(s: System, t: nat, h: Health, token: Token)
    requires Unheld(s, token) && t < |s.tabs|
    ensures Unheld(WithLocal(s, t, Hydrate(LocalOf(s, t), s.now, h)), token)
    ensures Unheld(WithLocal(s, t, OnStorage(LocalOf(s, t), s.now, h)), token)
    ensures Unheld(WithLocal(s, t, AuthClient.Logout(LocalOf(s, t), h)), token)
    ensures Unheld(WithLocal(s, t, BeginLogin(LocalOf(s, t))), token)
  {
    var l := LocalOf(s, t);
    TabTransitionsTakeNothingNew(l, s.now, h, NoTokens, OtherError);
    UnheldLocally(s, t, Hydrate(l, s.now, h), token);
    UnheldLocally(s, t, OnStorage(l, s.now, h), token);
    UnheldLocally(s, t, AuthClient.Logout(l, h), token);
    UnheldLocally(s, t, BeginLogin(l), token);
  }

  lemma UnheldNewOp(s: System, op: Op, token: Token)
    requires Unheld(s, token) && !InFlight(op) && (op.kind.RefreshOf? ==> op.kind.current.refresh != token)
    ensures Unheld(s.(ops := s.ops + [op]), token)
  {
  }

  lemma UnheldAfterCalls(s: System, t: nat, token: Token)
    requires Unheld(s, token) && t < |s.tabs|
    ensures Unheld(Refreshed(s, t), token)
    ensures Unheld(Next(s, LoginCall(t)), token)
  {
    var tab := s.tabs[t];
    var idle := Local(tab.(inflight := Some(|s.ops|)), s.cell);
    var busy := idle.(tab := idle.tab.(status := Refreshing));
    UnheldLocally(s, t, idle, token);
    UnheldLocally(s, t, busy, token);
    UnheldLocally(s, t, BeginLogin(LocalOf(s, t)), token);
    UnheldNewOp(WithLocal(s, t, BeginLogin(LocalOf(s, t))), Op(t, Login, Sent), token);
    UnheldNewOp(WithLocal(s, t, idle), Op(t, NothingToRefresh, Finishing), token);
    if tab.tokens.Some? { UnheldNewOp(WithLocal(s, t, busy), Op(t, RefreshOf(tab.tokens.value), Sent), token); }
    hide Unheld;
  }

  /** New tokens are numbered past every old one. */
  lemma UnheldAfterServing(s: System, k: nat, token: Token)
    requires Unheld(s, token) && k < |s.ops| && token.RefreshToken? && token.id < s.server.nextToken
    ensures Unheld(LoggedIn(s, k), token)
    ensures s.ops[k].kind.RefreshOf? ==> Unheld(Served(s, k), token)
  {
  }

  lemma UnheldAfterDropping(s: System, k: nat, err: ClientError, token: Token)
    requires Unheld(s, token) && k < |s.ops|
    ensures Unheld(Dropped(s, k, err), token)
  {
    UnheldPhase(s, k, Answered(Rejects(err)), token);
  }

  lemma UnheldAfterServingLate(s: System, current: Issued, token: Token)
    requires Unheld(s, token)
    ensures Unheld(ServedLate(s, current), token)
  {
    var late := s.late - multiset{current};
    assert forall c :: c in late ==> c in s.late;
  }

  /** No step hands out an old token again. */
  lemma StepKeepsUnheld(s: System, step: Step, token: Token)
    requires Unheld(s, token) && Enabled(s, step) && token.RefreshToken? && token.id < s.server.nextToken
    ensures Unheld(Next(s, step), token)
  {
    match step
    case HandleReply(k, h) =>
      if InFlight(s.ops[k]) { UnheldAfterDelivery(s, k, h, token); } else { UnheldAfterRejection(s, k, h, token); }
    case Settle(k, h) => UnheldAfterSettle(s, k, h, token);
    case MountEffect(t, h) => UnheldAfterTabStep(s, t, h, token);
    case StorageEvent(t, h) => UnheldAfterTabStep(s, t, h, token);
    case LogoutCall(t, h) => UnheldAfterTabStep(s, t, h, token);
    case LoginCall(t) => UnheldAfterCalls(s, t, token);
    case RefreshCall(t) => UnheldAfterCalls(s, t, token);
    case ServeRefresh(k) => UnheldAfterServing(s, k, token);
    case ServeLogin(k) => UnheldAfterServing(s, k, token);
    case Lose(k, err) => UnheldAfterDropping(s, k, err, token);
    case ServeLate(current) => UnheldAfterServingLate(s, current, token);
    case RunFinally(k) => UnheldPhase(s, k, Closed, token);
    case OpenTab(_) =>
    case _ =>
  }

  lemma CurrentTokenNumbered(s: System, r: SessionRecord)
    requires Inv(s) && r in s.server.records
    ensures r.refresh.RefreshToken? && r.refresh.id < s.server.nextToken
  {
  }

  lemma SessionNumbersGrow(s: System, step: Step)
    requires Enabled(s, step)
    ensures s.server.nextSid <= Next(s, step).server.nextSid
  {
  }

  /** A stranded session gets no new tokens and stays stranded. */
  lemma StepKeepsStranded(s: System, step: Step, sid: nat)
    requires Inv(s) && Stranded(s, sid) && Enabled(s, step)
    ensures Stranded(Next(s, step), sid)
  {
    SessionNumbersGrow(s, step);
    forall r' | r' in Next(s, step).server.records && r'.sid == sid ensures Unheld(Next(s, step), r'.refresh) {
      var r := RecordOrigin(s, step, sid, r');
      CurrentTokenNumbered(s, r);
      StepKeepsUnheld(s, step, r.refresh);
    }
  }

  /** What is granted belongs to a record that carried the presented token. */
  lemma GrantOrigin(server: Server, presented: Token, now: int, p: Policy) returns (r: SessionRecord)
    requires RefreshSession(server, presented, now, p).1.Granted?
    ensures r in server.records && r.refresh == presented && r.sid == RefreshSession(server, presented, now, p).1.issued.session.sid
  {
    r := server.records[Locate(server.records, presented, 0)];
  }

  /** Who presents a token that no record of the session carries gets nothing of that session. */
  lemma GrantElsewhere(server: Server, presented: Token, now: int, p: Policy, sid: nat)
    requires forall r :: r in server.records && r.sid == sid ==> r.refresh != presented
    requires RefreshSession(server, presented, now, p).1.Granted?
    ensures RefreshSession(server, presented, now, p).1.issued.session.sid != sid
  {
    var r := GrantOrigin(server, presented, now, p);
  }

  lemma PresentedIsHeld(s: System, step: Step, sid: nat)
    requires Stranded(s, sid) && Enabled(s, step)
    ensures step.ServeRefresh? ==> forall r :: r in s.server.records && r.sid == sid ==> r.refresh != s.ops[step.k].kind.current.refresh
    ensures step.ServeLate? ==> forall r :: r in s.server.records && r.sid == sid ==> r.refresh != step.current.refresh
  {
  }

  /** What a step adds to the issued sessions, if anything. */
  lemma IssuedByStep(s: System, step: Step)
    requires Enabled(s, step)
    ensures var added := Next(s, step).issued;
            added == s.issued
            || (step.ServeRefresh? && RefreshSession(s.server, s.ops[step.k].kind.current.refresh, s.now, s.policy).1.Granted? &&
                added == s.issued + [RefreshSession(s.server, s.ops[step.k].kind.current.refresh, s.now, s.policy).1.issued])
            || (step.ServeLate? && RefreshSession(s.server, step.current.refresh, s.now, s.policy).1.Granted? &&
                added == s.issued + [RefreshSession(s.server, step.current.refresh, s.now, s.policy).1.issued])
            || ((step.ServeLogin? || step.ServeLateLogin?) && added == s.issued + [CreateSession(s.server, s.now, s.policy).1])
  {
    hide RefreshSession, CreateSession;
  }

  lemma GrantsGoToHolders(s: System, step: Step, sid: nat)
    requires Stranded(s, sid) && Enabled(s, step)
    ensures forall e :: e in Next(s, step).issued && e.session.sid == sid ==> e in s.issued
  {
    PresentedIsHeld(s, step, sid);
    IssuedByStep(s, step);
    hide RefreshSession, Next, Enabled, Stranded;
    NewSessionIsFresh(s, sid);
    match step
    case ServeRefresh(k) =>
      var presented := s.ops[k].kind.current.refresh;
      if RefreshSession(s.server, presented, s.now, s.policy).1.Granted? { GrantElsewhere(s.server, presented, s.now, s.policy, sid); }
    case ServeLate(current) =>
      if RefreshSession(s.server, current.refresh, s.now, s.policy).1.Granted? { GrantElsewhere(s.server, current.refresh, s.now, s.policy, sid); }
    case _ =>
  }

  lemma NewSessionIsFresh(s: System, sid: nat)
    requires Stranded(s, sid)
    ensures CreateSession(s.server, s.now, s.policy).1.session.sid == s.server.nextSid > sid
  {
  }

  lemma RefreshOrigin(server: Server, presented: Token, now: int, p: Policy, r': SessionRecord) returns (r: SessionRecord)
    requires r' in RefreshSession(server, presented, now, p).0.records
    ensures r in server.records && r.sid == r'.sid && (r.refresh == r'.refresh || r.refresh == presented)
  {
    var n := Locate(server.records, presented, 0);
    r := if r' in server.records then r' else server.records[n];
  }

  lemma SignOutOrigin(server: Server, access: Token, now: int, r': SessionRecord) returns (r: SessionRecord)
    requires r' in SignOut(server, access, now).records
    ensures r in server.records && r.sid == r'.sid && r.refresh == r'.refresh
  {
    var n := LocateAccess(server.records, access, 0);
    r := if r' in server.records then r' else server.records[n];
  }

  /** A record's current token is the one it had, unless that very token was presented. */
  lemma RecordOrigin(s: System, step: Step, sid: nat, r': SessionRecord) returns (r: SessionRecord)
    requires Inv(s) && Stranded(s, sid) && Enabled(s, step)
    requires r' in Next(s, step).server.records && r'.sid == sid
    ensures r in s.server.records && r.sid == sid && r.refresh == r'.refresh
  {
    hide Inv, CreateSession, RefreshSession, SignOut, Adopt, RefreshFailed, LoginFailed;
    r := r';
    match step
    case ServeRefresh(k) =>
      r := RefreshOrigin(s.server, s.ops[k].kind.current.refresh, s.now, s.policy, r');
      assert Unheld(s, r.refresh);
    case ServeLogin(_) => LoginOrigin(s, r');
    case ServeDelete(access) => r := SignOutOrigin(s.server, access, s.now, r');
    case ServeLate(current) =>
      r := RefreshOrigin(s.server, current.refresh, s.now, s.policy, r');
      assert Unheld(s, r.refresh);
    case ServeLateLogin => LoginOrigin(s, r');
    case _ =>
  }

  lemma LoginOrigin(s: System, r': SessionRecord)
    requires Inv(s) && r' in CreateSession(s.server, s.now, s.policy).0.records && r'.sid < s.server.nextSid
    ensures r' in s.server.records
  {
    PurgeKeepsSome(s.server.records, s.now, s.policy);
  }

  /** Once stranded, a session is never renewed again, in any run: the server issues nothing more for it. */
  lemma {:induction false} StrandedForever(s: System, steps: seq<Step>, sid: nat)
    requires Inv(s) && Stranded(s, sid) && ValidRun(s, steps)
    ensures Stranded(Run(s, steps), sid)
    ensures forall e :: e in Run(s, steps).issued && e.session.sid == sid ==> e in s.issued
    decreases |steps|
  {
    if steps != [] {
      StepKeepsInv(s, steps[0]);
      StepKeepsStranded(s, steps[0], sid);
      GrantsGoToHolders(s, steps[0], sid);
      StrandedForever(Next(s, steps[0]), steps[1..], sid);
    }
  }

  /** The scan finds the record whose current token is presented: that token is nobody's previous one. */
  lemma CurrentTokenIsFound(s: System, r: SessionRecord, n: nat)
    requires Inv(s) && n < |s.server.records| && s.server.records[n] == r
    ensures Locate(s.server.records, r.refresh, 0) == n
  {
    var records := s.server.records;
    var m := Locate(records, r.refresh, 0);
    assert records[n] in records && records[m] in records;
    var e :| Newest(s.issued, e) && Carries(r, e);
    var f :| f in s.issued && f.session.sid == records[m].sid && f.refresh == r.refresh;
    SameTokenSameEntry(s.issued, e, f);
  }

  lemma RefreshCallEffect(s: System, t: nat)
    requires t < |s.tabs| && s.tabs[t].inflight.None? && s.tabs[t].tokens.Some?
    ensures var s' := Next(s, RefreshCall(t));
            && s'.ops == s.ops + [Op(t, RefreshOf(s.tabs[t].tokens.value), Sent)] && |s'.tabs| == |s.tabs|
            && s'.tabs[t].tokens == s.tabs[t].tokens && s'.tabs[t].hydrated == s.tabs[t].hydrated && s'.cell == s.cell
            && s'.server == s.server && s'.now == s.now
  {
  }

  /** A refresh that presents the current token of a live session is granted the next generation. */
  lemma RefreshIsServed(s: System, k: nat, n: nat)
    requires Inv(s) && k < |s.ops| && s.ops[k].kind.RefreshOf? && s.ops[k].phase.Sent?
    requires n < |s.server.records| && s.server.records[n].refresh == s.ops[k].kind.current.refresh
    requires StateOf(s.server.records[n], s.now) == Live
    ensures Enabled(s, ServeRefresh(k))
    ensures var held, s' := s.ops[k].kind.current, Next(s, ServeRefresh(k));
            && s' == WithPhase(s, k, s'.ops[k].phase).(server := s'.server, issued := s'.issued)
            && InFlight(s'.ops[k]) && |s'.server.records| == |s.server.records|
            && var newer := s'.ops[k].phase.reply.issued;
            && newer.refresh == s'.server.records[n].refresh && s'.server.records[n].revokedAt.None?
            && newer.session.sid == held.session.sid && newer.session.generation == held.session.generation + 1
            && Ledger(s'.server, s'.issued) && held in s'.issued && newer in s'.issued
  {
    CurrentTokenIsFound(s, s.server.records[n], n);
    RefreshKeepsLedger(s.server, s.issued, s.ops[k].kind.current, s.now, s.policy);
  }

  lemma ReplyIsHandled(s: System, k: nat, h: Health)
    requires k < |s.ops| && s.ops[k].tab < |s.tabs| && s.ops[k].kind.RefreshOf? && s.ops[k].phase.Answered?
    ensures Enabled(s, HandleReply(k, h))
    ensures var t, s', reply := s.ops[k].tab, Next(s, HandleReply(k, h)), s.ops[k].phase.reply;
            && s'.server == s.server && s'.now == s.now && |s'.tabs| == |s.tabs| && s'.tabs[t].hydrated == s.tabs[t].hydrated
            && (reply.Delivers? ==> s'.tabs[t].status == Active && s'.tabs[t].tokens == Some(reply.issued) &&
                                    s'.cell == (if h.canWrite then Stored(reply.issued) else s.cell))
            && (reply == Rejects(ErrorOf(SessionRevoked)) ==> s'.tabs[t].status == RevokedStatus && s'.tabs[t].tokens.None?)
  {
  }

  /** The other side: a tab that holds the current token of a live session renews it, as soon as it asks and is answered. */
  lemma HolderRenews(s: System, t: nat, n: nat, h: Health)
    requires Inv(s) && t < |s.tabs| && n < |s.server.records|
    requires s.tabs[t].inflight.None? && s.tabs[t].tokens.Some?
    requires s.server.records[n].refresh == s.tabs[t].tokens.value.refresh && StateOf(s.server.records[n], s.now) == Live
    ensures var k, held := |s.ops|, s.tabs[t].tokens.value.session;
            var s1 := Next(s, RefreshCall(t));
            var s2 := Took(s1, ServeRefresh(k));
            var s3 := Took(s2, HandleReply(k, h));
            && Enabled(s1, ServeRefresh(k)) && Enabled(s2, HandleReply(k, h)) && t < |s3.tabs|
            && s3.tabs[t].status == Active && s3.tabs[t].tokens.Some?
            && s3.tabs[t].tokens.value.session.sid == held.sid
            && s3.tabs[t].tokens.value.session.generation == held.generation + 1
            && s3.cell == (if h.canWrite then Stored(s3.tabs[t].tokens.value) else s.cell)
            && s3.now == s.now && s3.tabs[t].hydrated == s.tabs[t].hydrated
  {
    var k, held := |s.ops|, s.tabs[t].tokens.value;
    StepKeepsInv(s, RefreshCall(t));
    RefreshCallEffect(s, t);
    var s1 := Next(s, RefreshCall(t));
    RefreshIsServed(s1, k, n);
    hide Inv, Next, Enabled, RefreshSession;
    ReplyIsHandled(Next(s1, ServeRefresh(k)), k, h);
  }

  /**
   What a client meets that retries after a lost rotation: told it was superseded within the grace
   window, and taken for a thief after it, which revokes its own session.
   */
  lemma RetryAfterLostRotation(s: System, presented: Issued, n: nat)
    requires Inv(s) && n < |s.server.records| && s.server.records[n].previous == Some(presented.refresh)
    requires StateOf(s.server.records[n], s.now) == Live && s.server.records[n].rotatedAt.Some?
    ensures var (server, answer) := RefreshSession(s.server, presented.refresh, s.now, s.policy);
            if s.now - s.server.records[n].rotatedAt.value <= s.policy.reuseGrace then
              server == s.server && answer == Refused(RefreshSuperseded)
            else
              answer == Refused(SessionRevoked) && StateOf(server.records[n], s.now) == Revoked &&
              StatusAfterRefreshError(ErrorOf(SessionRevoked)) == RevokedStatus
  {
    PreviousTokenIsFound(s, presented, n);
    hide Inv;
  }

  /** A previous token belongs to one record only and is nobody's current token. */
  lemma PreviousTokenIsFound(s: System, presented: Issued, n: nat)
    requires Inv(s) && n < |s.server.records| && s.server.records[n].previous == Some(presented.refresh)
    ensures presented.refresh.RefreshToken?
    ensures Locate(s.server.records, presented.refresh, 0) == n && s.server.records[n].refresh != presented.refresh
  {
    var records := s.server.records;
    var r := records[n];
    assert r in records;
    var e :| e in s.issued && e.session.sid == r.sid && e.session.generation < r.generation && e.refresh == presented.refresh;
    var m := Locate(records, presented.refresh, 0);
    assert records[m] in records;
    var g :| Newest(s.issued, g) && Carries(records[m], g);
    if records[m].refresh == presented.refresh {
      SameTokenSameEntry(s.issued, e, g);
    } else {
      var f :| f in s.issued && f.session.sid == records[m].sid && f.refresh == presented.refresh;
      SameTokenSameEntry(s.issued, e, f);
    }
  }

  // --- Two ways out of the promised behaviour ------------------------------------------------

  lemma {:induction false} RunAppend(s: System, steps: seq<Step>, last: Step)
    requires ValidRun(s, steps) && Enabled(Run(s, steps), last)
    ensures ValidRun(s, steps + [last]) && Run(s, steps + [last]) == Next(Run(s, steps), last)
    decreases |steps|
  {
    if steps == [] {
      assert Run(Next(s, last), []) == Next(s, last);
    } else {
      assert (steps + [last])[1..] == steps[1..] + [last];
      RunAppend(Next(s, steps[0]), steps[1..], last);
    }
  }

  /** One tab signs in. */
  lemma SignInRun(s0: System) returns (steps: seq<Step>)
    requires Initial(s0)
    ensures ValidRun(s0, steps)
    ensures var s := Run(s0, steps);
            && |s.tabs| == 1 && |s.ops| == 1 && s.tabs[0].tokens.Some? && s.tabs[0].inflight.None? && s.tabs[0].hydrated
            && s.cell == Stored(s.tabs[0].tokens.value) && s.policy == s0.policy && s.now == s0.now
            && |s.server.records| == 1 && s.server.records[0].refresh == s.tabs[0].tokens.value.refresh
            && s.server.records[0] == Rotate(SessionRecord(0, 1, AccessToken(0), s0.now, RefreshToken(0), None, None, s0.now,
                                                           s0.now + s0.policy.maxLifetime, None), s0.now, s0.policy, 0)
            && s.tabs[0].tokens.value == IssuedFor(s.server.records[0], s0.now, s0.policy)
  {
    var h := Health(true, true);
    steps := [];
    assert Run(s0, steps) == s0;
    RunAppend(s0, steps, OpenTab(h));
    steps := steps + [OpenTab(h)];
    RunAppend(s0, steps, MountEffect(0, h));
    steps := steps + [MountEffect(0, h)];
    RunAppend(s0, steps, LoginCall(0));
    steps := steps + [LoginCall(0)];
    RunAppend(s0, steps, ServeLogin(0));
    steps := steps + [ServeLogin(0)];
    RunAppend(s0, steps, HandleReply(0, h));
    steps := steps + [HandleReply(0, h)];
  }

  /** Signing out during a refresh that then fails with a network error shows an active session without tokens. */
  lemma SignOutInFlightBreaksCoherence(s: System, t: nat, h: Health)
    requires t < |s.tabs| && s.tabs[t].tokens.Some? && s.tabs[t].inflight.None?
    ensures var k, loss := |s.ops|, Lose(|s.ops|, ApiClientError(NetworkError, true));
            var s1 := Next(s, RefreshCall(t));
            var s2 := Took(s1, LogoutCall(t, h));
            var s3 := Took(s2, loss);
            var s4 := Took(s3, HandleReply(k, h));
            && Enabled(s1, LogoutCall(t, h)) && Enabled(s2, loss) && Enabled(s3, HandleReply(k, h)) && t < |s4.tabs|
            && s4.tabs[t].status == Active && s4.tabs[t].tokens.None? && s4.tabs[t].session.None? && !AllCoherent(s4)
  {
    var k, err := |s.ops|, ApiClientError(NetworkError, true);
    var s1 := Next(s, RefreshCall(t));
    assert s1.ops[k] == Op(t, RefreshOf(s.tabs[t].tokens.value), Sent);
    var s2 := Next(s1, LogoutCall(t, h));
    var s3 := Next(s2, Lose(k, err));
    assert s3.ops[k] == Op(t, RefreshOf(s.tabs[t].tokens.value), Answered(Rejects(err))) && s3.tabs[t].tokens.None?;
    hide Enabled;
    FailureOnEmptyTab(s3, t, k, err, h);
  }

  lemma FailureOnEmptyTab(s: System, t: nat, k: nat, err: ClientError, h: Health)
    requires t < |s.tabs| && s.tabs[t].tokens.None? && s.tabs[t].session.None? && k < |s.ops|
    requires s.ops[k].tab == t && s.ops[k].kind.RefreshOf? && s.ops[k].phase == Answered(Rejects(err))
    requires err == ApiClientError(NetworkError, true)
    ensures Enabled(s, HandleReply(k, h))
    ensures var s' := Next(s, HandleReply(k, h));
            && |s'.tabs| == |s.tabs| && s'.tabs[t].status == Active && s'.tabs[t].tokens.None? && s'.tabs[t].session.None?
            && !AllCoherent(s')
  {
  }

  /** After a refused write a storage event takes the tab back to the tokens it has just used up. */
  lemma RefusedWriteTakesTabBack(s: System, t: nat, n: nat)
    requires Inv(s) && t < |s.tabs| && n < |s.server.records| && s.tabs[t].hydrated
    requires s.tabs[t].inflight.None? && s.tabs[t].tokens.Some? && s.cell == Stored(s.tabs[t].tokens.value)
    requires s.server.records[n].refresh == s.tabs[t].tokens.value.refresh && StateOf(s.server.records[n], s.now) == Live
    requires s.tabs[t].tokens.value.session.refreshExpiresAt > s.now
    ensures var k, deaf := |s.ops|, Health(true, false);
            var s1 := Next(s, RefreshCall(t));
            var s2 := Took(s1, ServeRefresh(k));
            var s3 := Took(s2, HandleReply(k, deaf));
            var s4 := Took(s3, StorageEvent(t, Health(true, true)));
            && Enabled(s1, ServeRefresh(k)) && Enabled(s2, HandleReply(k, deaf)) && Enabled(s3, StorageEvent(t, Health(true, true)))
            && t < |s3.tabs| && t < |s4.tabs| && GoesBack(s3.tabs[t], s4.tabs[t])
  {
    var k, deaf := |s.ops|, Health(true, false);
    var s1 := Next(s, RefreshCall(t));
    hide Inv, RefreshSession, Next, Enabled, GoesBack;
    HolderRenews(s, t, n, deaf);
    var s2 := Took(s1, ServeRefresh(k));
    RereadGoesBack(Took(s2, HandleReply(k, deaf)), t, s.tabs[t].tokens.value);
  }

  /** A storage event makes a tab read tokens older than its own. */
  lemma RereadGoesBack(s: System, t: nat, stored: Issued)
    requires t < |s.tabs| && s.tabs[t].hydrated && s.tabs[t].tokens.Some?
    requires s.cell == Stored(stored) && stored.session.refreshExpiresAt > s.now
    requires s.tabs[t].tokens.value.session.sid == stored.session.sid
    requires s.tabs[t].tokens.value.session.generation > stored.session.generation
    ensures var event := StorageEvent(t, Health(true, true));
            Enabled(s, event) && |Next(s, event).tabs| == |s.tabs| && GoesBack(s.tabs[t], Next(s, event).tabs[t])
  {
  }

  // --- getAccessToken -------------------------------------------------------------------------

  /** A call of `getAccessToken`: waiting for the refresh under way, waiting for the one it asked for, or resolved. */
  datatype TokenCall = JoinsRefresh(t: nat, k: nat) | AsksRefresh(t: nat, k: nat) | Resolved(t: nat, access: Option<Token>)

  function HeldAccess(s: System, t: nat): Option<Token>
    requires t < |s.tabs|
  {
    match s.tabs[t].tokens
    case Some(i) => Some(i.access)
    case None => None
  }

  /** The part after the first wait. */
  function CheckTokens(s: System, t: nat): (System, TokenCall)
    requires Slots(s) && t < |s.tabs|
  {
    var tokens := s.tabs[t].tokens;
    if tokens.Some? && tokens.value.session.refreshAfter <= s.now then
      var s' := Refreshed(s, t);
      (s', AsksRefresh(t, s'.tabs[t].inflight.value))
    else (s, Resolved(t, HeldAccess(s, t)))
  }

  function GetAccessToken(s: System, t: nat): (System, TokenCall)
    requires Slots(s) && t < |s.tabs|
  {
    var inflight := s.tabs[t].inflight;
    if inflight.Some? then (s, JoinsRefresh(t, inflight.value)) else CheckTokens(s, t)
  }

  /** A waiting call goes on only when the refresh it waits for is over. */
  predicate CanResume(s: System, call: TokenCall) {
    !call.Resolved? && call.t < |s.tabs| && call.k < |s.ops| && s.ops[call.k].phase.Closed?
  }

  function Resume(s: System, call: TokenCall): (System, TokenCall)
    requires Slots(s) && CanResume(s, call)
  {
    match call
    case JoinsRefresh(t, _) => CheckTokens(s, t)
    case AsksRefresh(t, _) => (s, Resolved(t, HeldAccess(s, t)))
  }

  /** What a call is owed: it waits for its own tab's unfinished refresh, or gets the token held now, null only when none is. */
  predicate SoundCall(s: System, t: nat, call: TokenCall)
    requires t < |s.tabs|
  {
    && call.t == t
    && (!call.Resolved? ==> call.k < |s.ops| && Unfinished(s.ops[call.k]) && s.ops[call.k].tab == t && s.tabs[t].inflight == Some(call.k))
    && (call.Resolved? ==> call.access == HeldAccess(s, t) && (call.access.None? <==> s.tabs[t].tokens.None?))
  }

  predicate NotDue(s: System, t: nat)
    requires t < |s.tabs|
  {
    s.tabs[t].tokens.Some? ==> s.tabs[t].tokens.value.session.refreshAfter > s.now
  }

  /** A fresh call never hands out a token that is due without asking for a refresh first. */
  lemma FreshCallIsSound(s: System, t: nat)
    requires Slots(s) && t < |s.tabs|
    ensures var (s', call) := GetAccessToken(s, t);
            Slots(s') && SoundCall(s', t, call) && (call.Resolved? ==> NotDue(s', t))
  {
  }

  /** After the refresh it joined, a call checks again; after the one it asked for, it takes what is there. */
  lemma ResumedCallIsSound(s: System, call: TokenCall)
    requires Slots(s) && CanResume(s, call)
    ensures var (s', next) := Resume(s, call);
            && Slots(s') && SoundCall(s', call.t, next)
            && (call.JoinsRefresh? && next.Resolved? ==> NotDue(s', call.t))
            && (call.AsksRefresh? ==> next.Resolved?)
  {
    RefreshCallKeepsSlots(s, call.t);
  }

  /**
   What a call does, exactly: it joins the refresh under way, if there is one, even for a token that is not
   due; else it asks for one if the token is due, and resolves at once only if there is nothing to wait for.
   */
  lemma WhatACallDoes(s: System, t: nat)
    requires Slots(s) && t < |s.tabs|
    ensures var (s', call), tab := GetAccessToken(s, t), s.tabs[t];
            var due := tab.tokens.Some? && tab.tokens.value.session.refreshAfter <= s.now;
            && (tab.inflight.Some? ==> s' == s && call == JoinsRefresh(t, tab.inflight.value))
            && (tab.inflight.None? && due ==> call == AsksRefresh(t, |s.ops|) && s'.ops == s.ops + [Op(t, RefreshOf(tab.tokens.value), Sent)])
            && (tab.inflight.None? && !due ==> s' == s && call == Resolved(t, HeldAccess(s, t)))
  {
  }
}
