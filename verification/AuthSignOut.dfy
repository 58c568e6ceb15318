/** What a sign-out achieves, and how a refresh that is under way at that moment undoes it. */
module AuthSignOut {
  import opened Wrappers
  import opened AuthServer
  import opened AuthClient
  import opened AuthProtocol
  import opened AuthTheorems
  import opened AuthRenewal

  /** Nothing can put tokens into a tab any more: no tab or storage has any, and no refresh or login is unfinished. */
  predicate Quiet(s: System) {
    && (forall t :: 0 <= t < |s.tabs| ==> s.tabs[t].tokens.None?)
    && !s.cell.Stored?
    && (forall k :: 0 <= k < |s.ops| ==> s.ops[k].kind.NothingToRefresh? || s.ops[k].phase.Finishing? || s.ops[k].phase.Closed?)
  }

  /** No request of a client that has given up is still on its way. */
  predicate NothingLate(s: System) { s.late == multiset{} && s.lateLogins == 0 }

  lemma QuietLocally(s: System, t: nat, l: Local)
    requires Quiet(s) && t < |s.tabs| && l.tab.tokens.None? && !l.cell.Stored?
    ensures Quiet(WithLocal(s, t, l))
  {
  }

  lemma QuietElsewhere(s: System, s': System)
    requires Quiet(s) && s'.tabs == s.tabs && s'.cell == s.cell && s'.ops == s.ops
    ensures Quiet(s')
  {
  }

  lemma QuietCallsEnd(s: System, t: nat, k: nat)
    requires Quiet(s)
    ensures t < |s.tabs| ==> Quiet(Refreshed(s, t))
    ensures k < |s.ops| && s.ops[k].tab < |s.tabs| ==>
              Quiet(WithPhase(s.(tabs := s.tabs[s.ops[k].tab := s.tabs[s.ops[k].tab].(inflight := None)]), k, Closed))
  {
  }

  lemma StepKeepsQuiet(s: System, step: Step)
    requires Quiet(s) && Enabled(s, step) && !step.LoginCall?
    ensures Quiet(Next(s, step))
    ensures NothingLate(s) ==> NothingLate(Next(s, step)) && Next(s, step).issued == s.issued
  {
    match step
    case MountEffect(t, h) => QuietLocally(s, t, Hydrate(LocalOf(s, t), s.now, h));
    case StorageEvent(t, h) => QuietLocally(s, t, OnStorage(LocalOf(s, t), s.now, h));
    case LogoutCall(t, h) => QuietLocally(s, t, AuthClient.Logout(LocalOf(s, t), h));
    case RefreshCall(t) => QuietCallsEnd(s, t, 0);
    case RunFinally(k) => QuietCallsEnd(s, 0, k);
    case Tick(_) => QuietElsewhere(s, Next(s, step));
    case ServeDelete(_) => QuietElsewhere(s, Next(s, step));
    case ServeLate(_) => QuietElsewhere(s, Next(s, step));
    case ServeLateLogin => QuietElsewhere(s, Next(s, step));
    case RestartServer => QuietElsewhere(s, Next(s, step));
    case OpenTab(_) =>
    case Tamper(_) =>
    case _ =>
  }

  /** Then no run without a new sign-in brings a session back to a tab, and unless late requests arrive the server issues nothing. */
  lemma {:induction false} SignedOutForGood(s: System, steps: seq<Step>)
    requires Quiet(s) && ValidRun(s, steps) && forall i :: 0 <= i < |steps| ==> !steps[i].LoginCall?
    ensures Quiet(Run(s, steps)) && (NothingLate(s) ==> Run(s, steps).issued == s.issued)
    decreases |steps|
  {
    if steps != [] {
      StepKeepsQuiet(s, steps[0]);
      SignedOutForGood(Next(s, steps[0]), steps[1..]);
    }
  }

  /** Nobody's access token is a token that has been replaced. */
  lemma ReplacedAccessIsNobodys(server: Server, log: seq<Issued>, old_: Issued, newer: Issued, r: SessionRecord)
    requires Ledger(server, log) && old_ in log && newer in log && r in server.records
    requires newer.session.sid == old_.session.sid && newer.session.generation > old_.session.generation
    ensures r.access != old_.access
  {
  }

  // --- What a DELETE achieves -----------------------------------------------------------------

  /**
   A DELETE with the access token of a session ends it if and only if that token is the newest issued
   for the session and has not expired, whoever else may have refreshed meanwhile.
   */
  lemma WhenDeleteRevokes(s: System, held: Issued, n: nat)
    requires Inv(s) && held in s.issued && n < |s.server.records| && s.server.records[n].sid == held.session.sid
    requires StateOf(s.server.records[n], s.now) == Live
    ensures |SignOut(s.server, held.access, s.now).records| == |s.server.records|
    ensures SignOut(s.server, held.access, s.now).records[n].revokedAt.Some? <==>
            Newest(s.issued, held) && s.now < s.server.records[n].accessExpiresAt
  {
    var records := s.server.records;
    assert records[n] in records;
    var e :| Newest(s.issued, e) && Carries(records[n], e);
    if Newest(s.issued, held) {
      SameGenerationSameEntry(s.issued, e, held);
      CurrentAccessIsFound(s, held, n);
    } else {
      ReplacedAccessIsNobodys(s.server, s.issued, held, e, records[n]);
    }
    assert LocateAccess(records, held.access, 0) == n ==> records[n].access == held.access;
    hide Inv, Ledger;
  }

  /** No record of this session is unrevoked, and no later one can be of it. */
  predicate Dead(s: System, sid: nat) {
    sid < s.server.nextSid && forall r :: r in s.server.records && r.sid == sid ==> r.revokedAt.Some?
  }

  lemma RefreshKeepsDead(server: Server, presented: Token, now: int, p: Policy, sid: nat)
    requires forall r :: r in server.records && r.sid == sid ==> r.revokedAt.Some?
    ensures forall r :: r in RefreshSession(server, presented, now, p).0.records && r.sid == sid ==> r.revokedAt.Some?
    ensures RefreshSession(server, presented, now, p).1.Granted? ==> RefreshSession(server, presented, now, p).1.issued.session.sid != sid
  {
    var n := Locate(server.records, presented, 0);
    if n < |server.records| { assert server.records[n] in server.records; }
  }

  lemma OthersKeepDead(server: Server, access: Token, now: int, p: Policy, sid: nat)
    requires sid < server.nextSid && DistinctSids(server.records)
    requires forall r :: r in server.records && r.sid == sid ==> r.revokedAt.Some?
    ensures forall r :: r in SignOut(server, access, now).records && r.sid == sid ==> r.revokedAt.Some?
    ensures forall r :: r in CreateSession(server, now, p).0.records && r.sid == sid ==> r.revokedAt.Some?
    ensures CreateSession(server, now, p).1.session.sid != sid
  {
    PurgeKeepsSome(server.records, now, p);
    var n := LocateAccess(server.records, access, 0);
    if n < |server.records| { assert server.records[n] in server.records; }
  }

  lemma StepKeepsDead(s: System, step: Step, sid: nat)
    requires Inv(s) && Dead(s, sid) && Enabled(s, step)
    ensures Dead(Next(s, step), sid)
    ensures forall e :: e in Next(s, step).issued && e.session.sid == sid ==> e in s.issued
  {
    SessionNumbersGrow(s, step);
    IssuedByStep(s, step);
    var presented, access := ServerOfStep(s, step);
    hide Inv, Next, Enabled, RefreshSession, CreateSession, SignOut;
    RefreshKeepsDead(s.server, presented, s.now, s.policy, sid);
    assert DistinctSids(s.server.records) by { SidsAreDistinct(s); }
    OthersKeepDead(s.server, access, s.now, s.policy, sid);
    match step
    case ServeRefresh(k) => RefreshKeepsDead(s.server, s.ops[k].kind.current.refresh, s.now, s.policy, sid);
    case ServeLate(current) => RefreshKeepsDead(s.server, current.refresh, s.now, s.policy, sid);
    case _ =>
  }

  lemma SidsAreDistinct(s: System)
    requires Inv(s)
    ensures DistinctSids(s.server.records)
  {
  }

  /** A revoked session stays revoked in every run, and nothing is ever issued for it again. */
  lemma {:induction false} RevokedForever(s: System, steps: seq<Step>, sid: nat)
    requires Inv(s) && Dead(s, sid) && ValidRun(s, steps)
    ensures Dead(Run(s, steps), sid)
    ensures forall e :: e in Run(s, steps).issued && e.session.sid == sid ==> e in s.issued
    decreases |steps|
  {
    hide Inv, Dead, Next, Enabled;
    if steps != [] {
      StepKeepsInv(s, steps[0]);
      StepKeepsDead(s, steps[0], sid);
      RevokedForever(Next(s, steps[0]), steps[1..], sid);
    }
  }

  /** So a DELETE handled at any moment of any run ends the session for good exactly under the condition above. */
  lemma DeleteEndsSession(s: System, held: Issued, n: nat, steps: seq<Step>)
    requires Inv(s) && held in s.issued && held.access in s.deletes
    requires n < |s.server.records| && s.server.records[n].sid == held.session.sid && StateOf(s.server.records[n], s.now) == Live
    requires Enabled(s, ServeDelete(held.access)) && ValidRun(Next(s, ServeDelete(held.access)), steps)
    ensures Dead(Next(s, ServeDelete(held.access)), held.session.sid) <==>
            Newest(s.issued, held) && s.now < s.server.records[n].accessExpiresAt
    ensures Newest(s.issued, held) && s.now < s.server.records[n].accessExpiresAt ==>
            forall e :: e in Run(Next(s, ServeDelete(held.access)), steps).issued && e.session.sid == held.session.sid ==> e in s.issued
  {
    var s' := Next(s, ServeDelete(held.access));
    WhenDeleteRevokes(s, held, n);
    StepKeepsInv(s, ServeDelete(held.access));
    DeleteIsServed(s, held.access);
    SidsAreDistinct(s');
    assert held.session.sid < s.server.nextSid by { assert Numbered(held, s.server); }
    SignOutKeepsSids(s.server, held.access, s.now);
    assert s'.server.records[n] in s'.server.records;
    hide Inv, Next, SignOut, Newest;
    if Dead(s', held.session.sid) { RevokedForever(s', steps, held.session.sid); }
  }

  lemma SignOutKeepsSids(server: Server, access: Token, now: int)
    ensures var out := SignOut(server, access, now);
            && out.nextSid == server.nextSid && |out.records| == |server.records|
            && forall i :: 0 <= i < |server.records| ==> out.records[i].sid == server.records[i].sid
  {
  }

  // --- Signing out during a refresh -----------------------------------------------------------

  /**
   Tab `t` has signed out while its refresh `k` was on its way: neither that request, presenting the
   current token of live record `n`, nor the DELETE with the matching access token has arrived.
   */
  predicate Racing(s: System, t: nat, k: nat, n: nat) {
    && t < |s.tabs| && s.tabs[t].tokens.None?
    && k < |s.ops| && s.ops[k].tab == t && s.ops[k].kind.RefreshOf? && s.ops[k].phase.Sent? && s.ops[k].kind.current.access in s.deletes
    && n < |s.server.records| && s.server.records[n].refresh == s.ops[k].kind.current.refresh
    && StateOf(s.server.records[n], s.now) == Live
  }

  /** A tab that holds the current token gets there by calling refresh and then logout. */
  lemma RaceStarts(s: System, t: nat, n: nat, h: Health)
    requires Inv(s) && t < |s.tabs| && s.tabs[t].inflight.None? && s.tabs[t].tokens.Some?
    requires n < |s.server.records| && s.server.records[n].refresh == s.tabs[t].tokens.value.refresh
    requires StateOf(s.server.records[n], s.now) == Live
    ensures var s1 := Took(s, RefreshCall(t));
            var s2 := Took(s1, LogoutCall(t, h));
            && Enabled(s, RefreshCall(t)) && Enabled(s1, LogoutCall(t, h)) && Inv(s2)
            && s2.tabs[t].status == SignedOut && Racing(s2, t, |s.ops|, n)
  {
    StepKeepsInv(s, RefreshCall(t));
    StepKeepsInv(Next(s, RefreshCall(t)), LogoutCall(t, h));
    hide Inv;
    RefreshCallEffect(s, t);
    var s1 := Next(s, RefreshCall(t));
    LogoutEffect(s1, t, h);
    hide Next, Enabled;
  }

  lemma LogoutEffect(s: System, t: nat, h: Health)
    requires t < |s.tabs| && s.tabs[t].tokens.Some?
    ensures Enabled(s, LogoutCall(t, h))
    ensures var s' := Next(s, LogoutCall(t, h));
            && s'.ops == s.ops && |s'.tabs| == |s.tabs| && s'.server == s.server && s'.now == s.now
            && s'.tabs[t].tokens.None? && s'.tabs[t].status == SignedOut && s.tabs[t].tokens.value.access in s'.deletes
  {
  }

  /** The server handles both requests, in either order, and the tab gets its reply. */
  function RaceSteps(s: System, t: nat, k: nat, deleteFirst: bool, h: Health): seq<Step>
    requires k < |s.ops| && s.ops[k].kind.RefreshOf?
  {
    var delete_ := ServeDelete(s.ops[k].kind.current.access);
    (if deleteFirst then [delete_, ServeRefresh(k)] else [ServeRefresh(k), delete_]) + [HandleReply(k, h)]
  }

  predicate ThreeSteps(s: System, steps: seq<Step>, s': System)
    requires |steps| == 3
  {
    var s1 := Took(s, steps[0]);
    var s2 := Took(s1, steps[1]);
    Enabled(s, steps[0]) && Enabled(s1, steps[1]) && Enabled(s2, steps[2]) && s' == Next(s2, steps[2])
  }

  /** Signed out on both sides: the tab has no tokens and the record is revoked. */
  predicate SignedOutOnBothSides(s: System, t: nat, n: nat) {
    && t < |s.tabs| && s.tabs[t].tokens.None? && n < |s.server.records| && StateOf(s.server.records[n], s.now) == Revoked
  }

  /** Signed in again: an active tab with the current token of a record nobody revoked. */
  predicate SignedInAgain(s: System, t: nat, n: nat) {
    && t < |s.tabs| && s.tabs[t].status == Active && s.tabs[t].tokens.Some?
    && n < |s.server.records| && s.server.records[n].revokedAt.None? && s.server.records[n].refresh == s.tabs[t].tokens.value.refresh
  }

  /**
   Whether such a sign-out holds, no other request of the session being handled meanwhile: exactly if the
   server handles the DELETE first and its access token has not expired. Otherwise it is undone on both sides.
   */
  lemma WhenSignOutHolds(s: System, t: nat, k: nat, n: nat, deleteFirst: bool, h: Health) returns (s': System)
    requires Inv(s) && Racing(s, t, k, n)
    ensures ThreeSteps(s, RaceSteps(s, t, k, deleteFirst, h), s')
    ensures SignedOutOnBothSides(s', t, n) <==> deleteFirst && s.now < s.server.records[n].accessExpiresAt
    ensures !SignedOutOnBothSides(s', t, n) ==> SignedInAgain(s', t, n)
  {
    hide Inv;
    if !deleteFirst {
      s' := RefreshFirst(s, t, k, n, h);
    } else {
      if s.now < s.server.records[n].accessExpiresAt { s' := DeleteFirst(s, t, k, n, h); } else { s' := ExpiredDeleteFirst(s, t, k, n, h); }
    }
  }

  /** The DELETE names a token that no longer exists. */
  lemma RefreshFirst(s: System, t: nat, k: nat, n: nat, h: Health) returns (s': System)
    requires Inv(s) && Racing(s, t, k, n)
    ensures ThreeSteps(s, RaceSteps(s, t, k, false, h), s') && SignedInAgain(s', t, n)
  {
    var held := s.ops[k].kind.current;
    RefreshIsServed(s, k, n);
    hide Inv, Next, Enabled, Served, Handled, Ledger;
    var s1 := Next(s, ServeRefresh(k));
    var newer := s1.ops[k].phase.reply.issued;
    var m := LocateAccess(s1.server.records, held.access, 0);
    if m < |s1.server.records| {
      ReplacedAccessIsNobodys(s1.server, s1.issued, held, newer, s1.server.records[m]);
    }
    DeleteIsServed(s1, held.access);
    var s2 := Next(s1, ServeDelete(held.access));
    ReplyIsHandled(s2, k, h);
    s' := Next(s2, HandleReply(k, h));
  }

  /** The DELETE is refused, so the refresh finds a live session. */
  lemma ExpiredDeleteFirst(s: System, t: nat, k: nat, n: nat, h: Health) returns (s': System)
    requires Inv(s) && Racing(s, t, k, n) && s.now >= s.server.records[n].accessExpiresAt
    ensures ThreeSteps(s, RaceSteps(s, t, k, true, h), s') && SignedInAgain(s', t, n)
  {
    var held := s.ops[k].kind.current;
    CurrentAccessIsFound(s, held, n);
    DeleteIsServed(s, held.access);
    var s1 := Next(s, ServeDelete(held.access));
    StepKeepsInv(s, ServeDelete(held.access));
    RefreshIsServed(s1, k, n);
    hide Inv, Next, Enabled, Served, Handled, Ledger;
    var s2 := Next(s1, ServeRefresh(k));
    ReplyIsHandled(s2, k, h);
    s' := Next(s2, HandleReply(k, h));
  }

  /** The refresh finds a revoked session. */
  lemma DeleteFirst(s: System, t: nat, k: nat, n: nat, h: Health) returns (s': System)
    requires Inv(s) && Racing(s, t, k, n) && s.now < s.server.records[n].accessExpiresAt
    ensures ThreeSteps(s, RaceSteps(s, t, k, true, h), s') && SignedOutOnBothSides(s', t, n)
  {
    var held := s.ops[k].kind.current;
    CurrentAccessIsFound(s, held, n);
    DeleteIsServed(s, held.access);
    var s1 := Next(s, ServeDelete(held.access));
    StepKeepsInv(s, ServeDelete(held.access));
    RefreshIsRefused(s1, k, n);
    hide Inv, Next, Enabled, Served, Handled;
    var s2 := Next(s1, ServeRefresh(k));
    ReplyIsHandled(s2, k, h);
    s' := Next(s2, HandleReply(k, h));
  }

  lemma DeleteIsServed(s: System, access: Token)
    requires access in s.deletes
    ensures Enabled(s, ServeDelete(access))
    ensures Next(s, ServeDelete(access)) == s.(server := SignOut(s.server, access, s.now), deletes := s.deletes - {access})
  {
  }

  lemma RefreshIsRefused(s: System, k: nat, n: nat)
    requires Inv(s) && k < |s.ops| && s.ops[k].kind.RefreshOf? && s.ops[k].phase.Sent?
    requires n < |s.server.records| && s.server.records[n].refresh == s.ops[k].kind.current.refresh
    requires StateOf(s.server.records[n], s.now) == Revoked
    ensures Enabled(s, ServeRefresh(k))
    ensures Next(s, ServeRefresh(k)) == WithPhase(s, k, Answered(Rejects(ErrorOf(SessionRevoked))))
  {
    CurrentTokenIsFound(s, s.server.records[n], n);
    assert s.ops[k].kind.current in s.issued;
  }

  lemma CurrentAccessIsFound(s: System, held: Issued, n: nat)
    requires Inv(s) && held in s.issued && n < |s.server.records| && s.server.records[n].refresh == held.refresh
    ensures s.server.records[n].access == held.access && LocateAccess(s.server.records, held.access, 0) == n
  {
    var records := s.server.records;
    assert records[n] in records;
    var e :| Newest(s.issued, e) && Carries(records[n], e);
    SameTokenSameEntry(s.issued, e, held);
    var m := LocateAccess(records, held.access, 0);
    LocateAccessFinds(records, held.access, 0, n);
    assert records[m] in records;
    var f :| Newest(s.issued, f) && Carries(records[m], f);
    assert Numbered(f, s.server) && Numbered(held, s.server);
    SameTokenSameEntry(s.issued, f, held);
  }

  lemma {:induction false} LocateAccessFinds(records: seq<SessionRecord>, access: Token, i: nat, n: nat)
    requires i <= n < |records| && records[n].access == access
    ensures LocateAccess(records, access, i) <= n
    decreases n - i
  {
    if records[i].access != access { LocateAccessFinds(records, access, i + 1, n); }
  }

  // --- Signing in during a refresh ------------------------------------------------------------

  /**
   A refresh reply is taken whatever the tab holds by then. It moves the tab, and storage, to another
   session exactly when the tab has signed in to one since it asked.
   */
  lemma LateReplySwitchesSession(s: System, k: nat, h: Health)
    requires Inv(s) && Enabled(s, HandleReply(k, h)) && InFlight(s.ops[k]) && s.ops[k].kind.RefreshOf?
    requires s.tabs[s.ops[k].tab].tokens.Some?
    ensures var t, s', i := s.ops[k].tab, Next(s, HandleReply(k, h)), s.ops[k].phase.reply.issued;
            && |s'.tabs| == |s.tabs| && s'.tabs[t].tokens == Some(i) && s'.cell == (if h.canWrite then Stored(i) else s.cell)
            && (i.session.sid != s.tabs[t].tokens.value.session.sid <==>
                s.ops[k].kind.current.session.sid != s.tabs[t].tokens.value.session.sid)
  {
    assert s.ops[k].phase.reply.issued.session.sid == s.ops[k].kind.current.session.sid;
    hide Inv;
  }
}
