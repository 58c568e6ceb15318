/**
 What tabs and the storage they share tell each other: what a tab makes of storage when it opens, mounts or
 is notified, what sign-ins, refreshes and sign-outs leave there, and how a sign-out reaches every tab.
 */
module AuthStorage {
  import opened Wrappers
  import opened AuthServer
  import opened AuthClient
  import opened AuthProtocol
  import opened AuthTheorems
  import opened AuthRenewal
  import opened AuthSignOut

  /** The stored session a browser that lets its storage be read would still refresh. */
  function Readable(s: System, canRead: bool): Option<Issued> {
    if canRead && s.cell.Stored? && s.now < s.cell.issued.session.refreshExpiresAt then Some(s.cell.issued) else None
  }

  /** Reading storage fails, or finds text that is no session. */
  predicate Troubled(s: System, h: Health) { !h.canRead || s.cell.Corrupt? }

  /** Such text is removed by whoever reads it, if the browser lets them. */
  function Cleaned(s: System, h: Health): Cell { if h.canRead && h.canWrite && s.cell.Corrupt? then Empty else s.cell }

  predicate ShowsSession(tab: Tab, i: Issued) { tab.status == Active && tab.tokens == Some(i) && tab.session == Some(i.session) }

  predicate ShowsNothing(tab: Tab, status: Status) { tab.status == status && tab.tokens.None? && tab.session.None? }

  // --- Reading --------------------------------------------------------------------------------

  /** A tab that opens shows the stored session if it is open, says so if it has lapsed, and is signed out otherwise. */
  lemma OpeningReadsStorage(s: System, h: Health)
    ensures var s' := Next(s, OpenTab(h));
            && |s'.tabs| == |s.tabs| + 1 && (forall t :: 0 <= t < |s.tabs| ==> s'.tabs[t] == s.tabs[t])
            && var tab := s'.tabs[|s.tabs|];
            && (Readable(s, h.canRead).Some? ==> ShowsSession(tab, s.cell.issued))
            && (Readable(s, h.canRead).None? ==> ShowsNothing(tab, if h.canRead && s.cell.Stored? then Expired else SignedOut))
            && tab.inflight.None? && !tab.hydrated && tab.error.None? && tab.hadInitial == (h.canRead && s.cell.Stored?)
            && tab.persistenceError == Troubled(s, h) && s'.cell == Cleaned(s, h)
  {
  }

  /** A notified tab takes up the stored session, whether it had one or not, and is signed out if there is none to refresh. */
  lemma NotifiedTabFollows(s: System, t: nat, h: Health)
    requires Enabled(s, StorageEvent(t, h))
    ensures var s' := Next(s, StorageEvent(t, h));
            && |s'.tabs| == |s.tabs| && (forall u :: 0 <= u < |s.tabs| && u != t ==> s'.tabs[u] == s.tabs[u])
            && (Readable(s, h.canRead).Some? ==> ShowsSession(s'.tabs[t], s.cell.issued) && s'.tabs[t].error.None?)
            && (Readable(s, h.canRead).None? ==> ShowsNothing(s'.tabs[t], SignedOut))
            && s'.tabs[t].inflight == s.tabs[t].inflight && s'.cell == Cleaned(s, h)
            && s'.tabs[t].persistenceError == (s.tabs[t].persistenceError || Troubled(s, h))
  {
  }

  /** A mounted tab takes up the stored session; one that has lapsed it ends for all, and one that is gone it gives up. */
  lemma MountedTabFollows(s: System, t: nat, h: Health)
    requires Enabled(s, MountEffect(t, h))
    ensures var s', lapsed := Next(s, MountEffect(t, h)), h.canRead && s.cell.Stored? && Readable(s, h.canRead).None?;
            && |s'.tabs| == |s.tabs| && s'.tabs[t].hydrated
            && (Readable(s, h.canRead).Some? ==> ShowsSession(s'.tabs[t], s.cell.issued) && s'.cell == s.cell)
            && (lapsed ==> ShowsNothing(s'.tabs[t], Expired) && (h.canWrite ==> s'.cell == Empty))
            && (!lapsed && Readable(s, h.canRead).None? && s.tabs[t].hadInitial ==> ShowsNothing(s'.tabs[t], SignedOut) && (h.canWrite ==> s'.cell == Empty))
            && (!lapsed && Readable(s, h.canRead).None? && !s.tabs[t].hadInitial ==>
                  (s'.tabs[t].status, s'.tabs[t].tokens, s'.tabs[t].session) == (s.tabs[t].status, s.tabs[t].tokens, s.tabs[t].session) && s'.cell == Cleaned(s, h))
  {
  }

  // --- Writing --------------------------------------------------------------------------------

  /** A reply that carries tokens, to a refresh or a sign-in, is shown and stored, and storage trouble reported. */
  lemma DeliveryIsShownAndStored(s: System, k: nat, h: Health)
    requires Enabled(s, HandleReply(k, h)) && InFlight(s.ops[k])
    ensures var s', t, i := Next(s, HandleReply(k, h)), s.ops[k].tab, s.ops[k].phase.reply.issued;
            && |s'.tabs| == |s.tabs| && ShowsSession(s'.tabs[t], i) && (s.ops[k].kind.RefreshOf? ==> s'.tabs[t].error.None?)
            && s'.cell == (if h.canWrite then Stored(i) else s.cell) && s'.tabs[t].persistenceError == !h.canWrite
            && s'.now == s.now && s'.ops[k].phase == (if s.ops[k].kind.Login? then Closed else Finishing)
  {
  }

  /** So every tab has it: one that is notified, and one opened later, as long as it can be refreshed. */
  lemma DeliveryReachesAllTabs(s: System, k: nat, h: Health, u: nat)
    requires Enabled(s, HandleReply(k, h)) && InFlight(s.ops[k]) && h.canWrite
    requires u < |s.tabs| && u != s.ops[k].tab && s.tabs[u].hydrated
    requires s.now < s.ops[k].phase.reply.issued.session.refreshExpiresAt
    ensures var i, fine := s.ops[k].phase.reply.issued, Health(true, true);
            var s1 := Next(s, HandleReply(k, h));
            var s2, s3 := Took(s1, StorageEvent(u, fine)), Next(s1, OpenTab(fine));
            && Enabled(s1, StorageEvent(u, fine)) && u < |s2.tabs| && ShowsSession(s2.tabs[u], i)
            && |s3.tabs| == |s.tabs| + 1 && ShowsSession(s3.tabs[|s.tabs|], i)
  {
    var fine := Health(true, true);
    var s1 := Next(s, HandleReply(k, h));
    DeliveryIsShownAndStored(s, k, h);
    assert s1.tabs[u] == s.tabs[u];
    NotifiedTabFollows(s1, u, fine);
    OpeningReadsStorage(s1, fine);
    hide Next;
  }

  /** What a rejected refresh shows, by its error: kept tokens for a retryable one, the end of the session otherwise. */
  function EndStatus(err: ClientError): Option<Status> {
    if err.OtherError? then Some(Failed)
    else if err.code == SessionRevoked then Some(RevokedStatus)
    else if err.code in {SessionExpired, SessionInvalid, Unauthenticated} then Some(Expired)
    else if err.retryable then None
    else Some(Failed)
  }

  lemma RejectedRefreshShows(s: System, k: nat, h: Health)
    requires Enabled(s, HandleReply(k, h)) && s.ops[k].kind.RefreshOf? && s.ops[k].phase.reply.Rejects?
    requires s.ops[k].phase.reply.err.OtherError? || s.ops[k].phase.reply.err.code != RefreshSuperseded
    ensures var s', t, err := Next(s, HandleReply(k, h)), s.ops[k].tab, s.ops[k].phase.reply.err;
            && |s'.tabs| == |s.tabs| && s'.tabs[t].error == (if err.OtherError? then None else Some(err))
            && (EndStatus(err).None? ==> s'.tabs[t].status == Active && s'.tabs[t].tokens == s.tabs[t].tokens &&
                                         s'.tabs[t].session == s.tabs[t].session && s'.cell == s.cell)
            && (EndStatus(err).Some? ==> ShowsNothing(s'.tabs[t], EndStatus(err).value) && (h.canWrite ==> s'.cell == Empty))
            && s'.ops[k].phase == Finishing
  {
  }

  /** A superseded refresh that has settled: it takes other tokens from storage, even lapsed ones, and else fails as any other. */
  lemma SettlingReadsStorage(s: System, k: nat, h: Health)
    requires Enabled(s, Settle(k, h))
    ensures var op, s' := s.ops[k], Next(s, Settle(k, h));
            var t, err := op.tab, op.phase.err;
            var others := h.canRead && s.cell.Stored? && s.cell.issued.refresh != op.kind.current.refresh;
            && |s'.tabs| == |s.tabs| && |s'.ops| == |s.ops| && s'.ops[k].phase == Finishing
            && (others ==> ShowsSession(s'.tabs[t], s.cell.issued) && s'.tabs[t].error.None? && s'.cell == s.cell)
            && (!others ==> s'.tabs[t].error == (if err.OtherError? then None else Some(err)))
            && (!others && EndStatus(err).None? ==> s'.tabs[t].status == Active && s'.tabs[t].tokens == s.tabs[t].tokens &&
                                                    s'.tabs[t].session == s.tabs[t].session && s'.cell == Cleaned(s, h))
            && (!others && EndStatus(err).Some? ==> ShowsNothing(s'.tabs[t], EndStatus(err).value) && (h.canWrite ==> s'.cell == Empty))
  {
  }

  /** One that is superseded changes nothing yet: the call first lets the other tab's write arrive. */
  lemma SupersededWaits(s: System, k: nat, h: Health)
    requires Enabled(s, HandleReply(k, h)) && s.ops[k].kind.RefreshOf? && s.ops[k].phase.reply.Rejects?
    requires s.ops[k].phase.reply.err.ApiClientError? && s.ops[k].phase.reply.err.code == RefreshSuperseded
    ensures var op := s.ops[k];
            Next(s, HandleReply(k, h)) == s.(ops := s.ops[k := op.(phase := Settling(op.phase.reply.err))])
  {
  }

  lemma FailedSignInShows(s: System, k: nat, h: Health)
    requires Enabled(s, HandleReply(k, h)) && s.ops[k].kind.Login? && s.ops[k].phase.reply.Rejects?
    ensures var s', t, err := Next(s, HandleReply(k, h)), s.ops[k].tab, s.ops[k].phase.reply.err;
            && |s'.tabs| == |s.tabs| && ShowsNothing(s'.tabs[t], Failed) && s'.tabs[t].error == (if err.OtherError? then None else Some(err))
            && (h.canWrite ==> s'.cell == Empty) && s'.ops[k].phase == Closed
  {
  }

  /** A sign-out shows at once, empties storage, and names the session to revoke. */
  lemma SignOutEmptiesStorage(s: System, t: nat, h: Health)
    requires Enabled(s, LogoutCall(t, h))
    ensures var s' := Next(s, LogoutCall(t, h));
            && |s'.tabs| == |s.tabs| && (forall u :: 0 <= u < |s.tabs| && u != t ==> s'.tabs[u] == s.tabs[u])
            && ShowsNothing(s'.tabs[t], SignedOut) && s'.tabs[t].error.None? && s'.tabs[t].persistenceError == !h.canWrite
            && (h.canWrite ==> s'.cell == Empty) && s'.ops == s.ops && s'.now == s.now
            && s'.deletes == s.deletes + (if s.tabs[t].tokens.Some? then {s.tabs[t].tokens.value.access} else {})
  {
  }

  /** Storage that has been emptied keeps tabs opened later signed out. */
  lemma NothingToOpen(s: System, h: Health)
    requires s.cell == Empty
    ensures |Next(s, OpenTab(h)).tabs| == |s.tabs| + 1 && ShowsNothing(Next(s, OpenTab(h)).tabs[|s.tabs|], SignedOut)
    ensures Next(s, OpenTab(h)).cell == Empty
  {
  }

  /** A call to refresh shows at once if there is something to refresh, and joins the one under way without a trace. */
  lemma AskingShows(s: System, t: nat)
    requires t < |s.tabs|
    ensures var s', tab := Next(s, RefreshCall(t)), s.tabs[t];
            && |s'.tabs| == |s.tabs| && s'.cell == s.cell && s'.server == s.server
            && (tab.inflight.Some? ==> s' == s)
            && (tab.inflight.None? ==> s'.tabs[t].inflight == Some(|s.ops|) && s'.tabs[t].tokens == tab.tokens && s'.tabs[t].session == tab.session)
            && (tab.inflight.None? ==> s'.tabs[t].status == if tab.tokens.Some? then Refreshing else tab.status)
  {
  }

  // --- Who changes what -----------------------------------------------------------------------

  /** The tab whose code a step runs. */
  function Acting(s: System, step: Step): Option<nat>
    requires Enabled(s, step)
  {
    match step
    case MountEffect(t, _) => Some(t)
    case StorageEvent(t, _) => Some(t)
    case RefreshCall(t) => Some(t)
    case LoginCall(t) => Some(t)
    case LogoutCall(t, _) => Some(t)
    case HandleReply(k, _) => Some(s.ops[k].tab)
    case Settle(k, _) => Some(s.ops[k].tab)
    case RunFinally(k) => Some(s.ops[k].tab)
    case _ => None
  }

  predicate OnServer(step: Step) {
    step.ServeRefresh? || step.ServeLogin? || step.ServeDelete? || step.ServeLate? || step.ServeLateLogin? || step.RestartServer?
  }

  /** A tab changes only by its own code, storage only by some tab's or from outside, and the server only by serving or restarting. */
  lemma OnlyActorsChange(s: System, step: Step)
    requires Enabled(s, step)
    ensures var s' := Next(s, step);
            && |s'.tabs| == |s.tabs| + (if step.OpenTab? then 1 else 0)
            && (forall u :: 0 <= u < |s.tabs| && Acting(s, step) != Some(u) ==> s'.tabs[u] == s.tabs[u])
            && (Acting(s, step).None? && !step.OpenTab? && !step.Tamper? ==> s'.cell == s.cell)
            && (!OnServer(step) ==> s'.server == s.server && s'.issued == s.issued)
            && s'.policy == s.policy && s'.now == s.now + if step.Tick? then step.ms else 0
  {
    hide RefreshSession, CreateSession, SignOut, Render, Hydrate, OnStorage, AfterSettle, AuthClient.Logout, BeginLogin, RefreshFailed, LoginFailed, Adopt;
  }

  /** What the server makes of a request is what the client is sent, an answer it retries only if superseded. */
  lemma AnswersAreSent(s: System, k: nat)
    requires Enabled(s, ServeRefresh(k))
    ensures var (server, answer) := RefreshSession(s.server, s.ops[k].kind.current.refresh, s.now, s.policy);
            var s' := Next(s, ServeRefresh(k));
            && s'.server == server && |s'.ops| == |s.ops| && s'.ops[k].phase.Answered?
            && s'.issued == (if answer.Granted? then s.issued + [answer.issued] else s.issued)
            && match s'.ops[k].phase.reply
               case Delivers(i) => answer == Granted(i)
               case Rejects(err) => err.ApiClientError? && answer == Refused(err.code) && (err.retryable <==> err.code == RefreshSuperseded)
  {
    hide RefreshSession;
  }

  /** A call that is given up fails for the client only; its request, if it was still on its way, stays there. */
  lemma GivingUp(s: System, k: nat, err: ClientError)
    requires Enabled(s, Lose(k, err))
    ensures var s', op := Next(s, Lose(k, err)), s.ops[k];
            && s'.ops == s.ops[k := op.(phase := Answered(Rejects(err)))]
            && s'.late == (if op.phase.Sent? && op.kind.RefreshOf? then s.late + multiset{op.kind.current} else s.late)
            && s'.lateLogins == s.lateLogins + (if op.phase.Sent? && op.kind.Login? then 1 else 0)
            && s'.tabs == s.tabs && s'.cell == s.cell && s'.server == s.server
  {
  }

  /** After a restart no session is left: whatever token is presented next is invalid. */
  lemma RestartForgets(s: System, k: nat)
    requires Enabled(s, ServeRefresh(k))
    ensures var s1 := Next(s, RestartServer);
            && Enabled(s1, ServeRefresh(k))
            && var s2 := Next(s1, ServeRefresh(k));
            s2.ops == s.ops[k := s.ops[k].(phase := Answered(Rejects(ApiClientError(SessionInvalid, false))))] && s2.issued == s.issued
  {
  }

  // --- Signing out of every tab ---------------------------------------------------------------

  /** No refresh or sign-in is undecided. */
  predicate NothingAwaited(s: System) {
    forall k :: 0 <= k < |s.ops| ==> s.ops[k].kind.NothingToRefresh? || s.ops[k].phase.Finishing? || s.ops[k].phase.Closed?
  }

  /** A sign-out that nothing else is under way with, in the only tab that has tokens, leaves nothing from which a session could return. */
  lemma SignOutIsQuiet(s: System, t: nat, h: Health)
    requires Enabled(s, LogoutCall(t, h)) && h.canWrite && NothingAwaited(s)
    requires forall u :: 0 <= u < |s.tabs| && u != t ==> s.tabs[u].tokens.None?
    ensures Quiet(Next(s, LogoutCall(t, h)))
  {
    SignOutEmptiesStorage(s, t, h);
    hide Next;
  }

  /** The other tabs, each told that storage has changed. */
  function Notices(n: nat): seq<Step> {
    if n == 0 then [] else Notices(n - 1) + [StorageEvent(n - 1, Health(true, true))]
  }

  lemma {:induction false} NoticesSignOut(s: System, n: nat)
    requires s.cell == Empty && n <= |s.tabs| && forall u :: 0 <= u < |s.tabs| ==> s.tabs[u].hydrated
    ensures ValidRun(s, Notices(n))
    ensures var s' := Run(s, Notices(n));
            && s'.cell == Empty && s'.ops == s.ops && |s'.tabs| == |s.tabs|
            && (forall u :: 0 <= u < |s.tabs| ==> s'.tabs[u].hydrated && if u < n then s'.tabs[u].tokens.None? else s'.tabs[u] == s.tabs[u])
  {
    if n == 0 {
      assert Run(s, Notices(0)) == s;
    } else {
      NoticesSignOut(s, n - 1);
      var before, step := Run(s, Notices(n - 1)), StorageEvent(n - 1, Health(true, true));
      NotifiedTabFollows(before, n - 1, Health(true, true));
      NoticeKeeps(before, n - 1);
      RunAppend(s, Notices(n - 1), step);
      hide Next, Enabled, ValidRun, Run;
    }
  }

  lemma NoticeKeeps(s: System, t: nat)
    requires t < |s.tabs| && s.tabs[t].hydrated && s.cell == Empty
    ensures var event := StorageEvent(t, Health(true, true));
            Enabled(s, event) && Next(s, event).cell == Empty && Next(s, event).ops == s.ops && Next(s, event).tabs[t].hydrated
  {
  }

  /**
   However many tabs have the session: once a sign-out in one of them has emptied storage and every tab has been told,
   and no refresh or sign-in was under way, no run without a new sign-in brings it back to any tab.
   */
  lemma SignOutReachesEveryTab(s: System, t: nat, h: Health, later: seq<Step>)
    requires Enabled(s, LogoutCall(t, h)) && h.canWrite && NothingAwaited(s)
    requires forall u :: 0 <= u < |s.tabs| ==> s.tabs[u].hydrated
    ensures var s1 := Next(s, LogoutCall(t, h));
            && ValidRun(s1, Notices(|s.tabs|))
            && var s2 := Run(s1, Notices(|s.tabs|));
            && Quiet(s2)
            && (ValidRun(s2, later) && (forall i :: 0 <= i < |later| ==> !later[i].LoginCall?) ==> Quiet(Run(s2, later)))
  {
    var s1 := Next(s, LogoutCall(t, h));
    SignOutEmptiesStorage(s, t, h);
    assert forall u :: 0 <= u < |s1.tabs| ==> s1.tabs[u].hydrated;
    hide Next, Enabled;
    NoticesSignOut(s1, |s.tabs|);
    var s2 := Run(s1, Notices(|s.tabs|));
    hide ValidRun, Run;
    if ValidRun(s2, later) && forall i :: 0 <= i < |later| ==> !later[i].LoginCall? { SignedOutForGood(s2, later); }
  }

  /** A sign-in that is answered ends with the first generation of a new session, shown and stored, whatever the tab was doing. */
  lemma SignInWorks(s: System, t: nat, h: Health)
    requires t < |s.tabs|
    ensures var k := |s.ops|;
            var s1 := Next(s, LoginCall(t));
            var s2 := Took(s1, ServeLogin(k));
            var s3 := Took(s2, HandleReply(k, h));
            && Enabled(s1, ServeLogin(k)) && Enabled(s2, HandleReply(k, h)) && t < |s1.tabs| && t < |s3.tabs|
            && s1.tabs[t].status == Authenticating && s1.tabs[t].error.None? && s1.tabs[t].tokens == s.tabs[t].tokens
            && s3.tabs[t].tokens.Some? && ShowsSession(s3.tabs[t], s3.tabs[t].tokens.value) && s3.tabs[t].error.None?
            && s3.tabs[t].tokens.value.session.sid == s.server.nextSid && s3.tabs[t].tokens.value.session.generation == 1
            && (h.canWrite ==> s3.cell == Stored(s3.tabs[t].tokens.value))
  {
    var k := |s.ops|;
    var s1 := Next(s, LoginCall(t));
    var s2 := Next(s1, ServeLogin(k));
    assert s2.ops[k].tab == t && s2.ops[k].kind.Login? && InFlight(s2.ops[k]) && |s2.tabs| == |s.tabs|;
    DeliveryIsShownAndStored(s2, k, h);
    SignInKeepsError(s2, k, h);
    hide Purge, Handled;
  }

  lemma SignInKeepsError(s: System, k: nat, h: Health)
    requires Enabled(s, HandleReply(k, h)) && InFlight(s.ops[k]) && s.ops[k].kind.Login?
    ensures Next(s, HandleReply(k, h)).tabs[s.ops[k].tab].error == s.tabs[s.ops[k].tab].error
  {
  }
}
