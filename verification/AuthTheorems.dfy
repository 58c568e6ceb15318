/** What holds of every run of the auth-session protocol. */
module AuthTheorems {
  import opened Wrappers
  import opened AuthServer
  import opened AuthClient
  import opened AuthProtocol

  lemma InitialInv(s: System)
    requires Initial(s)
    ensures Inv(s)
  {
  }

  // --- Generations ----------------------------------------------------------------------------

  /** No tab and no stored session is ahead of the server. */
  predicate NobodyAhead(s: System) {
    forall r :: r in s.server.records ==>
      (forall t :: 0 <= t < |s.tabs| && s.tabs[t].tokens.Some? && s.tabs[t].tokens.value.session.sid == r.sid ==>
         s.tabs[t].tokens.value.session.generation <= r.generation) &&
      (s.cell.Stored? && s.cell.issued.session.sid == r.sid ==> s.cell.issued.session.generation <= r.generation)
  }

  lemma InvBoundsGenerations(s: System)
    requires Inv(s)
    ensures NobodyAhead(s)
  {
  }

  /**
   In every run, for any number of tabs and sign-ins: the sessions taken from replies and written to
   storage carry strictly increasing generations per session, so no generation reaches two refreshes,
   and nobody holds a generation the server has not reached.
   */
  lemma GenerationsAlongRuns(s0: System, steps: seq<Step>)
    requires Initial(s0) && ValidRun(s0, steps)
    ensures var s := Run(s0, steps);
            && Increasing(s.delivered) && Increasing(s.issued)
            && (forall d :: d in s.delivered ==> d in s.issued)
            && NobodyAhead(s)
  {
    InitialInv(s0);
    RunKeepsInv(s0, steps);
    InvBoundsGenerations(Run(s0, steps));
  }

  // --- Lifetimes ------------------------------------------------------------------------------

  lemma WindowsLater(records: seq<SessionRecord>, now: int, later: int, p: Policy)
    requires Windows(records, now, p) && now <= later
    ensures Windows(records, later, p)
  {
  }

  lemma NoWindows(now: int, p: Policy)
    ensures Windows([], now, p)
  {
  }

  lemma ServerOfStep(s: System, step: Step) returns (presented: Token, access: Token)
    requires Enabled(s, step)
    ensures var s' := Next(s, step);
            && s'.policy == s.policy && s.now <= s'.now && (s'.now != s.now ==> s'.server == s.server)
            && (|| s'.server == s.server || s'.server.records == [] || s'.server == RefreshSession(s.server, presented, s.now, s.policy).0
                || s'.server == CreateSession(s.server, s.now, s.policy).0 || s'.server == SignOut(s.server, access, s.now))
  {
    hide RefreshSession, CreateSession, SignOut;
    presented := match step { case ServeRefresh(k) => s.ops[k].kind.current.refresh case ServeLate(c) => c.refresh case _ => AccessToken(0) };
    access := if step.ServeDelete? then step.access else AccessToken(0);
  }

  lemma StepKeepsWindows(s: System, step: Step)
    requires Windows(s.server.records, s.now, s.policy) && Enabled(s, step)
    ensures Windows(Next(s, step).server.records, Next(s, step).now, Next(s, step).policy)
  {
    hide Windows, Next, Enabled, RefreshSession, CreateSession, SignOut;
    var presented, access := ServerOfStep(s, step);
    ServingKeepsWindows(s.server, presented, access, s.now, s.policy);
    WindowsLater(s.server.records, s.now, Next(s, step).now, s.policy);
    if Next(s, step).server.records == [] { NoWindows(Next(s, step).now, s.policy); }
  }

  lemma {:induction false} WindowsAlongRuns(s: System, steps: seq<Step>)
    requires Windows(s.server.records, s.now, s.policy) && ValidRun(s, steps)
    ensures Windows(Run(s, steps).server.records, Run(s, steps).now, Run(s, steps).policy)
    decreases |steps|
  {
    hide Windows, Next, Enabled;
    if steps != [] {
      StepKeepsWindows(s, steps[0]);
      WindowsAlongRuns(Next(s, steps[0]), steps[1..]);
    }
  }

  /** So in every reachable state, whatever token is presented: a granted refresh extends one session within its lifetime. */
  lemma RefreshExtendsAlongRuns(s0: System, steps: seq<Step>, presented: Token)
    requires Initial(s0) && ValidRun(s0, steps)
    ensures var s := Run(s0, steps);
            RefreshSession(s.server, presented, s.now, s.policy).1.Granted? ==>
              exists k :: Extends(s.server, presented, s.now, s.policy, k)
  {
    WindowsAlongRuns(s0, steps);
    var s := Run(s0, steps);
    hide RefreshSession, Extends;
    if RefreshSession(s.server, presented, s.now, s.policy).1.Granted? {
      RefreshStaysWithinLifetime(s.server, presented, s.now, s.policy);
    }
  }

  /** `delivered` and `issued` only ever grow at the end, so their order is the order of events. */
  lemma {:induction false} HistoriesGrow(s: System, steps: seq<Step>)
    requires ValidRun(s, steps)
    ensures s.delivered <= Run(s, steps).delivered && s.issued <= Run(s, steps).issued
    decreases |steps|
  {
    if steps != [] {
      HistoriesGrow(Next(s, steps[0]), steps[1..]);
    }
  }

  predicate GoesBack(before: Tab, after: Tab) {
    before.tokens.Some? && after.tokens.Some? && before.tokens.value.session.sid == after.tokens.value.session.sid &&
    after.tokens.value.session.generation < before.tokens.value.session.generation
  }

  predicate IsDelivery(s: System, step: Step)
    requires Enabled(s, step)
  {
    step.HandleReply? && InFlight(s.ops[step.k])
  }

  /** Apart from deliveries, a step gives a tab nothing it did not have or find in storage. */
  lemma OnlyDeliveriesBringTokens(s: System, step: Step, t: nat)
    requires Enabled(s, step) && t < |s.tabs| && !IsDelivery(s, step)
    ensures TakesNothingNew(LocalOf(s, t), Local(Next(s, step).tabs[t], Empty))
  {
    var l := LocalOf(s, t);
    match step
    case HandleReply(k, h) => TabTransitionsTakeNothingNew(l, s.now, h, NoTokens, s.ops[k].phase.reply.err);
    case Settle(k, h) => TabTransitionsTakeNothingNew(l, s.now, h, s.ops[k].kind.current, s.ops[k].phase.err);
    case MountEffect(_, h) => TabTransitionsTakeNothingNew(l, s.now, h, NoTokens, OtherError);
    case StorageEvent(_, h) => TabTransitionsTakeNothingNew(l, s.now, h, NoTokens, OtherError);
    case LogoutCall(_, h) => TabTransitionsTakeNothingNew(l, s.now, h, NoTokens, OtherError);
    case _ =>
  }

  /** Storage holds an older generation of this tab's session. */
  predicate Behind(s: System, t: nat)
    requires t < |s.tabs|
  {
    s.cell.Stored? && s.tabs[t].tokens.Some? && s.cell.issued.session.sid == s.tabs[t].tokens.value.session.sid &&
    s.cell.issued.session.generation < s.tabs[t].tokens.value.session.generation
  }

  predicate NobodyBehind(s: System) { forall t :: 0 <= t < |s.tabs| ==> !Behind(s, t) }

  /** New tokens arrive, and storage refuses them while it holds older ones of the same session. */
  predicate DeafDelivery(s: System, step: Step)
    requires Enabled(s, step)
  {
    IsDelivery(s, step) && !step.h.canWrite && s.cell.Stored? &&
    s.cell.issued.session.sid == s.ops[step.k].phase.reply.issued.session.sid
  }

  /** What a delivery changes. */
  lemma DeliveryEffect(s: System, step: Step)
    requires Enabled(s, step) && IsDelivery(s, step)
    ensures var s', i, op := Next(s, step), s.ops[step.k].phase.reply.issued, s.ops[step.k];
            && |s'.tabs| == |s.tabs| && s'.delivered == s.delivered + [i]
            && (forall t :: 0 <= t < |s.tabs| ==> s'.tabs[t].tokens == if t == op.tab then Some(i) else s.tabs[t].tokens)
            && s'.cell == if step.h.canWrite then Stored(i) else s.cell
  {
  }

  lemma HeldWasDelivered(s: System)
    requires Inv(s)
    ensures forall t :: 0 <= t < |s.tabs| && s.tabs[t].tokens.Some? ==> s.tabs[t].tokens.value in s.delivered
    ensures s.cell.Stored? ==> s.cell.issued in s.delivered
  {
  }

  /** The step makes the tab take up what storage holds. */
  predicate Rereads(s: System, step: Step, t: nat)
    requires Enabled(s, step)
  {
    match step
    case StorageEvent(u, h) => u == t && h.canRead && s.cell.Stored? && s.cell.issued.session.refreshExpiresAt > s.now
    case MountEffect(u, h) => u == t && h.canRead && s.cell.Stored? && s.cell.issued.session.refreshExpiresAt > s.now
    case Settle(k, h) =>
      s.ops[k].tab == t && h.canRead && s.cell.Stored? && s.cell.issued.refresh != s.ops[k].kind.current.refresh
    case _ => false
  }

  lemma WhatIsReread(l: Local, now: int, h: Health, current: Issued, err: ClientError)
    requires l.cell.Stored? && l.tab.tokens.Some? && l.tab.tokens.value != l.cell.issued
    ensures Hydrate(l, now, h).tab.tokens == Some(l.cell.issued) <==> h.canRead && l.cell.issued.session.refreshExpiresAt > now
    ensures OnStorage(l, now, h).tab.tokens == Some(l.cell.issued) <==> h.canRead && l.cell.issued.session.refreshExpiresAt > now
    ensures AfterSettle(l, current, err, h).tab.tokens == Some(l.cell.issued) <==> h.canRead && l.cell.issued.refresh != current.refresh
  {
  }

  lemma RereadByTab(s: System, step: Step, t: nat)
    requires Enabled(s, step) && t < |s.tabs| && (step.MountEffect? || step.StorageEvent?)
    requires s.cell.Stored? && s.tabs[t].tokens.Some? && s.tabs[t].tokens.value != s.cell.issued
    ensures Next(s, step).tabs[t].tokens == Some(s.cell.issued) <==> Rereads(s, step, t)
  {
    WhatIsReread(LocalOf(s, t), s.now, step.h, NoTokens, OtherError);
    hide Hydrate, OnStorage;
  }

  lemma RereadBySettling(s: System, step: Step, t: nat)
    requires Enabled(s, step) && t < |s.tabs| && step.Settle?
    requires s.cell.Stored? && s.tabs[t].tokens.Some? && s.tabs[t].tokens.value != s.cell.issued
    ensures Next(s, step).tabs[t].tokens == Some(s.cell.issued) <==> Rereads(s, step, t)
  {
    WhatIsReread(LocalOf(s, t), s.now, step.h, s.ops[step.k].kind.current, s.ops[step.k].phase.err);
    hide AfterSettle;
  }

  lemma NotReread(s: System, step: Step, t: nat)
    requires Enabled(s, step) && t < |s.tabs| && !IsDelivery(s, step) && !step.MountEffect? && !step.StorageEvent? && !step.Settle?
    requires s.cell.Stored? && s.tabs[t].tokens.Some? && s.tabs[t].tokens.value != s.cell.issued
    ensures t < |Next(s, step).tabs| && Next(s, step).tabs[t].tokens != Some(s.cell.issued)
  {
  }

  lemma RereadingTakesCell(s: System, step: Step, t: nat)
    requires Enabled(s, step) && t < |s.tabs| && !IsDelivery(s, step)
    requires s.cell.Stored? && s.tabs[t].tokens.Some? && s.tabs[t].tokens.value != s.cell.issued
    ensures t < |Next(s, step).tabs|
    ensures Next(s, step).tabs[t].tokens == Some(s.cell.issued) <==> Rereads(s, step, t)
  {
    hide Next, Enabled;
    CellKeptOrEmptied(s, step);
    if step.MountEffect? || step.StorageEvent? {
      RereadByTab(s, step, t);
    } else if step.Settle? {
      RereadBySettling(s, step, t);
    } else {
      NotReread(s, step, t);
    }
  }

  /** A step takes a tab back to older tokens exactly when storage is behind the tab and the tab rereads it. */
  lemma WhenTabsGoBack(s: System, step: Step, t: nat)
    requires Inv(s) && Enabled(s, step) && t < |s.tabs|
    ensures t < |Next(s, step).tabs|
    ensures GoesBack(s.tabs[t], Next(s, step).tabs[t]) <==> Behind(s, t) && Rereads(s, step, t)
  {
    GoingBackTakesCell(s, step, t);
    if !IsDelivery(s, step) && Behind(s, t) {
      RereadingTakesCell(s, step, t);
    } else if IsDelivery(s, step) {
      ReplyIsAhead(s, step.k);
      HeldWasDelivered(s);
      hide Inv, Next;
      DeliveryEffect(s, step);
    }
    hide Next;
  }

  lemma GoingBackTakesCell(s: System, step: Step, t: nat)
    requires Inv(s) && Enabled(s, step) && t < |s.tabs|
    ensures t < |Next(s, step).tabs|
    ensures GoesBack(s.tabs[t], Next(s, step).tabs[t]) <==> Behind(s, t) && Next(s, step).tabs[t].tokens == Some(s.cell.issued)
  {
    HeldWasDelivered(s);
    if IsDelivery(s, step) {
      ReplyIsAhead(s, step.k);
      hide Inv, Next;
      DeliveryEffect(s, step);
    } else {
      hide Inv, Next, Enabled;
      OnlyDeliveriesBringTokens(s, step, t);
      CellKeptOrEmptied(s, step);
    }
  }

  lemma DeliveryBehind(s: System, step: Step)
    requires Inv(s) && Enabled(s, step) && IsDelivery(s, step) && NobodyBehind(s)
    ensures NobodyBehind(Next(s, step)) <==> !DeafDelivery(s, step)
  {
    ReplyIsAhead(s, step.k);
    HeldWasDelivered(s);
    var s', i, t := Next(s, step), s.ops[step.k].phase.reply.issued, s.ops[step.k].tab;
    hide Inv, Next;
    DeliveryEffect(s, step);
    if DeafDelivery(s, step) {
      assert Behind(s', t);
    } else {
      forall u | 0 <= u < |s'.tabs| ensures !Behind(s', u) {
        assert u != t ==> !Behind(s, u);
      }
    }
  }

  lemma CellKeptOrEmptied(s: System, step: Step)
    requires Enabled(s, step) && !IsDelivery(s, step)
    ensures Next(s, step).cell.Stored? ==> Next(s, step).cell == s.cell
    ensures |s.tabs| <= |Next(s, step).tabs| && Next(s, step).delivered == s.delivered
    ensures forall t :: |s.tabs| <= t < |Next(s, step).tabs| && Next(s, step).tabs[t].tokens.Some? ==>
              s.cell.Stored? && Next(s, step).tabs[t].tokens.value == s.cell.issued
  {
  }

  /** Storage falls behind some tab exactly by a deaf delivery. */
  lemma WhenStorageFallsBehind(s: System, step: Step)
    requires Inv(s) && Enabled(s, step) && NobodyBehind(s)
    ensures NobodyBehind(Next(s, step)) <==> !DeafDelivery(s, step)
  {
    if IsDelivery(s, step) {
      DeliveryBehind(s, step);
    } else {
      hide Next, Enabled, Inv;
      CellKeptOrEmptied(s, step);
      forall t | 0 <= t < |s.tabs| ensures !Behind(Next(s, step), t) {
        OnlyDeliveriesBringTokens(s, step, t);
        assert !Behind(s, t);
      }
    }
  }

  predicate NoDeafDelivery(s: System, steps: seq<Step>)
    requires ValidRun(s, steps)
    decreases |steps|
  {
    steps == [] || (!DeafDelivery(s, steps[0]) && NoDeafDelivery(Next(s, steps[0]), steps[1..]))
  }

  lemma {:induction false} NobodyBehindAlongRuns(s: System, steps: seq<Step>)
    requires Inv(s) && NobodyBehind(s) && ValidRun(s, steps) && NoDeafDelivery(s, steps)
    ensures NobodyBehind(Run(s, steps))
    decreases |steps|
  {
    hide Inv, NobodyBehind, DeafDelivery, Next, Enabled;
    if steps != [] {
      WhenStorageFallsBehind(s, steps[0]);
      StepKeepsInv(s, steps[0]);
      NobodyBehindAlongRuns(Next(s, steps[0]), steps[1..]);
    }
  }

  /** Neither the tab nor storage can come to hold less than this generation of the session. */
  predicate Floor(s: System, t: nat, sid: nat, generation: nat) {
    && t < |s.tabs|
    && (s.tabs[t].tokens.Some? && s.tabs[t].tokens.value.session.sid == sid ==> s.tabs[t].tokens.value.session.generation >= generation)
    && (s.cell.Stored? && s.cell.issued.session.sid == sid ==> s.cell.issued.session.generation >= generation)
    && exists d :: d in s.delivered && d.session.sid == sid && d.session.generation >= generation
  }

  lemma StepKeepsFloor(s: System, step: Step, t: nat, sid: nat, generation: nat)
    requires Inv(s) && Enabled(s, step) && Floor(s, t, sid, generation)
    ensures Floor(Next(s, step), t, sid, generation)
  {
    var s' := Next(s, step);
    var d :| d in s.delivered && d.session.sid == sid && d.session.generation >= generation;
    if IsDelivery(s, step) {
      ReplyIsAhead(s, step.k);
      hide Inv, Next;
      DeliveryEffect(s, step);
      assert d in s'.delivered;
    } else {
      hide Inv, Next, Enabled;
      OnlyDeliveriesBringTokens(s, step, t);
      CellKeptOrEmptied(s, step);
    }
  }

  lemma {:induction false} FloorAlongRuns(s: System, steps: seq<Step>, t: nat, sid: nat, generation: nat)
    requires Inv(s) && ValidRun(s, steps) && Floor(s, t, sid, generation)
    ensures Floor(Run(s, steps), t, sid, generation)
    decreases |steps|
  {
    hide Inv, Floor, Next, Enabled;
    if steps != [] {
      StepKeepsFloor(s, steps[0], t, sid, generation);
      StepKeepsInv(s, steps[0]);
      FloorAlongRuns(Next(s, steps[0]), steps[1..], t, sid, generation);
    }
  }

  /**
   A tab that storage is not behind never holds older tokens of that session again, in any run, whatever
   other sessions it holds in between.
   */
  lemma NeverBack(s: System, steps: seq<Step>, t: nat)
    requires Inv(s) && ValidRun(s, steps) && t < |s.tabs| && !Behind(s, t)
    ensures t < |Run(s, steps).tabs| && !GoesBack(s.tabs[t], Run(s, steps).tabs[t])
  {
    if s.tabs[t].tokens.Some? {
      var held := s.tabs[t].tokens.value;
      FloorAlongRuns(s, steps, t, held.session.sid, held.session.generation);
    } else {
      TabsStay(s, steps);
    }
  }

  lemma {:induction false} TabsStay(s: System, steps: seq<Step>)
    requires ValidRun(s, steps)
    ensures |s.tabs| <= |Run(s, steps).tabs|
    decreases |steps|
  {
    if steps != [] {
      assert |s.tabs| <= |Next(s, steps[0]).tabs|;
      TabsStay(Next(s, steps[0]), steps[1..]);
    }
  }

  /** So between any two moments of a run without a deaf delivery before the first, no tab goes back. */
  lemma TabsNeverGoBack(s: System, earlier: seq<Step>, later: seq<Step>, t: nat)
    requires Inv(s) && NobodyBehind(s) && ValidRun(s, earlier) && NoDeafDelivery(s, earlier)
    requires ValidRun(Run(s, earlier), later) && t < |Run(s, earlier).tabs|
    ensures t < |Run(Run(s, earlier), later).tabs|
    ensures !GoesBack(Run(s, earlier).tabs[t], Run(Run(s, earlier), later).tabs[t])
  {
    NobodyBehindAlongRuns(s, earlier);
    RunKeepsInv(s, earlier);
    NeverBack(Run(s, earlier), later, t);
  }

  // --- One refresh per tab --------------------------------------------------------------------

  predicate Unfinished(op: Op) { !op.kind.Login? && !op.phase.Closed? }

  /** A tab's `inflight` names its one unfinished refresh. */
  predicate Slots(s: System) {
    && (forall k :: 0 <= k < |s.ops| ==> s.ops[k].tab < |s.tabs|)
    && (forall k :: 0 <= k < |s.ops| && Unfinished(s.ops[k]) ==> s.tabs[s.ops[k].tab].inflight == Some(k))
    && (forall t :: 0 <= t < |s.tabs| && s.tabs[t].inflight.Some? ==>
          s.tabs[t].inflight.value < |s.ops| && Unfinished(s.ops[s.tabs[t].inflight.value]) && s.ops[s.tabs[t].inflight.value].tab == t)
  }

  /** A change to a tab that leaves `inflight` alone. */
  lemma SlotsFrame(s: System, t: nat, l: Local)
    requires Slots(s) && t < |s.tabs| && l.tab.inflight == s.tabs[t].inflight
    ensures Slots(WithLocal(s, t, l))
  {
  }

  /** An op that goes on without ending, or a login. */
  lemma SlotsPhase(s: System, k: nat, phase: Phase)
    requires Slots(s) && k < |s.ops| && Unfinished(s.ops[k]) == Unfinished(s.ops[k].(phase := phase))
    ensures Slots(WithPhase(s, k, phase))
  {
  }

  /** A tab without a refresh takes one up. */
  lemma SlotsTaken(s: System, t: nat, tab: Tab, op: Op)
    requires Slots(s) && t < |s.tabs| && s.tabs[t].inflight.None?
    requires tab.inflight == Some(|s.ops|) && op.tab == t && Unfinished(op)
    ensures Slots(s.(tabs := s.tabs[t := tab], ops := s.ops + [op]))
  {
  }

  lemma RefreshCallKeepsSlots(s: System, t: nat)
    requires Slots(s) && t < |s.tabs|
    ensures Slots(Refreshed(s, t))
    ensures forall k :: 0 <= k < |s.ops| && Unfinished(s.ops[k]) && s.ops[k].tab == t ==> Refreshed(s, t) == s
  {
    var tab := s.tabs[t];
    if tab.inflight.None? {
      var idle := tab.(inflight := Some(|s.ops|));
      if tab.tokens.None? {
        SlotsTaken(s, t, idle, Op(t, NothingToRefresh, Finishing));
      } else {
        SlotsTaken(s, t, idle.(status := Refreshing), Op(t, RefreshOf(tab.tokens.value), Sent));
      }
    }
  }

  lemma FinallyKeepsSlots(s: System, k: nat)
    requires Slots(s) && Enabled(s, RunFinally(k))
    ensures Slots(Next(s, RunFinally(k)))
  {
  }

  lemma HandleReplyKeepsSlots(s: System, k: nat, h: Health)
    requires Slots(s) && Enabled(s, HandleReply(k, h))
    ensures Slots(Handled(s, k, h))
  {
    var op := s.ops[k];
    var l := LocalOf(s, op.tab);
    match op.phase.reply
    case Delivers(i) =>
      var l' := if op.kind.Login? then LoginSucceeded(l, i, h) else RefreshSucceeded(l, i, h);
      SlotsFrame(s, op.tab, l');
      SlotsPhase(WithLocal(s, op.tab, l'), k, if op.kind.Login? then Closed else Finishing);
    case Rejects(err) =>
      var l' := if op.kind.Login? then LoginFailed(l, err, h) else RefreshFailed(l, err, h);
      SlotsFrame(s, op.tab, l');
      SlotsPhase(WithLocal(s, op.tab, l'), k, if op.kind.Login? then Closed else Finishing);
      SlotsPhase(s, k, Settling(err));
  }

  lemma SettleKeepsSlots(s: System, k: nat, h: Health)
    requires Slots(s) && Enabled(s, Settle(k, h))
    ensures Slots(Next(s, Settle(k, h)))
  {
    var op := s.ops[k];
    var l := AfterSettle(LocalOf(s, op.tab), op.kind.current, op.phase.err, h);
    SlotsFrame(s, op.tab, l);
    SlotsPhase(WithLocal(s, op.tab, l), k, Finishing);
  }

  lemma OpenTabKeepsSlots(s: System, h: Health)
    requires Slots(s)
    ensures Slots(Next(s, OpenTab(h)))
  {
  }

  lemma LoginCallKeepsSlots(s: System, t: nat)
    requires Slots(s) && t < |s.tabs|
    ensures Slots(Next(s, LoginCall(t)))
  {
  }

  /** Slots depend on tabs and ops only. */
  lemma SlotsElsewhere(s: System, s': System)
    requires Slots(s) && s'.tabs == s.tabs && s'.ops == s.ops
    ensures Slots(s')
  {
  }

  lemma TabStepKeepsSlots(s: System, t: nat, h: Health)
    requires Slots(s) && t < |s.tabs|
    ensures Slots(WithLocal(s, t, Hydrate(LocalOf(s, t), s.now, h)))
    ensures Slots(WithLocal(s, t, OnStorage(LocalOf(s, t), s.now, h)))
    ensures Slots(WithLocal(s, t, AuthClient.Logout(LocalOf(s, t), h)))
  {
    SlotsFrame(s, t, Hydrate(LocalOf(s, t), s.now, h));
    SlotsFrame(s, t, OnStorage(LocalOf(s, t), s.now, h));
    SlotsFrame(s, t, AuthClient.Logout(LocalOf(s, t), h));
  }

  lemma ServerStepKeepsSlots(s: System, k: nat, err: ClientError)
    requires Slots(s) && k < |s.ops| && (s.ops[k].phase.Sent? || s.ops[k].phase.Answered?)
    ensures s.ops[k].kind.RefreshOf? ==> Slots(Served(s, k))
    ensures Slots(LoggedIn(s, k)) && Slots(Dropped(s, k, err))
  {
    SlotsPhase(s, k, Answered(Rejects(err)));
    SlotsElsewhere(WithPhase(s, k, Answered(Rejects(err))), Dropped(s, k, err));
    SlotsPhase(s, k, LoggedIn(s, k).ops[k].phase);
    SlotsElsewhere(WithPhase(s, k, LoggedIn(s, k).ops[k].phase), LoggedIn(s, k));
    if s.ops[k].kind.RefreshOf? {
      SlotsPhase(s, k, Served(s, k).ops[k].phase);
      SlotsElsewhere(WithPhase(s, k, Served(s, k).ops[k].phase), Served(s, k));
    }
  }

  lemma StepKeepsSlots(s: System, step: Step)
    requires Slots(s) && Enabled(s, step)
    ensures Slots(Next(s, step))
  {
    match step
    case HandleReply(k, h) => HandleReplyKeepsSlots(s, k, h);
    case Settle(k, h) => SettleKeepsSlots(s, k, h);
    case ServeRefresh(k) => ServerStepKeepsSlots(s, k, OtherError);
    case ServeLogin(k) => ServerStepKeepsSlots(s, k, OtherError);
    case Lose(k, err) => ServerStepKeepsSlots(s, k, err);
    case MountEffect(t, h) => TabStepKeepsSlots(s, t, h);
    case StorageEvent(t, h) => TabStepKeepsSlots(s, t, h);
    case LogoutCall(t, h) =>
      TabStepKeepsSlots(s, t, h);
      SlotsElsewhere(WithLocal(s, t, AuthClient.Logout(LocalOf(s, t), h)), Next(s, step));
    case LoginCall(t) => LoginCallKeepsSlots(s, t);
    case RefreshCall(t) => RefreshCallKeepsSlots(s, t);
    case RunFinally(k) => FinallyKeepsSlots(s, k);
    case OpenTab(h) => OpenTabKeepsSlots(s, h);
    case Tick(_) => SlotsElsewhere(s, Next(s, step));
    case ServeLate(_) => SlotsElsewhere(s, Next(s, step));
    case ServeLateLogin => SlotsElsewhere(s, Next(s, step));
    case RestartServer => SlotsElsewhere(s, Next(s, step));
    case ServeDelete(_) => SlotsElsewhere(s, Next(s, step));
    case Tamper(_) => SlotsElsewhere(s, Next(s, step));
  }

  /** In every run each tab has at most one refresh outstanding, and a call made meanwhile joins it without a new request. */
  lemma {:induction false} OneRefreshPerTab(s: System, steps: seq<Step>)
    requires Slots(s) && ValidRun(s, steps)
    ensures var s' := Run(s, steps);
            && Slots(s')
            && (forall j, k :: 0 <= j < k < |s'.ops| && Unfinished(s'.ops[j]) && Unfinished(s'.ops[k]) ==> s'.ops[j].tab != s'.ops[k].tab)
            && (forall k :: 0 <= k < |s'.ops| && Unfinished(s'.ops[k]) ==> Next(s', RefreshCall(s'.ops[k].tab)) == s')
    decreases |steps|
  {
    if steps == [] {
      forall k | 0 <= k < |s.ops| && Unfinished(s.ops[k]) ensures Next(s, RefreshCall(s.ops[k].tab)) == s {
        RefreshCallKeepsSlots(s, s.ops[k].tab);
      }
    } else {
      StepKeepsSlots(s, steps[0]);
      OneRefreshPerTab(Next(s, steps[0]), steps[1..]);
    }
  }
}
