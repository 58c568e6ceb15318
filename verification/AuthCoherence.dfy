/** Coherence of every tab in every run of the auth-session protocol. */
module AuthCoherence {
  import opened Wrappers
  import opened AuthServer
  import opened AuthClient
  import opened AuthProtocol
  import opened AuthTheorems

  predicate AllCoherent(s: System) { forall t :: 0 <= t < |s.tabs| ==> Coherent(s.tabs[t]) }

  /** A refresh that has failed for good lands, with a retryable error, on a tab without tokens. */
  predicate BadLanding(s: System, step: Step)
    requires Enabled(s, step)
  {
    match step
    case HandleReply(k, _) =>
      var op := s.ops[k];
      op.kind.RefreshOf? && op.phase.reply.Rejects? && !Superseded(op.phase.reply.err) &&
      StatusAfterRefreshError(op.phase.reply.err) == Active && s.tabs[op.tab].tokens.None?
    case Settle(k, h) =>
      var op := s.ops[k];
      !Newer(ReadStored(s.cell, h).1, op.kind.current) &&
      StatusAfterRefreshError(op.phase.err) == Active && s.tabs[op.tab].tokens.None?
    case _ => false
  }

  lemma CoherenceOfOneTab(s: System, t: nat, l: Local)
    requires AllCoherent(s) && t < |s.tabs|
    ensures AllCoherent(WithLocal(s, t, l)) <==> Coherent(l.tab)
  {
    assert WithLocal(s, t, l).tabs[t] == l.tab;
  }

  lemma CoherenceOfReplies(s: System, k: nat, h: Health)
    requires AllCoherent(s) && Enabled(s, HandleReply(k, h))
    ensures AllCoherent(Handled(s, k, h)) <==> !BadLanding(s, HandleReply(k, h))
  {
    var op := s.ops[k];
    var l := LocalOf(s, op.tab);
    match op.phase.reply
    case Delivers(i) =>
      CoherenceOfOneTab(s, op.tab, if op.kind.Login? then LoginSucceeded(l, i, h) else RefreshSucceeded(l, i, h));
    case Rejects(err) =>
      FailedRefreshCoherence(l, err, h);
      CoherenceOfOneTab(s, op.tab, if op.kind.Login? then LoginFailed(l, err, h) else RefreshFailed(l, err, h));
  }

  lemma CoherenceOfSettling(s: System, k: nat, h: Health)
    requires AllCoherent(s) && Enabled(s, Settle(k, h))
    ensures AllCoherent(Next(s, Settle(k, h))) <==> !BadLanding(s, Settle(k, h))
  {
    var op := s.ops[k];
    var l := LocalOf(s, op.tab);
    var (r, stored) := ReadReporting(l, h);
    FailedRefreshCoherence(r, op.phase.err, h);
    CoherenceOfOneTab(s, op.tab, AfterSettle(l, op.kind.current, op.phase.err, h));
  }

  lemma CoherenceOfTabSteps(s: System, t: nat, h: Health)
    requires AllCoherent(s) && t < |s.tabs|
    ensures AllCoherent(WithLocal(s, t, Hydrate(LocalOf(s, t), s.now, h)))
    ensures AllCoherent(WithLocal(s, t, OnStorage(LocalOf(s, t), s.now, h)))
    ensures AllCoherent(WithLocal(s, t, AuthClient.Logout(LocalOf(s, t), h)))
    ensures AllCoherent(WithLocal(s, t, BeginLogin(LocalOf(s, t))))
    ensures AllCoherent(Refreshed(s, t))
    ensures AllCoherent(s.(tabs := s.tabs[t := s.tabs[t].(inflight := None)]))
    ensures AllCoherent(s.(tabs := s.tabs + [Render(s.cell, s.now, h).tab]))
  {
    var l := LocalOf(s, t);
    TransitionsKeepCoherence(l, s.now, h, NoTokens, OtherError);
    assert Coherent(LocalOf(Refreshed(s, t), t).tab);
  }

  /** From a coherent state a step leads to a coherent state if and only if it is not a bad landing. */
  lemma CoherenceOfSteps(s: System, step: Step)
    requires AllCoherent(s) && Enabled(s, step)
    ensures AllCoherent(Next(s, step)) <==> !BadLanding(s, step)
  {
    match step
    case HandleReply(k, h) => CoherenceOfReplies(s, k, h);
    case Settle(k, h) => CoherenceOfSettling(s, k, h);
    case MountEffect(t, h) => CoherenceOfTabSteps(s, t, h);
    case StorageEvent(t, h) => CoherenceOfTabSteps(s, t, h);
    case LogoutCall(t, h) => CoherenceOfTabSteps(s, t, h);
    case LoginCall(t) => CoherenceOfTabSteps(s, t, Health(true, true));
    case RefreshCall(t) => CoherenceOfTabSteps(s, t, Health(true, true));
    case RunFinally(k) => CoherenceOfTabSteps(s, s.ops[k].tab, Health(true, true));
    case OpenTab(h) => assert Coherent(Render(s.cell, s.now, h).tab);
    case _ =>
  }

  // --- Runs -----------------------------------------------------------------------------------

  /** A refresh that has not been decided yet. */
  predicate Awaiting(op: Op) { op.kind.RefreshOf? && (op.phase.Sent? || op.phase.Answered? || op.phase.Settling?) }

  predicate Awaited(s: System, t: nat) { exists k :: 0 <= k < |s.ops| && Awaiting(s.ops[k]) && s.ops[k].tab == t }

  /** Every tab still has tokens while its refresh is undecided. */
  predicate RefreshersHoldTokens(s: System) { forall t :: 0 <= t < |s.tabs| && Awaited(s, t) ==> s.tabs[t].tokens.Some? }

  /**
   The steps that take a tab's tokens away while its own refresh is undecided: a sign-out, a failed
   sign-in, and a storage event or mount effect that finds no usable session.
   */
  predicate TakesTokens(s: System, step: Step)
    requires Enabled(s, step)
  {
    match step
    case LogoutCall(t, _) => Awaited(s, t)
    case StorageEvent(t, h) => Awaited(s, t) && !Usable(ReadStored(s.cell, h).1, s.now)
    case MountEffect(t, h) =>
      var stored := ReadStored(s.cell, h).1;
      Awaited(s, t) && !Usable(stored, s.now) && (stored.Some? || s.tabs[t].hadInitial)
    case HandleReply(k, _) => s.ops[k].kind.Login? && s.ops[k].phase.reply.Rejects? && Awaited(s, s.ops[k].tab)
    case _ => false
  }

  lemma HoldingOneTab(s: System, t: nat, l: Local)
    requires RefreshersHoldTokens(s) && t < |s.tabs|
    ensures RefreshersHoldTokens(WithLocal(s, t, l)) <==> (l.tab.tokens.Some? || !Awaited(s, t))
  {
    var s' := WithLocal(s, t, l);
    assert forall u :: Awaited(s', u) <==> Awaited(s, u);
    assert s'.tabs[t] == l.tab;
  }

  /** A call that goes on without becoming an undecided refresh. */
  lemma HoldingPhase(s: System, k: nat, phase: Phase)
    requires RefreshersHoldTokens(s) && k < |s.ops|
    requires Awaiting(s.ops[k].(phase := phase)) ==> Awaiting(s.ops[k])
    ensures RefreshersHoldTokens(WithPhase(s, k, phase))
    ensures forall t :: Awaited(WithPhase(s, k, phase), t) ==> Awaited(s, t)
  {
    var s' := WithPhase(s, k, phase);
    forall t | Awaited(s', t) ensures Awaited(s, t) {
      var j :| 0 <= j < |s'.ops| && Awaiting(s'.ops[j]) && s'.ops[j].tab == t;
      assert Awaiting(s.ops[j]) && s.ops[j].tab == t;
    }
  }

  /** Once its refresh is decided, nothing is awaited by a tab. */
  lemma DecidedIsNotAwaited(s: System, k: nat, phase: Phase)
    requires Slots(s) && k < |s.ops| && s.ops[k].kind.RefreshOf? && !s.ops[k].phase.Closed? && !Awaiting(s.ops[k].(phase := phase))
    ensures !Awaited(WithPhase(s, k, phase), s.ops[k].tab)
  {
    var s', t := WithPhase(s, k, phase), s.ops[k].tab;
    assert Unfinished(s.ops[k]);
    assert forall j :: 0 <= j < |s.ops| && s.ops[j].tab == t && Awaiting(s.ops[j]) ==> Unfinished(s.ops[j]) && j == k;
    assert forall j :: 0 <= j < |s.ops| && j != k ==> s'.ops[j] == s.ops[j];
  }

  lemma HoldingAfterReply(s: System, k: nat, h: Health)
    requires Slots(s) && RefreshersHoldTokens(s) && Enabled(s, HandleReply(k, h))
    ensures RefreshersHoldTokens(Handled(s, k, h)) <==> !TakesTokens(s, HandleReply(k, h))
  {
    var op := s.ops[k];
    var l := LocalOf(s, op.tab);
    hide RefreshersHoldTokens, Awaited, Slots;
    if op.kind.Login? {
      var l' := if op.phase.reply.Delivers? then LoginSucceeded(l, op.phase.reply.issued, h) else LoginFailed(l, op.phase.reply.err, h);
      HoldingOneTab(s, op.tab, l');
      LoginPhase(WithLocal(s, op.tab, l'), k, Closed);
    } else if op.phase.reply.Rejects? && Superseded(op.phase.reply.err) {
      HoldingPhase(s, k, Settling(op.phase.reply.err));
    } else {
      var l' := if op.phase.reply.Delivers? then RefreshSucceeded(l, op.phase.reply.issued, h) else RefreshFailed(l, op.phase.reply.err, h);
      HoldingPhase(s, k, Finishing);
      DecidedIsNotAwaited(s, k, Finishing);
      HoldingOneTab(WithPhase(s, k, Finishing), op.tab, l');
    }
  }

  lemma LoginPhase(s: System, k: nat, phase: Phase)
    requires k < |s.ops| && !s.ops[k].kind.RefreshOf?
    ensures RefreshersHoldTokens(WithPhase(s, k, phase)) <==> RefreshersHoldTokens(s)
  {
    var s' := WithPhase(s, k, phase);
    assert s'.ops[k := s.ops[k]] == s.ops;
    forall t ensures Awaited(s', t) <==> Awaited(s, t) {
      if Awaited(s', t) {
        var j :| 0 <= j < |s'.ops| && Awaiting(s'.ops[j]) && s'.ops[j].tab == t;
        assert s.ops[j] == s'.ops[j];
      }
      if Awaited(s, t) {
        var j :| 0 <= j < |s.ops| && Awaiting(s.ops[j]) && s.ops[j].tab == t;
        assert s.ops[j] == s'.ops[j];
      }
    }
  }

  lemma HoldingAfterSettle(s: System, k: nat, h: Health)
    requires Slots(s) && RefreshersHoldTokens(s) && Enabled(s, Settle(k, h))
    ensures RefreshersHoldTokens(Next(s, Settle(k, h)))
  {
    var op := s.ops[k];
    HoldingPhase(s, k, Finishing);
    DecidedIsNotAwaited(s, k, Finishing);
    HoldingOneTab(WithPhase(s, k, Finishing), op.tab, AfterSettle(LocalOf(s, op.tab), op.kind.current, op.phase.err, h));
  }

  lemma HoldingAfterTabStep(s: System, t: nat, step: Step)
    requires RefreshersHoldTokens(s) && Enabled(s, step)
    requires (step.MountEffect? || step.StorageEvent? || step.LogoutCall?) && t == step.t
    ensures RefreshersHoldTokens(Next(s, step)) <==> !TakesTokens(s, step)
  {
    if Awaited(s, t) { TokensOfAwaited(s, t); }
    hide RefreshersHoldTokens, Awaited;
    var l := LocalOf(s, t);
    match step
    case MountEffect(_, h) => HoldingOneTab(s, t, Hydrate(l, s.now, h));
    case StorageEvent(_, h) => HoldingOneTab(s, t, OnStorage(l, s.now, h));
    case LogoutCall(_, h) =>
      HoldingOneTab(s, t, AuthClient.Logout(l, h));
      HoldingElsewhere(WithLocal(s, t, AuthClient.Logout(l, h)), Next(s, step));
  }

  lemma TokensOfAwaited(s: System, t: nat)
    requires RefreshersHoldTokens(s) && t < |s.tabs| && Awaited(s, t)
    ensures s.tabs[t].tokens.Some?
  {
  }

  lemma HoldingElsewhere(s: System, s': System)
    requires s'.tabs == s.tabs && s'.ops == s.ops
    ensures RefreshersHoldTokens(s') <==> RefreshersHoldTokens(s)
  {
    assert forall t :: Awaited(s', t) <==> Awaited(s, t);
  }

  lemma HoldingAfterCalls(s: System, t: nat)
    requires RefreshersHoldTokens(s) && t < |s.tabs|
    ensures RefreshersHoldTokens(Refreshed(s, t)) && RefreshersHoldTokens(Next(s, LoginCall(t)))
  {
    forall s' | s' == Refreshed(s, t) || s' == Next(s, LoginCall(t)) ensures RefreshersHoldTokens(s') {
      forall u | 0 <= u < |s'.tabs| && Awaited(s', u) ensures s'.tabs[u].tokens.Some? {
        var k :| 0 <= k < |s'.ops| && Awaiting(s'.ops[k]) && s'.ops[k].tab == u;
        if k < |s.ops| { assert s.ops[k] == s'.ops[k]; assert Awaited(s, u); }
      }
    }
  }

  lemma HoldingAfterServing(s: System, k: nat, err: ClientError)
    requires RefreshersHoldTokens(s) && k < |s.ops| && (s.ops[k].phase.Sent? || s.ops[k].phase.Answered?)
    ensures s.ops[k].kind.RefreshOf? ==> RefreshersHoldTokens(Served(s, k))
    ensures RefreshersHoldTokens(LoggedIn(s, k)) && RefreshersHoldTokens(Dropped(s, k, err))
  {
    HoldingPhase(s, k, Answered(Rejects(err)));
    HoldingElsewhere(WithPhase(s, k, Answered(Rejects(err))), Dropped(s, k, err));
    HoldingPhase(s, k, LoggedIn(s, k).ops[k].phase);
    HoldingElsewhere(WithPhase(s, k, LoggedIn(s, k).ops[k].phase), LoggedIn(s, k));
    if s.ops[k].kind.RefreshOf? {
      HoldingPhase(s, k, Served(s, k).ops[k].phase);
      HoldingElsewhere(WithPhase(s, k, Served(s, k).ops[k].phase), Served(s, k));
    }
  }

  lemma HoldingAfterOpening(s: System, h: Health)
    requires Slots(s) && RefreshersHoldTokens(s)
    ensures RefreshersHoldTokens(Next(s, OpenTab(h)))
  {
    var s' := Next(s, OpenTab(h));
    forall t | 0 <= t < |s'.tabs| && Awaited(s', t) ensures s'.tabs[t].tokens.Some? {
      assert Awaited(s, t);
    }
  }

  lemma HoldingAfterFinally(s: System, k: nat)
    requires RefreshersHoldTokens(s) && Enabled(s, RunFinally(k))
    ensures RefreshersHoldTokens(Next(s, RunFinally(k)))
  {
    var t := s.ops[k].tab;
    HoldingPhase(s, k, Closed);
    var closed := WithPhase(s, k, Closed);
    HoldingOneTab(closed, t, Local(s.tabs[t].(inflight := None), s.cell));
  }

  /** A tab loses its tokens under an undecided refresh exactly by one of those steps. */
  lemma WhenTokensAreTaken(s: System, step: Step)
    requires Slots(s) && RefreshersHoldTokens(s) && Enabled(s, step)
    ensures RefreshersHoldTokens(Next(s, step)) <==> !TakesTokens(s, step)
  {
    hide RefreshersHoldTokens, Slots, Awaited;
    match step
    case HandleReply(k, h) => HoldingAfterReply(s, k, h);
    case Settle(k, h) => HoldingAfterSettle(s, k, h);
    case MountEffect(t, _) => HoldingAfterTabStep(s, t, step);
    case StorageEvent(t, _) => HoldingAfterTabStep(s, t, step);
    case LogoutCall(t, _) => HoldingAfterTabStep(s, t, step);
    case RefreshCall(t) => HoldingAfterCalls(s, t);
    case LoginCall(t) => HoldingAfterCalls(s, t);
    case ServeRefresh(k) => HoldingAfterServing(s, k, OtherError);
    case ServeLogin(k) => HoldingAfterServing(s, k, OtherError);
    case Lose(k, err) => HoldingAfterServing(s, k, err);
    case OpenTab(h) => HoldingAfterOpening(s, h);
    case RunFinally(k) => HoldingAfterFinally(s, k);
    case Tick(_) => HoldingElsewhere(s, Next(s, step));
    case ServeDelete(_) => HoldingElsewhere(s, Next(s, step));
    case ServeLate(_) => HoldingElsewhere(s, Next(s, step));
    case ServeLateLogin => HoldingElsewhere(s, Next(s, step));
    case RestartServer => HoldingElsewhere(s, Next(s, step));
    case Tamper(_) => HoldingElsewhere(s, Next(s, step));
  }

  predicate NothingTaken(s: System, steps: seq<Step>)
    requires ValidRun(s, steps)
    decreases |steps|
  {
    steps == [] || (!TakesTokens(s, steps[0]) && NothingTaken(Next(s, steps[0]), steps[1..]))
  }

  /** A refresh that fails finds its tab's tokens in place, so it lands well. */
  lemma HoldersLandWell(s: System, step: Step)
    requires RefreshersHoldTokens(s) && Enabled(s, step)
    ensures !BadLanding(s, step)
  {
    if step.HandleReply? && s.ops[step.k].kind.RefreshOf? { assert Awaited(s, s.ops[step.k].tab); }
    if step.Settle? { assert Awaited(s, s.ops[step.k].tab); }
  }

  /** In every run in which no step takes a tab's tokens during its own refresh, every tab is coherent in every state. */
  lemma {:induction false} CoherenceAlongRuns(s: System, steps: seq<Step>)
    requires AllCoherent(s) && Slots(s) && RefreshersHoldTokens(s) && ValidRun(s, steps) && NothingTaken(s, steps)
    ensures AllCoherent(Run(s, steps))
    decreases |steps|
  {
    hide AllCoherent, Slots, RefreshersHoldTokens, TakesTokens, Next, Enabled, BadLanding;
    if steps != [] {
      HoldersLandWell(s, steps[0]);
      CoherenceOfSteps(s, steps[0]);
      WhenTokensAreTaken(s, steps[0]);
      StepKeepsSlots(s, steps[0]);
      CoherenceAlongRuns(Next(s, steps[0]), steps[1..]);
    }
  }

  /** All of it holds of an empty system. */
  lemma InitiallyCoherent(s: System)
    requires Initial(s)
    ensures AllCoherent(s) && Slots(s) && RefreshersHoldTokens(s) && NobodyBehind(s)
  {
  }
}
