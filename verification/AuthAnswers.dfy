/**
 What the server's answers mean, in times: which sessions a login keeps, what a refresh is answered and
 for how long what it issues is good (frontend/lib/server/auth-sessions.ts).
 */
module AuthAnswers {
  import opened Wrappers
  import opened AuthServer
  import opened AuthProtocol

  // --- Login ----------------------------------------------------------------------------------

  /** When a session ends: at its revocation, or else when its idle window or its lifetime does. */
  function EndOf(r: SessionRecord): int {
    if r.revokedAt.Some? then r.revokedAt.value
    else if r.refreshExpiresAt <= r.absoluteExpiresAt then r.refreshExpiresAt else r.absoluteExpiresAt
  }

  /** Open now: not revoked, and neither window has run out. */
  predicate Open(r: SessionRecord, now: int) {
    r.revokedAt.None? && now < r.refreshExpiresAt && now < r.absoluteExpiresAt
  }

  predicate Ascending(ids: seq<nat>) { forall i, j :: 0 <= i < j < |ids| ==> ids[i] < ids[j] }

  /** The kept records are those of some positions, in order. */
  predicate Picks(kept: seq<SessionRecord>, records: seq<SessionRecord>, at: seq<nat>) {
    |at| == |kept| && Ascending(at) && forall i :: 0 <= i < |at| ==> at[i] < |records| && kept[i] == records[at[i]]
  }

  function Shifted(first: bool, rest: seq<nat>): (at: seq<nat>)
    ensures |at| == |rest| + if first then 1 else 0
    ensures forall i :: 0 <= i < |rest| ==> at[if first then i + 1 else i] == rest[i] + 1
    ensures first ==> at[0] == 0
  {
    (if first then [0] else []) + seq(|rest|, i requires 0 <= i < |rest| => rest[i] + 1)
  }

  lemma ShiftedPicks(records: seq<SessionRecord>, kept: seq<SessionRecord>, first: bool, rest: seq<nat>)
    requires records != [] && Picks(kept, records[1..], rest)
    ensures Picks((if first then [records[0]] else []) + kept, records, Shifted(first, rest))
  {
    var at := Shifted(first, rest);
    hide Shifted;
    forall i | 0 <= i < |at| && (first ==> i > 0) ensures at[i] == rest[if first then i - 1 else i] + 1 {
      var j := if first then i - 1 else i;
      assert at[if first then j + 1 else j] == rest[j] + 1;
    }
  }

  lemma ShiftedMembers(first: bool, rest: seq<nat>, j: nat)
    ensures j in Shifted(first, rest) <==> (j == 0 && first) || (j > 0 && j - 1 in rest)
  {
    var at := Shifted(first, rest);
    hide Shifted;
    if j in at {
      var i :| 0 <= i < |at| && at[i] == j;
      var m := if first then i - 1 else i;
      if m >= 0 { assert at[if first then m + 1 else m] == rest[m] + 1; }
    }
    if j > 0 && j - 1 in rest {
      var m :| 0 <= m < |rest| && rest[m] == j - 1;
      assert at[if first then m + 1 else m] == rest[m] + 1;
    }
  }

  lemma FinishedInTimes(r: SessionRecord, now: int, p: Policy)
    ensures Finished(r, now, p) <==> now > EndOf(r) + 10 * p.reuseGrace
  {
  }

  lemma {:induction false} PurgePicks(records: seq<SessionRecord>, now: int, p: Policy) returns (at: seq<nat>)
    ensures Picks(Purge(records, now, p), records, at)
    ensures forall j :: 0 <= j < |records| ==> (j in at <==> now <= EndOf(records[j]) + 10 * p.reuseGrace)
  {
    at := [];
    if records != [] {
      var rest := PurgePicks(records[1..], now, p);
      var first := !Finished(records[0], now, p);
      FinishedInTimes(records[0], now, p);
      at := Shifted(first, rest);
      ShiftedPicks(records, Purge(records[1..], now, p), first, rest);
      hide Finished, EndOf, Picks, Shifted;
      forall j | 0 <= j < |records| ensures j in at <==> now <= EndOf(records[j]) + 10 * p.reuseGrace {
        ShiftedMembers(first, rest, j);
        if j > 0 { assert records[j] == records[1..][j - 1]; }
      }
    }
  }

  /**
   A login keeps every session until ten grace windows after its end, unchanged and in order, and drops the
   others; then it adds one that is open from now on, for the idle window and no longer than its lifetime.
   */
  lemma LoginKeeps(s: Server, now: int, p: Policy) returns (at: seq<nat>)
    ensures var (s', i) := CreateSession(s, now, p);
            && |s'.records| == |at| + 1 && Picks(s'.records[..|at|], s.records, at)
            && (forall j :: 0 <= j < |s.records| ==> (j in at <==> now <= EndOf(s.records[j]) + 10 * p.reuseGrace))
            && (forall j :: 0 <= j < |s.records| && Open(s.records[j], now) ==> j in at)
            && var r := s'.records[|at|];
            && r.sid == s.nextSid && r.generation == 1 && r.revokedAt.None? && r.previous.None?
            && r.absoluteExpiresAt == now + p.maxLifetime
            && (forall t :: now <= t ==> (Open(r, t) <==> t < now + p.idleTtl && t < now + p.maxLifetime))
            && (forall t :: now <= t ==> (Open(r, t) && t < r.accessExpiresAt <==> t < now + p.accessTtl && t < now + p.idleTtl && t < now + p.maxLifetime))
            && i.refresh == r.refresh && i.access == r.access
            && i.session == Info(r.sid, 1, r.accessExpiresAt, r.refreshExpiresAt, r.absoluteExpiresAt, i.session.refreshAfter)
            && (now <= r.accessExpiresAt - p.refreshLead ==> i.session.refreshAfter == r.accessExpiresAt - p.refreshLead)
            && (r.accessExpiresAt - p.refreshLead < now <= r.accessExpiresAt ==> i.session.refreshAfter == now)
  {
    at := PurgePicks(s.records, now, p);
    hide Purge;
  }

  lemma StateIsOpen(r: SessionRecord, now: int)
    ensures StateOf(r, now) == Live <==> Open(r, now)
    ensures StateOf(r, now) == Revoked <==> r.revokedAt.Some?
  {
  }

  // --- Refresh --------------------------------------------------------------------------------

  /** Record `k` is the first the token belongs to, as its current or its previous one. */
  predicate FirstOwner(s: Server, token: Token, k: nat) {
    && k < |s.records| && (s.records[k].refresh == token || s.records[k].previous == Some(token))
    && forall j :: 0 <= j < k ==> s.records[j].refresh != token && s.records[j].previous != Some(token)
  }

  /**
   What a refresh is answered, by the state of the session and the age of the token; only a granted one
   rotates, and only one that replays a used token too late revokes.
   */
  lemma RefreshAnswers(s: Server, token: Token, now: int, p: Policy, k: nat)
    requires token.RefreshToken? && FirstOwner(s, token, k)
    ensures var (s', answer) := RefreshSession(s, token, now, p);
            var r := s.records[k];
            var inGrace := r.rotatedAt.Some? && now <= r.rotatedAt.value + p.reuseGrace;
            && (answer == Refused(SessionExpired) <==> r.revokedAt.None? && !Open(r, now))
            && (answer == Refused(SessionRevoked) <==> r.revokedAt.Some? || (Open(r, now) && r.refresh != token && !inGrace))
            && (answer == Refused(RefreshSuperseded) <==> Open(r, now) && r.refresh != token && inGrace)
            && (answer.Granted? <==> Open(r, now) && r.refresh == token)
            && |s'.records| == |s.records| && (forall j :: 0 <= j < |s.records| && j != k ==> s'.records[j] == s.records[j])
            && (answer.Refused? && !(Open(r, now) && answer.code == SessionRevoked) ==> s' == s)
            && (Open(r, now) && answer == Refused(SessionRevoked) ==> s'.records[k] == r.(revokedAt := Some(now)))
  {
    LocateIsFirst(s.records, token, 0, k);
  }

  lemma {:induction false} LocateIsFirst(records: seq<SessionRecord>, token: Token, i: nat, k: nat)
    requires i <= k < |records| && (records[k].refresh == token || records[k].previous == Some(token))
    requires forall j :: i <= j < k ==> records[j].refresh != token && records[j].previous != Some(token)
    ensures Locate(records, token, i) == k
    decreases k - i
  {
    if i < k { LocateIsFirst(records, token, i + 1, k); }
  }

  /** A token of the wrong kind, or of no session, is invalid. */
  lemma UnknownTokenIsInvalid(s: Server, token: Token, now: int, p: Policy)
    requires !token.RefreshToken? || forall j :: 0 <= j < |s.records| ==> s.records[j].refresh != token && s.records[j].previous != Some(token)
    ensures RefreshSession(s, token, now, p) == (s, Refused(SessionInvalid))
  {
  }

  /**
   How long a granted pair is good: the refresh token for the idle window and the access token for its own,
   neither past the session's lifetime; the client comes back before the access token ends, by the lead if that leaves time.
   */
  lemma GrantLasts(s: Server, token: Token, now: int, p: Policy, k: nat)
    requires token.RefreshToken? && FirstOwner(s, token, k) && RefreshSession(s, token, now, p).1.Granted?
    ensures var (s', answer) := RefreshSession(s, token, now, p);
            var old_, r, i := s.records[k], s'.records[k], answer.issued;
            && r.previous == Some(token) && r.rotatedAt == Some(now) && r.generation == old_.generation + 1 && r.sid == old_.sid
            && i.refresh == r.refresh == RefreshToken(s.nextToken + 1) && i.access == r.access == AccessToken(s.nextToken)
            && (forall t :: now <= t ==> (Open(r, t) <==> t < now + p.idleTtl && t < old_.absoluteExpiresAt))
            && (forall t :: now <= t ==> (Open(r, t) && t < r.accessExpiresAt <==> t < now + p.accessTtl && t < now + p.idleTtl && t < old_.absoluteExpiresAt))
            && i.session == Info(r.sid, r.generation, r.accessExpiresAt, r.refreshExpiresAt, r.absoluteExpiresAt, i.session.refreshAfter)
            && (now <= r.accessExpiresAt - p.refreshLead ==> i.session.refreshAfter == r.accessExpiresAt - p.refreshLead)
            && (r.accessExpiresAt - p.refreshLead < now <= r.accessExpiresAt ==> i.session.refreshAfter == now)
  {
    LocateIsFirst(s.records, token, 0, k);
  }

  // --- Along runs -----------------------------------------------------------------------------

  /** Whoever signs in, refreshes or signs out meanwhile: an open session stays on the server unless it restarts. */
  lemma OpenSessionsStay(s: System, step: Step, r: SessionRecord)
    requires Enabled(s, step) && step != RestartServer && r in s.server.records && Open(r, s.now)
    ensures exists r' :: r' in Next(s, step).server.records && r'.sid == r.sid
  {
    var n :| 0 <= n < |s.server.records| && s.server.records[n] == r;
    if step.ServeLogin? || step.ServeLateLogin? {
      var at := LoginKeeps(s.server, s.now, s.policy);
      var s' := CreateSession(s.server, s.now, s.policy).0;
      var i :| 0 <= i < |at| && at[i] == n;
      assert s'.records[..|at|][i] == r && r in s'.records;
      hide CreateSession;
      assert r in Next(s, step).server.records;
    } else {
      PositionsKeep(s, step);
      hide Next, Enabled;
      assert Next(s, step).server.records[n] in Next(s, step).server.records;
    }
  }

  lemma PositionsKeep(s: System, step: Step)
    requires Enabled(s, step) && step != RestartServer && !step.ServeLogin? && !step.ServeLateLogin?
    ensures |Next(s, step).server.records| == |s.server.records|
    ensures forall n :: 0 <= n < |s.server.records| ==> Next(s, step).server.records[n].sid == s.server.records[n].sid
  {
    match step
    case ServeRefresh(k) => RefreshKeepsSids(s.server, s.ops[k].kind.current.refresh, s.now, s.policy);
    case ServeLate(current) => RefreshKeepsSids(s.server, current.refresh, s.now, s.policy);
    case _ =>
    hide RefreshSession;
  }

  lemma RefreshKeepsSids(s: Server, token: Token, now: int, p: Policy)
    ensures var out := RefreshSession(s, token, now, p).0;
            |out.records| == |s.records| && forall n :: 0 <= n < |s.records| ==> out.records[n].sid == s.records[n].sid
  {
  }

  /** The session is on the server, and open whenever a step of the run starts. */
  predicate OpenAlong(s: System, steps: seq<Step>, sid: nat)
    requires ValidRun(s, steps)
    decreases |steps|
  {
    && (forall r :: r in s.server.records && r.sid == sid ==> Open(r, s.now))
    && (steps != [] ==> OpenAlong(Next(s, steps[0]), steps[1..], sid))
  }

  /** So along every run without a restart: a session leaves the server only after it has ended. */
  lemma {:induction false} SessionsStayWhileOpen(s: System, steps: seq<Step>, sid: nat)
    requires ValidRun(s, steps) && RestartServer !in steps && OpenAlong(s, steps, sid)
    requires exists r :: r in s.server.records && r.sid == sid
    ensures exists r :: r in Run(s, steps).server.records && r.sid == sid
    decreases |steps|
  {
    if steps != [] {
      var r :| r in s.server.records && r.sid == sid;
      OpenSessionsStay(s, steps[0], r);
      hide Next, Enabled;
      SessionsStayWhileOpen(Next(s, steps[0]), steps[1..], sid);
    }
  }
}
