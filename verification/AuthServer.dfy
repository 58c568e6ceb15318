/**
 Server side of auth sessions (frontend/lib/server/auth-sessions.ts and the two session routes).

 Tokens are 32 random bytes in the program and are stored as SHA-256 digests. Here a token is a
 number taken from a counter, so two issued tokens never collide and a digest identifies its token.
 */
module AuthServer {
  import opened Wrappers

  datatype Token = AccessToken(id: nat) | RefreshToken(id: nat)

  /** What a client is told about its session; subject and role are constant per session and left out. */
  datatype Info = Info(sid: nat, generation: nat, accessExpiresAt: int, refreshExpiresAt: int,
                       absoluteExpiresAt: int, refreshAfter: int)

  datatype Issued = Issued(session: Info, access: Token, refresh: Token)

  datatype SessionRecord = SessionRecord(
    sid: nat, generation: nat,
    access: Token, accessExpiresAt: int,
    refresh: Token, previous: Option<Token>, rotatedAt: Option<int>,
    refreshExpiresAt: int, absoluteExpiresAt: int, revokedAt: Option<int>)

  datatype Policy = Policy(accessTtl: nat, idleTtl: nat, maxLifetime: nat, reuseGrace: nat, refreshLead: nat)

  datatype Code = SessionInvalid | SessionExpired | SessionRevoked | RefreshSuperseded
                | Unauthenticated | NetworkError | OtherCode(n: nat)

  datatype Answer = Granted(issued: Issued) | Refused(code: Code)

  /** `records` is in the insertion order of the session map, which is the order of the scans. */
  datatype Server = Server(records: seq<SessionRecord>, nextToken: nat, nextSid: nat)

  datatype SessionState = Live | Ended | Revoked

  function Min(a: int, b: int): int { if a <= b then a else b }

  function Max(a: int, b: int): int { if a <= b then b else a }

  function StateOf(r: SessionRecord, now: int): SessionState {
    if r.revokedAt.Some? then Revoked
    else if now >= r.refreshExpiresAt || now >= r.absoluteExpiresAt then Ended
    else Live
  }

  function StateError(r: SessionRecord, now: int): Option<Code> {
    match StateOf(r, now)
    case Revoked => Some(SessionRevoked)
    case Ended => Some(SessionExpired)
    case Live => None
  }

  function ToView(r: SessionRecord, now: int, p: Policy): Info {
    var refreshAfter := Max(r.accessExpiresAt - p.refreshLead, now);
    Info(r.sid, r.generation, r.accessExpiresAt, r.refreshExpiresAt, r.absoluteExpiresAt,
         Min(refreshAfter, r.accessExpiresAt))
  }

  /** Puts a new token pair, numbered `n` and `n + 1`, on a record. */
  function Rotate(r: SessionRecord, now: int, p: Policy, n: nat): SessionRecord {
    var refreshExpiresAt := Min(now + p.idleTtl, r.absoluteExpiresAt);
    r.(access := AccessToken(n), refresh := RefreshToken(n + 1),
       refreshExpiresAt := refreshExpiresAt,
       accessExpiresAt := Min(now + p.accessTtl, refreshExpiresAt))
  }

  function IssuedFor(r: SessionRecord, now: int, p: Policy): Issued {
    Issued(ToView(r, now, p), r.access, r.refresh)
  }

  function Revoke(r: SessionRecord, now: int): SessionRecord {
    if r.revokedAt.Some? then r else r.(revokedAt := Some(now))
  }

  predicate Finished(r: SessionRecord, now: int, p: Policy) {
    var endedAt := r.revokedAt.GetOr(Min(r.refreshExpiresAt, r.absoluteExpiresAt));
    StateOf(r, now) != Live && now - endedAt > p.reuseGrace * 10
  }

  /** The purge of finished sessions that precedes each login. */
  function Purge(records: seq<SessionRecord>, now: int, p: Policy): seq<SessionRecord> {
    if records == [] then []
    else (if Finished(records[0], now, p) then [] else [records[0]]) + Purge(records[1..], now, p)
  }

  function CreateSession(s: Server, now: int, p: Policy): (Server, Issued) {
    var blank := SessionRecord(s.nextSid, 1, AccessToken(0), now, RefreshToken(0), None, None,
                               now, now + p.maxLifetime, None);
    var r := Rotate(blank, now, p, s.nextToken);
    (Server(Purge(s.records, now, p) + [r], s.nextToken + 2, s.nextSid + 1), IssuedFor(r, now, p))
  }

  predicate Presents(r: SessionRecord, presented: Token) {
    r.refresh == presented || r.previous == Some(presented)
  }

  /** Index of the first record, from `i` on, that the token belongs to; the length when there is none. */
  function Locate(records: seq<SessionRecord>, presented: Token, i: nat): (k: nat)
    requires i <= |records|
    ensures i <= k <= |records|
    ensures forall j :: i <= j < k ==> !Presents(records[j], presented)
    ensures k < |records| ==> Presents(records[k], presented)
    decreases |records| - i
  {
    if i == |records| || Presents(records[i], presented) then i else Locate(records, presented, i + 1)
  }

  /** The record after a successful refresh: its own token becomes the previous one. */
  function Advance(r: SessionRecord, now: int, p: Policy, n: nat): SessionRecord {
    Rotate(r.(previous := Some(r.refresh), rotatedAt := Some(now), generation := r.generation + 1), now, p, n)
  }

  function RefreshSession(s: Server, presented: Token, now: int, p: Policy): (Server, Answer) {
    if !presented.RefreshToken? then (s, Refused(SessionInvalid))
    else
      var k := Locate(s.records, presented, 0);
      if k == |s.records| then (s, Refused(SessionInvalid))
      else
        var r := s.records[k];
        var error := StateError(r, now);
        if error.Some? then (s, Refused(error.value))
        else if r.refresh == presented then
          var next := Advance(r, now, p, s.nextToken);
          (s.(records := s.records[k := next], nextToken := s.nextToken + 2), Granted(IssuedFor(next, now, p)))
        else if r.rotatedAt.Some? && now - r.rotatedAt.value <= p.reuseGrace then
          (s, Refused(RefreshSuperseded))
        else
          (s.(records := s.records[k := Revoke(r, now)]), Refused(SessionRevoked))
  }

  function LocateAccess(records: seq<SessionRecord>, access: Token, i: nat): (k: nat)
    requires i <= |records|
    ensures i <= k <= |records|
    ensures k < |records| ==> records[k].access == access
    decreases |records| - i
  {
    if i == |records| || records[i].access == access then i else LocateAccess(records, access, i + 1)
  }

  /** The DELETE route: authenticate the access token, then revoke its session. */
  function SignOut(s: Server, access: Token, now: int): Server {
    if !access.AccessToken? then s
    else
      var k := LocateAccess(s.records, access, 0);
      if k == |s.records| || StateError(s.records[k], now).Some? || now >= s.records[k].accessExpiresAt then s
      else s.(records := s.records[k := Revoke(s.records[k], now)])
  }

  /** The session store as the process holds it. */
  class SessionStore {
    var server: Server
    const policy: Policy

    constructor (policy: Policy)
      ensures server == Server([], 0, 0) && this.policy == policy
    {
      server := Server([], 0, 0);
      this.policy := policy;
    }

    /** The scan over all records: the first one the token belongs to decides, current token or previous. */
    method Refresh(presented: Token, now: int) returns (answer: Answer)
      modifies this
      ensures (server, answer) == RefreshSession(old(server), presented, now, policy)
    {
      if !presented.RefreshToken? {
        return Refused(SessionInvalid);
      }
      var i := 0;
      while i < |server.records|
        invariant 0 <= i <= |server.records|
        invariant server == old(server)
        invariant Locate(server.records, presented, 0) == Locate(server.records, presented, i)
      {
        var r := server.records[i];
        if r.refresh == presented {
          var error := StateError(r, now);
          if error.Some? {
            return Refused(error.value);
          }
          r := r.(previous := Some(r.refresh), rotatedAt := Some(now), generation := r.generation + 1);
          r := Rotate(r, now, policy, server.nextToken);
          server := server.(records := server.records[i := r], nextToken := server.nextToken + 2);
          return Granted(IssuedFor(r, now, policy));
        }
        if r.previous == Some(presented) {
          var error := StateError(r, now);
          if error.Some? {
            return Refused(error.value);
          }
          if r.rotatedAt.Some? && now - r.rotatedAt.value <= policy.reuseGrace {
            return Refused(RefreshSuperseded);
          }
          server := server.(records := server.records[i := Revoke(r, now)]);
          return Refused(SessionRevoked);
        }
        i := i + 1;
      }
      answer := Refused(SessionInvalid);
    }

    /** Login: drop sessions finished long ago, then add a new one. */
    method Login(now: int) returns (issued: Issued)
      modifies this
      ensures (server, issued) == CreateSession(old(server), now, policy)
    {
      var kept: seq<SessionRecord> := [];
      var i := 0;
      while i < |server.records|
        invariant 0 <= i <= |server.records|
        invariant server == old(server)
        invariant kept + Purge(server.records[i..], now, policy) == Purge(server.records, now, policy)
      {
        assert server.records[i..][1..] == server.records[i + 1..];
        if !Finished(server.records[i], now, policy) {
          kept := kept + [server.records[i]];
        }
        i := i + 1;
      }
      assert kept == Purge(server.records, now, policy);
      var r := SessionRecord(server.nextSid, 1, AccessToken(0), now, RefreshToken(0), None, None,
                             now, now + policy.maxLifetime, None);
      r := Rotate(r, now, policy, server.nextToken);
      server := Server(kept + [r], server.nextToken + 2, server.nextSid + 1);
      issued := IssuedFor(r, now, policy);
    }

    /** Logout, for the session the access token belongs to. */
    method Delete(access: Token, now: int)
      modifies this
      ensures server == SignOut(old(server), access, now)
    {
      if !access.AccessToken? {
        return;
      }
      var i := 0;
      while i < |server.records|
        invariant 0 <= i <= |server.records|
        invariant server == old(server)
        invariant LocateAccess(server.records, access, 0) == LocateAccess(server.records, access, i)
      {
        var r := server.records[i];
        if r.access == access {
          if StateError(r, now).None? && now < r.accessExpiresAt {
            server := server.(records := server.records[i := Revoke(r, now)]);
          }
          return;
        }
        i := i + 1;
      }
    }
  }

  /** Lifetimes nest: the access token ends no later than the idle window, and that no later than the session. */
  predicate Bounded(r: SessionRecord) {
    r.accessExpiresAt <= r.refreshExpiresAt <= r.absoluteExpiresAt
  }

  /** Every session's lifetimes nest, and no idle window reaches past what a refresh now would give. */
  predicate Windows(records: seq<SessionRecord>, now: int, p: Policy) {
    forall r :: r in records ==> Bounded(r) && r.refreshExpiresAt <= now + p.idleTtl
  }

  lemma {:induction false} PurgeKeepsWindows(records: seq<SessionRecord>, now: int, p: Policy)
    requires Windows(records, now, p)
    ensures Windows(Purge(records, now, p), now, p)
  {
    if records != [] { PurgeKeepsWindows(records[1..], now, p); }
  }

  lemma ServingKeepsWindows(s: Server, presented: Token, access: Token, now: int, p: Policy)
    requires Windows(s.records, now, p)
    ensures Windows(RefreshSession(s, presented, now, p).0.records, now, p)
    ensures Windows(CreateSession(s, now, p).0.records, now, p)
    ensures Windows(SignOut(s, access, now).records, now, p)
  {
    PurgeKeepsWindows(s.records, now, p);
  }

  /**
   What a granted refresh does to record `k`, and to no other: a new idle window within the same absolute
   lifetime, not shorter than the old one, and a client told to come back in time.
   */
  predicate Extends(s: Server, presented: Token, now: int, p: Policy, k: int) {
    var (s', answer) := RefreshSession(s, presented, now, p);
    && answer.Granted? && 0 <= k < |s.records| == |s'.records| && s.records[k].refresh == presented
    && StateOf(s.records[k], now) == Live && s'.records == s.records[k := s'.records[k]]
    && Bounded(s'.records[k]) && s'.records[k].absoluteExpiresAt == s.records[k].absoluteExpiresAt
    && s'.records[k].refreshExpiresAt >= s.records[k].refreshExpiresAt
    && answer.issued.session.refreshAfter <= answer.issued.session.accessExpiresAt
         <= answer.issued.session.refreshExpiresAt <= answer.issued.session.absoluteExpiresAt
  }

  lemma RefreshStaysWithinLifetime(s: Server, presented: Token, now: int, p: Policy)
    requires Windows(s.records, now, p) && RefreshSession(s, presented, now, p).1.Granted?
    ensures exists k :: Extends(s, presented, now, p, k)
  {
    var k := Locate(s.records, presented, 0);
    assert s.records[k] in s.records && Extends(s, presented, now, p, k);
  }
}
