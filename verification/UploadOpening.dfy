/**
 The stored sessions as an object, and the client that opens, finds and completes them
 (frontend/lib/resumable-upload.ts), over calls that are retried and whose replies can be lost.
 */
module UploadOpening {
  import opened Wrappers
  import opened UploadServer
  import opened UploadSessions
  import opened UploadCalls

  class SessionStore {
    var records: Store

    constructor ()
      ensures records == []
    {
      records := [];
    }

    /** `startOrResumeLocked`, undisturbed: visits the candidates read at the start and stops at the first that fits. */
    method StartOrResume(start: Start, now: int) returns (id: nat, resumed: bool)
      requires start.chunkSize > 0
      modifies this
      ensures records == Started(old(records), start, now)
      ensures id == FirstFit(old(records), start, now) && (resumed <==> id < |old(records)|)
    {
      hide Candidates, FirstFit, Started, Visit, Fits, Refresh;
      var ids := Candidates(records, start.key);
      ghost var store := records;
      var k := 0;
      BetweenCandidates(store, start.key, 0);
      NothingVisited(store, start, now, Frontier(ids, 0, |store|));
      while k < |ids|
        invariant 0 <= k <= |ids|
        invariant Visited(store, records, start, now, Frontier(ids, k, |store|))
      {
        id := ids[k];
        BetweenCandidates(store, start.key, k);
        BetweenCandidates(store, start.key, k + 1);
        VisitNext(store, records, start, now, id, Frontier(ids, k + 1, |store|));
        records, resumed := Visit(records, id, start, now).0, Visit(records, id, start, now).1;
        if resumed {
          return;
        }
        k := k + 1;
      }
      AllVisited(store, records, start, now);
      id, resumed := |records|, false;
      records := records + [Fresh(start, now)];
    }

    /** `getSession`: an absent id is a 404. */
    method Get(id: nat, now: int) returns (found: Option<Session>)
      modifies this
      ensures id >= |old(records)| ==> found.None? && records == old(records)
      ensures id < |old(records)| ==> records == old(records)[id := Refreshed(old(records)[id], now)] && found == Some(records[id].session)
    {
      if id >= |records| {
        return None;
      }
      records := records[id := Refreshed(records[id], now)];
      found := Some(records[id].session);
    }

    method Patch(id: nat, action: Action, now: int) returns (answer: Answer)
      requires id < |records| && StoreOk(records)
      modifies this
      ensures records == old(records)[id := old(records)[id].(session := Update(old(records)[id].session, action, now).0)]
      ensures answer == Update(old(records)[id].session, action, now).1
    {
      assert SessionOk(records[id].session);
      var (session, a) := Update(records[id].session, action, now);
      records, answer := records[id := records[id].(session := session)], a;
    }
  }

  /** Everything before the next candidate has been dealt with. */
  function Frontier(ids: seq<nat>, k: nat, n: nat): nat { if k < |ids| then ids[k] else n }

  /** Between two candidates there is nothing a start could resume, or that a visit would change. */
  lemma BetweenCandidates(store: Store, key: FileKey, k: nat)
    requires k <= |Candidates(store, key)|
    ensures var ids := Candidates(store, key);
            && Frontier(ids, k, |store|) <= |store|
            && (k < |ids| ==> ids[k] < |store| && store[ids[k]].key == key)
            && (k > 0 ==> ids[k - 1] < Frontier(ids, k, |store|))
            && forall j :: 0 <= j < Frontier(ids, k, |store|) && (k > 0 ==> ids[k - 1] < j) && store[j].key == key ==> !Live(store[j])
  {
  }

  /** The records when all candidates below `upto` have been visited in vain. */
  ghost predicate Visited(store: Store, records: Store, start: Start, now: int, upto: nat) {
    && upto <= |store| == |records|
    && (forall j :: 0 <= j < upto ==> !Fits(store[j], start, now))
    && forall j :: 0 <= j < |store| ==>
         records[j] == if j < upto && store[j].key == start.key then Refreshed(store[j], now) else store[j]
  }

  lemma NothingVisited(store: Store, start: Start, now: int, upto: nat)
    requires upto <= |store| && forall j :: 0 <= j < upto && store[j].key == start.key ==> !Live(store[j])
    ensures Visited(store, store, start, now, upto)
  {
  }

  lemma VisitNext(store: Store, records: Store, start: Start, now: int, id: nat, next: nat)
    requires Visited(store, records, start, now, id) && start.chunkSize > 0
    requires id < next <= |store| && store[id].key == start.key
    requires forall j :: id < j < next && store[j].key == start.key ==> !Live(store[j])
    ensures var (visited, resumed) := Visit(records, id, start, now);
            && (resumed ==> FirstFit(store, start, now) == id && visited == Started(store, start, now))
            && (!resumed ==> Visited(store, visited, start, now, next))
  {
  }

  lemma AllVisited(store: Store, records: Store, start: Start, now: int)
    requires Visited(store, records, start, now, |store|) && start.chunkSize > 0
    ensures FirstFit(store, start, now) == |store| && records + [Fresh(start, now)] == Started(store, start, now)
  {
  }

  // --- The client -----------------------------------------------------------------------------

  datatype Mode = ResumeMode | RestartMode

  /** What `findResumableSession` says: it threw, or there is nothing to resume, or this session. */
  datatype Found = Threw | Nothing | Known(id: nat, session: Session)

  /** What the remembered id leads to at this time. */
  function Lookup(remembered: map<FileKey, nat>, records: Store, key: FileKey, now: int): Option<nat> {
    if key in remembered && remembered[key] < |records| &&
       (var status := Refresh(records[remembered[key]].session, now).status; status == InProgress || status == Expired)
    then Some(remembered[key]) else None
  }

  /** The session a call to open hands out: a lapsed one, or any when restarting, is taken by its id; otherwise the server picks. */
  function Opened(remembered: map<FileKey, nat>, records: Store, start: Start, mode: Mode, now: int): nat {
    var known := Lookup(remembered, records, start.key, now);
    if known.Some? && (mode == RestartMode || Refresh(records[known.value].session, now).status == Expired) then known.value
    else FirstFit(records, start, now)
  }

  /** The progress it comes with: that of the session the server picked, unless something was restarted. */
  function OpenedProgress(remembered: map<FileKey, nat>, records: Store, start: Start, mode: Mode, now: int): seq<int> {
    var id := FirstFit(records, start, now);
    if mode == RestartMode || Opened(remembered, records, start, mode, now) != id || id == |records| then []
    else records[id].session.completedChunks
  }

  /** The remembered session has lapsed without being aborted or completed. */
  predicate RemembersLapsed(remembered: map<FileKey, nat>, records: Store, key: FileKey, now: int) {
    var known := Lookup(remembered, records, key, now);
    known.Some? && Refresh(records[known.value].session, now).status == Expired
  }

  /**
   With one open session for the file, opening continues it with all its progress, whatever else is stored, unless this
   browser remembers a lapsed session: that one is restarted instead, beside the open one.
   */
  lemma OpeningPicksUp(remembered: map<FileKey, nat>, records: Store, start: Start, now: int, i: nat)
    requires OneLive(records) && i < |records| && Fits(records[i], start, now)
    ensures var lapsed := RemembersLapsed(remembered, records, start.key, now);
            && (Opened(remembered, records, start, ResumeMode, now) == i <==> !lapsed)
            && OpenedProgress(remembered, records, start, ResumeMode, now) == (if lapsed then [] else records[i].session.completedChunks)
            && (lapsed && SameUpload(records[i], records[remembered[start.key]]) && !Live(records[remembered[start.key]]) ==>
                  BadRevival(World(records, map[]), Patch(remembered[start.key], Restart, now)))
  {
  }

  /**
   What an opening hands out, in full: the session this browser remembers, if that has lapsed or is to be restarted, and
   otherwise whatever the server starts or resumes; progress comes only with the latter, and not when restarting.
   */
  lemma WhatOpeningHandsOut(remembered: map<FileKey, nat>, records: Store, start: Start, mode: Mode, now: int)
    ensures var known := start.key in remembered && remembered[start.key] < |records|;
            var id, progress := Opened(remembered, records, start, mode, now), OpenedProgress(remembered, records, start, mode, now);
            var picked := FirstFit(records, start, now);
            var s := if known then Some(records[remembered[start.key]].session) else None;
            var lapsed := s.Some? && (s.value.status == Expired || (s.value.status == InProgress && s.value.expiresAt <= now));
            var open := s.Some? && s.value.status == InProgress && now < s.value.expiresAt;
            && (lapsed || (open && mode == RestartMode) ==> id == remembered[start.key])
            && (!lapsed && !(open && mode == RestartMode) ==> id == picked)
            && (mode == RestartMode || lapsed || picked == |records| ==> progress == [])
            && (mode == ResumeMode && !lapsed && picked < |records| ==> progress == records[picked].session.completedChunks)
  {
  }

  lemma StartedOk(records: Store, start: Start, now: int)
    requires StoreOk(records) && start.chunkSize > 0
    ensures StoreOk(Started(records, start, now))
  {
  }

  /**
   A completion that the server has accepted and whose reply is lost looks like a failure however often it is
   tried again, at whatever time and naming whatever upload, though nothing is left to resume.
   */
  lemma LostCompletionIsRefused(remembered: map<FileKey, nat>, records: Store, key: FileKey, linked: Linked, now: int,
                                again: Linked, later: int)
    requires StoreOk(records) && key in remembered && remembered[key] < |records|
    requires Update(records[remembered[key]].session, Complete(linked), now).1.Updated?
    ensures var id := remembered[key];
            var done := Update(records[id].session, Complete(linked), now).0;
            && Update(done, Complete(again), later) == (done, Conflict)
            && Lookup(remembered, records[id := records[id].(session := done)], key, later).None?
  {
    assert SessionOk(records[remembered[key]].session);
  }

  predicate CanComplete(s: Session, linked: Linked, now: int) {
    s.status == InProgress && now < s.expiresAt && !linked.Unknown? && forall c :: 0 <= c < s.totalChunks ==> c in s.completedChunks
  }

  /** When one try of a completion is accepted; nothing else completes a session. */
  lemma WhenCompletionIsAccepted(s: Session, linked: Linked, now: int)
    requires SessionOk(s)
    ensures var (after, answer) := Update(s, Complete(linked), now);
            && (answer.Updated? <==> CanComplete(s, linked, now))
            && (after.status == Completed <==> answer.Updated? || s.status == Completed)
            && (s.status == Completed ==> after == s && answer == Conflict)
  {
    AscendingBelow(s.completedChunks, s.totalChunks);
  }

  /** A completion call: the session when it ends, and whether the client is told that it succeeded. */
  function CompleteCall(s: Session, linked: Linked, events: seq<Event>): (Session, bool)
    requires SessionOk(s)
  {
    var (after, told) := Call(s, Complete(linked), events);
    (after, told.Some? && told.value.Updated?)
  }

  /** The session after the first `i` events, the call being still open then. */
  function Reached(s: Session, linked: Linked, events: seq<Event>, i: nat): (r: Option<Session>)
    requires SessionOk(s) && i <= |events|
    ensures r.Some? ==> SessionOk(r.value)
    decreases i
  {
    if i == 0 then Some(s)
    else
      HappenKeepsOk(s, Complete(linked), events[0]);
      var (after, told) := Happen(s, Complete(linked), events[0]);
      if told.Some? then None else Reached(after, linked, events[1..], i - 1)
  }

  /** While the call is open event `i` completes the session, and it is not a try whose answer the client gets. */
  predicate CompletesUnheard(s: Session, linked: Linked, events: seq<Event>, i: int)
    requires SessionOk(s)
  {
    && 0 <= i < |events| && Reached(s, linked, events, i).Some?
    && var at := Reached(s, linked, events, i).value;
    && at.status != Completed && Happen(at, Complete(linked), events[i]).0.status == Completed
    && !(events[i].Try? && events[i].replied)
  }

  /** Once completed, a session stays as it is, and every answer is a conflict. */
  lemma CompletedStays(s: Session, linked: Linked, event: Event)
    requires SessionOk(s) && s.status == Completed
    ensures Happen(s, Complete(linked), event) == (s, None)
  {
  }

  lemma {:induction false} NothingAfterCompletion(s: Session, linked: Linked, events: seq<Event>)
    requires SessionOk(s) && s.status == Completed
    ensures CompleteCall(s, linked, events) == (s, false)
    ensures forall i :: !CompletesUnheard(s, linked, events, i)
    decreases |events|
  {
    if events != [] {
      CompletedStays(s, linked, events[0]);
      NothingAfterCompletion(s, linked, events[1..]);
      LaterEvents(s, linked, events);
    }
  }

  /** An event later than the first, seen from after the first. */
  lemma LaterEvents(s: Session, linked: Linked, events: seq<Event>)
    requires SessionOk(s) && events != []
    ensures SessionOk(Happen(s, Complete(linked), events[0]).0)
    ensures var (after, told) := Happen(s, Complete(linked), events[0]);
            forall i :: i > 0 ==>
              (CompletesUnheard(s, linked, events, i) <==> told.None? && CompletesUnheard(after, linked, events[1..], i - 1))
  {
    HappenKeepsOk(s, Complete(linked), events[0]);
    hide Happen, SessionOk;
    var (after, told) := Happen(s, Complete(linked), events[0]);
    forall i | 0 < i < |events|
      ensures CompletesUnheard(s, linked, events, i) <==> told.None? && CompletesUnheard(after, linked, events[1..], i - 1)
    {
      assert events[1..][i - 1] == events[i];
    }
  }

  /** What the first event does. */
  lemma FirstEvent(s: Session, linked: Linked, event: Event)
    requires SessionOk(s) && s.status != Completed
    ensures var (after, told) := Happen(s, Complete(linked), event);
            && (told.Some? && told.value.Updated? <==> event.Try? && event.replied && after.status == Completed)
            && (after.status == Completed && told.Some? ==> told.value.Updated?)
  {
    if event.Try? { WhenCompletionIsAccepted(s, linked, event.now); }
  }

  /**
   With anyone else acting on the session between the tries: it is completed when the call ends and the
   client told otherwise exactly if the update that completed it was not a try whose answer came back.
   */
  lemma {:induction false} WhenCompletionLooksFailed(s: Session, linked: Linked, events: seq<Event>)
    requires SessionOk(s) && s.status != Completed
    ensures var (after, ok) := CompleteCall(s, linked, events);
            && (ok ==> after.status == Completed)
            && (after.status == Completed && !ok <==> exists i :: CompletesUnheard(s, linked, events, i))
    decreases |events|
  {
    if events != [] {
      var (after, told) := Happen(s, Complete(linked), events[0]);
      FirstEvent(s, linked, events[0]);
      LaterEvents(s, linked, events);
      assert CompletesUnheard(s, linked, events, 0) <==> after.status == Completed && !(events[0].Try? && events[0].replied);
      hide Happen, SessionOk, CompletesUnheard;
      assert forall i :: CompletesUnheard(s, linked, events, i) ==> i >= 0 by { OnlyEvents(s, linked, events); }
      if told.None? {
        if after.status == Completed { NothingAfterCompletion(after, linked, events[1..]); } else { WhenCompletionLooksFailed(after, linked, events[1..]); }
        forall i | CompletesUnheard(after, linked, events[1..], i) ensures CompletesUnheard(s, linked, events, i + 1) {
          OnlyEvents(after, linked, events[1..]);
        }
      }
    } else {
      OnlyEvents(s, linked, events);
    }
  }

  lemma OnlyEvents(s: Session, linked: Linked, events: seq<Event>)
    requires SessionOk(s)
    ensures forall i :: CompletesUnheard(s, linked, events, i) ==> 0 <= i < |events|
  {
  }

  /** If nobody else acts and time does not run backwards, that is: the first try to reach the server is accepted, and its answer is lost. */
  lemma {:induction false} WhenCompletionLooksFailedAlone(s: Session, linked: Linked, events: seq<Event>)
    requires SessionOk(s) && s.status != Completed && forall i :: 0 <= i < |events| ==> events[i].Try?
    requires forall i, j :: 0 <= i < j < |events| ==> events[i].now <= events[j].now
    ensures var (after, ok) := CompleteCall(s, linked, events);
            after.status == Completed && !ok <==> exists i :: AcceptedUnheard(s, linked, events, i)
    decreases |events|
  {
    if events == [] {
    } else if !events[0].reached {
      WhenCompletionLooksFailedAlone(s, linked, events[1..]);
      forall i | AcceptedUnheard(s, linked, events, i) ensures AcceptedUnheard(s, linked, events[1..], i - 1) {}
      forall i | AcceptedUnheard(s, linked, events[1..], i) ensures AcceptedUnheard(s, linked, events, i + 1) {}
    } else {
      var after := Update(s, Complete(linked), events[0].now).0;
      WhenCompletionIsAccepted(s, linked, events[0].now);
      UpdateKeepsOk(s, Complete(linked), events[0].now);
      assert after.status == InProgress ==> after == s;
      hide SessionOk, Update;
      HopelessCall(after, linked, events[1..]);
      assert forall i :: AcceptedUnheard(s, linked, events, i) ==> i == 0;
      assert AcceptedUnheard(s, linked, events, 0) <==> !events[0].replied && CanComplete(s, linked, events[0].now);
    }
  }

  /** Try `i` is the first to reach the server, which accepts it, and its answer is lost. */
  predicate AcceptedUnheard(s: Session, linked: Linked, events: seq<Event>, i: int) {
    0 <= i < |events| && events[i].Try? && events[i].reached && !events[i].replied && CanComplete(s, linked, events[i].now) &&
    forall j :: 0 <= j < i ==> events[j].Try? && !events[j].reached
  }

  /** Tries that cannot complete the session, or no longer need to, never report success and complete nothing. */
  lemma {:induction false} HopelessCall(s: Session, linked: Linked, events: seq<Event>)
    requires SessionOk(s) && forall i :: 0 <= i < |events| ==> events[i].Try? && !CanComplete(s, linked, events[i].now)
    ensures !CompleteCall(s, linked, events).1
    ensures CompleteCall(s, linked, events).0.status == Completed <==> s.status == Completed
    decreases |events|
  {
    if events != [] {
      var after := Update(s, Complete(linked), events[0].now).0;
      WhenCompletionIsAccepted(s, linked, events[0].now);
      UpdateKeepsOk(s, Complete(linked), events[0].now);
      assert after.status == InProgress ==> after == s;
      hide SessionOk, Update;
      HopelessCall(if events[0].reached then after else s, linked, events[1..]);
    }
  }

  function Joined(calls: seq<seq<Event>>): seq<Event> {
    if calls == [] then [] else Joined(calls[..|calls| - 1]) + calls[|calls| - 1]
  }

  /** Every call is heard in some try. */
  predicate AllHeard(calls: seq<seq<Event>>) { forall i :: 0 <= i < |calls| ==> Heard(calls[i]) }

  lemma NoCalls()
    ensures Joined([]) == [] && AllHeard([])
  {
  }

  lemma CallsSnoc(calls: seq<seq<Event>>, last: seq<Event>)
    ensures Joined(calls + [last]) == Joined(calls) + last
    ensures AllHeard(calls + [last]) <==> AllHeard(calls) && Heard(last)
  {
    var all := calls + [last];
    assert all[..|calls|] == calls && all[|calls|] == last;
    hide Heard;
    assert forall i :: 0 <= i < |calls| ==> all[i] == calls[i];
  }

  lemma {:induction false} CallsConcat(calls: seq<seq<Event>>, more: seq<seq<Event>>)
    ensures Joined(calls + more) == Joined(calls) + Joined(more)
    ensures AllHeard(calls + more) <==> AllHeard(calls) && AllHeard(more)
  {
    NoCalls();
    hide Joined, AllHeard, Heard;
    if more == [] {
      assert calls + more == calls;
    } else {
      var init, last := more[..|more| - 1], more[|more| - 1];
      assert calls + more == calls + init + [last] && more == init + [last];
      CallsConcat(calls, init);
      CallsSnoc(calls + init, last);
      CallsSnoc(init, last);
      assert Joined(calls) + Joined(init) + last == Joined(calls) + (Joined(init) + last);
    }
  }

  lemma HeardSnoc(tries: seq<Event>, last: Event)
    requires last.Try?
    ensures Heard(tries + [last]) <==> Heard(tries) || (last.reached && last.replied)
  {
    var all := tries + [last];
    assert all[|tries|] == last && forall i :: 0 <= i < |tries| ==> all[i] == tries[i];
  }

  lemma {:induction false} RestartsOfCompleted(s: Session, tries: seq<Event>)
    requires SessionOk(s) && s.status == Completed && forall i :: 0 <= i < |tries| ==> tries[i].Try?
    ensures Call(s, Restart, tries) == (s, None)
    decreases |tries|
  {
    if tries != [] { RestartsOfCompleted(s, tries[1..]); }
  }

  /** A completion drops no chunk and adds none; if the client is told of success, every chunk is on record. */
  lemma {:induction false} CompletionKeepsChunks(s: Session, linked: Linked, tries: seq<Event>)
    requires SessionOk(s) && forall i :: 0 <= i < |tries| ==> tries[i].Try?
    ensures var (after, ok) := CompleteCall(s, linked, tries);
            && after.completedChunks == s.completedChunks && after.totalChunks == s.totalChunks
            && (ok ==> after.status == Completed && forall c :: 0 <= c < s.totalChunks ==> c in s.completedChunks)
    decreases |tries|
  {
    if tries != [] {
      WhenCompletionIsAccepted(s, linked, tries[0].now);
      HappenKeepsOk(s, Complete(linked), tries[0]);
      CompletionKeepsChunks(Happen(s, Complete(linked), tries[0]).0, linked, tries[1..]);
      hide SessionOk;
    }
  }

  class Client {
    const server: SessionStore
    const net: Network
    var remembered: map<FileKey, nat>

    constructor (server: SessionStore, net: Network)
      ensures this.server == server && this.net == net && remembered == map[]
    {
      this.server, this.net, remembered := server, net, map[];
    }

    method ForgetSession(key: FileKey)
      modifies this
      ensures remembered == old(remembered) - {key}
    {
      remembered := remembered - {key};
    }

    method Remember(key: FileKey, id: nat)
      modifies this
      ensures remembered == old(remembered)[key := id]
    {
      remembered := remembered[key := id];
    }

    method FindResumableSession(key: FileKey, now: int) returns (found: Found, ghost tries: seq<Event>)
      requires StoreOk(server.records)
      modifies this, server, net
      ensures net.deliveries == old(net.deliveries) + tries && |tries| == if key in old(remembered) then 1 else 0
      ensures found.Threw? <==> tries != [] && !Heard(tries)
      ensures StoreOk(server.records)
      ensures |server.records| == |old(server.records)|
      ensures server.records == old(server.records) ||
              (key in old(remembered) && var id := old(remembered)[key];
               id < |old(server.records)| && server.records == old(server.records)[id := Refreshed(old(server.records)[id], now)])
      ensures remembered == if found.Nothing? then old(remembered) - {key} else old(remembered)
      ensures var known := Lookup(old(remembered), old(server.records), key, now);
              && (found.Known? ==> known == Some(found.id) && found.id < |server.records| && found.session == server.records[found.id].session)
              && (found.Known? ==> server.records == old(server.records)[found.id := Refreshed(old(server.records)[found.id], now)])
              && (found.Nothing? ==> known.None? && server.records == old(server.records))
              && (found.Known? && found.session.status == InProgress ==> server.records == old(server.records))
    {
      if key !in remembered {
        return Nothing, [];
      }
      var id := remembered[key];
      var reached, replied := net.Deliver(now);
      tries := [Try(reached, replied, now)];
      HeardLater(tries);
      var reply := None;
      if reached {
        if id < |server.records| { RefreshKeepsOk(server.records[id].session, now); }
        reply := server.Get(id, now);
      }
      if !(reached && replied) {
        return Threw, tries;
      }
      if reply.Some? && (reply.value.status == InProgress || reply.value.status == Expired) {
        return Known(id, reply.value), tries;
      }
      ForgetSession(key);
      return Nothing, tries;
    }

    /** Posts a start up to four times; any try may be lost on the way or its reply on the way back. */
    method StartUploadSession(start: Start, now: int) returns (reply: Option<nat>, ghost tries: seq<Event>)
      requires start.chunkSize > 0 && StoreOk(server.records)
      modifies server, net
      ensures StoreOk(server.records)
      ensures net.deliveries == old(net.deliveries) + tries && 1 <= |tries| <= 4
      ensures reply.Some? <==> Heard(tries)
      ensures reply.None? ==> |tries| == 4
      ensures server.records == old(server.records) || AfterStart(old(server.records), server.records, start, now)
      ensures reply.Some? ==> AfterStart(old(server.records), server.records, start, now) && reply.value == FirstFit(old(server.records), start, now)
    {
      hide FirstFit, Started;
      tries := [];
      for i := 0 to SESSION_MAX_ATTEMPTS
        invariant StoreOk(server.records) && |tries| == i && !Heard(tries) && net.deliveries == old(net.deliveries) + tries
        invariant server.records == old(server.records) || AfterStart(old(server.records), server.records, start, now)
      {
        var reached, replied := net.Deliver(now);
        HeardSnoc(tries, Try(reached, replied, now));
        tries := tries + [Try(reached, replied, now)];
        if reached {
          StartAgain(old(server.records), server.records, start, now);
          StartedOk(server.records, start, now);
          var id, _ := server.StartOrResume(start, now);
          if replied {
            return Some(id), tries;
          }
        }
      }
      reply := None;
    }

    /** `updateUploadSession` with its retries: the tries decide what is stored and what is answered. */
    method UpdateSession(id: nat, action: Action, now: int) returns (reply: Option<Session>, ghost tries: seq<Event>)
      requires id < |server.records| && StoreOk(server.records)
      modifies server, net
      ensures StoreOk(server.records) && net.deliveries == old(net.deliveries) + tries
      ensures Made(old(server.records)[id].session, action, tries) && forall i :: 0 <= i < |tries| ==> tries[i].now == now
      ensures server.records == old(server.records)[id := old(server.records)[id].(session := Call(old(server.records)[id].session, action, tries).0)]
      ensures reply == Reply(Call(old(server.records)[id].session, action, tries).1)
      ensures reply.Some? ==> reply.value == server.records[id].session
    {
      hide SessionOk;
      ghost var first := server.records[id].session;
      tries := [];
      for i := 0 to SESSION_MAX_ATTEMPTS
        invariant StoreOk(server.records) && |tries| == i && net.deliveries == old(net.deliveries) + tries
        invariant forall j :: 0 <= j < |tries| ==> tries[j].Try? && tries[j].now == now
        invariant |server.records| == |old(server.records)|
        invariant SessionOk(first) && Call(first, action, tries) == (server.records[id].session, None)
        invariant server.records == old(server.records)[id := old(server.records)[id].(session := server.records[id].session)]
        invariant forall n :: 0 <= n < |tries| ==> Call(first, action, tries[..n]).1.None?
      {
        var reached, replied := net.Deliver(now);
        ghost var before := tries;
        tries := tries + [Try(reached, replied, now)];
        assert tries[..|before|] == before && forall n :: 0 <= n < |before| ==> tries[..n] == before[..n];
        CallSnoc(first, action, before, tries[|before|]);
        if reached {
          UpdateKeepsOk(server.records[id].session, action, now);
          var answer := server.Patch(id, action, now);
          if replied && !answer.Conflict? {
            return if answer.Updated? then Some(answer.session) else None, tries;
          }
        }
      }
      reply := None;
    }

    /** A restart with its retries. */
    method RestartSession(id: nat, now: int) returns (ok: bool, ghost tries: seq<Event>)
      requires id < |server.records| && StoreOk(server.records)
      modifies server, net
      ensures |server.records| == |old(server.records)| && StoreOk(server.records)
      ensures net.deliveries == old(net.deliveries) + tries && Made(old(server.records)[id].session, Restart, tries)
      ensures old(server.records)[id].session.status != Completed ==> (ok <==> Heard(tries))
      ensures forall j :: 0 <= j < |server.records| && j != id ==> server.records[j] == old(server.records)[j]
      ensures SameUpload(server.records[id], old(server.records)[id])
      ensures ok ==> Live(server.records[id]) && server.records[id].session.completedChunks == []
    {
      ghost var first := server.records[id];
      var reply;
      reply, tries := UpdateSession(id, Restart, now);
      ok := reply.Some?;
      if first.session.status != Completed { WhenRestartsSucceed(first.session, tries); } else { RestartsOfCompleted(first.session, tries); }
      hide Call, Made, SessionOk;
    }

    /** The second half of an opening: start or resume, and discard the progress if that is wanted. */
    method StartSession(start: Start, mode: Mode, now: int) returns (out: Option<nat>, ghost calls: seq<seq<Event>>)
      requires start.chunkSize > 0 && StoreOk(server.records)
      modifies server, net
      ensures StoreOk(server.records) && net.deliveries == old(net.deliveries) + Joined(calls) && calls != []
      ensures out.Some? <==> AllHeard(calls)
      ensures out.Some? ==>
                var id, before := out.value, old(server.records);
                && id == FirstFit(before, start, now) && id < |server.records| && Live(server.records[id])
                && server.records[id].session.completedChunks ==
                     if mode == RestartMode || id == |before| then [] else before[id].session.completedChunks
    {
      NoCalls();
      hide SessionOk, FirstFit, Started, Heard, Made, Call, Joined, AllHeard;
      var reply;
      ghost var tries;
      reply, tries := StartUploadSession(start, now);
      CallsSnoc([], tries);
      calls := [] + [tries];
      if reply.None? {
        return None, calls;
      }
      var id := reply.value;
      if mode == RestartMode && |server.records[id].session.completedChunks| > 0 {
        var ok;
        ok, tries := RestartSession(id, now);
        CallsSnoc(calls, tries);
        calls := calls + [tries];
        if !ok {
          return None, calls;
        }
      }
      return Some(id), calls;
    }

    /** `openUploadSession`; `None` is any throw. It succeeds exactly if each of its calls is heard in some try. */
    method OpenUploadSession(start: Start, mode: Mode, now: int) returns (out: Option<nat>, ghost calls: seq<seq<Event>>)
      requires start.chunkSize > 0 && StoreOk(server.records)
      modifies this, server, net
      ensures StoreOk(server.records)
      ensures net.deliveries == old(net.deliveries) + Joined(calls)
      ensures out.Some? <==> AllHeard(calls)
      ensures remembered - {start.key} == old(remembered) - {start.key}
      ensures out.Some? ==>
                && out.value == Opened(old(remembered), old(server.records), start, mode, now)
                && out.value < |server.records| && Live(server.records[out.value])
                && server.records[out.value].session.completedChunks == OpenedProgress(old(remembered), old(server.records), start, mode, now)
                && start.key in remembered && remembered[start.key] == out.value
    {
      NoCalls();
      hide SessionOk, FirstFit, Started, Heard, Made, Call, Joined, AllHeard;
      calls := [];
      ghost var tries;
      var found;
      found, tries := FindResumableSession(start.key, now);
      if start.key in old(remembered) {
        CallsSnoc(calls, tries);
        calls := calls + [tries];
      }
      if found.Threw? {
        return None, calls;
      }
      if found.Known? && (found.session.status == Expired || mode == RestartMode) {
        var ok;
        ok, tries := RestartSession(found.id, now);
        CallsSnoc(calls, tries);
        calls := calls + [tries];
        if !ok {
          return None, calls;
        }
        Remember(start.key, found.id);
        return Some(found.id), calls;
      }
      ghost var more;
      out, more := StartSession(start, mode, now);
      CallsConcat(calls, more);
      calls := calls + more;
      if out.Some? { Remember(start.key, out.value); }
    }

    /** `completeUploadSession`: the id is forgotten once the server has agreed, and it agrees only when every chunk is on record. */
    method CompleteUploadSession(id: nat, linked: Linked, now: int) returns (ok: bool, ghost tries: seq<Event>)
      requires id < |server.records| && StoreOk(server.records)
      modifies this, server, net
      ensures |server.records| == |old(server.records)| && net.deliveries == old(net.deliveries) + tries
      ensures Made(old(server.records)[id].session, Complete(linked), tries)
      ensures (server.records[id].session, ok) == CompleteCall(old(server.records)[id].session, linked, tries)
      ensures forall j :: 0 <= j < |server.records| && j != id ==> server.records[j] == old(server.records)[j]
      ensures server.records[id].session.completedChunks == old(server.records)[id].session.completedChunks
      ensures ok ==> server.records[id].session.status == Completed
      ensures ok ==> forall c :: 0 <= c < server.records[id].session.totalChunks ==> c in server.records[id].session.completedChunks
      ensures remembered == if ok then old(remembered) - {server.records[id].key} else old(remembered)
    {
      ghost var first := server.records[id].session;
      assert SessionOk(first);
      var reply;
      reply, tries := UpdateSession(id, Complete(linked), now);
      ok := reply.Some?;
      CompletionKeepsChunks(first, linked, tries);
      if ok { ForgetSession(server.records[id].key); }
      hide Call, Made, SessionOk;
    }
  }
}
