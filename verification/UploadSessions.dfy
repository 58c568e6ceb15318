/**
 All upload sessions of the server, and opening one: `startOrResumeSession` (frontend/lib/server/upload-sessions.ts), whose
 critical sections interleave with other requests, and `openUploadSession` (frontend/lib/resumable-upload.ts).
 */
module UploadSessions {
  import opened Wrappers
  import opened UploadServer

  datatype FileKey = FileKey(creator: string, contentHash: string)

  datatype Start = Start(key: FileKey, fileSize: nat, chunkSize: nat)

  datatype Entry = Entry(key: FileKey, session: Session)

  /** Records in insertion order; a session's id is its position. */
  type Store = seq<Entry>

  predicate Live(e: Entry) { e.session.status == InProgress }

  predicate Matches(e: Entry, start: Start) {
    e.key == start.key && e.session.fileSize == start.fileSize && e.session.chunkSize == start.chunkSize
  }

  /** What a start may resume. */
  predicate Fits(e: Entry, start: Start, now: int) {
    Live(e) && e.session.expiresAt > now && Matches(e, start)
  }

  predicate StoreOk(store: Store) { forall i :: 0 <= i < |store| ==> SessionOk(store[i].session) }

  function Refreshed(e: Entry, now: int): Entry { e.(session := Refresh(e.session, now)) }

  function Resumed(e: Entry, now: int): Entry {
    e.(session := e.session.(attempt := e.session.attempt + 1, expiresAt := now + TTL_MS))
  }

  function Fresh(start: Start, now: int): Entry
    requires start.chunkSize > 0
  {
    Entry(start.key, NewSession(start.fileSize, start.chunkSize, now))
  }

  // --- Starting or resuming -------------------------------------------------------------------

  /** The open sessions recorded for a file, in order. */
  function Candidates(store: Store, key: FileKey): (ids: seq<nat>)
    ensures forall i :: i in ids <==> 0 <= i < |store| && store[i].key == key && Live(store[i])
    ensures forall i, j :: 0 <= i < j < |ids| ==> ids[i] < ids[j]
  {
    if store == [] then []
    else
      var last := |store| - 1;
      var ids := Candidates(store[..last], key);
      assert forall k :: 0 <= k < |ids| ==> ids[k] in ids;
      if store[last].key == key && Live(store[last]) then ids + [last] else ids
  }

  /** One candidate, under its lock: expire it if it lapsed, resume it if it fits. */
  function Visit(store: Store, id: nat, start: Start, now: int): (Store, bool)
    requires id < |store|
  {
    var current := Refreshed(store[id], now);
    if !Live(current) || current.session.fileSize != start.fileSize || current.session.chunkSize != start.chunkSize
    then (store[id := current], false)
    else (store[id := Resumed(current, now)], true)
  }

  function FirstFit(store: Store, start: Start, now: int): (id: nat)
    ensures id <= |store| && (id < |store| ==> Fits(store[id], start, now))
    ensures forall j :: 0 <= j < id ==> !Fits(store[j], start, now)
  {
    if store == [] then 0 else if Fits(store[0], start, now) then 0 else 1 + FirstFit(store[1..], start, now)
  }

  /** The store after an undisturbed start: the first session that fits is resumed, or a new one is added. */
  function Started(store: Store, start: Start, now: int): Store
    requires start.chunkSize > 0
  {
    var id := FirstFit(store, start, now);
    seq(|store|, j requires 0 <= j < |store| =>
      if j < id && store[j].key == start.key then Refreshed(store[j], now)
      else if j == id then Resumed(store[j], now)
      else store[j])
    + (if id == |store| then [Fresh(start, now)] else [])
  }

  /** What any number of deliveries of the same start leave behind. */
  ghost predicate AfterStart(before: Store, after: Store, start: Start, now: int) {
    var id := FirstFit(before, start, now);
    && |after| == (if id < |before| then |before| else id + 1)
    && FirstFit(after, start, now) == id
    && after[id].session.completedChunks == (if id < |before| then before[id].session.completedChunks else [])
    && forall j :: 0 <= j < |before| && j != id ==> after[j] == before[j] || after[j] == Refreshed(before[j], now)
  }

  /**
   What a start does, in full: it resumes the first session that is in progress, not a day silent, and of the same creator,
   content and cut, and otherwise adds one; sessions of the file it passes over that have been silent are ended.
   */
  lemma WhatAStartDoes(store: Store, start: Start, now: int)
    requires start.chunkSize > 0
    ensures var id, after := FirstFit(store, start, now), Started(store, start, now);
            && (forall j :: 0 <= j < |store| ==>
                  var e, s := store[j], store[j].session;
                  var open := s.status == InProgress && now < s.expiresAt;
                  var same := e.key == start.key && s.fileSize == start.fileSize && s.chunkSize == start.chunkSize;
                  && (id == j ==> open && same && after[j] == e.(session := s.(attempt := s.attempt + 1, expiresAt := now + 86_400_000)))
                  && (j < id ==> !(open && same))
                  && (j < id ==> after[j] == if e.key == start.key && s.status == InProgress && s.expiresAt <= now then e.(session := s.(status := Expired)) else e)
                  && (j > id ==> after[j] == e))
            && (id < |store| ==> |after| == |store|)
            && (id == |store| ==> |after| == |store| + 1 && after[id].key == start.key)
            && (id == |store| ==>
                  var s := after[id].session;
                  && s == Session(start.fileSize, start.chunkSize, InProgress, s.totalChunks, [], 0, 1, 0, now + 86_400_000)
                  && s.totalChunks >= 1 && (s.totalChunks - 1) * s.chunkSize <= s.fileSize <= s.totalChunks * s.chunkSize
                  && (s.totalChunks > 1 ==> (s.totalChunks - 1) * s.chunkSize < s.fileSize))
  {
  }

  lemma FirstFitIs(store: Store, start: Start, now: int, id: nat)
    requires id <= |store| && (id < |store| ==> Fits(store[id], start, now))
    requires forall j :: 0 <= j < id ==> !Fits(store[j], start, now)
    ensures FirstFit(store, start, now) == id
  {
  }

  /** A client that sends its start again, having lost the reply, is handed the same session with the same progress. */
  lemma StartAgain(before: Store, after: Store, start: Start, now: int)
    requires start.chunkSize > 0
    requires after == before || AfterStart(before, after, start, now)
    ensures AfterStart(before, Started(after, start, now), start, now)
  {
    FirstFitIs(Started(after, start, now), start, now, FirstFit(after, start, now));
  }

  /** Also later, as long as the session has not lapsed in between. */
  lemma StartLater(store: Store, start: Start, now: int, later: int)
    requires start.chunkSize > 0 && now <= later < now + TTL_MS
    ensures FirstFit(Started(store, start, now), start, later) == FirstFit(store, start, now)
  {
    FirstFitIs(Started(store, start, now), start, later, FirstFit(store, start, now));
  }

  // --- At most one open session per file ------------------------------------------------------

  /** A start in flight: the candidates it read and has not visited yet. */
  datatype Pending = Pending(start: Start, ids: seq<nat>)

  /** The locks allow one start at a time for each file. */
  datatype World = World(store: Store, pending: map<FileKey, Pending>)

  datatype Step =
    | Begin(start: Start)
    | Proceed(key: FileKey, now: int)
    | Patch(id: nat, action: Action, at: int)
    | Get(id: nat, at: int)

  predicate Enabled(w: World, step: Step) {
    match step
    case Begin(start) => start.chunkSize > 0 && start.key !in w.pending
    case Proceed(key, _) => key in w.pending
    case Patch(id, _, _) => id < |w.store|
    case Get(id, _) => id < |w.store|
  }

  predicate WorldOk(w: World) {
    && StoreOk(w.store)
    && forall key :: key in w.pending ==>
         var p := w.pending[key]; p.start.key == key && p.start.chunkSize > 0 && forall i :: i in p.ids ==> i < |w.store|
  }

  function Next(w: World, step: Step): World
    requires WorldOk(w) && Enabled(w, step)
  {
    match step
    case Begin(start) => w.(pending := w.pending[start.key := Pending(start, Candidates(w.store, start.key))])
    case Proceed(key, now) =>
      var p := w.pending[key];
      if p.ids == [] then World(w.store + [Fresh(p.start, now)], w.pending - {key})
      else
        assert p.ids[0] in p.ids;
        var (store, resumed) := Visit(w.store, p.ids[0], p.start, now);
        World(store, if resumed then w.pending - {key} else w.pending[key := p.(ids := p.ids[1..])])
    case Patch(id, action, at) => w.(store := w.store[id := w.store[id].(session := Update(w.store[id].session, action, at).0)])
    case Get(id, at) => w.(store := w.store[id := Refreshed(w.store[id], at)])
  }

  predicate SameUpload(a: Entry, b: Entry) {
    a.key == b.key && a.session.fileSize == b.session.fileSize && a.session.chunkSize == b.session.chunkSize
  }

  predicate OneLive(store: Store) {
    forall i, j :: 0 <= i < |store| && 0 <= j < |store| && Live(store[i]) && Live(store[j]) && SameUpload(store[i], store[j]) ==> i == j
  }

  /** A start in flight has still to visit every open session it could resume. */
  predicate Covered(w: World) {
    forall key, i :: key in w.pending && 0 <= i < |w.store| && Live(w.store[i]) && Matches(w.store[i], w.pending[key].start) ==>
      i in w.pending[key].ids
  }

  predicate Good(w: World) { WorldOk(w) && OneLive(w.store) && Covered(w) }

  /** Restarting an aborted or expired session beside an open one of the same file, or behind the back of a start in flight. */
  predicate BadRevival(w: World, step: Step)
    requires Enabled(w, step)
  {
    && step.Patch? && step.action.Restart?
    && var e := w.store[step.id];
       && !Live(e) && e.session.status != Completed
       && (|| (exists j :: 0 <= j < |w.store| && Live(w.store[j]) && SameUpload(w.store[j], e))
           || (exists key :: key in w.pending && Matches(e, w.pending[key].start) && step.id !in w.pending[key].ids))
  }

  lemma NewSessionOk(fileSize: nat, chunkSize: nat, now: int)
    requires chunkSize > 0
    ensures SessionOk(NewSession(fileSize, chunkSize, now))
  {
  }

  lemma RefreshKeepsOk(s: Session, now: int)
    requires SessionOk(s)
    ensures SessionOk(Refresh(s, now))
  {
  }

  lemma VisitKeepsOk(store: Store, id: nat, start: Start, now: int)
    requires StoreOk(store) && id < |store|
    ensures StoreOk(Visit(store, id, start, now).0) && |Visit(store, id, start, now).0| == |store|
  {
  }

  lemma StepKeepsWorldOk(w: World, step: Step)
    requires WorldOk(w) && Enabled(w, step)
    ensures WorldOk(Next(w, step))
  {
    hide SessionOk, Update, NewSession;
    match step
    case Begin(_) =>
    case Proceed(key, now) =>
      var p := w.pending[key];
      if p.ids == [] {
        NewSessionOk(p.start.fileSize, p.start.chunkSize, now);
      } else {
        assert p.ids[0] in p.ids && forall i :: i in p.ids[1..] ==> i in p.ids;
        VisitKeepsOk(w.store, p.ids[0], p.start, now);
      }
    case Patch(id, action, at) => UpdateKeepsOk(w.store[id].session, action, at);
    case Get(id, at) => RefreshKeepsOk(w.store[id].session, at);
  }

  /** A change of one record that opens nothing and keeps its file. */
  lemma CloseKeepsGood(w: World, w': World, id: nat)
    requires Good(w) && WorldOk(w') && id < |w.store| == |w'.store| && w'.pending == w.pending
    requires forall j :: 0 <= j < |w.store| && j != id ==> w'.store[j] == w.store[j]
    requires SameUpload(w.store[id], w'.store[id]) && (Live(w'.store[id]) ==> Live(w.store[id]))
    ensures Good(w')
  {
  }

  lemma BeginKeepsGood(w: World, start: Start)
    requires Good(w) && Enabled(w, Begin(start))
    ensures Good(Next(w, Begin(start)))
  {
  }

  lemma ProceedKeepsGood(w: World, key: FileKey, now: int)
    requires Good(w) && key in w.pending
    ensures Good(Next(w, Proceed(key, now)))
  {
    var step := Proceed(key, now);
    StepKeepsWorldOk(w, step);
    var p, w' := w.pending[key], Next(w, step);
    if p.ids == [] {
      var n := |w.store|;
      assert forall i :: 0 <= i < n ==> w'.store[i] == w.store[i];
      forall i | 0 <= i < n && Live(w'.store[i]) ensures !SameUpload(w'.store[i], w'.store[n]) {
        assert Matches(w.store[i], p.start) ==> i in p.ids;
      }
    } else {
      var id := p.ids[0];
      assert id in p.ids;
      var mid := World(w'.store, w.pending);
      CloseKeepsGood(w, mid, id);
      forall i | 0 <= i < |w'.store| && i in p.ids && i !in p.ids[1..] ensures i == id {
      }
    }
  }

  lemma PatchKeepsGood(w: World, id: nat, action: Action, at: int)
    requires Good(w) && id < |w.store|
    ensures Good(Next(w, Patch(id, action, at))) <==> !BadRevival(w, Patch(id, action, at))
  {
    var step := Patch(id, action, at);
    var w', e := Next(w, step), w.store[id];
    StepKeepsWorldOk(w, step);
    UpdateKeepsOk(e.session, action, at);
    var e' := w'.store[id];
    assert SameUpload(e, e');
    if !Live(e') || Live(e) {
      CloseKeepsGood(w, w', id);
      assert !BadRevival(w, step);
    } else {
      assert action.Restart? && e.session.status != Completed;
      RevivalIsBad(w, w', step);
    }
  }

  lemma RevivalIsBad(w: World, w': World, step: Step)
    requires Good(w) && WorldOk(w') && Enabled(w, step) && step.Patch? && step.action.Restart?
    requires w'.pending == w.pending && |w'.store| == |w.store|
    requires forall j :: 0 <= j < |w.store| && j != step.id ==> w'.store[j] == w.store[j]
    requires !Live(w.store[step.id]) && w.store[step.id].session.status != Completed
    requires Live(w'.store[step.id]) && SameUpload(w.store[step.id], w'.store[step.id])
    ensures Good(w') <==> !BadRevival(w, step)
  {
  }

  /** One open session per file survives every step except, exactly, the bad revivals. */
  lemma StepKeepsOneLive(w: World, step: Step)
    requires Good(w) && Enabled(w, step)
    ensures Good(Next(w, step)) <==> !BadRevival(w, step)
  {
    hide Good, OneLive, Covered, BadRevival;
    match step
    case Begin(start) => BeginKeepsGood(w, start); NoRevival(w, step);
    case Proceed(key, now) => ProceedKeepsGood(w, key, now); NoRevival(w, step);
    case Patch(id, action, at) => PatchKeepsGood(w, id, action, at);
    case Get(id, at) => GetKeepsGood(w, id, at); NoRevival(w, step);
  }

  lemma NoRevival(w: World, step: Step)
    requires Enabled(w, step) && !step.Patch?
    ensures !BadRevival(w, step)
  {
  }

  lemma GetKeepsGood(w: World, id: nat, at: int)
    requires Good(w) && id < |w.store|
    ensures Good(Next(w, Get(id, at)))
  {
  }

  predicate Goes(w: World, step: Step, w': World) {
    WorldOk(w) && Enabled(w, step) && w' == Next(w, step)
  }

  ghost predicate IsRun(worlds: seq<World>, steps: seq<Step>) {
    && |worlds| == |steps| + 1 && worlds[0] == World([], map[])
    && forall i :: 0 <= i < |steps| ==> Enabled(worlds[i], steps[i]) && Goes(worlds[i], steps[i], worlds[i + 1])
  }

  /**
   However starts for different files, visits, updates and lookups interleave: unless a dead session is revived beside a
   live one or behind a start's back, no two open sessions are ever for the same upload.
   */
  lemma {:induction false} OneLiveAlongRuns(worlds: seq<World>, steps: seq<Step>)
    requires IsRun(worlds, steps)
    requires forall i :: 0 <= i < |steps| ==> !BadRevival(worlds[i], steps[i])
    ensures Good(worlds[|steps|])
    decreases |steps|
  {
    hide Next, BadRevival, OneLive, Covered, WorldOk;
    if |steps| == 0 {
      EmptyIsGood();
    } else {
      var n := |steps| - 1;
      OneLiveAlongRuns(worlds[..n + 1], steps[..n]);
      StepKeepsOneLive(worlds[n], steps[n]);
    }
  }

  lemma EmptyIsGood()
    ensures Good(World([], map[]))
  {
  }

  /** Under that condition a start finds the open session, if there is one, whichever order the records are in. */
  lemma StartFindsTheOpenSession(store: Store, start: Start, now: int, i: nat)
    requires OneLive(store) && i < |store| && Fits(store[i], start, now)
    ensures FirstFit(store, start, now) == i
  {
  }

  /** An undisturbed start with nothing to resume. */
  lemma UndisturbedStart(store: Store, start: Start, now: int)
    requires StoreOk(store) && start.chunkSize > 0 && Candidates(store, start.key) == []
    ensures var begun := Next(World(store, map[]), Begin(start));
            Goes(World(store, map[]), Begin(start), begun) && Goes(begun, Proceed(start.key, now), World(store + [Fresh(start, now)], map[]))
  {
  }

  function Aborted(start: Start, now: int): Entry
    requires start.chunkSize > 0
  {
    var e := Fresh(start, now);
    e.(session := e.session.(status := Status.Aborted))
  }

  lemma AbortFresh(start: Start, now: int)
    requires start.chunkSize > 0
    ensures SessionOk(Fresh(start, now).session) && SessionOk(Aborted(start, now).session)
    ensures Live(Fresh(start, now)) && Matches(Fresh(start, now), start) && Matches(Aborted(start, now), start)
    ensures Update(Fresh(start, now).session, Abort, now).0 == Aborted(start, now).session
    ensures var back := Update(Aborted(start, now).session, Restart, now).0;
            back.status == InProgress && back.fileSize == start.fileSize && back.chunkSize == start.chunkSize
    ensures Candidates([], start.key) == [] && Candidates([Aborted(start, now)], start.key) == []
  {
  }

  lemma GoesPatch(store: Store, id: nat, action: Action, now: int)
    requires StoreOk(store) && id < |store|
    ensures Goes(World(store, map[]), Patch(id, action, now),
                 World(store[id := store[id].(session := Update(store[id].session, action, now).0)], map[]))
  {
  }

  /** Start, abort, start again, restart the first: two open sessions for one upload. */
  lemma RestartBesideOpenSession(start: Start, now: int) returns (worlds: seq<World>, steps: seq<Step>)
    requires start.chunkSize > 0
    ensures IsRun(worlds, steps) && |steps| == 6 && Enabled(worlds[5], steps[5]) && BadRevival(worlds[5], steps[5])
    ensures !OneLive(worlds[6].store)
  {
    hide Candidates, Update, NewSession, SessionOk, FirstFit, Next, WorldOk;
    var begin, proceed := Begin(start), Proceed(start.key, now);
    AbortFresh(start, now);
    var e, dead := Fresh(start, now), Aborted(start, now);
    var back := dead.(session := Update(dead.session, Restart, now).0);
    UndisturbedStart([], start, now);
    UndisturbedStart([dead], start, now);
    GoesPatch([e], 0, Abort, now);
    GoesPatch([dead, e], 0, Restart, now);
    assert [] + [e] == [e] && [dead] + [e] == [dead, e] && [e][0 := dead] == [dead] && [dead, e][0 := back] == [back, e];
    var w0, w2, w3, w5, w6 := World([], map[]), World([e], map[]), World([dead], map[]), World([dead, e], map[]), World([back, e], map[]);
    var w1, w4 := Next(w0, begin), Next(w3, begin);
    steps := [begin, proceed, Patch(0, Abort, now), begin, proceed, Patch(0, Restart, now)];
    worlds := [w0, w1, w2, w3, w4, w5, w6];
    assert SameUpload(w5.store[1], w5.store[0]) && SameUpload(w6.store[0], w6.store[1]);
  }
}
