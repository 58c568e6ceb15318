/**
 Client side of resumable uploads (frontend/lib/resumable-upload.ts): one attempt at sending the
 missing chunks, and what any series of interrupted and resumed attempts adds up to.
 */
module UploadClient {
  import opened Wrappers
  import opened Chunks
  import opened UploadServer
  import Calls = UploadCalls

  /** The bytes of a file. */
  type File = seq<bv8>

  datatype Sent = Sent(index: int, bytes: File)

  predicate SameFile(a: Session, b: Session) {
    a.fileSize == b.fileSize && a.chunkSize == b.chunkSize && a.totalChunks == b.totalChunks
  }

  /** Between two states of the session exactly these chunks were added to the record. */
  ghost predicate Recorded(before: Session, after: Session, chunks: seq<int>) {
    forall c :: c in after.completedChunks <==> c in before.completedChunks || c in chunks
  }

  /** One more delivery of a report changes nothing that an earlier one has not. */
  lemma ReportTry(first: Session, s: Session, chunks: seq<int>, now: int)
    requires SessionOk(s) && SameFile(first, s) && (Recorded(first, s, []) || Recorded(first, s, chunks))
    ensures var (s', answer) := Update(s, Progress(chunks), now);
            && SessionOk(s') && SameFile(first, s') && (Recorded(first, s', []) || Recorded(first, s', chunks))
            && (answer.Updated? ==> answer.session == s' && Recorded(first, s', chunks) && ValidBatch(chunks))
  {
  }

  /** What an attempt meets, in order: transports that succeed or fail, reports acknowledged or not, and each look at the abort signal. */
  datatype Happening = Moved(index: int) | Broke(index: int) | Acknowledged(session: Session) | Unacknowledged | Checked(aborted: bool)

  /**
   What the client talks to: the stored session, the chunk transport, and histories of both. Messages
   can fail: a transport call may reject, and a report may be lost before or after the server acts on it.
   */
  class Backend {
    var session: Session
    var sent: seq<Sent>
    var reports: seq<seq<int>>
    var log: seq<Happening>
    const net: Calls.Network

    constructor (session: Session, net: Calls.Network)
      ensures this.session == session && sent == [] && reports == [] && log == [] && this.net == net
    {
      this.session, sent, reports, log := session, [], [], [];
      this.net := net;
    }

    /** `signal.aborted`. */
    method IsAborted() returns (aborted: bool)
      modifies this`log
      ensures log == old(log) + [Checked(aborted)]
    {
      aborted := *;
      log := log + [Checked(aborted)];
    }

    method Transport(index: int, bytes: File) returns (ok: bool)
      modifies this`sent, this`log
      ensures sent == old(sent) + [Sent(index, bytes)]
      ensures log == old(log) + [if ok then Moved(index) else Broke(index)]
    {
      sent := sent + [Sent(index, bytes)];
      ok := *;
      log := log + [if ok then Moved(index) else Broke(index)];
    }

    /** The progress call with its retries: the tries it makes decide what is stored and what is answered. */
    method Report(chunks: seq<int>) returns (reply: Option<Session>, ghost tries: seq<Calls.Event>)
      requires SessionOk(session)
      modifies this`session, this`reports, this`log, net
      ensures net.deliveries == old(net.deliveries) + tries
      ensures Calls.Made(old(session), Progress(chunks), tries)
      ensures session == Calls.Call(old(session), Progress(chunks), tries).0
      ensures reply == Calls.Reply(Calls.Call(old(session), Progress(chunks), tries).1)
      ensures log == old(log) + [if reply.Some? then Acknowledged(reply.value) else Unacknowledged]
      ensures SessionOk(session) && SameFile(old(session), session)
      ensures reports == old(reports) + [chunks]
      ensures Recorded(old(session), session, []) || Recorded(old(session), session, chunks)
      ensures reply.Some? ==> reply.value == session && Recorded(old(session), session, chunks) && ValidBatch(chunks)
    {
      reports := reports + [chunks];
      tries := [];
      for attempt := 0 to Calls.SESSION_MAX_ATTEMPTS
        invariant SessionOk(session) && SameFile(old(session), session)
        invariant Recorded(old(session), session, []) || Recorded(old(session), session, chunks)
        invariant reports == old(reports) + [chunks] && log == old(log) && net.deliveries == old(net.deliveries) + tries
        invariant |tries| == attempt && forall i :: 0 <= i < |tries| ==> tries[i].Try?
        invariant Calls.Call(old(session), Progress(chunks), tries) == (session, None)
        invariant forall n :: 0 <= n < |tries| ==> Calls.Call(old(session), Progress(chunks), tries[..n]).1.None?
      {
        var now: int := *;
        var reached, replied := net.Deliver(now);
        ghost var before := tries;
        tries := tries + [Calls.Try(reached, replied, now)];
        assert tries[..|before|] == before && forall n :: 0 <= n < |before| ==> tries[..n] == before[..n];
        Calls.CallSnoc(old(session), Progress(chunks), before, tries[|before|]);
        if reached {
          ReportTry(old(session), session, chunks, now);
          var (stored, answer) := Update(session, Progress(chunks), now);
          session := stored;
          if replied && !answer.Conflict? {
            reply := if answer.Updated? then Some(answer.session) else None;
            log := log + [if reply.Some? then Acknowledged(reply.value) else Unacknowledged];
            return;
          }
        }
      }
      reply := None;
      log := log + [Unacknowledged];
    }
  }

  // --- What there is to send ------------------------------------------------------------------

  /** The indexes below `n` that are not on record, in increasing order. */
  function Missing(done: seq<int>, n: nat): seq<int> {
    if n == 0 then [] else Missing(done, n - 1) + if n - 1 in done then [] else [n - 1]
  }

  lemma {:induction false} MissingSpec(done: seq<int>, n: nat)
    ensures Ascending(Missing(done, n))
    ensures forall i :: i in Missing(done, n) <==> 0 <= i < n && i !in done
  {
    if n > 0 {
      MissingSpec(done, n - 1);
      var rest := Missing(done, n - 1);
      assert forall k :: 0 <= k < |rest| ==> rest[k] in rest;
    }
  }

  lemma {:induction false} MissingGrows(done: seq<int>, m: nat, n: nat)
    requires m <= n
    ensures Missing(done, m) <= Missing(done, n)
    decreases n
  {
    if m < n { MissingGrows(done, m, n - 1); }
  }

  function Concat(batches: seq<seq<int>>): seq<int> {
    if batches == [] then [] else Concat(batches[..|batches| - 1]) + batches[|batches| - 1]
  }

  lemma ConcatSnoc(batches: seq<seq<int>>, last: seq<int>)
    ensures Concat(batches + [last]) == Concat(batches) + last
  {
  }

  /** All batches hold exactly `size` indexes, the last one possibly fewer. */
  predicate Batched(batches: seq<seq<int>>, size: nat) {
    (forall i :: 0 <= i < |batches| - 1 ==> |batches[i]| == size) &&
    (batches != [] ==> 0 < |batches[|batches| - 1]| <= size)
  }

  /** A report size below one reports after every chunk. */
  function BatchSize(reportEvery: int): nat { Max(1, reportEvery) }

  /**
   What one attempt does, however it ends. The transport calls are the missing chunks from the first
   on, in order and once each; the batches cut that same sequence; all batches, or all but the last,
   are on record; and at most one batch worth of calls is not. An attempt that returns did it all.
   */
  ghost predicate Attempt(before: Session, after: Session, calls: seq<int>, batches: seq<seq<int>>, reportEvery: int, returned: bool) {
    var all := Missing(before.completedChunks, before.totalChunks);
    && SameFile(before, after)
    && calls <= all && Concat(batches) <= calls && Batched(batches, BatchSize(reportEvery))
    && (exists k :: |batches| - 1 <= k <= |batches| && Confirmed(before, after, calls, batches, k, BatchSize(reportEvery)))
    && (returned ==> calls == all && Concat(batches) == all && Recorded(before, after, all) && forall b :: b in batches ==> ValidBatch(b))
  }

  ghost predicate Confirmed(before: Session, after: Session, calls: seq<int>, batches: seq<seq<int>>, k: int, size: nat) {
    0 <= k <= |batches| && Recorded(before, after, Concat(batches[..k])) && |calls| - |Concat(batches[..k])| <= size
  }

  /** Where the loop stands: all calls so far succeeded, and all but the pending ones are on record. */
  ghost predicate Underway(input: Session, server: Session, calls: seq<int>, batches: seq<seq<int>>, pending: seq<int>, index: nat, reportEvery: int) {
    && index <= input.totalChunks && SameFile(input, server)
    && calls == Missing(input.completedChunks, index) && Concat(batches) + pending == calls
    && (forall b :: b in batches ==> |b| == BatchSize(reportEvery) && ValidBatch(b))
    && |pending| <= BatchSize(reportEvery)
    && Recorded(input, server, Concat(batches))
  }

  lemma StartUnderway(input: Session, reportEvery: int)
    ensures Underway(input, input, [], [], [], 0, reportEvery)
  {
  }

  /** Interrupted with the pending chunks, and perhaps a call that failed, off the record. */
  lemma InterruptedAttempt(input: Session, server: Session, calls: seq<int>, batches: seq<seq<int>>, pending: seq<int>, index: nat, reportEvery: int, calls': seq<int>)
    requires Underway(input, server, calls, batches, pending, index, reportEvery)
    requires calls' == calls || (calls' == calls + [index] && index < input.totalChunks && index !in input.completedChunks && |pending| < BatchSize(reportEvery))
    ensures Attempt(input, server, calls', batches, reportEvery, false)
  {
    MissingGrows(input.completedChunks, index, input.totalChunks);
    if index < input.totalChunks { MissingGrows(input.completedChunks, index + 1, input.totalChunks); }
    assert batches[..|batches|] == batches;
    assert Confirmed(input, server, calls', batches, |batches|, BatchSize(reportEvery));
  }

  /** After a report of the pending chunks, lost or not, the attempt can end; if it was acknowledged it can go on. */
  lemma AfterFlush(input: Session, before: Session, after: Session, calls: seq<int>, batches: seq<seq<int>>, pending: seq<int>, index: nat, reportEvery: int)
    requires Underway(input, before, calls, batches, pending, index, reportEvery) && SameFile(before, after) && pending != []
    requires Recorded(before, after, []) || Recorded(before, after, pending)
    ensures Attempt(input, after, calls, batches + [pending], reportEvery, false)
    ensures Recorded(before, after, pending) && ValidBatch(pending) && |pending| == BatchSize(reportEvery) ==>
              Underway(input, after, calls, batches + [pending], [], index, reportEvery)
    ensures Recorded(before, after, pending) && ValidBatch(pending) && index == input.totalChunks ==>
              Attempt(input, after, calls, batches + [pending], reportEvery, true)
  {
    MissingGrows(input.completedChunks, index, input.totalChunks);
    ConcatSnoc(batches, pending);
    var batches' := batches + [pending];
    assert batches'[..|batches|] == batches && batches'[..|batches'|] == batches';
    if Recorded(before, after, []) {
      assert Confirmed(input, after, calls, batches', |batches|, BatchSize(reportEvery));
    } else {
      assert Confirmed(input, after, calls, batches', |batches'|, BatchSize(reportEvery));
    }
  }

  /** A chunk that is on record is skipped; one that was sent is pending. */
  lemma NextIndex(input: Session, server: Session, calls: seq<int>, batches: seq<seq<int>>, pending: seq<int>, index: nat, reportEvery: int)
    requires Underway(input, server, calls, batches, pending, index, reportEvery) && index < input.totalChunks
    ensures index in input.completedChunks ==> Underway(input, server, calls, batches, pending, index + 1, reportEvery)
    ensures index !in input.completedChunks && |pending| < BatchSize(reportEvery) ==>
              Underway(input, server, calls + [index], batches, pending + [index], index + 1, reportEvery)
  {
  }

  /** What the transport is handed for these calls. */
  function Log(calls: seq<int>, file: File, chunkSize: nat): seq<Sent> {
    if calls == [] then []
    else
      var last := calls[|calls| - 1];
      Log(calls[..|calls| - 1], file, chunkSize) + [Sent(last, if last < 0 then [] else Piece(file, last, chunkSize))]
  }

  lemma LogSnoc(calls: seq<int>, file: File, chunkSize: nat, index: nat)
    ensures Log(calls + [index], file, chunkSize) == Log(calls, file, chunkSize) + [Sent(index, Piece(file, index, chunkSize))]
  {
  }

  lemma CompleteAttempt(input: Session, server: Session, calls: seq<int>, batches: seq<seq<int>>, index: nat, reportEvery: int)
    requires Underway(input, server, calls, batches, [], index, reportEvery) && index == input.totalChunks
    ensures Attempt(input, server, calls, batches, reportEvery, true)
  {
    assert Concat(batches) + [] == Concat(batches);
    assert batches[..|batches|] == batches;
    assert Confirmed(input, server, calls, batches, |batches|, BatchSize(reportEvery));
  }

  /** The session the client last heard of. */
  function LastHeard(input: Session, log: seq<Happening>): Session {
    if log == [] then input
    else if log[|log| - 1].Acknowledged? then log[|log| - 1].session
    else LastHeard(input, log[..|log| - 1])
  }

  lemma LastHeardSnoc(input: Session, log: seq<Happening>, last: Happening)
    ensures LastHeard(input, log + [last]) == if last.Acknowledged? then last.session else LastHeard(input, log)
  {
    assert (log + [last])[..|log|] == log;
  }

  /** Nothing has gone wrong and nobody has asked to stop. */
  predicate Faultless(log: seq<Happening>) { forall e :: e in log ==> e.Moved? || e.Acknowledged? || e == Checked(false) }

  /** Each transport was preceded by a look at the signal that saw no abort. */
  predicate ChecksFirst(log: seq<Happening>) {
    forall i :: 0 <= i < |log| && (log[i].Moved? || log[i].Broke?) ==> i > 0 && log[i - 1] == Checked(false)
  }

  lemma ChecksGrow(log: seq<Happening>, e: Happening)
    requires ChecksFirst(log)
    requires e.Moved? || e.Broke? ==> log != [] && log[|log| - 1] == Checked(false)
    ensures ChecksFirst(log + [e])
  {
  }

  predicate TransportFailed(log: seq<Happening>) { exists e :: e in log && e.Broke? }

  /** Nothing follows a transport or a report that failed. */
  predicate StopsAtFailure(log: seq<Happening>) { forall i :: 0 <= i < |log| - 1 ==> !log[i].Broke? && !log[i].Unacknowledged? }

  /** How the log of an attempt goes on. */
  lemma LogGrows(log: seq<Happening>, e: Happening)
    requires Faultless(log)
    ensures Faultless(log + [e]) <==> e.Moved? || e.Acknowledged? || e == Checked(false)
    ensures TransportFailed(log + [e]) <==> e.Broke?
    ensures Unacknowledged in log + [e] <==> e.Unacknowledged?
    ensures Checked(true) in log + [e] <==> e == Checked(true)
    ensures StopsAtFailure(log + [e])
  {
    var longer := log + [e];
    assert longer[|log|] == e && forall i :: 0 <= i < |log| ==> longer[i] == log[i] && longer[i] in log;
  }

  /** How it ends after an abort, with or without a report. */
  lemma LogAborts(log: seq<Happening>, report: Happening)
    requires Faultless(log) && (report.Acknowledged? || report.Unacknowledged?)
    ensures var ended := log + [Checked(true)];
            !Faultless(ended) && !TransportFailed(ended) && Checked(true) in ended && Unacknowledged !in ended && StopsAtFailure(ended)
    ensures var ended := log + [Checked(true)] + [report];
            !Faultless(ended) && !TransportFailed(ended) && Checked(true) in ended && (Unacknowledged in ended <==> report.Unacknowledged?) && StopsAtFailure(ended)
  {
    LogGrows(log, Checked(true));
    var paused := log + [Checked(true)];
    var ended := paused + [report];
    assert paused[|log|] == Checked(true) && ended[|log|] == Checked(true) && ended[|log| + 1] == report;
    assert forall e :: e in ended <==> e in paused || e == report;
    FaultlessLog(log);
  }

  lemma FaultlessLog(log: seq<Happening>)
    requires Faultless(log)
    ensures !TransportFailed(log) && Unacknowledged !in log && Checked(true) !in log && StopsAtFailure(log)
  {
  }

  /** `flush`: reports the pending chunks, if there are any; `None` when the call failed. */
  method Flush(backend: Backend, session: Session, pending: seq<int>,
               ghost input: Session, ghost calls: seq<int>, ghost index: nat, ghost reportEvery: int)
    returns (reply: Option<Session>)
    requires SessionOk(backend.session) && SameFile(input, session)
    requires Underway(input, backend.session, calls, backend.reports, pending, index, reportEvery)
    modifies backend`session, backend`reports, backend`log, backend.net
    ensures SessionOk(backend.session)
    ensures backend.log == if pending == [] then old(backend.log)
                           else old(backend.log) + [if reply.Some? then Acknowledged(reply.value) else Unacknowledged]
    ensures pending == [] ==> reply == Some(session) && backend.session == old(backend.session) && backend.reports == old(backend.reports)
    ensures pending != [] ==> backend.reports == old(backend.reports) + [pending]
    ensures Attempt(input, backend.session, calls, backend.reports, reportEvery, reply.Some? && index == input.totalChunks)
    ensures reply.Some? ==> SameFile(input, reply.value) && Recorded(input, backend.session, calls) && Concat(backend.reports) == calls
    ensures reply.Some? && |pending| == BatchSize(reportEvery) ==> Underway(input, backend.session, calls, backend.reports, [], index, reportEvery)
  {
    hide Underway, Attempt, Recorded, Concat, Missing, SessionOk, Calls.Call, Calls.Made;
    if |pending| == 0 {
      NothingPending(input, backend.session, calls, backend.reports, index, reportEvery);
      return Some(session);
    }
    ghost var before, batches := backend.session, backend.reports;
    ghost var tries;
    reply, tries := backend.Report(pending);
    AfterFlush(input, before, backend.session, calls, batches, pending, index, reportEvery);
    if reply.Some? { FlushRecords(input, before, backend.session, calls, batches, pending, index, reportEvery); }
  }

  lemma NothingPending(input: Session, server: Session, calls: seq<int>, batches: seq<seq<int>>, index: nat, reportEvery: int)
    requires Underway(input, server, calls, batches, [], index, reportEvery)
    ensures Attempt(input, server, calls, batches, reportEvery, index == input.totalChunks)
    ensures Recorded(input, server, calls) && Concat(batches) == calls
  {
    InterruptedAttempt(input, server, calls, batches, [], index, reportEvery, calls);
    if index == input.totalChunks { CompleteAttempt(input, server, calls, batches, index, reportEvery); }
    assert Concat(batches) + [] == Concat(batches);
    hide Attempt, Missing;
  }

  lemma FlushRecords(input: Session, before: Session, after: Session, calls: seq<int>, batches: seq<seq<int>>, pending: seq<int>, index: nat, reportEvery: int)
    requires Underway(input, before, calls, batches, pending, index, reportEvery) && Recorded(before, after, pending)
    ensures Recorded(input, after, calls) && Concat(batches + [pending]) == calls
  {
    ConcatSnoc(batches, pending);
    hide Missing, ValidBatch;
    forall c ensures c in calls <==> c in Concat(batches) || c in pending {
      assert calls == Concat(batches) + pending;
    }
  }

  /** How a call of the upload loop ends: with the session it returns, or by one of its three throws. */
  datatype Ending = Returned(session: Session) | TransportThrew | ReportThrew | AbortError

  /**
   The upload loop, on a backend whose histories start empty. It returns exactly if nothing went wrong, with the
   session it last heard of; a failed transport and a failed report are thrown on, and an abort is an abort
   only after what was pending has been recorded.
   */
  method UploadMissingChunks(backend: Backend, input: Session, file: File, reportEvery: int)
    returns (out: Ending, ghost calls: seq<int>)
    requires SessionOk(backend.session) && backend.session == input && |file| == input.fileSize
    requires backend.sent == [] && backend.reports == [] && backend.log == []
    modifies backend, backend.net
    ensures SessionOk(backend.session)
    ensures backend.sent == Log(calls, file, input.chunkSize)
    ensures Attempt(input, backend.session, calls, backend.reports, reportEvery, out.Returned?)
    ensures out.Returned? <==> Faultless(backend.log)
    ensures out.Returned? ==> out.session == LastHeard(input, backend.log)
    ensures out.TransportThrew? <==> TransportFailed(backend.log)
    ensures out.ReportThrew? <==> Unacknowledged in backend.log
    ensures out.AbortError? <==> Checked(true) in backend.log && Unacknowledged !in backend.log
    ensures StopsAtFailure(backend.log)
    ensures out.AbortError? ==> Recorded(input, backend.session, calls) && Concat(backend.reports) == calls
    ensures ChecksFirst(backend.log)
    ensures Checked(true) in backend.log ==> calls != Missing(input.completedChunks, input.totalChunks)
  {
    hide Attempt, Confirmed, Concat, Missing, SessionOk, Recorded, Underway, Batched, LastHeard, Log, Faultless, TransportFailed, ChecksFirst, StopsAtFailure;
    StartUnderway(input, reportEvery);
    LogStarts(input, file);
    var session := input;
    var done := input.completedChunks;
    var pending: seq<int> := [];
    var index := 0;
    calls := [];
    while index < session.totalChunks
      invariant SameFile(input, session) && SessionOk(backend.session) && 0 <= index <= input.totalChunks
      invariant backend.sent == Log(calls, file, input.chunkSize)
      invariant Underway(input, backend.session, calls, backend.reports, pending, index, reportEvery)
      invariant |pending| < BatchSize(reportEvery)
      invariant Faultless(backend.log) && ChecksFirst(backend.log) && session == LastHeard(input, backend.log)
    {
      NextIndex(input, backend.session, calls, backend.reports, pending, index, reportEvery);
      if index in done {
        index := index + 1;
        continue;
      }
      ghost var log := backend.log;
      UnderwayMisses(input, backend.session, calls, backend.reports, pending, index, reportEvery);
      var aborted := backend.IsAborted();
      ChecksGrow(log, Checked(aborted));
      LogGrows(log, Checked(aborted));
      if aborted {
        var flushed := Flush(backend, session, pending, input, calls, index, reportEvery);
        if pending != [] { ChecksGrow(log + [Checked(true)], if flushed.Some? then Acknowledged(flushed.value) else Unacknowledged); }
        LogAborts(log, if flushed.Some? then Acknowledged(flushed.value) else Unacknowledged);
        WeakerAttempt(input, backend.session, calls, backend.reports, reportEvery);
        return if flushed.Some? then AbortError else ReportThrew, calls;
      }
      LogSnoc(calls, file, input.chunkSize, index);
      LastHeardSnoc(input, log, Checked(false));
      log := backend.log;
      LastHeardSnoc(input, log, Moved(index));
      var ok := backend.Transport(index, Piece(file, index, session.chunkSize));
      LogGrows(log, if ok then Moved(index) else Broke(index));
      ChecksGrow(log, if ok then Moved(index) else Broke(index));
      if !ok {
        InterruptedAttempt(input, backend.session, calls, backend.reports, pending, index, reportEvery, calls + [index]);
        return TransportThrew, calls + [index];
      }
      pending, calls := pending + [index], calls + [index];
      index := index + 1;
      if |pending| >= reportEvery {
        log := backend.log;
        var flushed := Flush(backend, session, pending, input, calls, index, reportEvery);
        LogGrows(log, if flushed.Some? then Acknowledged(flushed.value) else Unacknowledged);
        ChecksGrow(log, if flushed.Some? then Acknowledged(flushed.value) else Unacknowledged);
        if flushed.None? {
          WeakerAttempt(input, backend.session, calls, backend.reports, reportEvery);
          return ReportThrew, calls;
        }
        LastHeardSnoc(input, log, Acknowledged(flushed.value));
        session, pending := flushed.value, [];
      }
    }
    ghost var log := backend.log;
    var flushed := Flush(backend, session, pending, input, calls, index, reportEvery);
    LogGrows(log, if flushed.Some? then Acknowledged(flushed.value) else Unacknowledged);
    ChecksGrow(log, if flushed.Some? then Acknowledged(flushed.value) else Unacknowledged);
    if flushed.None? {
      return ReportThrew, calls;
    }
    if pending != [] { LastHeardSnoc(input, log, Acknowledged(flushed.value)); }
    FaultlessLog(backend.log);
    out := Returned(flushed.value);
  }

  lemma LogStarts(input: Session, file: File)
    ensures Log([], file, input.chunkSize) == [] && LastHeard(input, []) == input && Faultless([]) && ChecksFirst([])
  {
  }

  lemma WeakerAttempt(input: Session, server: Session, calls: seq<int>, batches: seq<seq<int>>, reportEvery: int)
    requires Attempt(input, server, calls, batches, reportEvery, true) || Attempt(input, server, calls, batches, reportEvery, false)
    ensures Attempt(input, server, calls, batches, reportEvery, false)
  {
  }

  /** At a missing chunk the calls made so far are not all. */
  lemma UnderwayMisses(input: Session, server: Session, calls: seq<int>, batches: seq<seq<int>>, pending: seq<int>, index: nat, reportEvery: int)
    requires Underway(input, server, calls, batches, pending, index, reportEvery)
    requires index < input.totalChunks && index !in input.completedChunks
    ensures calls != Missing(input.completedChunks, input.totalChunks)
  {
    MissingGrows(input.completedChunks, index + 1, input.totalChunks);
    assert |Missing(input.completedChunks, index + 1)| == |calls| + 1;
  }

  // --- Series of attempts ---------------------------------------------------------------------

  /** One attempt of a series: the session record before and after, and what the attempt did. */
  datatype Try = Try(before: Session, after: Session, calls: seq<int>, batches: seq<seq<int>>, returned: bool)

  /** Attempts on one live session: between two of them nothing drops chunks, though a report may land late. */
  ghost predicate Series(tries: seq<Try>, reportEvery: int) {
    && (forall i :: 0 <= i < |tries| ==>
          SessionOk(tries[i].before) && SessionOk(tries[i].after) &&
          Attempt(tries[i].before, tries[i].after, tries[i].calls, tries[i].batches, reportEvery, tries[i].returned))
    && (forall i :: 0 <= i < |tries| - 1 ==> Resumed(tries[i].after, tries[i + 1].before))
  }

  predicate Resumed(after: Session, before: Session) {
    SameFile(after, before) && forall c :: c in after.completedChunks ==> c in before.completedChunks
  }

  /** The server's `resume` is such a step. */
  lemma ResumeKeepsProgress(s: Session, now: int)
    requires SessionOk(s) && Update(s, Resume, now).1.Updated?
    ensures Resumed(s, Update(s, Resume, now).0) && Update(s, Resume, now).0.status == InProgress
    ensures Update(s, Resume, now).0.completedChunks == s.completedChunks
  {
  }

  /** So is a report that lands after the attempt that sent it has ended. */
  lemma LateReportResumes(s: Session, chunks: seq<int>, now: int)
    requires SessionOk(s)
    ensures Resumed(s, Update(s, Progress(chunks), now).0)
  {
    UpdateKeepsOk(s, Progress(chunks), now);
  }

  lemma ResumedSize(after: Session, before: Session)
    requires SessionOk(after) && SessionOk(before) && Resumed(after, before)
    ensures |after.completedChunks| <= |before.completedChunks|
  {
    AscendingSize(after.completedChunks);
    AscendingSize(before.completedChunks);
    SubsetSize(set c | c in after.completedChunks, set c | c in before.completedChunks);
  }

  lemma SubsetSize(a: set<int>, b: set<int>)
    requires a <= b
    ensures |a| <= |b|
  {
    assert b == a + (b - a);
  }

  function TotalCalls(tries: seq<Try>): nat {
    if tries == [] then 0 else TotalCalls(tries[..|tries| - 1]) + |tries[|tries| - 1].calls|
  }

  function Interruptions(tries: seq<Try>): nat {
    if tries == [] then 0 else Interruptions(tries[..|tries| - 1]) + if tries[|tries| - 1].returned then 0 else 1
  }

  lemma UnionSize(xs: seq<int>, ys: seq<int>, zs: seq<int>)
    requires (forall c :: c in zs <==> c in xs || c in ys) && (forall c :: c in ys ==> c !in xs)
    ensures |set c | c in zs| == |set c | c in xs| + |set c | c in ys|
  {
    var a, b, u := (set c | c in xs), (set c | c in ys), (set c | c in zs);
    forall c ensures c in u <==> c in a + b {
      assert c in u <==> c in zs;
    }
    assert u == a + b;
    forall c | c in b ensures c !in a {
      assert c in ys;
    }
    assert a !! b;
  }

  lemma RecordedSize(before: Session, after: Session, chunks: seq<int>)
    requires Ascending(before.completedChunks) && Ascending(after.completedChunks) && Recorded(before, after, chunks)
    requires Ascending(chunks) && forall c :: c in chunks ==> c !in before.completedChunks
    ensures |after.completedChunks| == |before.completedChunks| + |chunks|
  {
    AscendingSize(before.completedChunks);
    AscendingSize(after.completedChunks);
    AscendingSize(chunks);
    UnionSize(before.completedChunks, chunks, after.completedChunks);
  }

  lemma {:induction false} ConcatPrefix(batches: seq<seq<int>>, k: nat)
    requires k <= |batches|
    ensures Concat(batches[..k]) <= Concat(batches)
    decreases |batches|
  {
    if k == |batches| {
      assert batches[..k] == batches;
    } else {
      assert batches[..|batches| - 1][..k] == batches[..k];
      ConcatPrefix(batches[..|batches| - 1], k);
    }
  }

  /** The calls of an attempt that are on record: all of them if it returned, all but at most a batch otherwise. */
  lemma CallsOnRecord(t: Try, reportEvery: int) returns (confirmed: seq<int>)
    requires SessionOk(t.before) && SessionOk(t.after)
    requires Attempt(t.before, t.after, t.calls, t.batches, reportEvery, t.returned)
    ensures confirmed <= t.calls <= Missing(t.before.completedChunks, t.before.totalChunks)
    ensures Recorded(t.before, t.after, confirmed)
    ensures |t.calls| - |confirmed| <= BatchSize(reportEvery)
    ensures t.returned ==> confirmed == t.calls == Missing(t.before.completedChunks, t.before.totalChunks)
  {
    hide SessionOk, Missing;
    if t.returned {
      confirmed := t.calls;
    } else {
      var k :| |t.batches| - 1 <= k <= |t.batches| && Confirmed(t.before, t.after, t.calls, t.batches, k, BatchSize(reportEvery));
      confirmed := Concat(t.batches[..k]);
      ConcatPrefix(t.batches, k);
      hide Recorded;
    }
  }

  lemma PrefixOfMissing(before: Session, chunks: seq<int>)
    requires chunks <= Missing(before.completedChunks, before.totalChunks)
    ensures Ascending(chunks) && forall c :: c in chunks ==> 0 <= c < before.totalChunks && c !in before.completedChunks
  {
    MissingSpec(before.completedChunks, before.totalChunks);
    assert forall c :: c in chunks ==> c in Missing(before.completedChunks, before.totalChunks);
  }

  /** The work of one attempt is what it put on record, plus at most one batch if it was interrupted. */
  lemma AttemptWork(t: Try, reportEvery: int)
    requires SessionOk(t.before) && SessionOk(t.after)
    requires Attempt(t.before, t.after, t.calls, t.batches, reportEvery, t.returned)
    ensures |t.calls| <= |t.after.completedChunks| - |t.before.completedChunks| + if t.returned then 0 else BatchSize(reportEvery)
    ensures t.returned ==> forall c :: 0 <= c < t.after.totalChunks ==> c in t.after.completedChunks
    ensures forall c :: c in t.after.completedChunks ==> c in t.before.completedChunks || c in t.calls
  {
    var confirmed := CallsOnRecord(t, reportEvery);
    PrefixOfMissing(t.before, confirmed);
    RecordedSize(t.before, t.after, confirmed);
    MissingSpec(t.before.completedChunks, t.before.totalChunks);
    assert forall c :: c in confirmed ==> c in t.calls;
    assert SameFile(t.before, t.after);
    hide Attempt, SessionOk, Missing, BatchSize;
  }

  lemma OneMoreTry(tries: seq<Try>, b: nat)
    requires tries != []
    ensures Interruptions(tries) * b == Interruptions(tries[..|tries| - 1]) * b + if tries[|tries| - 1].returned then 0 else b
  {
    TimesSucc(Interruptions(tries[..|tries| - 1]), b);
  }

  /**
   Over any series of attempts, cut anywhere and resumed: the transport calls are at most the chunks
   plus one batch per interruption, and after an attempt that returned every chunk is on record.
   */
  lemma {:induction false} SeriesWork(tries: seq<Try>, reportEvery: int)
    requires Series(tries, reportEvery) && tries != []
    ensures var first, last := tries[0].before, tries[|tries| - 1];
            && SameFile(first, last.after)
            && TotalCalls(tries) + |first.completedChunks| <= |last.after.completedChunks| + Interruptions(tries) * BatchSize(reportEvery)
            && TotalCalls(tries) <= first.totalChunks + Interruptions(tries) * BatchSize(reportEvery)
            && (last.returned ==> forall c :: 0 <= c < first.totalChunks ==> c in last.after.completedChunks)
    decreases |tries|
  {
    hide Attempt, SessionOk, BatchSize, Series, Recorded;
    var last := tries[|tries| - 1];
    var init := tries[..|tries| - 1];
    LastTry(tries, reportEvery);
    OneMoreTry(tries, BatchSize(reportEvery));
    if init != [] { SeriesWork(init, reportEvery); }
  }

  /** The last attempt of a series, and its place in it. */
  lemma LastTry(tries: seq<Try>, reportEvery: int)
    requires Series(tries, reportEvery) && tries != []
    ensures var init, last := tries[..|tries| - 1], tries[|tries| - 1];
            && Series(init, reportEvery)
            && (init != [] ==> Resumed(init[|init| - 1].after, last.before) &&
                               |init[|init| - 1].after.completedChunks| <= |last.before.completedChunks|)
            && SameFile(last.before, last.after) && |last.after.completedChunks| <= last.after.totalChunks
            && |last.calls| <= |last.after.completedChunks| - |last.before.completedChunks| + (if last.returned then 0 else BatchSize(reportEvery))
            && (last.returned ==> forall c :: 0 <= c < last.after.totalChunks ==> c in last.after.completedChunks)
  {
    var last := tries[|tries| - 1];
    AttemptWork(last, reportEvery);
    AscendingBelow(last.after.completedChunks, last.after.totalChunks);
    if |tries| > 1 { ResumedSize(tries[|tries| - 2].after, last.before); }
    hide SessionOk, Confirmed, Batched;
  }

  /** What lands late are reports of these attempts: chunks that an earlier one has transported. */
  ghost predicate OwnReports(tries: seq<Try>) {
    forall i, c :: 0 <= i < |tries| - 1 && c in tries[i + 1].before.completedChunks && c !in tries[i].after.completedChunks ==>
      exists j :: 0 <= j <= i && c in tries[j].calls
  }

  /** Every chunk on record at the end was there at the start or has been handed to the transport. */
  lemma {:induction false} SeriesTransports(tries: seq<Try>, reportEvery: int, c: int) returns (i: nat)
    requires Series(tries, reportEvery) && OwnReports(tries) && tries != []
    ensures c in tries[|tries| - 1].after.completedChunks && c !in tries[0].before.completedChunks ==> i < |tries| && c in tries[i].calls
    decreases |tries|
  {
    hide Series, OwnReports;
    i := |tries| - 1;
    LastTransports(tries, reportEvery);
    if |tries| > 1 && c !in tries[i].calls {
      var init := tries[..|tries| - 1];
      if c in tries[i].before.completedChunks && c !in tries[i - 1].after.completedChunks {
        i := LateChunk(tries, c);
      } else {
        EarlierOwnReports(tries);
        LastTry(tries, reportEvery);
        i := SeriesTransports(init, reportEvery, c);
      }
    }
  }

  lemma LastTransports(tries: seq<Try>, reportEvery: int)
    requires Series(tries, reportEvery) && tries != []
    ensures var last := tries[|tries| - 1];
            forall c :: c in last.after.completedChunks ==> c in last.before.completedChunks || c in last.calls
  {
    AttemptWork(tries[|tries| - 1], reportEvery);
    hide Attempt, SessionOk;
  }

  lemma LateChunk(tries: seq<Try>, c: int) returns (j: nat)
    requires OwnReports(tries) && |tries| > 1
    requires c in tries[|tries| - 1].before.completedChunks && c !in tries[|tries| - 2].after.completedChunks
    ensures j < |tries| && c in tries[j].calls
  {
    var i := |tries| - 2;
    assert c in tries[i + 1].before.completedChunks;
    j :| 0 <= j <= i && c in tries[j].calls;
  }

  lemma EarlierOwnReports(tries: seq<Try>)
    requires OwnReports(tries) && tries != []
    ensures OwnReports(tries[..|tries| - 1])
  {
    var init := tries[..|tries| - 1];
    forall i, c | 0 <= i < |init| - 1 && c in init[i + 1].before.completedChunks && c !in init[i].after.completedChunks
      ensures exists j :: 0 <= j <= i && c in init[j].calls
    {
      assert tries[i + 1] == init[i + 1] && tries[i] == init[i];
      var j :| 0 <= j <= i && c in tries[j].calls;
      assert c in init[j].calls;
    }
  }

  /** What has been transported for a chunk is the file's own piece, so a finished upload has sent the whole file. */
  lemma {:induction false} LogHoldsPieces(calls: seq<int>, file: File, chunkSize: nat, i: nat)
    requires i < |calls| && calls[i] >= 0
    ensures |Log(calls, file, chunkSize)| == |calls| && Log(calls, file, chunkSize)[i] == Sent(calls[i], Piece(file, calls[i], chunkSize))
    decreases |calls|
  {
    LogLength(calls, file, chunkSize);
    if i < |calls| - 1 {
      LogLength(calls[..|calls| - 1], file, chunkSize);
      LogHoldsPieces(calls[..|calls| - 1], file, chunkSize, i);
    } else {
      LogLength(calls[..|calls| - 1], file, chunkSize);
    }
  }

  lemma {:induction false} LogLength(calls: seq<int>, file: File, chunkSize: nat)
    ensures |Log(calls, file, chunkSize)| == |calls|
  {
    if calls != [] { LogLength(calls[..|calls| - 1], file, chunkSize); }
  }

  // --- When an attempt can return -------------------------------------------------------------

  /** The server takes at most 1000 chunks per report: an attempt that must send more in one batch never returns. */
  lemma OversizedBatchesNeverReturn(before: Session, after: Session, calls: seq<int>, batches: seq<seq<int>>, reportEvery: int)
    requires Attempt(before, after, calls, batches, reportEvery, true)
    ensures BatchSize(reportEvery) <= MAX_CHUNKS_PER_UPDATE || |Missing(before.completedChunks, before.totalChunks)| <= MAX_CHUNKS_PER_UPDATE
  {
    if |batches| > 1 {
      assert |batches[0]| == BatchSize(reportEvery) && batches[0] in batches;
    } else if |batches| == 1 {
      assert batches[..0] == [] && Concat(batches) == Concat(batches[..0]) + batches[0];
      assert batches[0] in batches;
    }
  }

  /** Full batches and a rest. */
  function Cut(all: seq<int>, size: nat): seq<seq<int>>
    requires size > 0
    decreases |all|
  {
    if all == [] then [] else if |all| <= size then [all] else [all[..size]] + Cut(all[size..], size)
  }

  lemma {:induction false} ConcatCons(first: seq<int>, batches: seq<seq<int>>)
    ensures Concat([first] + batches) == first + Concat(batches)
  {
    if batches == [] {
      assert Concat([]) == [] && [first][..0] == [];
    } else {
      var init, last := batches[..|batches| - 1], batches[|batches| - 1];
      ConcatCons(first, init);
      ConcatSnoc([first] + init, last);
      ConcatSnoc(init, last);
      hide Concat;
      assert [first] + batches == ([first] + init) + [last] && batches == init + [last];
    }
  }

  lemma {:induction false} CutConcat(all: seq<int>, size: nat)
    requires size > 0
    ensures Concat(Cut(all, size)) == all
    decreases |all|
  {
    if 0 < |all| <= size {
      ConcatCons(all, []);
    } else if all != [] {
      CutConcat(all[size..], size);
      ConcatCons(all[..size], Cut(all[size..], size));
      hide Concat;
    }
  }

  predicate Within(batch: seq<int>, all: seq<int>, size: nat) {
    0 < |batch| <= size && |batch| <= |all| && forall c :: c in batch ==> c in all
  }

  lemma {:induction false} CutBatches(all: seq<int>, size: nat)
    requires size > 0
    ensures Batched(Cut(all, size), size) && (all != [] ==> Cut(all, size) != [])
    ensures forall b :: b in Cut(all, size) ==> Within(b, all, size)
    decreases |all|
  {
    if |all| > size {
      var first, rest := all[..size], all[size..];
      CutBatches(rest, size);
      var later := Cut(rest, size);
      assert Cut(all, size) == [first] + later;
      hide Cut;
      BatchedCons(first, later, size);
      assert Within(first, all, size);
      forall b | b in later ensures Within(b, all, size) {
        assert Within(b, rest, size);
      }
    }
  }

  lemma BatchedCons(first: seq<int>, later: seq<seq<int>>, size: nat)
    requires Batched(later, size) && later != [] && |first| == size > 0
    ensures Batched([first] + later, size)
  {
    var all := [first] + later;
    forall i | 0 <= i < |all| - 1 ensures |all[i]| == size {
      if i > 0 { assert all[i] == later[i - 1]; }
    }
  }

  lemma CutSpec(all: seq<int>, size: nat)
    requires size > 0
    ensures Concat(Cut(all, size)) == all && Batched(Cut(all, size), size)
    ensures forall b :: b in Cut(all, size) ==> Within(b, all, size)
  {
    CutConcat(all, size);
    CutBatches(all, size);
    hide Cut, Concat, Batched, Within;
  }

  /** The session after the server has handled these reports in turn. */
  function Reported(s: Session, batches: seq<seq<int>>, now: int): (r: Session)
    requires SessionOk(s)
    ensures SessionOk(r)
  {
    if batches == [] then s
    else
      var before := Reported(s, batches[..|batches| - 1], now);
      UpdateKeepsOk(before, Progress(batches[|batches| - 1]), now);
      Update(before, Progress(batches[|batches| - 1]), now).0
  }

  lemma {:induction false} ReportsAreTaken(s: Session, batches: seq<seq<int>>, now: int)
    requires SessionOk(s) && s.status == InProgress && now < s.expiresAt
    requires forall b :: b in batches ==> ValidBatch(b) && forall c :: c in b ==> c < s.totalChunks
    ensures var r := Reported(s, batches, now);
            SameFile(s, r) && r.status == InProgress && now < r.expiresAt && Recorded(s, r, Concat(batches))
  {
    if batches != [] {
      var init, last := batches[..|batches| - 1], batches[|batches| - 1];
      assert last in batches && forall b :: b in init ==> b in batches;
      ReportsAreTaken(s, init, now);
      hide Update, SessionOk;
      ProgressRecords(Reported(s, init, now), last, now);
    }
  }

  /** On a live session an attempt can return exactly if no batch must be larger than the server takes: then full batches and a rest do it. */
  lemma WhenAnAttemptCanReturn(before: Session, reportEvery: int, now: int)
    requires SessionOk(before) && before.status == InProgress && now < before.expiresAt
    ensures var all := Missing(before.completedChunks, before.totalChunks);
            var batches := Cut(all, BatchSize(reportEvery));
            (BatchSize(reportEvery) <= MAX_CHUNKS_PER_UPDATE || |all| <= MAX_CHUNKS_PER_UPDATE) <==>
            Attempt(before, Reported(before, batches, now), all, batches, reportEvery, true)
  {
    var all := Missing(before.completedChunks, before.totalChunks);
    var batches := Cut(all, BatchSize(reportEvery));
    var after := Reported(before, batches, now);
    hide Cut, Missing, SessionOk, Reported, Recorded, Concat, Attempt;
    if BatchSize(reportEvery) <= MAX_CHUNKS_PER_UPDATE || |all| <= MAX_CHUNKS_PER_UPDATE {
      CutIsValid(before, reportEvery);
      ReportsAreTaken(before, batches, now);
      CutSpec(all, BatchSize(reportEvery));
      AllReported(before, after, batches, reportEvery);
    } else if Attempt(before, after, all, batches, reportEvery, true) {
      OversizedBatchesNeverReturn(before, after, all, batches, reportEvery);
    }
  }

  lemma CutIsValid(before: Session, reportEvery: int)
    requires BatchSize(reportEvery) <= MAX_CHUNKS_PER_UPDATE || |Missing(before.completedChunks, before.totalChunks)| <= MAX_CHUNKS_PER_UPDATE
    ensures forall b :: b in Cut(Missing(before.completedChunks, before.totalChunks), BatchSize(reportEvery)) ==>
              ValidBatch(b) && forall c :: c in b ==> c < before.totalChunks
  {
    var all := Missing(before.completedChunks, before.totalChunks);
    CutSpec(all, BatchSize(reportEvery));
    MissingSpec(before.completedChunks, before.totalChunks);
    hide Cut, Missing, Concat, Ascending, Batched;
  }

  lemma AllReported(before: Session, after: Session, batches: seq<seq<int>>, reportEvery: int)
    requires SameFile(before, after) && Recorded(before, after, Concat(batches)) && Batched(batches, BatchSize(reportEvery))
    requires Concat(batches) == Missing(before.completedChunks, before.totalChunks) && forall b :: b in batches ==> ValidBatch(b)
    ensures Attempt(before, after, Concat(batches), batches, reportEvery, true)
  {
    hide Recorded, Concat, Missing, Batched, ValidBatch;
    assert batches[..|batches|] == batches;
    assert Confirmed(before, after, Concat(batches), batches, |batches|, BatchSize(reportEvery));
  }
}
