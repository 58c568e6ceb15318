/**
 A call of the upload client with its retries (frontend/lib/api.ts under frontend/lib/resumable-upload.ts): the
 tries it makes, what each does to the session, and what the client is told, whoever else acts in between.
 */
module UploadCalls {
  import opened Wrappers
  import opened UploadServer

  const SESSION_MAX_ATTEMPTS := 4

  /** What happens to a session during a call: a try, which may not arrive or not be heard, or an update by anyone else. */
  datatype Event = Try(reached: bool, replied: bool, now: int) | Elsewhere(action: Action, now: int)

  /** The session after an event, and the answer that ends the call, if it does; a conflict is tried again. */
  function Happen(s: Session, action: Action, event: Event): (Session, Option<Answer>)
    requires SessionOk(s)
  {
    match event
    case Elsewhere(other, now) => (Update(s, other, now).0, None)
    case Try(reached, replied, now) =>
      if !reached then (s, None)
      else
        var (after, answer) := Update(s, action, now);
        (after, if replied && !answer.Conflict? then Some(answer) else None)
  }

  lemma HappenKeepsOk(s: Session, action: Action, event: Event)
    requires SessionOk(s)
    ensures SessionOk(Happen(s, action, event).0)
  {
    UpdateKeepsOk(s, if event.Try? then action else event.action, event.now);
  }

  /** The session when the call is over, and the answer it got; `None` when its tries are used up. */
  function Call(s: Session, action: Action, events: seq<Event>): (r: (Session, Option<Answer>))
    requires SessionOk(s)
    ensures SessionOk(r.0)
    decreases |events|
  {
    if events == [] then (s, None)
    else
      HappenKeepsOk(s, action, events[0]);
      var (after, told) := Happen(s, action, events[0]);
      if told.Some? then (after, told) else Call(after, action, events[1..])
  }

  lemma {:induction false} CallSnoc(s: Session, action: Action, events: seq<Event>, last: Event)
    requires SessionOk(s) && Call(s, action, events).1.None?
    ensures Call(s, action, events + [last]) == Happen(Call(s, action, events).0, action, last)
    decreases |events|
  {
    HappenKeepsOk(s, action, if events == [] then last else events[0]);
    if events == [] {
      assert ([last])[1..] == [];
    } else {
      assert (events + [last])[1..] == events[1..] + [last];
      hide Happen, SessionOk;
      CallSnoc(Happen(s, action, events[0]).0, action, events[1..], last);
    }
  }

  /** The tries of one call: they stop at the first answer, and otherwise only after the fourth. */
  ghost predicate Made(s: Session, action: Action, tries: seq<Event>)
    requires SessionOk(s)
  {
    && |tries| <= SESSION_MAX_ATTEMPTS && (forall i :: 0 <= i < |tries| ==> tries[i].Try?)
    && (forall n :: 0 <= n < |tries| ==> Call(s, action, tries[..n]).1.None?)
    && (Call(s, action, tries).1.None? ==> |tries| == SESSION_MAX_ATTEMPTS)
  }

  /** So a call makes one to four tries, and fewer than four only if it is answered by something other than a conflict. */
  lemma TriesOfACall(s: Session, action: Action, tries: seq<Event>)
    requires SessionOk(s) && Made(s, action, tries)
    ensures 1 <= |tries| <= 4
    ensures |tries| < 4 ==> var last := tries[|tries| - 1];
                            last.Try? && last.reached && last.replied && Call(s, action, tries).1.Some? && !Call(s, action, tries).1.value.Conflict?
  {
    var n := |tries|;
    if n > 0 {
      assert Call(s, action, tries[..n - 1]).1.None?;
      CallSnoc(s, action, tries[..n - 1], tries[n - 1]);
      assert tries[..n - 1] + [tries[n - 1]] == tries;
    }
  }

  /** What a client makes of the end of a call: the session it is sent, or an error. */
  function Reply(answer: Option<Answer>): Option<Session> {
    if answer.Some? && answer.value.Updated? then Some(answer.value.session) else None
  }

  /** Some try arrives and its answer is heard. */
  predicate Heard(tries: seq<Event>) { exists i :: 0 <= i < |tries| && tries[i].Try? && tries[i].reached && tries[i].replied }

  /**
   Of a live session a report in range, whose tries do not outlast the session, succeeds exactly if one of
   them arrives and is heard; so it fails only if all four are lost.
   */
  lemma {:induction false} WhenReportsSucceed(s: Session, chunks: seq<int>, tries: seq<Event>)
    requires SessionOk(s) && s.status == InProgress && ValidBatch(chunks) && forall c :: c in chunks ==> c < s.totalChunks
    requires forall i :: 0 <= i < |tries| ==> tries[i].Try? && tries[i].now < s.expiresAt
    requires forall i, j :: 0 <= i < |tries| && 0 <= j < |tries| ==> tries[j].now < tries[i].now + TTL_MS
    ensures Reply(Call(s, Progress(chunks), tries).1).Some? <==> Heard(tries)
    decreases |tries|
  {
    if tries != [] {
      var (after, told) := Happen(s, Progress(chunks), tries[0]);
      ReportIsTaken(s, chunks, tries[0]);
      HappenKeepsOk(s, Progress(chunks), tries[0]);
      hide Happen, SessionOk;
      assert Heard(tries) <==> (tries[0].reached && tries[0].replied) || Heard(tries[1..]) by { HeardLater(tries); }
      if told.None? { WhenReportsSucceed(after, chunks, tries[1..]); }
    }
  }

  lemma ReportIsTaken(s: Session, chunks: seq<int>, event: Event)
    requires SessionOk(s) && s.status == InProgress && ValidBatch(chunks) && forall c :: c in chunks ==> c < s.totalChunks
    requires event.Try? && event.now < s.expiresAt
    ensures var (after, told) := Happen(s, Progress(chunks), event);
            && after.status == InProgress && after.totalChunks == s.totalChunks
            && after.expiresAt == (if event.reached then event.now + TTL_MS else s.expiresAt)
            && (told.Some? <==> event.reached && event.replied) && (told.Some? ==> told.value.Updated?)
  {
  }

  lemma HeardLater(tries: seq<Event>)
    requires tries != [] && tries[0].Try?
    ensures Heard(tries) <==> (tries[0].reached && tries[0].replied) || Heard(tries[1..])
  {
    if Heard(tries) {
      var i :| 0 <= i < |tries| && tries[i].Try? && tries[i].reached && tries[i].replied;
      if i > 0 { assert tries[1..][i - 1] == tries[i]; }
    }
    if Heard(tries[1..]) {
      var i :| 0 <= i < |tries[1..]| && tries[1..][i].Try? && tries[1..][i].reached && tries[1..][i].replied;
      assert tries[i + 1] == tries[1..][i];
    }
  }

  /** A restart of a session that is not completed succeeds exactly if it is heard, and then leaves an open session without progress. */
  lemma {:induction false} WhenRestartsSucceed(s: Session, tries: seq<Event>)
    requires SessionOk(s) && s.status != Completed && forall i :: 0 <= i < |tries| ==> tries[i].Try?
    ensures var (after, told) := Call(s, Restart, tries);
            && after.status != Completed && (Reply(told).Some? <==> Heard(tries))
            && (Reply(told).Some? ==> after == Reply(told).value && after.status == InProgress && after.completedChunks == [] && after.bytesReceived == 0)
            && (after.fileSize, after.chunkSize, after.totalChunks) == (s.fileSize, s.chunkSize, s.totalChunks)
    decreases |tries|
  {
    if tries != [] {
      HappenKeepsOk(s, Restart, tries[0]);
      HeardLater(tries);
      WhenRestartsSucceed(Happen(s, Restart, tries[0]).0, tries[1..]);
      hide Heard;
    }
  }

  /** What carries requests and answers, and the history of what it did with them. */
  class Network {
    var deliveries: seq<Event>

    constructor ()
      ensures deliveries == []
    {
      deliveries := [];
    }

    method Deliver(now: int) returns (reached: bool, replied: bool)
      modifies this
      ensures deliveries == old(deliveries) + [Try(reached, replied, now)]
    {
      reached, replied := *, *;
      deliveries := deliveries + [Try(reached, replied, now)];
    }
  }
}
