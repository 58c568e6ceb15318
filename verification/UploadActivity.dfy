/**
 What each update of an upload session means (docs/api/upload-sessions.md): when it is accepted, what it changes,
 and what the session's counters and expiry tell about its past.
 */
module UploadActivity {
  import opened UploadServer

  /** In progress, and active within the last 24 hours. */
  predicate Alive(s: Session, now: int) { s.status == InProgress && now < s.expiresAt }

  /** Ended by a day of silence, noticed already or not. */
  predicate Lapsed(s: Session, now: int) { s.status == Expired || (s.status == InProgress && s.expiresAt <= now) }

  predicate InRange(s: Session, chunks: seq<int>) { 0 < |chunks| <= 1000 && forall c :: c in chunks ==> 0 <= c < s.totalChunks }

  function DayAfter(now: int): int { now + 86_400_000 }

  /** A resume counts as an attempt and buys another day. */
  lemma WhenResumed(s: Session, now: int)
    requires SessionOk(s)
    ensures var (s', answer) := Update(s, Resume, now);
            && (answer.Updated? <==> Alive(s, now)) && (answer.Gone? <==> Lapsed(s, now)) && (answer.Conflict? <==> s.status in {Completed, Aborted})
            && (Alive(s, now) ==> answer == Updated(s') && s' == s.(attempt := s.attempt + 1, expiresAt := DayAfter(now)))
  {
  }

  /** A report is taken exactly if the session is alive and every index in range; it buys another day. */
  lemma WhenReported(s: Session, chunks: seq<int>, now: int)
    requires SessionOk(s)
    ensures var (s', answer) := Update(s, Progress(chunks), now);
            && (answer.Updated? <==> Alive(s, now) && InRange(s, chunks))
            && (Alive(s, now) && !InRange(s, chunks) ==> answer.Invalid?)
            && (!Alive(s, now) && InRange(s, chunks) ==> answer == if Lapsed(s, now) then Gone else Conflict)
            && (answer.Updated? ==> s'.expiresAt == DayAfter(now) && s'.attempt == s.attempt && s'.restartCount == s.restartCount && s'.status == InProgress)
  {
  }

  /** A restart is refused only by a completed session; it discards the progress, counts as an attempt, and opens the session for a day. */
  lemma WhenRestarted(s: Session, now: int)
    requires SessionOk(s)
    ensures var (s', answer) := Update(s, Restart, now);
            && (answer.Updated? <==> s.status != Completed) && (s.status == Completed ==> answer.Conflict? && s' == s)
            && (s.status != Completed ==>
                  answer == Updated(s') && Alive(s', now) && s'.expiresAt == DayAfter(now) && s'.completedChunks == [] && s'.bytesReceived == 0
                  && s'.attempt == s.attempt + 1 && s'.restartCount == s.restartCount + 1
                  && (s'.fileSize, s'.chunkSize, s'.totalChunks) == (s.fileSize, s.chunkSize, s.totalChunks))
  {
  }

  /** An abort stops a live session and keeps what it has recorded; only a restart opens it again. */
  lemma WhenAborted(s: Session, now: int, action: Action, later: int)
    requires SessionOk(s)
    ensures var (s', answer) := Update(s, Abort, now);
            && (answer.Updated? <==> Alive(s, now)) && (answer.Updated? ==> s' == s.(status := Aborted))
            && (answer.Updated? && !action.Restart? && !(action.Progress? && !ValidBatch(action.chunks)) ==>
                  Update(s', action, later) == (s', Conflict))
  {
  }

  /** A refused update changes nothing, except that the end of a silent session may be noted. */
  lemma RefusedChangesNothing(s: Session, action: Action, now: int)
    requires SessionOk(s)
    ensures var (s', answer) := Update(s, action, now);
            !answer.Updated? ==> s' == s || (Lapsed(s, now) && s' == s.(status := Expired))
  {
  }

  // --- Counters -------------------------------------------------------------------------------

  /** How many updates of a series were accepted restarts, or accepted resumes. */
  function Accepted(s: Session, updates: seq<(Action, int)>, restarts: bool): nat
    requires SessionOk(s)
    decreases |updates|
  {
    if updates == [] then 0
    else
      UpdateKeepsOk(s, updates[0].0, updates[0].1);
      var (s', answer) := Update(s, updates[0].0, updates[0].1);
      (if answer.Updated? && (if restarts then updates[0].0.Restart? else updates[0].0.Resume?) then 1 else 0) + Accepted(s', updates[1..], restarts)
  }

  /** Whatever updates a session sees: its attempt number counts the resumes and restarts it took, and its restart count the latter. */
  lemma {:induction false} CountersTell(s: Session, updates: seq<(Action, int)>)
    requires SessionOk(s)
    ensures var r := Run(s, updates);
            r.restartCount == s.restartCount + Accepted(s, updates, true) &&
            r.attempt == s.attempt + Accepted(s, updates, true) + Accepted(s, updates, false)
    decreases |updates|
  {
    if updates != [] {
      var (action, now) := updates[0];
      UpdateKeepsOk(s, action, now);
      CountersStep(s, action, now);
      hide Update, SessionOk;
      CountersTell(Update(s, action, now).0, updates[1..]);
    }
  }

  lemma CountersStep(s: Session, action: Action, now: int)
    requires SessionOk(s)
    ensures var (s', answer) := Update(s, action, now);
            && s'.restartCount == s.restartCount + (if answer.Updated? && action.Restart? then 1 else 0)
            && s'.attempt == s.attempt + (if answer.Updated? && (action.Restart? || action.Resume?) then 1 else 0)
  {
  }

  // --- Expiry ---------------------------------------------------------------------------------

  /** Resumes, restarts and reports are activity; a session that takes none of them for a day has lapsed, and no sooner. */
  predicate Activity(action: Action) { action.Resume? || action.Restart? || action.Progress? }

  lemma ActivityBuysADay(s: Session, action: Action, now: int, later: int)
    requires SessionOk(s)
    ensures var (s', answer) := Update(s, action, now);
            && (answer.Updated? && Activity(action) ==> (Alive(s', later) <==> later < DayAfter(now)) && (Lapsed(s', later) <==> later >= DayAfter(now)))
            && (!(answer.Updated? && Activity(action)) ==> s'.expiresAt == s.expiresAt)
  {
  }

  lemma NewSessionLivesADay(fileSize: nat, chunkSize: nat, now: int, later: int)
    requires chunkSize > 0
    ensures var s := NewSession(fileSize, chunkSize, now);
            && s.attempt == 1 && s.restartCount == 0 && s.completedChunks == [] && s.bytesReceived == 0
            && (Alive(s, later) <==> later < DayAfter(now)) && (Lapsed(s, later) <==> later >= DayAfter(now))
  {
  }
}
