/**
 Server side of resumable uploads (frontend/lib/server/upload-sessions.ts and
 packages/shared/validation/uploadSession.ts): one session record, updated under its lock.
 */
module UploadServer {
  import opened Wrappers
  import opened Chunks

  datatype Status = InProgress | Completed | Aborted | Expired

  datatype Session = Session(fileSize: nat, chunkSize: nat, status: Status, totalChunks: nat,
                             completedChunks: seq<int>, bytesReceived: nat,
                             attempt: nat, restartCount: nat, expiresAt: int)

  /** `Complete` carries the outcome of looking up the upload record it names, if it names one. */
  datatype Linked = NoUpload | Matching | Unknown

  datatype Action = Progress(chunks: seq<int>) | Resume | Restart | Abort | Complete(linked: Linked)

  datatype Answer = Updated(session: Session) | Invalid | Conflict | Gone

  const TTL_MS := 24 * 60 * 60 * 1000
  const MAX_CHUNKS_PER_UPDATE := 1000

  // --- Sorted lists without duplicates --------------------------------------------------------

  predicate Ascending(xs: seq<int>) { forall i, j :: 0 <= i < j < |xs| ==> xs[i] < xs[j] }

  ghost predicate SameElements(xs: seq<int>, ys: seq<int>) { forall x :: x in xs <==> x in ys }

  function Insert(xs: seq<int>, x: int): (r: seq<int>)
    requires Ascending(xs)
    ensures Ascending(r) && forall y :: y in r <==> y in xs || y == x
  {
    if xs == [] || x < xs[0] then [x] + xs
    else if x == xs[0] then xs
    else
      var rest := Insert(xs[1..], x);
      assert forall i :: 0 <= i < |rest| ==> rest[i] in rest;
      [xs[0]] + rest
  }

  /** `[...new Set([...xs, ...ys])].sort((a, b) => a - b)`, for a list already in order and a batch in any order. */
  function Union(xs: seq<int>, ys: seq<int>): (r: seq<int>)
    requires Ascending(xs)
    ensures Ascending(r) && forall y :: y in r <==> y in xs || y in ys
    decreases |ys|
  {
    if ys == [] then xs else Union(Insert(xs, ys[0]), ys[1..])
  }

  /** The order leaves no freedom: the same elements make the same list. */
  lemma {:induction false} AscendingIsCanonical(xs: seq<int>, ys: seq<int>)
    requires Ascending(xs) && Ascending(ys) && SameElements(xs, ys)
    ensures xs == ys
  {
    assert xs == [] <==> ys == [] by {
      assert xs != [] ==> xs[0] in xs;
      assert ys != [] ==> ys[0] in ys;
    }
    if xs != [] {
      assert xs[0] in ys && ys[0] in xs;
      assert forall y :: y in xs[1..] <==> y in xs && y != xs[0];
      assert forall y :: y in ys[1..] <==> y in ys && y != ys[0];
      AscendingIsCanonical(xs[1..], ys[1..]);
    }
  }

  lemma DropLast(xs: seq<int>)
    requires Ascending(xs) && xs != []
    ensures var init, last := xs[..|xs| - 1], xs[|xs| - 1];
            Ascending(init) && last in xs && last !in init && forall x :: x in xs <==> x in init || x == last
    ensures forall x :: x in xs ==> x <= xs[|xs| - 1]
  {
  }

  lemma {:induction false} AscendingSize(xs: seq<int>)
    requires Ascending(xs)
    ensures |set x | x in xs| == |xs|
  {
    if xs != [] {
      var init, last := xs[..|xs| - 1], xs[|xs| - 1];
      DropLast(xs);
      AscendingSize(init);
      assert (set x | x in xs) == (set x | x in init) + {last};
    }
  }

  /** A list of chunks below `n` has at most `n` entries, and `n` only when it has them all. */
  lemma {:induction false} AscendingBelow(xs: seq<int>, n: nat)
    requires Ascending(xs) && forall x :: x in xs ==> 0 <= x < n
    ensures |xs| <= n && (|xs| == n <==> forall x :: 0 <= x < n ==> x in xs)
    decreases n
  {
    if xs != [] { DropLast(xs); }
    if n > 0 {
      if xs != [] && xs[|xs| - 1] == n - 1 { AscendingBelow(xs[..|xs| - 1], n - 1); }
      else { AscendingBelow(xs, n - 1); assert n - 1 !in xs; }
    }
  }

  // --- Byte counts ----------------------------------------------------------------------------

  function BytesFor(chunks: seq<int>, fileSize: nat, chunkSize: nat): nat {
    if chunks == [] then 0
    else BytesFor(chunks[..|chunks| - 1], fileSize, chunkSize) + ChunkLength(chunks[|chunks| - 1], fileSize, chunkSize)
  }

  /** Of a non-empty file, all bytes are received exactly when all chunks are. */
  lemma {:induction false} BytesTellCompletion(chunks: seq<int>, fileSize: nat, chunkSize: nat, n: nat)
    requires Ascending(chunks) && (forall x :: x in chunks ==> 0 <= x < n)
    requires chunkSize > 0 && fileSize > 0 && n <= TotalChunks(fileSize, chunkSize)
    ensures BytesFor(chunks, fileSize, chunkSize) <= BytesBelow(fileSize, chunkSize, n)
    ensures BytesFor(chunks, fileSize, chunkSize) == BytesBelow(fileSize, chunkSize, n) <==> |chunks| == n
    decreases n
  {
    if chunks != [] { DropLast(chunks); }
    if n > 0 {
      NonEmptyChunks(n - 1, fileSize, chunkSize);
      if chunks != [] && chunks[|chunks| - 1] == n - 1 {
        BytesTellCompletion(chunks[..|chunks| - 1], fileSize, chunkSize, n - 1);
      } else {
        BytesTellCompletion(chunks, fileSize, chunkSize, n - 1);
        AscendingBelow(chunks, n - 1);
      }
    }
  }

  // --- The session record ---------------------------------------------------------------------

  function NewSession(fileSize: nat, chunkSize: nat, now: int): Session
    requires chunkSize > 0
  {
    Session(fileSize, chunkSize, InProgress, TotalChunks(fileSize, chunkSize), [], 0, 1, 0, now + TTL_MS)
  }

  /** What holds of every stored session. */
  predicate SessionOk(s: Session) {
    && s.chunkSize > 0 && s.totalChunks == TotalChunks(s.fileSize, s.chunkSize)
    && Ascending(s.completedChunks) && (forall c :: c in s.completedChunks ==> 0 <= c < s.totalChunks)
    && s.bytesReceived == BytesFor(s.completedChunks, s.fileSize, s.chunkSize)
    && (s.status == Completed ==> |s.completedChunks| == s.totalChunks)
  }

  /** Lazy expiry, before any other rule. */
  function Refresh(s: Session, now: int): Session {
    if s.status == InProgress && s.expiresAt <= now then s.(status := Expired) else s
  }

  /** The body check: a non-empty list of at most 1000 indexes, each 0 or more. */
  predicate ValidBatch(chunks: seq<int>) {
    0 < |chunks| <= MAX_CHUNKS_PER_UPDATE && forall c :: c in chunks ==> c >= 0
  }

  function Record(s: Session, batch: seq<int>, now: int): Session
    requires Ascending(s.completedChunks)
  {
    var completed := Union(s.completedChunks, batch);
    s.(completedChunks := completed, bytesReceived := BytesFor(completed, s.fileSize, s.chunkSize), expiresAt := now + TTL_MS)
  }

  /** One update under the session's lock: the stored session afterwards, and the answer. */
  function Update(stored: Session, action: Action, now: int): (Session, Answer)
    requires Ascending(stored.completedChunks)
  {
    if action.Progress? && !ValidBatch(action.chunks) then (stored, Invalid)
    else
      var s := Refresh(stored, now);
      if action.Restart? then
        if s.status == Completed then (s, Conflict)
        else
          var restarted := s.(status := InProgress, completedChunks := [], bytesReceived := 0,
                              attempt := s.attempt + 1, restartCount := s.restartCount + 1, expiresAt := now + TTL_MS);
          (restarted, Updated(restarted))
      else if s.status == Expired then (s, Gone)
      else if s.status != InProgress then (s, Conflict)
      else match action
        case Resume =>
          var resumed := s.(attempt := s.attempt + 1, expiresAt := now + TTL_MS);
          (resumed, Updated(resumed))
        case Progress(chunks) =>
          if exists c :: c in chunks && c >= s.totalChunks then (s, Invalid)
          else
            var updated := Record(s, chunks, now);
            (updated, Updated(updated))
        case Abort =>
          var aborted := s.(status := Aborted);
          (aborted, Updated(aborted))
        case Complete(linked) =>
          if |s.completedChunks| < s.totalChunks then (s, Conflict)
          else if linked.Unknown? then (s, Invalid)
          else
            var completed := s.(status := Completed);
            (completed, Updated(completed))
  }

  lemma RecordKeepsOk(s: Session, batch: seq<int>, now: int)
    requires SessionOk(s) && s.status != Completed && forall c :: c in batch ==> 0 <= c < s.totalChunks
    ensures SessionOk(Record(s, batch, now))
  {
  }

  /** Every update keeps the record consistent, so a completed session has every chunk on record; only a restart drops chunks. */
  lemma UpdateKeepsOk(s: Session, action: Action, now: int)
    requires SessionOk(s)
    ensures var (s', answer) := Update(s, action, now);
            && SessionOk(s')
            && (answer.Updated? ==> answer.session == s')
            && (s'.fileSize, s'.chunkSize, s'.totalChunks) == (s.fileSize, s.chunkSize, s.totalChunks)
            && (!action.Restart? ==> forall c :: c in s.completedChunks ==> c in s'.completedChunks)
  {
    match action
    case Progress(chunks) =>
      if ValidBatch(chunks) && (forall c :: c in chunks ==> c < s.totalChunks) && Refresh(s, now).status == InProgress {
        RecordKeepsOk(s, chunks, now);
      }
    case Resume =>
    case Restart =>
    case Abort =>
    case Complete(_) => AscendingBelow(s.completedChunks, s.totalChunks);
  }

  /** The session after a series of updates. */
  function Run(s: Session, updates: seq<(Action, int)>): (r: Session)
    requires SessionOk(s)
    ensures SessionOk(r)
    decreases |updates|
  {
    if updates == [] then s
    else
      UpdateKeepsOk(s, updates[0].0, updates[0].1);
      Run(Update(s, updates[0].0, updates[0].1).0, updates[1..])
  }

  /** A recorded batch adds its chunks and touches nothing else but the byte count and the expiry. */
  lemma ProgressRecords(s: Session, chunks: seq<int>, now: int)
    requires SessionOk(s) && Update(s, Progress(chunks), now).1.Updated?
    ensures var s' := Update(s, Progress(chunks), now).0;
            && (forall c :: c in s'.completedChunks <==> c in s.completedChunks || c in chunks)
            && s' == s.(completedChunks := s'.completedChunks, bytesReceived := s'.bytesReceived, expiresAt := now + TTL_MS)
  {
  }

  /** Batches may arrive in either order, overlap or be repeated: the record comes out the same. */
  lemma ProgressCommutes(s: Session, a: seq<int>, b: seq<int>, now: int, later: int)
    requires SessionOk(s)
    ensures Record(Record(s, a, now), b, later) == Record(Record(s, b, now), a, later) == Record(s, a + b, later)
    ensures Record(Record(s, a, now), a, later) == Record(s, a, later)
  {
    AscendingIsCanonical(Union(Union(s.completedChunks, a), b), Union(s.completedChunks, a + b));
    AscendingIsCanonical(Union(Union(s.completedChunks, b), a), Union(s.completedChunks, a + b));
    AscendingIsCanonical(Union(Union(s.completedChunks, a), a), Union(s.completedChunks, a));
  }

  // --- Derived progress -----------------------------------------------------------------------

  /** Progress in tenths of a percent. */
  function Tenths(s: Session): nat {
    if s.fileSize > 0 then s.bytesReceived * 1000 / s.fileSize else 0
  }

  /** The view's `nextChunk`: a scan for the first index not on record. */
  method NextChunk(s: Session) returns (next: Option<nat>)
    ensures next.None? <==> forall i :: 0 <= i < s.totalChunks ==> i in s.completedChunks
    ensures next.Some? ==> next.value < s.totalChunks && next.value !in s.completedChunks &&
                           forall i :: 0 <= i < next.value ==> i in s.completedChunks
  {
    for i := 0 to s.totalChunks
      invariant forall j :: 0 <= j < i ==> j in s.completedChunks
    {
      if i !in s.completedChunks {
        return Some(i);
      }
    }
    next := None;
  }

  lemma TenthsAreFull(received: nat, size: nat)
    requires 0 < size && received <= size
    ensures received * 1000 / size <= 1000 && (received * 1000 / size == 1000 <==> received == size)
  {
    var q := received * 1000 / size;
    if q > 1000 { TimesMonotone(1001, q, size); }
    if q == 1000 { assert 1000 * size <= received * 1000; }
  }

  /** The reported numbers agree: nothing remains, every chunk is on record, all bytes are in, progress shows 100 %, and only then can the session complete. */
  lemma NumbersAgree(s: Session, now: int)
    requires SessionOk(s)
    ensures var remaining := s.totalChunks - |set c | c in s.completedChunks|;
            && remaining >= 0
            && (remaining == 0 <==> forall i :: 0 <= i < s.totalChunks ==> i in s.completedChunks)
            && (s.fileSize > 0 ==> s.bytesReceived <= s.fileSize && (remaining == 0 <==> s.bytesReceived == s.fileSize))
            && (s.fileSize > 0 ==> Tenths(s) <= 1000 && (remaining == 0 <==> Tenths(s) == 1000))
            && (s.status == InProgress && now < s.expiresAt ==> (remaining == 0 <==> Update(s, Complete(NoUpload), now).1.Updated?))
  {
    AscendingSize(s.completedChunks);
    AscendingBelow(s.completedChunks, s.totalChunks);
    if s.fileSize > 0 {
      BytesTellCompletion(s.completedChunks, s.fileSize, s.chunkSize, s.totalChunks);
      PiecesMakeFile(seq(s.fileSize, i => 0), s.chunkSize);
      TenthsAreFull(s.bytesReceived, s.fileSize);
    }
  }
}
