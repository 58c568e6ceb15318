/**
 Cutting a file into chunks: the arithmetic shared by the upload client (slices), the upload server
 (byte counts, packages/shared/validation/uploadSession.ts) and the SHA-512 reader.
 */
module Chunks {
  function Min(a: int, b: int): int { if a <= b then a else b }

  function Max(a: int, b: int): int { if a <= b then b else a }

  /** `Math.ceil(a / b)`. */
  function CeilDiv(a: nat, b: nat): (n: nat)
    requires b > 0
    ensures (n - 1) * b < a <= n * b
  {
    (a + b - 1) / b
  }

  /** An empty file still has one, empty, chunk. */
  function TotalChunks(fileSize: nat, chunkSize: nat): nat
    requires chunkSize > 0
  {
    Max(1, CeilDiv(fileSize, chunkSize))
  }

  function ChunkLength(index: int, fileSize: nat, chunkSize: nat): nat {
    Max(0, Min(chunkSize, fileSize - index * chunkSize))
  }

  /** `blob.slice(start, end)`: both ends clamped to the size. */
  function BlobSlice<T>(file: seq<T>, start: nat, end: int): seq<T> {
    var a := Min(start, |file|);
    var b := Max(a, Min(Max(end, 0), |file|));
    file[a..b]
  }

  /** The piece the client cuts for a chunk. */
  function Piece<T>(file: seq<T>, index: nat, chunkSize: nat): seq<T> {
    BlobSlice(file, index * chunkSize, Min(|file|, index * chunkSize + chunkSize))
  }

  function Joined<T>(file: seq<T>, chunkSize: nat, n: nat): seq<T> {
    if n == 0 then [] else Joined(file, chunkSize, n - 1) + Piece(file, n - 1, chunkSize)
  }

  function BytesBelow(fileSize: nat, chunkSize: nat, n: nat): nat {
    if n == 0 then 0 else BytesBelow(fileSize, chunkSize, n - 1) + ChunkLength(n - 1, fileSize, chunkSize)
  }

  /** A piece is exactly as long as the server counts for its chunk. */
  lemma PieceLength<T>(file: seq<T>, index: nat, chunkSize: nat)
    ensures |Piece(file, index, chunkSize)| == ChunkLength(index, |file|, chunkSize)
  {
  }

  lemma TimesMonotone(a: int, b: int, c: nat)
    requires a <= b
    ensures a * c <= b * c
  {
  }

  lemma TimesSucc(n: nat, c: nat)
    ensures (n + 1) * c == n * c + c
  {
  }

  /** Exactly the chunks below the total hold bytes, except that an empty file has its one empty chunk. */
  lemma NonEmptyChunks(index: nat, fileSize: nat, chunkSize: nat)
    requires chunkSize > 0 && fileSize > 0
    ensures ChunkLength(index, fileSize, chunkSize) > 0 <==> index < TotalChunks(fileSize, chunkSize)
  {
    var n := CeilDiv(fileSize, chunkSize);
    if n <= 0 { TimesMonotone(n, 0, chunkSize); }
    if index < n { TimesMonotone(index, n - 1, chunkSize); } else { TimesMonotone(n, index, chunkSize); }
  }

  lemma NextPiece<T>(file: seq<T>, start: nat, chunkSize: nat)
    ensures file[..Min(|file|, start)] + BlobSlice(file, start, Min(|file|, start + chunkSize)) == file[..Min(|file|, start + chunkSize)]
  {
  }

  /** The first pieces are the file up to a multiple of the chunk size, clipped to its size. */
  lemma {:induction false} JoinedIsPrefix<T>(file: seq<T>, chunkSize: nat, n: nat)
    ensures Joined(file, chunkSize, n) == file[..Min(|file|, n * chunkSize)]
    ensures BytesBelow(|file|, chunkSize, n) == Min(|file|, n * chunkSize)
  {
    if n > 0 {
      JoinedIsPrefix(file, chunkSize, n - 1);
      var start := (n - 1) * chunkSize;
      assert n * chunkSize == start + chunkSize;
      NextPiece(file, start, chunkSize);
    }
  }

  /** The pieces of all chunks make up the file: nothing missing, repeated or out of order, and no byte miscounted. */
  lemma PiecesMakeFile<T>(file: seq<T>, chunkSize: nat)
    requires chunkSize > 0
    ensures Joined(file, chunkSize, TotalChunks(|file|, chunkSize)) == file
    ensures BytesBelow(|file|, chunkSize, TotalChunks(|file|, chunkSize)) == |file|
  {
    var n := TotalChunks(|file|, chunkSize);
    JoinedIsPrefix(file, chunkSize, n);
    TimesMonotone(CeilDiv(|file|, chunkSize), n, chunkSize);
  }
}
