/**
 Hex text and byte buffers: the encoder and the chunked reader of frontend/components/ContentHashCalculator.tsx, and the
 decoder and the PCR check of frontend/services/teeAttestationService.ts.
 */
module Codec {
  import opened Wrappers
  import Chunks

  type Byte = b: nat | b < 256

  /** A JavaScript string is a sequence of UTF-16 code units. */
  type CodeUnit = u: nat | u < 0x10000
  type Text = seq<CodeUnit>

  // ---------------------------------------------------------------------------------------------
  // Characters
  // ---------------------------------------------------------------------------------------------

  predicate IsDecimal(c: CodeUnit) { 48 <= c <= 57 }

  predicate IsUpperHex(c: CodeUnit) { 65 <= c <= 70 }

  predicate IsLowerHex(c: CodeUnit) { 97 <= c <= 102 }

  predicate IsHex(c: CodeUnit) { IsDecimal(c) || IsUpperHex(c) || IsLowerHex(c) }

  function HexValue(c: CodeUnit): (v: int)
    requires IsHex(c)
    ensures 0 <= v < 16
  {
    if IsDecimal(c) then c - 48 else if IsUpperHex(c) then c - 55 else c - 87
  }

  function HexDigit(v: nat): CodeUnit
    requires v < 16
  {
    if v < 10 then 48 + v else 87 + v
  }

  /** What `\s` matches. */
  predicate IsSpace(c: CodeUnit) {
    || 9 <= c <= 13 || c == 32 || c == 0xA0 || c == 0x1680 || 0x2000 <= c <= 0x200A
    || c == 0x2028 || c == 0x2029 || c == 0x202F || c == 0x205F || c == 0x3000 || c == 0xFEFF
  }

  function LowerUnit(c: CodeUnit): CodeUnit { if 65 <= c <= 90 then c + 32 else c }

  function Lower(s: Text): (r: Text)
    ensures |r| == |s| && forall i :: 0 <= i < |s| ==> r[i] == LowerUnit(s[i])
  {
    seq(|s|, i requires 0 <= i < |s| => LowerUnit(s[i]))
  }

  /** `replace(/\s/g, "")`. */
  function Strip(s: Text): Text {
    if s == [] then [] else (if IsSpace(s[0]) then [] else [s[0]]) + Strip(s[1..])
  }

  predicate AllHex(s: Text) { forall i :: 0 <= i < |s| ==> IsHex(s[i]) }

  predicate AllSpace(s: Text) { forall i :: 0 <= i < |s| ==> IsSpace(s[i]) }

  predicate NoSpace(s: Text) { forall i :: 0 <= i < |s| ==> !IsSpace(s[i]) }

  lemma {:induction false} StripConcat(a: Text, b: Text)
    ensures Strip(a + b) == Strip(a) + Strip(b)
  {
    if a == [] {
      assert a + b == b;
    } else {
      assert (a + b)[1..] == a[1..] + b;
      StripConcat(a[1..], b);
    }
  }

  lemma {:induction false} StripKeepsClean(s: Text)
    requires NoSpace(s)
    ensures Strip(s) == s
  {
    if s != [] { StripKeepsClean(s[1..]); }
  }

  lemma {:induction false} StripDropsSpace(s: Text)
    requires AllSpace(s)
    ensures Strip(s) == []
  {
    if s != [] { StripDropsSpace(s[1..]); }
  }

  lemma {:induction false} StripIsClean(s: Text)
    ensures NoSpace(Strip(s))
  {
    if s != [] { StripIsClean(s[1..]); }
  }

  lemma {:induction false} LowerStrip(s: Text)
    ensures Strip(Lower(s)) == Lower(Strip(s))
  {
    if s != [] {
      assert Lower(s)[1..] == Lower(s[1..]);
      LowerStrip(s[1..]);
    }
  }

  // ---------------------------------------------------------------------------------------------
  // Encoding
  // ---------------------------------------------------------------------------------------------

  /** `b.toString(16)`. */
  function ToString16(n: nat): Text {
    if n < 16 then [HexDigit(n)] else ToString16(n / 16) + [HexDigit(n % 16)]
  }

  /** `padStart(2, "0")`. */
  function PadStart2(s: Text): Text {
    if |s| == 0 then [48, 48] else if |s| == 1 then [48] + s else s
  }

  function Encode(bytes: seq<Byte>): Text {
    if bytes == [] then [] else PadStart2(ToString16(bytes[0])) + Encode(bytes[1..])
  }

  lemma TwoDigits(b: Byte)
    ensures PadStart2(ToString16(b)) == [HexDigit(b / 16), HexDigit(b % 16)]
  {
  }

  /** Two lower-case digits for each byte, the high half first. */
  lemma {:induction false} EncodeAt(bytes: seq<Byte>, i: nat)
    requires i < |bytes|
    ensures |Encode(bytes)| == 2 * |bytes|
    ensures Encode(bytes)[2 * i] == HexDigit(bytes[i] / 16)
    ensures Encode(bytes)[2 * i + 1] == HexDigit(bytes[i] % 16)
  {
    TwoDigits(bytes[0]);
    if |bytes| > 1 { EncodeAt(bytes[1..], if i > 0 then i - 1 else 0); }
  }

  lemma EncodeUnits(bytes: seq<Byte>)
    ensures |Encode(bytes)| == 2 * |bytes|
    ensures forall k :: 0 <= k < |Encode(bytes)| ==> IsDecimal(Encode(bytes)[k]) || IsLowerHex(Encode(bytes)[k])
  {
    if bytes != [] { EncodeAt(bytes, 0); }
    forall k | 0 <= k < |Encode(bytes)| ensures IsDecimal(Encode(bytes)[k]) || IsLowerHex(Encode(bytes)[k]) {
      EncodeAt(bytes, k / 2);
    }
  }

  // ---------------------------------------------------------------------------------------------
  // Decoding
  // ---------------------------------------------------------------------------------------------

  const PLUS: CodeUnit := 43
  const MINUS: CodeUnit := 45

  /**
   `parseInt` in base 16 of two code units that are not white space; `None` is `NaN`. A sign may come first, the longest
   run of digits counts, and the prefix `0x` leaves nothing to read.
   */
  function ParseInt16(a: CodeUnit, b: CodeUnit): Option<int> {
    if a == PLUS || a == MINUS then
      (if IsHex(b) then Some(if a == MINUS then -HexValue(b) else HexValue(b)) else None)
    else if a == 48 && (b == 88 || b == 120) then None
    else if !IsHex(a) then None
    else if !IsHex(b) then Some(HexValue(a))
    else Some(16 * HexValue(a) + HexValue(b))
  }

  /** Storing a number into a `Uint8Array` element: `NaN` becomes 0, integers are taken modulo 256. */
  function ToUint8(n: Option<int>): Byte {
    match n
    case None => 0
    case Some(v) => v % 256
  }

  /** A last unpaired unit is dropped: `new Uint8Array(n / 2)` rounds its length down. */
  function DecodeClean(clean: Text): (r: seq<Byte>)
    ensures |r| == |clean| / 2
  {
    seq(|clean| / 2, i requires 0 <= i < |clean| / 2 => ToUint8(ParseInt16(clean[2 * i], clean[2 * i + 1])))
  }

  function Decode(hex: Text): seq<Byte> { DecodeClean(Strip(hex)) }

  lemma StripNext(s: Text, i: nat)
    requires i < |s|
    ensures Strip(s[i..]) == (if IsSpace(s[i]) then [] else [s[i]]) + Strip(s[i + 1..])
  {
  }

  method StripLoop(s: Text) returns (clean: Text)
    ensures clean == Strip(s)
  {
    StripKeepsClean([]);
    hide Strip, IsSpace;
    clean := [];
    var i := 0;
    assert s[0..] == s;
    while i < |s|
      invariant 0 <= i <= |s|
      invariant Strip(s) == clean + Strip(s[i..])
    {
      StripNext(s, i);
      if !IsSpace(s[i]) { clean := clean + [s[i]]; }
      i := i + 1;
    }
    assert s[i..] == [];
  }

  /** `toBytes`: the array is as long as the spec says, and every element is written. */
  method ToBytes(hex: Text) returns (arr: array<Byte>)
    ensures fresh(arr)
    ensures arr[..] == Decode(hex)
  {
    var clean := StripLoop(hex);
    arr := new Byte[|clean| / 2](_ => 0);
    var i := 0;
    while i < arr.Length
      invariant 0 <= i <= arr.Length
      invariant forall k :: 0 <= k < i ==> arr[k] == DecodeClean(clean)[k]
    {
      arr[i] := ToUint8(ParseInt16(clean[2 * i], clean[2 * i + 1]));
      i := i + 1;
    }
  }

  lemma PairRoundTrip(b: Byte)
    ensures ToUint8(ParseInt16(HexDigit(b / 16), HexDigit(b % 16))) == b
  {
  }

  /** Decoding what was printed, however it was broken up by white space, gives the bytes back. */
  lemma DecodeEncode(bytes: seq<Byte>, hex: Text)
    requires Strip(hex) == Encode(bytes)
    ensures Decode(hex) == bytes
  {
    EncodeUnits(bytes);
    forall i | 0 <= i < |bytes| ensures Decode(hex)[i] == bytes[i] {
      EncodeAt(bytes, i);
      PairRoundTrip(bytes[i]);
    }
  }

  lemma EncodedIsClean(bytes: seq<Byte>)
    ensures Strip(Encode(bytes)) == Encode(bytes)
  {
    EncodeUnits(bytes);
    StripKeepsClean(Encode(bytes));
  }

  lemma RoundTrip(bytes: seq<Byte>)
    ensures Decode(Encode(bytes)) == bytes
  {
    EncodedIsClean(bytes);
    DecodeEncode(bytes, Encode(bytes));
  }

  /** White space inserted at any place changes nothing, even between the two digits of a byte. */
  lemma SpacesDoNotMatter(before: Text, spaces: Text, after: Text)
    requires AllSpace(spaces)
    ensures Decode(before + spaces + after) == Decode(before + after)
  {
    StripConcat(before + spaces, after);
    StripConcat(before, spaces);
    StripDropsSpace(spaces);
    StripConcat(before, after);
  }

  predicate IsHexText(hex: Text) { |Strip(hex)| % 2 == 0 && AllHex(Strip(hex)) }

  lemma PairCanonical(a: CodeUnit, b: CodeUnit)
    requires IsHex(a) && IsHex(b)
    ensures var v := ToUint8(ParseInt16(a, b)); HexDigit(v / 16) == LowerUnit(a) && HexDigit(v % 16) == LowerUnit(b)
  {
    var x, y := HexValue(a), HexValue(b);
    assert ToUint8(ParseInt16(a, b)) == 16 * x + y;
    assert (16 * x + y) / 16 == x && (16 * x + y) % 16 == y;
  }

  lemma CanonicalAt(hex: Text, k: nat)
    requires IsHexText(hex) && k < |Strip(hex)|
    ensures k < |Encode(Decode(hex))| && Encode(Decode(hex))[k] == Lower(Strip(hex))[k]
  {
    hide Encode, Strip, ParseInt16, ToUint8, HexDigit, LowerUnit, IsHex;
    var clean, bytes, i := Strip(hex), Decode(hex), k / 2;
    EncodeAt(bytes, i);
    PairCanonical(clean[2 * i], clean[2 * i + 1]);
    assert k == 2 * i || k == 2 * i + 1;
  }

  /**
   Encoding again gives the lower-case text without white space exactly when there are only digits and an even number of
   them; `parseInt` never fails, so any other text decodes to bytes that print differently.
   */
  lemma EncodeDecode(hex: Text)
    ensures Encode(Decode(hex)) == Lower(Strip(hex)) <==> IsHexText(hex)
  {
    hide Encode, Strip, ParseInt16, ToUint8;
    var clean, bytes := Strip(hex), Decode(hex);
    EncodeUnits(bytes);
    if IsHexText(hex) {
      forall k | 0 <= k < |clean| ensures Encode(bytes)[k] == Lower(clean)[k] {
        CanonicalAt(hex, k);
      }
    }
    if Encode(bytes) == Lower(clean) {
      forall k | 0 <= k < |clean| ensures IsHex(clean[k]) {
        assert Lower(clean)[k] == Encode(bytes)[k];
      }
    }
  }

  /** A minus sign is taken for part of a byte and letters outside the alphabet read as zero. */
  lemma NotHexStillDecodes()
    ensures Decode([45, 97]) == [246] && Decode([122, 122]) == [0] && Decode([97, 122]) == [10] && Decode([102]) == []
  {
  }

  // ---------------------------------------------------------------------------------------------
  // The PCR allow-list
  // ---------------------------------------------------------------------------------------------

  datatype PcrResult = Missing | NotApproved | Approved(normalized: Text)

  function Normalize(hash: Text): Text { Strip(Lower(hash)) }

  /** `validatePcr`; an absent and an empty register are both falsy. */
  function ValidatePcr(pcr0: Option<Text>, approved: seq<Text>): PcrResult {
    if pcr0.None? || pcr0.value == [] then Missing
    else if exists i :: 0 <= i < |approved| && Normalize(approved[i]) == Normalize(pcr0.value)
    then Approved(Normalize(pcr0.value))
    else NotApproved
  }

  lemma SameHashSameBytes(a: Text, b: Text)
    requires IsHexText(a) && IsHexText(b)
    ensures Normalize(a) == Normalize(b) <==> Decode(a) == Decode(b)
  {
    LowerStrip(a);
    LowerStrip(b);
    EncodeDecode(a);
    EncodeDecode(b);
    if Normalize(a) == Normalize(b) {
      RoundTrip(Decode(a));
      RoundTrip(Decode(b));
    }
  }

  /** Comparing normalized text is comparing bytes: an image is approved when its PCR0 is some approved hash, and the result prints it. */
  lemma ApprovalComparesBytes(pcr0: Text, approved: seq<Text>)
    requires pcr0 != [] && IsHexText(pcr0)
    requires forall i :: 0 <= i < |approved| ==> IsHexText(approved[i])
    ensures ValidatePcr(Some(pcr0), approved) ==
            if exists i :: 0 <= i < |approved| && Decode(approved[i]) == Decode(pcr0) then Approved(Encode(Decode(pcr0)))
            else NotApproved
  {
    forall i | 0 <= i < |approved|
      ensures Normalize(approved[i]) == Normalize(pcr0) <==> Decode(approved[i]) == Decode(pcr0)
    {
      SameHashSameBytes(approved[i], pcr0);
    }
    LowerStrip(pcr0);
    EncodeDecode(pcr0);
  }

  // ---------------------------------------------------------------------------------------------
  // Reading a file in chunks
  // ---------------------------------------------------------------------------------------------

  function Flatten(chunks: seq<seq<Byte>>): seq<Byte> {
    if chunks == [] then [] else Flatten(chunks[..|chunks| - 1]) + chunks[|chunks| - 1]
  }

  lemma {:induction false} FlattenGrows(chunks: seq<seq<Byte>>, n: nat)
    requires n <= |chunks|
    ensures |Flatten(chunks[..n])| <= |Flatten(chunks)|
    decreases |chunks| - n
  {
    if n < |chunks| {
      assert chunks[..n + 1][..n] == chunks[..n];
      FlattenGrows(chunks, n + 1);
    } else {
      assert chunks[..n] == chunks;
    }
  }

  /** `result.set(chunk, offset)`. */
  method SetAt(result: array<Byte>, chunk: seq<Byte>, offset: nat)
    requires offset + |chunk| <= result.Length
    modifies result
    ensures result[..] == old(result[..offset]) + chunk + old(result[offset + |chunk|..])
  {
    forall k | 0 <= k < |chunk| { result[offset + k] := chunk[k]; }
  }

  function Zeros(n: nat): seq<Byte> { seq(n, _ => 0) }

  /** `mergeChunks`; `None` is the `RangeError` of `set` when the chunks hold more than `totalBytes`. */
  method MergeChunks(chunks: seq<seq<Byte>>, totalBytes: nat) returns (merged: Option<array<Byte>>)
    ensures merged.Some? <==> |Flatten(chunks)| <= totalBytes
    ensures merged.Some? ==> fresh(merged.value)
    ensures merged.Some? ==> merged.value[..] == Flatten(chunks) + Zeros(totalBytes - |Flatten(chunks)|)
  {
    var result := new Byte[totalBytes](_ => 0);
    var offset, i := 0, 0;
    while i < |chunks|
      invariant 0 <= i <= |chunks|
      invariant offset == |Flatten(chunks[..i])| <= totalBytes
      invariant result[..] == Flatten(chunks[..i]) + Zeros(totalBytes - offset)
    {
      assert chunks[..i + 1][..i] == chunks[..i];
      FlattenGrows(chunks, i + 1);
      if offset + |chunks[i]| > totalBytes {
        return None;
      }
      SetAt(result, chunks[i], offset);
      offset := offset + |chunks[i]|;
      i := i + 1;
    }
    assert chunks[..i] == chunks;
    return Some(result);
  }

  const CHUNK_SIZE: nat := 2 * 1024 * 1024

  lemma FlattenSnoc(chunks: seq<seq<Byte>>, chunk: seq<Byte>)
    ensures Flatten(chunks + [chunk]) == Flatten(chunks) + chunk
  {
  }

  /** Where the reader stands after `n` chunks. */
  function Position(size: nat, n: nat): nat { Chunks.Min(size, n * CHUNK_SIZE) }

  lemma NextPosition(file: seq<Byte>, n: nat)
    requires Position(|file|, n) < |file|
    ensures Position(|file|, n + 1) == Chunks.Min(Position(|file|, n) + CHUNK_SIZE, |file|)
    ensures var start, end := Position(|file|, n), Position(|file|, n + 1);
            start < end && file[..start] + Chunks.BlobSlice(file, start, end) == file[..end]
  {
  }

  /** The reader is through after as many chunks as the file has. */
  lemma LastPosition(size: nat, n: nat)
    requires n > 0 && Position(size, n - 1) < size == Position(size, n)
    ensures n == Chunks.TotalChunks(size, CHUNK_SIZE)
  {
  }

  /**
   `calculateHash` for SHA-512: what is hashed is the file, whatever its size, and the progress goes up with every chunk
   until all bytes are loaded.
   */
  method CalculateHash(file: seq<Byte>, sha512: seq<Byte> -> seq<Byte>) returns (hex: Text, progress: seq<nat>)
    ensures hex == Encode(sha512(file))
    ensures |progress| == if file == [] then 0 else Chunks.TotalChunks(|file|, CHUNK_SIZE)
    ensures forall i :: 0 <= i < |progress| ==> progress[i] == Position(|file|, i + 1)
    ensures progress != [] ==> progress[|progress| - 1] == |file|
  {
    progress := [];
    if |file| == 0 {
      return Encode(sha512([])), [];
    }
    hide Position, Encode, Chunks.TotalChunks, Chunks.BlobSlice;
    assert Position(|file|, 0) == 0 by { ZeroPosition(|file|); }
    var chunks, loaded, offset := [], 0, 0;
    while offset < |file|
      invariant offset == Position(|file|, |chunks|) == loaded <= |file|
      invariant Flatten(chunks) == file[..offset]
      invariant |progress| == |chunks|
      invariant forall i :: 0 <= i < |progress| ==> progress[i] == Position(|file|, i + 1)
      invariant |chunks| > 0 ==> Position(|file|, |chunks| - 1) < |file|
    {
      NextPosition(file, |chunks|);
      var end := Chunks.Min(offset + CHUNK_SIZE, |file|);
      var piece := Chunks.BlobSlice(file, offset, end);
      FlattenSnoc(chunks, piece);
      chunks := chunks + [piece];
      loaded := loaded + (end - offset);
      offset := end;
      progress := progress + [loaded];
    }
    LastPosition(|file|, |chunks|);
    var combined := MergeChunks(chunks, |file|);
    assert Zeros(0) == [];
    assert combined.value[..] == file;
    hex := Encode(sha512(combined.value[..]));
  }

  lemma ZeroPosition(size: nat)
    ensures Position(size, 0) == 0
  {
  }
}
