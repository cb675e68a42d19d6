/**
 * Byte-range downloads of workflow assets: the Range header's start and
 * end, the check every download route makes on them, and the generator
 * that streams the requested slice of the asset file in chunks.
 *
 * The file is a byte sequence and an open file is that sequence with a
 * cursor. The generator's output is the sequence of chunks it yields.
 * The end of a range is exclusive here, as in the code: a range
 * `start`..`end` yields `end - start` bytes.
 */
module Assets {
  import opened Wrappers
  import Decimal

  type Bytes = seq<bv8>

  /** `_generate_file_slice`'s default chunk size. */
  const DefaultChunkSize: nat := 65536

  /** The byte that ends a line when a file is iterated line by line. */
  const Newline: bv8 := 10

  /** The two groups of a Range header's match: the start digits and the (possibly empty) end digits. */
  datatype RangeMatch = RangeMatch(group1: string, group2: string)

  /** A requested range; `end == -1` means "to the end of the file". */
  datatype ByteRange = ByteRange(start: int, end: int)

  datatype HttpError = HttpError(statusCode: int, detail: string)

  const InvalidRange := HttpError(400, "Invalid byte range")

  /** What the header's pattern guarantees of its groups: digits, and a non-empty start. */
  predicate WellFormedMatch(m: RangeMatch) {
    |m.group1| > 0 && Decimal.IsDigits(m.group1) && Decimal.IsDigits(m.group2)
  }

  function Min(a: int, b: int): int {
    if a < b then a else b
  }

  /** `_extract_byte_range`. */
  function ExtractByteRange(m: RangeMatch): (r: ByteRange)
    requires WellFormedMatch(m)
    ensures r.start >= 0
    ensures r.end == -1 <==> m.group2 == ""
    ensures r.end >= -1
  {
    var end := if m.group2 != "" then Decimal.ParseNat(m.group2) else -1;
    ByteRange(Decimal.ParseNat(m.group1), end)
  }

  /** The digits of a start and an optional end are read back as that start and end. */
  lemma ExtractFormattedRange(start: nat, end: Option<nat>)
    ensures var g2 := if end.Some? then Decimal.NatToString(end.value) else "";
            ExtractByteRange(RangeMatch(Decimal.NatToString(start), g2))
              == ByteRange(start, if end.Some? then end.value else -1)
  {
    Decimal.ParseNatToString(start);
    if end.Some? {
      Decimal.ParseNatToString(end.value);
    }
  }

  /**
   * The start of the three download routes: no Range header means the whole
   * file; a range whose end is before its start is refused with status 400.
   */
  function RequestedRange(range: Option<RangeMatch>): (r: Result<ByteRange, HttpError>)
    requires range.Some? ==> WellFormedMatch(range.value)
    ensures range.None? ==> r == Success(ByteRange(0, -1))
    ensures r.Failure? <==> range.Some? && 0 <= ExtractByteRange(range.value).end < ExtractByteRange(range.value).start
    ensures r.Failure? ==> r.error == InvalidRange
    ensures r.Success? ==> r.value.start >= 0 && (r.value.end == -1 || r.value.start <= r.value.end)
  {
    var b := if range.Some? then ExtractByteRange(range.value) else ByteRange(0, -1);
    if b.end >= 0 && b.end < b.start then Failure(InvalidRange) else Success(b)
  }

  /** An open file: its bytes and the cursor, which may lie beyond the end after a seek. */
  datatype OpenFile = OpenFile(data: Bytes, pos: nat)

  /** `f.read(n)`: up to `n` bytes from the cursor, or all the rest when `n` is negative. */
  function Read(f: OpenFile, n: int): (res: (Bytes, OpenFile))
    ensures res.1.data == f.data && res.1.pos == f.pos + |res.0|
    ensures n >= 0 ==> |res.0| <= n
    ensures n >= 0 && f.pos + n <= |f.data| ==> |res.0| == n
    ensures res.0 == f.data[Min(f.pos, |f.data|)..if n < 0 then |f.data| else Min(f.pos + n, |f.data|)]
  {
    var from := Min(f.pos, |f.data|);
    var to := if n < 0 then |f.data| else Min(f.pos + n, |f.data|);
    (f.data[from..to], OpenFile(f.data, f.pos + (to - from)))
  }

  /** The index just past the first newline at or after `i`, or the end of `d`. */
  function LineEnd(d: Bytes, i: nat): (r: nat)
    requires i <= |d|
    ensures i <= r <= |d|
    ensures i < |d| ==> i < r
    ensures forall k :: i <= k < r - 1 ==> d[k] != Newline
    ensures r == |d| || d[r - 1] == Newline
    decreases |d| - i
  {
    if i == |d| then i
    else if d[i] == Newline then i + 1
    else LineEnd(d, i + 1)
  }

  /** One step of `for chunk in f`: the next line, with its newline if it has one. */
  function ReadLine(f: OpenFile): (res: (Bytes, OpenFile))
    ensures res.1.data == f.data && res.1.pos == f.pos + |res.0|
    ensures f.pos < |f.data| ==>
      && res.1.pos <= |f.data|
      && res.0 == f.data[f.pos..res.1.pos]
      && IsLine(res.0)
      && (res.1.pos < |f.data| ==> EndsWithNewline(res.0))
  {
    var from := Min(f.pos, |f.data|);
    var to := LineEnd(f.data, from);
    (f.data[from..to], OpenFile(f.data, f.pos + (to - from)))
  }

  lemma SliceJoin(s: Bytes, a: nat, b: nat, c: nat)
    requires a <= b <= c <= |s|
    ensures s[a..b] + s[b..c] == s[a..c]
  {
  }

  /** The bytes of all chunks, in order. */
  function Concat(chunks: seq<Bytes>): Bytes {
    if chunks == [] then [] else Concat(chunks[..|chunks| - 1]) + chunks[|chunks| - 1]
  }

  function Sum(xs: seq<int>): int {
    if xs == [] then 0 else Sum(xs[..|xs| - 1]) + xs[|xs| - 1]
  }

  /** A line as line iteration yields it: non-empty, with a newline at most as its last byte. */
  predicate IsLine(c: Bytes) {
    |c| > 0 && forall k :: 0 <= k < |c| - 1 ==> c[k] != Newline
  }

  predicate EndsWithNewline(c: Bytes) {
    |c| > 0 && c[|c| - 1] == Newline
  }

  /** Chunks as line iteration yields them: lines, every one but the last ending in a newline. */
  predicate LineChunks(chunks: seq<Bytes>) {
    && (forall i :: 0 <= i < |chunks| ==> IsLine(chunks[i]))
    && (forall i :: 0 <= i < |chunks| - 1 ==> EndsWithNewline(chunks[i]))
  }

  lemma ConcatAppend(chunks: seq<Bytes>, c: Bytes)
    ensures Concat(chunks + [c]) == Concat(chunks) + c
  {
    assert (chunks + [c])[..|chunks|] == chunks;
  }

  lemma SumAppend(xs: seq<int>, x: int)
    ensures Sum(xs + [x]) == Sum(xs) + x
  {
    assert (xs + [x])[..|xs|] == xs;
  }

  lemma LineChunksAppend(chunks: seq<Bytes>, c: Bytes)
    requires LineChunks(chunks)
    requires |chunks| > 0 ==> EndsWithNewline(chunks[|chunks| - 1])
    requires IsLine(c)
    ensures LineChunks(chunks + [c])
  {
  }

  /** The `end < 0` branch of `_generate_file_slice`: the file from the cursor on, line by line. */
  method IterateLines(file: Bytes, startByte: nat) returns (chunks: seq<Bytes>)
    ensures Concat(chunks) == file[Min(startByte, |file|)..]
    ensures LineChunks(chunks)
  {
    var f := OpenFile(file, startByte);
    chunks := [];
    while f.pos < |file|
      invariant f.data == file && f.pos >= startByte
      invariant Concat(chunks) == file[Min(startByte, |file|)..Min(f.pos, |file|)]
      invariant LineChunks(chunks)
      invariant |chunks| > 0 && f.pos < |file| ==> EndsWithNewline(chunks[|chunks| - 1])
      decreases |file| - f.pos
    {
      var step := ReadLine(f);
      LineChunksAppend(chunks, step.0);
      ConcatAppend(chunks, step.0);
      SliceJoin(file, Min(startByte, |file|), f.pos, step.1.pos);
      f := step.1;
      chunks := chunks + [step.0];
    }
  }

  /** Chunks that each hold as many bytes as their read asked for. */
  predicate FullReads(chunks: seq<Bytes>, requests: seq<int>) {
    |chunks| == |requests| && forall i :: 0 <= i < |chunks| ==> |chunks[i]| == requests[i]
  }

  lemma FullReadsAppend(chunks: seq<Bytes>, requests: seq<int>, c: Bytes)
    requires FullReads(chunks, requests)
    ensures FullReads(chunks + [c], requests + [|c|])
  {
  }

  /**
   * One sized read keeps the cursor in step with `byte_pos` (they agree up
   * to the end of the file) and extends the bytes read so far.
   */
  lemma ReadStep(f: OpenFile, from: nat, bytePos: int, n: nat)
    requires Min(f.pos, |f.data|) == Min(bytePos, |f.data|)
    requires from <= bytePos
    ensures var step := Read(f, n);
      && Min(step.1.pos, |f.data|) == Min(bytePos + n, |f.data|)
      && f.data[Min(from, |f.data|)..Min(bytePos, |f.data|)] + step.0
         == f.data[Min(from, |f.data|)..Min(bytePos + n, |f.data|)]
  {
    SliceJoin(f.data, Min(from, |f.data|), Min(bytePos, |f.data|), Min(bytePos + n, |f.data|));
  }

  /**
   * Where the sized-read loop stands: `byte_pos` and the cursor agree up to
   * the end of the file, every read so far asked for `chunkSize` bytes, and
   * the chunks hold the file from `startByte` up to `byte_pos`.
   */
  ghost predicate SliceProgress(file: Bytes, startByte: nat, endByte: nat, chunkSize: nat,
                                f: OpenFile, bytePos: int, chunks: seq<Bytes>, requests: seq<int>)
  {
    && f.data == file && startByte <= bytePos
    && (bytePos == startByte || bytePos < endByte)
    && Min(f.pos, |file|) == Min(bytePos, |file|)
    && |requests| == |chunks| && Sum(requests) == bytePos - startByte
    && (forall i :: 0 <= i < |requests| ==> requests[i] == chunkSize)
    && Concat(chunks) == file[Min(startByte, |file|)..Min(bytePos, |file|)]
    && (endByte <= |file| ==> f.pos == bytePos && FullReads(chunks, requests))
  }

  /** One turn of the loop: a read of `chunkSize` bytes keeps the loop's progress. */
  lemma SliceStep(file: Bytes, startByte: nat, endByte: nat, chunkSize: nat,
                  f: OpenFile, bytePos: int, chunks: seq<Bytes>, requests: seq<int>)
    requires SliceProgress(file, startByte, endByte, chunkSize, f, bytePos, chunks, requests)
    requires bytePos + chunkSize < endByte
    ensures var step := Read(f, chunkSize);
      SliceProgress(file, startByte, endByte, chunkSize, step.1, bytePos + chunkSize,
                    chunks + [step.0], requests + [chunkSize])
  {
    var step := Read(f, chunkSize);
    ReadStep(f, startByte, bytePos, chunkSize);
    if endByte <= |file| {
      FullReadsAppend(chunks, requests, step.0);
    }
    ConcatAppend(chunks, step.0);
    SumAppend(requests, chunkSize);
  }

  /** The read after the loop completes the slice up to `endByte`. */
  lemma SliceLast(file: Bytes, startByte: nat, endByte: nat, chunkSize: nat,
                  f: OpenFile, bytePos: int, chunks: seq<Bytes>, requests: seq<int>)
    requires chunkSize > 0
    requires SliceProgress(file, startByte, endByte, chunkSize, f, bytePos, chunks, requests)
    requires bytePos + chunkSize >= endByte
    ensures var last := Read(f, endByte - bytePos);
      var cs := chunks + [last.0];
      var rs := requests + [endByte - bytePos];
      && |rs| == |cs| > 0 && Sum(rs) == endByte - startByte
      && (endByte >= startByte ==> Concat(cs) == file[Min(startByte, |file|)..Min(endByte, |file|)])
      && (endByte >= startByte ==>
            && (forall i :: 0 <= i < |rs| - 1 ==> rs[i] == chunkSize)
            && 0 <= rs[|rs| - 1] <= chunkSize)
      && (startByte <= endByte <= |file| ==> FullReads(cs, rs))
      && (endByte < startByte ==> Concat(cs) == file[Min(startByte, |file|)..])
  {
    var last := Read(f, endByte - bytePos);
    if startByte <= endByte <= |file| {
      FullReadsAppend(chunks, requests, last.0);
    }
    ConcatAppend(chunks, last.0);
    SumAppend(requests, endByte - bytePos);
    if endByte >= startByte {
      ReadStep(f, startByte, bytePos, endByte - bytePos);
    }
  }

  /**
   * The `end >= 0` branch of `_generate_file_slice`: reads of `chunkSize`
   * bytes while a whole chunk still ends before `endByte`, then one read of
   * what is left up to `endByte`. `requests` are the sizes passed to `read`.
   */
  method ReadRange(file: Bytes, startByte: nat, endByte: nat, chunkSize: nat)
    returns (chunks: seq<Bytes>, requests: seq<int>)
    requires chunkSize > 0
    ensures |requests| == |chunks| > 0 && Sum(requests) == endByte - startByte
    ensures endByte >= startByte ==> Concat(chunks) == file[Min(startByte, |file|)..Min(endByte, |file|)]
    ensures endByte >= startByte ==>
      && (forall i :: 0 <= i < |requests| - 1 ==> requests[i] == chunkSize)
      && 0 <= requests[|requests| - 1] <= chunkSize
    ensures startByte <= endByte <= |file| ==> FullReads(chunks, requests)
    ensures endByte < startByte ==> Concat(chunks) == file[Min(startByte, |file|)..]
  {
    var f := OpenFile(file, startByte);
    chunks, requests := [], [];
    var bytePos: int := startByte;
    while bytePos + chunkSize < endByte
      invariant SliceProgress(file, startByte, endByte, chunkSize, f, bytePos, chunks, requests)
      decreases endByte - bytePos
    {
      SliceStep(file, startByte, endByte, chunkSize, f, bytePos, chunks, requests);
      var step := Read(f, chunkSize);
      bytePos := bytePos + chunkSize;
      f := step.1;
      chunks, requests := chunks + [step.0], requests + [chunkSize];
    }
    SliceLast(file, startByte, endByte, chunkSize, f, bytePos, chunks, requests);
    var last := Read(f, endByte - bytePos);
    chunks, requests := chunks + [last.0], requests + [endByte - bytePos];
  }


  /**
   * `_generate_file_slice`: `chunks` are the yielded chunks and `requests`
   * the sizes passed to each `read` (none when the file is read line by line).
   */
  method GenerateFileSlice(file: Bytes, startByte: nat, endByte: int, chunkSize: nat := DefaultChunkSize)
    returns (chunks: seq<Bytes>, requests: seq<int>)
    requires chunkSize > 0
    ensures endByte < 0 ==> Concat(chunks) == file[Min(startByte, |file|)..] && LineChunks(chunks) && requests == []
    ensures endByte >= 0 ==> |requests| == |chunks| > 0 && Sum(requests) == endByte - startByte
    ensures endByte >= startByte ==> Concat(chunks) == file[Min(startByte, |file|)..Min(endByte, |file|)]
    ensures endByte >= startByte ==>
      && (forall i :: 0 <= i < |requests| - 1 ==> requests[i] == chunkSize)
      && 0 <= requests[|requests| - 1] <= chunkSize
    ensures startByte <= endByte <= |file| ==> forall i :: 0 <= i < |chunks| ==> |chunks[i]| == requests[i]
    ensures 0 <= endByte < startByte ==> Concat(chunks) == file[Min(startByte, |file|)..]
  {
    if endByte < 0 {
      chunks := IterateLines(file, startByte);
      requests := [];
    } else {
      chunks, requests := ReadRange(file, startByte, endByte, chunkSize);
    }
  }

  /**
   * A download route from the Range header to the streamed chunks: an
   * invalid range is refused before the file is read; otherwise the chunks
   * hold exactly the requested bytes.
   */
  method ServeAssetSlice(range: Option<RangeMatch>, file: Bytes) returns (r: Result<seq<Bytes>, HttpError>)
    requires range.Some? ==> WellFormedMatch(range.value)
    ensures r.Failure? <==> RequestedRange(range).Failure?
    ensures r.Failure? ==> r.error == InvalidRange
    ensures r.Success? ==>
      var b := RequestedRange(range).value;
      Concat(r.value) == if b.end < 0 then file[Min(b.start, |file|)..]
                         else file[Min(b.start, |file|)..Min(b.end, |file|)]
  {
    match RequestedRange(range)
    case Failure(e) =>
      r := Failure(e);
    case Success(b) =>
      var chunks, _ := GenerateFileSlice(file, b.start, b.end);
      r := Success(chunks);
  }
}
