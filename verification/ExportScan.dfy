// The export file is one id per line. A job reads one batch of lines from a byte offset and hands the next offset to
// its continuation; this module relates the chain of batches to a single pass over the file.
module ExportScan {
  import opened JobQueue
  import opened Text
  import opened Utf8
  import opened Widths

  const BATCH_SIZE: nat := 500
  const NEWLINE: byte := 10

  /** `retry("export_storage")` and `dead_letter("invalid_payload")` */
  datatype Error = ExportStorage | InvalidPayload

  datatype Result<+T> = Ok(value: T) | Err(error: Error)

  datatype Batch = Batch(ids: seq<nat>, nextOffset: nat, finished: bool)

  // ---- one line -----------------------------------------------------------------------------------

  /** One turn of the loop: `read_line` refuses bytes that are not UTF-8, and the id must be positive. */
  function ParseLine(line: seq<byte>): Result<nat> {
    match Decode(line)
    case None => Err(ExportStorage)
    case Some(text) =>
      match ParseUnsigned(Trim(text), U64_MAX)
      case None => Err(InvalidPayload)
      case Some(id) => if id > 0 then Ok(id) else Err(InvalidPayload)
  }

  // ---- the simple form: split the file into lines, then parse them in order -----------------------

  /** The length of the first line, with its newline when it has one. */
  function LineLength(b: seq<byte>): (n: nat)
    requires b != []
    ensures 1 <= n <= |b|
    ensures forall i :: 0 <= i < n - 1 ==> b[i] != NEWLINE
    ensures b[n - 1] == NEWLINE || n == |b|
  {
    if b[0] == NEWLINE || |b| == 1 then 1 else 1 + LineLength(b[1..])
  }

  function Lines(b: seq<byte>): seq<seq<byte>>
    decreases |b|
  {
    if b == [] then [] else [b[..LineLength(b)]] + Lines(b[LineLength(b)..])
  }

  /** The lines are the file: nothing is lost. */
  lemma {:induction false} LinesPartitionTheFile(b: seq<byte>)
    ensures Flatten(Lines(b)) == b
    decreases |b|
  {
    hide LineLength;
    if b != [] {
      var n := LineLength(b);
      LinesPartitionTheFile(b[n..]);
      assert Lines(b)[1..] == Lines(b[n..]);
      assert b == b[..n] + b[n..];
    }
  }

  /** Not empty, and without a newline except possibly at its end. */
  predicate OneLine(line: seq<byte>) {
    line != [] && forall k :: 0 <= k < |line| - 1 ==> line[k] != NEWLINE
  }

  /** Each line but the last ends at its only newline. */
  lemma {:induction false} LinesAreLines(b: seq<byte>)
    ensures forall i :: 0 <= i < |Lines(b)| ==> OneLine(Lines(b)[i])
    ensures forall i :: 0 <= i < |Lines(b)| - 1 ==> Lines(b)[i] != [] && Lines(b)[i][|Lines(b)[i]| - 1] == NEWLINE
    decreases |b|
  {
    hide LineLength;
    if b != [] {
      var n := LineLength(b);
      LinesAreLines(b[n..]);
      var rest := Lines(b[n..]);
      assert OneLine(b[..n]);
      assert rest == [] <==> n == |b|;
    }
  }

  /** What reading stopped at the first bad line has produced, and whether there was one. */
  datatype Scan = Scan(ids: seq<nat>, failure: Option<Error>)

  function ParseAll(lines: seq<seq<byte>>): (r: Scan)
    ensures |r.ids| <= |lines| && (r.failure.None? ==> |r.ids| == |lines|)
  {
    if lines == [] then Scan([], None)
    else
      match ParseLine(lines[0])
      case Err(e) => Scan([], Some(e))
      case Ok(id) =>
        var rest := ParseAll(lines[1..]);
        Scan([id] + rest.ids, rest.failure)
  }

  function OnePass(file: seq<byte>): Scan {
    ParseAll(Lines(file))
  }

  lemma {:induction false} ParseAllConcat(a: seq<seq<byte>>, b: seq<seq<byte>>)
    ensures ParseAll(a + b) ==
            if ParseAll(a).failure.Some? then ParseAll(a)
            else Scan(ParseAll(a).ids + ParseAll(b).ids, ParseAll(b).failure)
  {
    hide ParseLine;
    if a == [] {
      assert a + b == b;
      assert [] + ParseAll(b).ids == ParseAll(b).ids;
    } else {
      assert (a + b)[1..] == a[1..] + b;
      ParseAllConcat(a[1..], b);
      if ParseLine(a[0]).Ok? && ParseAll(a[1..]).failure.None? {
        var id := ParseLine(a[0]).value;
        assert [id] + (ParseAll(a[1..]).ids + ParseAll(b).ids) == ([id] + ParseAll(a[1..]).ids) + ParseAll(b).ids;
      }
    }
  }

  // ---- one batch ----------------------------------------------------------------------------------

  function Min(a: nat, b: nat): nat {
    if a < b then a else b
  }

  /** The lines that one batch takes from `offset`. */
  function Taken(file: seq<byte>, offset: nat): seq<seq<byte>>
    requires offset <= |file|
  {
    var lines := Lines(file[offset..]);
    lines[..Min(BATCH_SIZE, |lines|)]
  }

  function BatchAt(file: seq<byte>, offset: nat): Result<Batch> {
    if offset > |file| then Err(InvalidPayload)
    else
      var scan := ParseAll(Taken(file, offset));
      if scan.failure.Some? then Err(scan.failure.value)
      else Ok(Batch(scan.ids, offset + |Flatten(Taken(file, offset))|, |Lines(file[offset..])| <= BATCH_SIZE))
  }

  /** `read_export_id_batch` on a file that opens, stats, seeks and reads without an operating-system error. */
  method ReadExportIdBatch(file: seq<byte>, offset: nat) returns (r: Result<Batch>)
    ensures r == BatchAt(file, offset)
  {
    hide ParseLine, Lines, Flatten, ParseAll;
    if offset > |file| { return Err(InvalidPayload); }
    var position := offset;
    var ids: seq<nat> := [];
    StartOfBatch(file, offset);
    while |ids| < BATCH_SIZE && position < |file|
      invariant |ids| <= BATCH_SIZE && 0 <= position && Progress(file, offset, position, ids)
    {
      var n := LineLength(file[position..]);
      ReadOneLine(file, offset, position, ids);
      var id := ParseLine(file[position..][..n]);
      if id.Err? { return Err(id.error); }
      ids, position := ids + [id.value], position + n;
    }
    EndOfBatch(file, offset, position, ids);
    return Ok(Batch(ids, position, position == |file|));
  }

  /** The reader stands at `position`, having parsed the first lines after `offset` into `ids`. */
  ghost predicate Progress(file: seq<byte>, offset: nat, position: nat, ids: seq<nat>) {
    offset <= position <= |file| && ProgressIn(Lines(file[offset..]), Lines(file[position..]), offset, position, ids)
  }

  ghost predicate ProgressIn(all: seq<seq<byte>>, left: seq<seq<byte>>, offset: nat, position: nat, ids: seq<nat>) {
    && |ids| <= |all| && all[|ids|..] == left
    && position == offset + |Flatten(all[..|ids|])|
    && ParseAll(all[..|ids|]) == Scan(ids, None)
  }

  lemma StartOfBatch(file: seq<byte>, offset: nat)
    requires offset <= |file|
    ensures Progress(file, offset, offset, [])
  {
  }

  lemma Advance(all: seq<seq<byte>>, left: seq<seq<byte>>, offset: nat, position: nat, ids: seq<nat>,
                id: nat, next: nat)
    requires ProgressIn(all, left, offset, position, ids) && left != [] && ParseLine(left[0]) == Ok(id)
    requires next == position + |left[0]|
    ensures ProgressIn(all, left[1..], offset, next, ids + [id])
  {
    var k := |ids|;
    assert left[0] == all[k] && left[1..] == all[k + 1..];
    StepLine(all, k);
    assert |ids + [id]| == k + 1;
  }

  lemma ReadOneLine(file: seq<byte>, offset: nat, position: nat, ids: seq<nat>)
    requires Progress(file, offset, position, ids) && |ids| < BATCH_SIZE && position < |file|
    ensures var n := LineLength(file[position..]);
            var id := ParseLine(file[position..][..n]);
            if id.Ok? then Progress(file, offset, position + n, ids + [id.value])
            else BatchAt(file, offset) == Err(id.error)
  {
    hide ParseLine, ParseAll, Flatten, LineLength, Lines;
    var all, left, n := Lines(file[offset..]), Lines(file[position..]), LineLength(file[position..]);
    UnfoldLines(file[position..]);
    assert left[0] == file[position..][..n];
    var id := ParseLine(left[0]);
    assert file[position..][n..] == file[position + n..];
    if id.Ok? {
      Advance(all, left, offset, position, ids, id.value, position + n);
      assert left[1..] == Lines(file[position + n..]);
      assert position + n <= |file|;
    } else {
      assert left[0] == all[|ids|];
      FailedPrefix(all, |ids|, Min(BATCH_SIZE, |all|), id.error);
    }
  }

  lemma EndOfBatch(file: seq<byte>, offset: nat, position: nat, ids: seq<nat>)
    requires Progress(file, offset, position, ids) && |ids| <= BATCH_SIZE
    requires |ids| == BATCH_SIZE || position == |file|
    ensures BatchAt(file, offset) == Ok(Batch(ids, position, position == |file|))
  {
  }

  lemma StepLine(all: seq<seq<byte>>, k: nat)
    requires k < |all|
    ensures |Flatten(all[..k + 1])| == |Flatten(all[..k])| + |all[k]|
    ensures ParseAll(all[..k]).failure.None? ==>
              ParseAll(all[..k + 1]) ==
              match ParseLine(all[k])
              case Ok(id) => Scan(ParseAll(all[..k]).ids + [id], None)
              case Err(e) => Scan(ParseAll(all[..k]).ids, Some(e))
  {
    hide ParseLine;
    assert all[..k + 1] == all[..k] + [all[k]];
    FlattenConcat(all[..k], [all[k]]);
    ParseAllConcat(all[..k], [all[k]]);
    assert ParseAll([]) == Scan([], None);
    assert ParseAll([all[k]])
      == match ParseLine(all[k]) case Ok(id) => Scan([id], None) case Err(e) => Scan([], Some(e));
    assert ParseAll(all[..k]).ids + [] == ParseAll(all[..k]).ids;
  }

  lemma FailedPrefix(all: seq<seq<byte>>, k: nat, n: nat, e: Error)
    requires k < n <= |all| && ParseAll(all[..k]).failure.None? && ParseLine(all[k]) == Err(e)
    ensures ParseAll(all[..n]).failure == Some(e)
  {
    hide ParseLine;
    StepLine(all, k);
    assert all[..n] == all[..k + 1] + all[k + 1..n];
    ParseAllConcat(all[..k + 1], all[k + 1..n]);
  }

  // ---- the chain of batches -----------------------------------------------------------------------

  /** A position a batch may start from. */
  predicate LineStart(file: seq<byte>, offset: nat) {
    offset <= |file| && (offset == 0 || file[offset - 1] == NEWLINE)
  }

  /** Where the first `k` lines end. */
  function EndOf(b: seq<byte>, k: nat): nat
    requires k <= |Lines(b)|
  {
    |Flatten(Lines(b)[..k])|
  }

  lemma UnfoldLines(b: seq<byte>)
    requires b != []
    ensures Lines(b) == [b[..LineLength(b)]] + Lines(b[LineLength(b)..])
  {
  }

  lemma EndOfNext(b: seq<byte>, k: nat)
    requires 0 < k <= |Lines(b)|
    ensures b != [] && |Lines(b)| == 1 + |Lines(b[LineLength(b)..])|
    ensures Lines(b)[k..] == Lines(b[LineLength(b)..])[k - 1..]
    ensures EndOf(b, k) == LineLength(b) + EndOf(b[LineLength(b)..], k - 1)
  {
    hide LineLength, Lines;
    NonEmpty(b);
    UnfoldLines(b);
    var first, rest := b[..LineLength(b)], Lines(b[LineLength(b)..]);
    assert Lines(b)[..k] == [first] + rest[..k - 1];
    assert Flatten([first] + rest[..k - 1]) == first + Flatten(rest[..k - 1]);
  }

  lemma NonEmpty(b: seq<byte>)
    ensures Lines(b) == [] <==> b == []
  {
  }

  lemma {:induction false} DropLines(b: seq<byte>, k: nat)
    requires k <= |Lines(b)|
    ensures k <= EndOf(b, k) <= |b|
    ensures Lines(b[EndOf(b, k)..]) == Lines(b)[k..]
    decreases k
  {
    hide LineLength;
    if k > 0 {
      var n := LineLength(b);
      EndOfNext(b, k);
      DropLines(b[n..], k - 1);
      assert b[EndOf(b, k)..] == b[n..][EndOf(b[n..], k - 1)..];
    } else {
      assert b[0..] == b;
    }
  }

  lemma {:induction false} DroppedLinesEnd(b: seq<byte>, k: nat)
    requires 0 < k < |Lines(b)|
    ensures EndOf(b, k) < |b| && b[EndOf(b, k) - 1] == NEWLINE
    decreases k
  {
    hide LineLength;
    DropLines(b, k);
    EndOfNext(b, k);
    var rest, n := b[LineLength(b)..], LineLength(b);
    if k > 1 {
      DroppedLinesEnd(rest, k - 1);
      assert b[n + EndOf(rest, k - 1) - 1] == rest[EndOf(rest, k - 1) - 1];
    } else {
      assert EndOf(rest, 0) == 0;
    }
  }

  /** A batch that is not the last holds exactly 500 ids and moves forward to the start of another line. */
  lemma UnfinishedBatch(file: seq<byte>, offset: nat)
    requires BatchAt(file, offset).Ok? && !BatchAt(file, offset).value.finished
    ensures |BatchAt(file, offset).value.ids| == 500
    ensures offset + BATCH_SIZE <= BatchAt(file, offset).value.nextOffset < |file|
    ensures LineStart(file, BatchAt(file, offset).value.nextOffset)
    ensures Lines(file[BatchAt(file, offset).value.nextOffset..]) == Lines(file[offset..])[BATCH_SIZE..]
  {
    hide LineLength, Lines, Flatten, ParseAll;
    var rest := file[offset..];
    var n := EndOf(rest, BATCH_SIZE);
    assert BatchAt(file, offset).value.nextOffset == offset + n;
    DropLines(rest, BATCH_SIZE);
    DroppedLinesEnd(rest, BATCH_SIZE);
    assert rest[n..] == file[offset + n..];
    assert rest[n - 1] == file[offset + n - 1];
  }

  /** The ids that the chain of jobs starting at `offset` hands on, batch by batch, and how the chain ends. */
  function Chain(file: seq<byte>, offset: nat): Scan
    decreases |file| - offset
  {
    match BatchAt(file, offset)
    case Err(e) => Scan([], Some(e))
    case Ok(batch) =>
      if batch.finished then Scan(batch.ids, None)
      else
        UnfinishedBatch(file, offset);
        var rest := Chain(file, batch.nextOffset);
        Scan(batch.ids + rest.ids, rest.failure)
  }

  /** All of the ids, or those of the complete batches before the first bad line. */
  function Committed(scan: Scan): Scan {
    if scan.failure.None? then scan else Scan(scan.ids[..|scan.ids| - |scan.ids| % BATCH_SIZE], scan.failure)
  }

  lemma {:induction false} ChainIsOnePass(file: seq<byte>, offset: nat)
    requires offset <= |file|
    ensures Chain(file, offset) == Committed(OnePass(file[offset..]))
    decreases |file| - offset
  {
    hide ParseLine, Lines;
    var lines, taken := Lines(file[offset..]), Taken(file, offset);
    var whole, first := ParseAll(lines), ParseAll(taken);
    ParseAllConcat(taken, lines[|taken|..]);
    assert lines == taken + lines[|taken|..];
    if first.failure.None? && |lines| > BATCH_SIZE {
      UnfinishedBatch(file, offset);
      var next := BatchAt(file, offset).value.nextOffset;
      assert lines[|taken|..] == Lines(file[next..]);
      ChainIsOnePass(file, next);
      CommittedAfterBatch(first.ids, OnePass(file[next..]));
    } else if first.failure.None? {
      assert lines[|taken|..] == [] && first.ids + [] == first.ids;
    } else {
      FailedBatchIsShort(taken);
    }
  }

  lemma {:induction false} FailedBatchIsShort(lines: seq<seq<byte>>)
    requires ParseAll(lines).failure.Some?
    ensures |ParseAll(lines).ids| < |lines|
  {
    hide ParseLine;
    if ParseLine(lines[0]).Ok? { FailedBatchIsShort(lines[1..]); }
  }

  lemma CommittedAfterBatch(ids: seq<nat>, rest: Scan)
    requires |ids| == BATCH_SIZE
    ensures Committed(Scan(ids + rest.ids, rest.failure))
         == Scan(ids + Committed(rest).ids, rest.failure)
  {
  }

  /**
   * The main result: the chain from the beginning hands on every id of the file once and in order, and if some line
   * is bad it fails as a single pass does, having handed on the complete batches before that line.
   */
  lemma ChunkedScanIsOnePass(file: seq<byte>)
    ensures Chain(file, 0) == Committed(OnePass(file))
  {
    ChainIsOnePass(file, 0);
    assert file[0..] == file;
  }

  /** The offsets that the chain passes through. */
  function Offsets(file: seq<byte>, offset: nat): seq<nat>
    decreases |file| - offset
  {
    if BatchAt(file, offset).Err? || BatchAt(file, offset).value.finished then [offset]
    else
      UnfinishedBatch(file, offset);
      [offset] + Offsets(file, BatchAt(file, offset).value.nextOffset)
  }

  /** Every offset of a chain is the start of a line, and each is at least 500 bytes after the one before. */
  lemma {:induction false} OffsetsAreLineStarts(file: seq<byte>, offset: nat)
    requires LineStart(file, offset)
    ensures var os := Offsets(file, offset);
            && os[0] == offset
            && (forall i :: 0 <= i < |os| ==> LineStart(file, os[i]))
            && (forall i :: 0 < i < |os| ==> os[i - 1] + BATCH_SIZE <= os[i])
    decreases |file| - offset
  {
    if BatchAt(file, offset).Ok? && !BatchAt(file, offset).value.finished {
      UnfinishedBatch(file, offset);
      var next := BatchAt(file, offset).value.nextOffset;
      OffsetsAreLineStarts(file, next);
      assert Offsets(file, offset)[1..] == Offsets(file, next);
      assert forall i :: 0 < i < |Offsets(file, offset)| ==> Offsets(file, offset)[i] == Offsets(file, next)[i - 1];
    }
  }

  // ---- writing and reading back -------------------------------------------------------------------

  function WriteLine(id: nat): seq<byte> {
    Encode(Decimal(id)) + [NEWLINE]
  }

  function WriteAll(ids: seq<nat>): seq<byte> {
    if ids == [] then [] else WriteLine(ids[0]) + WriteAll(ids[1..])
  }

  lemma {:induction false} EncodeDigits(s: string)
    requires forall i :: 0 <= i < |s| ==> IsDigit(s[i])
    ensures |Encode(s)| == |s| && NEWLINE !in Encode(s)
    ensures Encode(s) + [NEWLINE] == Encode(s + ['\n'])
  {
    if s == [] {
      assert Encode("\n") == EncodeChar('\n') + Encode([]);
      assert s + ['\n'] == "\n";
    } else {
      EncodeDigits(s[1..]);
      assert (s + ['\n'])[1..] == s[1..] + ['\n'];
      assert Encode(s) + [NEWLINE] == EncodeChar(s[0]) + (Encode(s[1..]) + [NEWLINE]);
    }
  }

  lemma TrimDigits(s: string)
    requires s != [] && forall i :: 0 <= i < |s| ==> IsDigit(s[i])
    ensures Trim(s + ['\n']) == s
  {
    var line := s + ['\n'];
    assert !IsWhitespace(s[0]) && line[0] == s[0];
    assert !IsWhitespace(s[|s| - 1]) && line[..|s|] == s;
    assert TrimEnd(line) == TrimEnd(s) == s;
  }

  lemma WrittenLineParses(id: nat)
    requires 0 < id <= U64_MAX
    ensures ParseLine(WriteLine(id)) == Ok(id)
  {
    var s := Decimal(id);
    DecimalValue(id);
    EncodeDigits(s);
    DecodeEncode(s + ['\n']);
    TrimDigits(s);
  }

  lemma FirstWrittenLine(id: nat, rest: seq<byte>)
    ensures LineLength(WriteLine(id) + rest) == |WriteLine(id)|
  {
    DecimalValue(id);
    EncodeDigits(Decimal(id));
    var b, n := WriteLine(id) + rest, |WriteLine(id)|;
    var m := LineLength(b);
    assert b[n - 1] == NEWLINE;
    forall i | 0 <= i < n - 1 ensures b[i] != NEWLINE {
      assert b[i] == Encode(Decimal(id))[i] && b[i] in Encode(Decimal(id));
    }
  }

  /** A file of ids written one to a line is read back by the chain exactly. */
  lemma {:induction false} ReadBack(ids: seq<nat>)
    requires forall i :: 0 <= i < |ids| ==> 0 < ids[i] <= U64_MAX
    ensures Chain(WriteAll(ids), 0) == Scan(ids, None)
  {
    ReadBackOnePass(ids);
    ChunkedScanIsOnePass(WriteAll(ids));
  }

  lemma {:induction false} ReadBackOnePass(ids: seq<nat>)
    requires forall i :: 0 <= i < |ids| ==> 0 < ids[i] <= U64_MAX
    ensures OnePass(WriteAll(ids)) == Scan(ids, None)
  {
    if ids != [] {
      var b, rest := WriteAll(ids), WriteAll(ids[1..]);
      FirstWrittenLine(ids[0], rest);
      var n := |WriteLine(ids[0])|;
      assert b[..n] == WriteLine(ids[0]) && b[n..] == rest;
      WrittenLineParses(ids[0]);
      ReadBackOnePass(ids[1..]);
      assert Lines(b)[1..] == Lines(rest);
      assert [ids[0]] + ids[1..] == ids;
    }
  }
}
