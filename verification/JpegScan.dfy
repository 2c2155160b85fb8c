// The JPEG header scan: walk over the marker segments of section B.1.1 of ITU-T T.81 until a frame header gives the
// dimensions. The loop is proved against a recursive reading, and that reading against a grammar of byte strings.
module JpegScan {
  import opened JobQueue
  import opened Utf8

  datatype Dimensions = Dimensions(width: nat, height: nat)

  predicate EndsScan(marker: byte) {
    marker == 0xD9 || marker == 0xDA
  }

  predicate Standalone(marker: byte) {
    marker == 0xD8 || marker == 0x01 || 0xD0 <= marker <= 0xD7
  }

  /** `is_jpeg_start_of_frame`: the SOF markers of table B.1. */
  predicate StartOfFrame(marker: byte) {
    0xC0 <= marker <= 0xC3 || 0xC5 <= marker <= 0xC7 || 0xC9 <= marker <= 0xCB || 0xCD <= marker <= 0xCF
  }

  /**
   * Table B.1 of ITU-T T.81: EOI and SOS end the scan; TEM, RSTm and SOI have no segment; the sixteen codes from 0xC0
   * start a frame, but for DHT, JPG and DAC.
   */
  lemma MarkersOfTable(m: byte)
    ensures EndsScan(m) <==> m in {0xD9, 0xDA}
    ensures Standalone(m) <==> m in {0x01, 0xD0, 0xD1, 0xD2, 0xD3, 0xD4, 0xD5, 0xD6, 0xD7, 0xD8}
    ensures StartOfFrame(m) <==> m / 16 == 0xC && m !in {0xC4, 0xC8, 0xCC}
  {
  }

  function Word(hi: byte, lo: byte): nat {
    hi * 256 + lo
  }

  // ---- the recursive reading ----------------------------------------------------------------------

  /** How many fill bytes come first. */
  function Fill(b: seq<byte>): (n: nat)
    ensures n <= |b| && (forall i :: 0 <= i < n ==> b[i] == 0xFF) && (n < |b| ==> b[n] != 0xFF)
  {
    if b == [] || b[0] != 0xFF then 0 else 1 + Fill(b[1..])
  }

  /** Nothing to find, a frame header, or `n` bytes to pass over. */
  datatype Step = Stop | Found(d: Dimensions) | Pass(n: nat)

  /** The step at a string that starts with `f` fill bytes. */
  function StepAfter(b: seq<byte>, f: nat): (r: Step)
    requires f <= |b|
    ensures r.Pass? ==> 0 < r.n <= |b|
  {
    if f == |b| || EndsScan(b[f]) then Stop
    else if Standalone(b[f]) then Pass(f + 1)
    else if |b| < f + 3 then Stop
    else
      var n := Word(b[f + 1], b[f + 2]);
      if n < 2 || f + 1 + n > |b| then Stop
      else if !StartOfFrame(b[f]) then Pass(f + 1 + n)
      else if n < 7 then Stop
      else Found(Dimensions(Word(b[f + 6], b[f + 7]), Word(b[f + 4], b[f + 5])))
  }

  function ScanFrom(b: seq<byte>): Option<Dimensions>
    decreases |b|
  {
    if |b| < 2 then None
    else
      match StepAfter(b, Fill(b))
      case Stop => None
      case Found(d) => Some(d)
      case Pass(n) => ScanFrom(b[n..])
  }

  function Scan(body: seq<byte>): Option<Dimensions> {
    if |body| < 4 || body[0] != 0xFF || body[1] != 0xD8 then None else ScanFrom(body[2..])
  }

  /** `parse_jpeg_dimensions`: the index loop, every read in bounds. */
  method ParseJpegDimensions(body: seq<byte>) returns (r: Option<Dimensions>)
    ensures r == Scan(body)
  {
    hide Fill, StepAfter;
    if |body| < 4 || body[0] != 0xFF || body[1] != 0xD8 { return None; }
    var index: nat := 2;
    while index + 1 < |body|
      invariant 2 <= index <= |body|
      invariant Scan(body) == ScanFrom(body[index..])
      decreases |body| - index
    {
      var step := ReadMarker(body, index);
      match step {
        case Stop => return None;
        case Found(d) => return Some(d);
        case Pass(n) =>
          assert body[index..][n..] == body[index + n..];
          index := index + n;
      }
    }
    return None;
  }

  /** One turn of the loop. */
  method ReadMarker(body: seq<byte>, start: nat) returns (step: Step)
    requires start + 1 < |body|
    ensures step == StepAfter(body[start..], Fill(body[start..]))
  {
    var index := SkipFill(body, start);
    ghost var f := index - start;
    FillIs(body[start..], f);
    if index >= |body| { return Stop; }
    var marker := body[index];
    assert body[start..][f] == marker;
    index := index + 1;
    if EndsScan(marker) { return Stop; }
    if Standalone(marker) { return Pass(index - start); }
    if index + 2 > |body| { return Stop; }
    var segmentLength := Word(body[index], body[index + 1]);
    if segmentLength < 2 || index + segmentLength > |body| { return Stop; }
    if StartOfFrame(marker) {
      if segmentLength < 7 { return Stop; }
      return Found(Dimensions(Word(body[index + 5], body[index + 6]), Word(body[index + 3], body[index + 4])));
    }
    return Pass(index + segmentLength - start);
  }

  method SkipFill(body: seq<byte>, start: nat) returns (index: nat)
    requires start <= |body|
    ensures start <= index <= |body| && (forall i :: start <= i < index ==> body[i] == 0xFF)
    ensures index < |body| ==> body[index] != 0xFF
  {
    index := start;
    while index < |body| && body[index] == 0xFF
      invariant start <= index <= |body|
      invariant forall i :: start <= i < index ==> body[i] == 0xFF
    {
      index := index + 1;
    }
  }

  lemma {:induction false} FillIs(b: seq<byte>, n: nat)
    requires n <= |b| && (forall i :: 0 <= i < n ==> b[i] == 0xFF) && (n < |b| ==> b[n] != 0xFF)
    ensures Fill(b) == n
  {
  }

  // ---- the grammar --------------------------------------------------------------------------------

  /** A marker after `fill` bytes of 0xFF, alone or with a segment whose length field covers itself and `data`. */
  datatype Piece = Alone(fill: nat, marker: byte) | Segment(fill: nat, marker: byte, data: seq<byte>)

  function FillBytes(n: nat): (r: seq<byte>)
    ensures |r| == n && forall i :: 0 <= i < n ==> r[i] == 0xFF
  {
    seq(n, i => 0xFF)
  }

  function LengthField(n: nat): seq<byte>
    requires n < 0x1_0000
  {
    [n / 256, n % 256]
  }

  predicate Encodable(p: Piece) {
    p.marker != 0xFF && (p.Segment? ==> |p.data| + 2 < 0x1_0000)
  }

  function Render(p: Piece): seq<byte>
    requires Encodable(p)
  {
    FillBytes(p.fill) + [p.marker] + if p.Alone? then [] else LengthField(|p.data| + 2) + p.data
  }

  /** A piece that the scan passes over. */
  predicate Skippable(p: Piece) {
    Encodable(p) && !EndsScan(p.marker)
    && (if p.Alone? then Standalone(p.marker) else !Standalone(p.marker) && !StartOfFrame(p.marker))
  }

  /** A frame header with at least its precision and dimensions. */
  predicate Frame(p: Piece) {
    Encodable(p) && p.Segment? && StartOfFrame(p.marker) && |p.data| >= 5
  }

  function FrameDimensions(p: Piece): Dimensions
    requires Frame(p)
  {
    Dimensions(Word(p.data[3], p.data[4]), Word(p.data[1], p.data[2]))
  }

  predicate AllSkippable(pieces: seq<Piece>) {
    forall i :: 0 <= i < |pieces| ==> Skippable(pieces[i])
  }

  function RenderAll(pieces: seq<Piece>): seq<byte>
    requires AllSkippable(pieces)
  {
    if pieces == [] then [] else Render(pieces[0]) + RenderAll(pieces[1..])
  }

  /** Start of image, skippable pieces, a frame header with these dimensions, and anything after it. */
  ghost predicate Describes(body: seq<byte>, pieces: seq<Piece>, frame: Piece, tail: seq<byte>, d: Dimensions) {
    && AllSkippable(pieces) && Frame(frame) && FrameDimensions(frame) == d
    && body == [0xFF, 0xD8] + (RenderAll(pieces) + (Render(frame) + tail))
  }

  lemma FillOfRendered(p: Piece, tail: seq<byte>)
    requires Encodable(p)
    ensures Fill(Render(p) + tail) == p.fill && (Render(p) + tail)[p.fill] == p.marker
    ensures (Render(p) + tail)[p.fill + 1..] == (if p.Alone? then [] else LengthField(|p.data| + 2) + p.data) + tail
  {
    var b := Render(p) + tail;
    assert b[p.fill] == p.marker;
    assert forall i :: 0 <= i < p.fill ==> b[i] == FillBytes(p.fill)[i] == 0xFF;
  }

  lemma SkipsPiece(p: Piece, tail: seq<byte>)
    requires Skippable(p)
    ensures ScanFrom(Render(p) + tail) == ScanFrom(tail)
  {
    hide Fill;
    var b := Render(p) + tail;
    FillOfRendered(p, tail);
    var rest := b[p.fill + 1..];
    if p.Alone? {
      assert rest == tail;
      if |b| >= 2 { assert StepAfter(b, p.fill) == Pass(p.fill + 1); }
    } else {
      var n := |p.data| + 2;
      assert rest[0] == n / 256 && rest[1] == n % 256;
      assert b[p.fill + 1] == rest[0] && b[p.fill + 2] == rest[1];
      assert StepAfter(b, p.fill) == Pass(p.fill + 1 + n);
      assert b[p.fill + 1 + n..] == rest[n..] == tail;
    }
  }

  lemma ReadsFrame(p: Piece, tail: seq<byte>)
    requires Frame(p)
    ensures ScanFrom(Render(p) + tail) == Some(FrameDimensions(p))
  {
    hide Fill;
    var b := Render(p) + tail;
    FillOfRendered(p, tail);
    var rest := b[p.fill + 1..];
    var n := |p.data| + 2;
    assert rest[0] == n / 256 && rest[1] == n % 256;
    assert forall i :: 0 <= i < 5 ==> b[p.fill + 3 + i] == rest[i + 2] == p.data[i];
    assert b[p.fill + 1] == rest[0] && b[p.fill + 2] == rest[1];
  }

  lemma {:induction false} ReadsGrammar(pieces: seq<Piece>, frame: Piece, tail: seq<byte>)
    requires AllSkippable(pieces) && Frame(frame)
    ensures ScanFrom(RenderAll(pieces) + (Render(frame) + tail)) == Some(FrameDimensions(frame))
  {
    if pieces == [] {
      assert [] + (Render(frame) + tail) == Render(frame) + tail;
      ReadsFrame(frame, tail);
    } else {
      var after := RenderAll(pieces[1..]) + (Render(frame) + tail);
      assert RenderAll(pieces) + (Render(frame) + tail) == Render(pieces[0]) + after;
      SkipsPiece(pieces[0], after);
      ReadsGrammar(pieces[1..], frame, tail);
    }
  }

  /** A string whose first piece, with `f` fill bytes, is one that the scan gets past. */
  ghost predicate Heads(b: seq<byte>, f: nat) {
    && f < |b| && (forall i :: 0 <= i < f ==> b[i] == 0xFF) && b[f] != 0xFF && !EndsScan(b[f])
    && (!Standalone(b[f]) ==>
          && |b| - f >= 3 && 2 <= Word(b[f + 1], b[f + 2]) < |b| - f
          && (StartOfFrame(b[f]) ==> Word(b[f + 1], b[f + 2]) >= 7))
  }

  lemma FoundHeads(b: seq<byte>)
    requires ScanFrom(b).Some?
    ensures Heads(b, Fill(b))
  {
  }

  lemma MarkerBytes(b: seq<byte>, f: nat)
    requires f < |b| && forall i :: 0 <= i < f ==> b[i] == 0xFF
    ensures b == FillBytes(f) + [b[f]] + b[f + 1..]
  {
  }

  lemma SegmentBytes(rest: seq<byte>, n: nat)
    requires |rest| >= 2 && n == Word(rest[0], rest[1]) && 2 <= n <= |rest|
    ensures n < 0x1_0000 && rest == LengthField(n) + rest[2..n] + rest[n..]
  {
  }

  /** The piece that a string starts with. */
  lemma FirstPiece(b: seq<byte>, f: nat) returns (p: Piece, tail: seq<byte>)
    requires Heads(b, f)
    ensures Encodable(p) && b == Render(p) + tail && |tail| < |b|
    ensures Skippable(p) || Frame(p)
  {
    var marker, rest := b[f], b[f + 1..];
    MarkerBytes(b, f);
    if Standalone(marker) {
      p, tail := Alone(f, marker), rest;
    } else {
      var n := Word(rest[0], rest[1]);
      SegmentBytes(rest, n);
      p, tail := Segment(f, marker, rest[2..n]), rest[n..];
      assert Render(p) == FillBytes(f) + [marker] + (LengthField(n) + rest[2..n]);
    }
  }

  lemma {:induction false} Decompose(b: seq<byte>) returns (pieces: seq<Piece>, frame: Piece, tail: seq<byte>)
    requires ScanFrom(b).Some?
    ensures AllSkippable(pieces) && Frame(frame) && b == RenderAll(pieces) + (Render(frame) + tail)
    decreases |b|
  {
    hide Fill, StepAfter, Render, Skippable, RenderAll;
    FoundHeads(b);
    var first, rest := FirstPiece(b, Fill(b));
    if Skippable(first) {
      SkipsPiece(first, rest);
      var more;
      more, frame, tail := Decompose(rest);
      pieces := [first] + more;
      AllOneMore(first, more);
      RenderOneMore(first, more, Render(frame) + tail);
    } else {
      pieces, frame, tail := [], first, rest;
      RenderNone(Render(frame) + tail);
    }
  }

  lemma AllOneMore(first: Piece, more: seq<Piece>)
    requires Skippable(first) && AllSkippable(more)
    ensures AllSkippable([first] + more)
  {
  }

  lemma RenderNone(after: seq<byte>)
    ensures RenderAll([]) + after == after
  {
  }

  lemma RenderOneMore(first: Piece, more: seq<Piece>, after: seq<byte>)
    requires Skippable(first) && AllSkippable(more)
    ensures RenderAll([first] + more) + after == Render(first) + (RenderAll(more) + after)
  {
  }

  /** The scan finds dimensions exactly when the bytes are a start of image, skippable pieces and a frame header. */
  lemma ScanIff(body: seq<byte>, d: Dimensions)
    ensures Scan(body) == Some(d) <==> exists pieces, frame, tail :: Describes(body, pieces, frame, tail, d)
  {
    if Scan(body) == Some(d) {
      var pieces, frame, tail := Decompose(body[2..]);
      ReadsGrammar(pieces, frame, tail);
      assert body == [0xFF, 0xD8] + body[2..];
      assert Describes(body, pieces, frame, tail, d);
    }
    if exists pieces, frame, tail :: Describes(body, pieces, frame, tail, d) {
      var pieces, frame, tail :| Describes(body, pieces, frame, tail, d);
      ReadsGrammar(pieces, frame, tail);
      assert body[2..] == RenderAll(pieces) + (Render(frame) + tail);
    }
  }

  /** Section B.1.1.2: a marker is preceded by at least one byte of 0xFF. */
  predicate Conforming(pieces: seq<Piece>, frame: Piece) {
    frame.fill > 0 && forall i :: 0 <= i < |pieces| ==> pieces[i].fill > 0
  }

  /** Every conforming header gives its frame's dimensions. */
  lemma ConformingHeadersAreRead(body: seq<byte>, pieces: seq<Piece>, frame: Piece, tail: seq<byte>, d: Dimensions)
    requires Describes(body, pieces, frame, tail, d) && Conforming(pieces, frame)
    ensures Scan(body) == Some(d)
  {
    ScanIff(body, d);
  }

  /** The prefix byte is not insisted on: a frame header straight after the start of image is read as well. */
  lemma PrefixIsNotRequired()
    ensures Scan([0xFF, 0xD8, 0xC0, 0, 7, 8, 0, 2, 0, 3]) == Some(Dimensions(3, 2))
    ensures !exists pieces, frame, tail ::
              Conforming(pieces, frame)
              && Describes([0xFF, 0xD8, 0xC0, 0, 7, 8, 0, 2, 0, 3], pieces, frame, tail, Dimensions(3, 2))
  {
  }
}
