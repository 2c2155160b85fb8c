// Which lines of an export file are ids, and how a line that is none fails, told from its bytes.
module ExportLines {
  import opened ExportScan
  import opened JobQueue
  import opened Numerals
  import opened Text
  import opened Trimming
  import opened Utf8
  import opened Widths

  /** White space, a numeral, white space. */
  ghost predicate SpellsNumber(text: string, id: nat) {
    exists p, core, q, plus, digits ::
      Pads(text, p, core, q) && IsNumeral(core, plus, digits) && AllDigits(digits) && Value(digits) == id
  }

  /** The line is the text of a positive number of 64 bits. */
  ghost predicate IsIdLine(line: seq<byte>, id: nat) {
    0 < id < 0x1_0000_0000_0000_0000 && exists text :: line == Encode(text) && SpellsNumber(text, id)
  }

  lemma NumeralIsTight(s: string, plus: bool, digits: string)
    requires IsNumeral(s, plus, digits)
    ensures Tight(s)
  {
    assert s[|s| - 1] == digits[|digits| - 1];
    assert plus || s[0] == digits[0];
  }

  lemma SpelledIff(text: string, id: nat)
    ensures ParseUnsigned(Trim(text), U64_MAX) == Some(id) <==> id <= U64_MAX && SpellsNumber(text, id)
  {
    hide Value, Trim, ParseUnsigned, IsNumeral, Pads;
    var core := Trim(text);
    UnsignedIff(core, U64_MAX, id);
    if ParseUnsigned(core, U64_MAX) == Some(id) {
      var p, q := TrimPads(text);
      assert Pads(text, p, core, q);
    }
    if SpellsNumber(text, id) {
      var p, spelled, q, plus, digits :|
        Pads(text, p, spelled, q) && IsNumeral(spelled, plus, digits) && AllDigits(digits) && Value(digits) == id;
      NumeralIsTight(spelled, plus, digits);
      TrimOf(text, p, spelled, q);
    }
  }

  /** A line is read as an id exactly when it is the text of it. */
  lemma LineIsIdIff(line: seq<byte>, id: nat)
    ensures ParseLine(line) == Ok(id) <==> IsIdLine(line, id)
  {
    if ParseLine(line) == Ok(id) {
      var text := Decode(line).value;
      EncodeDecode(line);
      SpelledIff(text, id);
    }
    if IsIdLine(line, id) {
      var text :| line == Encode(text) && SpellsNumber(text, id);
      DecodeEncode(text);
      SpelledIff(text, id);
    }
  }

  /** A line that is not UTF-8 is a storage error, to be read again; every other line that is no id ends the scan. */
  lemma BadLineFails(line: seq<byte>)
    requires forall id :: !IsIdLine(line, id)
    ensures ParseLine(line) == Err(if exists text :: Encode(text) == line then InvalidPayload else ExportStorage)
  {
    if ParseLine(line).Ok? { LineIsIdIff(line, ParseLine(line).value); }
    if Decode(line).Some? { EncodeDecode(line); }
    if text :| Encode(text) == line { DecodeEncode(text); }
  }
}
