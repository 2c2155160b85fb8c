// The query string of the administrator's job list: percent-decoding as section 2.1 of RFC 3986 with `+` for a space,
// and parameters whose order does not matter. A query is the bytes of a string.
module JobListQuery {
  import opened JobQueue
  import opened Sorting
  import opened Text
  import opened Utf8

  const MAX_QUERY_BYTES: nat := 2048
  const DEFAULT_LIMIT: nat := 50
  const MAX_LIMIT: nat := 100
  const MAX_CURSOR_BYTES: nat := 64
  const MAX_JOB_TYPE_BYTES: nat := 128

  const AMPERSAND: byte := 0x26
  const EQUALS: byte := 0x3D
  const PERCENT: byte := 0x25
  const PLUS: byte := 0x2B
  const SPACE: byte := 0x20

  // ---- percent-decoding ---------------------------------------------------------------------------

  function HexValue(b: byte): (r: Option<byte>)
    ensures r.Some? ==> r.value < 16
  {
    if 0x30 <= b <= 0x39 then Some(b - 0x30)
    else if 0x61 <= b <= 0x66 then Some(b - 0x61 + 10)
    else if 0x41 <= b <= 0x46 then Some(b - 0x41 + 10)
    else None
  }

  /** `e` is one way to write the byte `b`. */
  predicate Writes(e: seq<byte>, b: byte) {
    || (e == [b] && b != PLUS && b != PERCENT)
    || (e == [PLUS] && b == SPACE)
    || (|e| == 3 && e[0] == PERCENT && HexValue(e[1]).Some? && HexValue(e[2]).Some?
        && b == HexValue(e[1]).value * 16 + HexValue(e[2]).value)
  }

  /** `encoded` is a form-encoding of `plain`: each byte is written in one of its ways, in order. */
  ghost predicate Encodes(encoded: seq<byte>, plain: seq<byte>) {
    exists parts: seq<seq<byte>> :: EncodesAs(parts, encoded, plain)
  }

  ghost predicate EncodesAs(parts: seq<seq<byte>>, encoded: seq<byte>, plain: seq<byte>) {
    |parts| == |plain| && Flatten(parts) == encoded && forall i :: 0 <= i < |plain| ==> Writes(parts[i], plain[i])
  }

  datatype Taken = Taken(b: byte, width: nat)

  /** The first byte written, and how many bytes write it. */
  function TakeByte(e: seq<byte>): (r: Option<Taken>)
    requires e != []
    ensures r.Some? ==> 0 < r.value.width <= |e|
  {
    if e[0] == PLUS then Some(Taken(SPACE, 1))
    else if e[0] != PERCENT then Some(Taken(e[0], 1))
    else if |e| < 3 || HexValue(e[1]).None? || HexValue(e[2]).None? then None
    else Some(Taken(HexValue(e[1]).value * 16 + HexValue(e[2]).value, 3))
  }

  function PercentDecode(e: seq<byte>): Option<seq<byte>>
    decreases |e|
  {
    if e == [] then Some([])
    else
      var first := TakeByte(e);
      if first.None? then None
      else
        var rest := PercentDecode(e[first.value.width..]);
        if rest.None? then None else Some([first.value.b] + rest.value)
  }

  /** `decode_query_component` */
  method DecodeQueryComponent(e: seq<byte>) returns (r: Option<string>)
    ensures r == DecodeComponent(e)
  {
    hide PercentDecode, HexValue;
    var bytes: seq<byte>, index: nat := [], 0;
    StartOfDecoding(e);
    while index < |e|
      invariant index <= |e|
      invariant PercentDecode(e) == Resumed(e[index..], bytes)
      decreases |e| - index
    {
      ghost var left := e[index..];
      var next: byte;
      if e[index] == PLUS {
        next := SPACE;
        index := index + 1;
      } else if e[index] == PERCENT {
        if index + 1 >= |e| || HexValue(e[index + 1]).None? { RefusedByte(left, bytes); return None; }
        if index + 2 >= |e| || HexValue(e[index + 2]).None? { RefusedByte(left, bytes); return None; }
        next := HexValue(e[index + 1]).value * 16 + HexValue(e[index + 2]).value;
        index := index + 3;
      } else {
        next := e[index];
        index := index + 1;
      }
      ghost var width := |left| - (|e| - index);
      assert left[width..] == e[index..];
      TookByte(left, next, width, bytes);
      bytes := bytes + [next];
    }
    EndOfDecoding(e[index..], bytes);
    return Decode(bytes);
  }

  /** The result, when `bytes` came before and `left` is still to be decoded. */
  function Resumed(left: seq<byte>, bytes: seq<byte>): Option<seq<byte>> {
    if PercentDecode(left).None? then None else Some(bytes + PercentDecode(left).value)
  }

  lemma StartOfDecoding(e: seq<byte>)
    ensures PercentDecode(e) == Resumed(e[0..], [])
  {
    assert e[0..] == e;
    if PercentDecode(e).Some? { assert [] + PercentDecode(e).value == PercentDecode(e).value; }
  }

  lemma TookByte(left: seq<byte>, next: byte, width: nat, bytes: seq<byte>)
    requires left != [] && TakeByte(left) == Some(Taken(next, width))
    ensures Resumed(left, bytes) == Resumed(left[width..], bytes + [next])
  {
    var rest := PercentDecode(left[width..]);
    if rest.Some? { assert bytes + ([next] + rest.value) == bytes + [next] + rest.value; }
  }

  lemma EndOfDecoding(left: seq<byte>, bytes: seq<byte>)
    requires left == []
    ensures Resumed(left, bytes) == Some(bytes)
  {
    assert bytes + [] == bytes;
  }

  lemma RefusedByte(left: seq<byte>, bytes: seq<byte>)
    requires left != [] && TakeByte(left).None?
    ensures Resumed(left, bytes) == None
  {
  }

  function DecodeComponent(e: seq<byte>): Option<string> {
    if PercentDecode(e).None? then None else Decode(PercentDecode(e).value)
  }

  lemma WritesIsTaken(e: seq<byte>, b: byte, rest: seq<byte>)
    requires Writes(e, b)
    ensures TakeByte(e + rest) == Some(Taken(b, |e|))
  {
  }

  lemma {:induction false} DecodesEncoding(parts: seq<seq<byte>>, encoded: seq<byte>, plain: seq<byte>)
    requires EncodesAs(parts, encoded, plain)
    ensures PercentDecode(encoded) == Some(plain)
    decreases |plain|
  {
    if plain != [] {
      var rest := Flatten(parts[1..]);
      WritesIsTaken(parts[0], plain[0], rest);
      assert encoded[|parts[0]|..] == rest;
      DecodesEncoding(parts[1..], rest, plain[1..]);
      assert plain == [plain[0]] + plain[1..];
    }
  }

  lemma {:induction false} DecodedIsEncoding(encoded: seq<byte>) returns (parts: seq<seq<byte>>)
    requires PercentDecode(encoded).Some?
    ensures EncodesAs(parts, encoded, PercentDecode(encoded).value)
    decreases |encoded|
  {
    if encoded == [] {
      parts := [];
    } else {
      var width := TakeByte(encoded).value.width;
      var more := DecodedIsEncoding(encoded[width..]);
      parts := [encoded[..width]] + more;
      assert parts[1..] == more;
      assert encoded == encoded[..width] + encoded[width..];
      assert Writes(encoded[..width], TakeByte(encoded).value.b);
    }
  }

  /** Decoding inverts encoding, on every string and every way of writing it, and accepts nothing else. */
  lemma DecodeIff(encoded: seq<byte>, text: string)
    ensures DecodeComponent(encoded) == Some(text) <==> Encodes(encoded, Encode(text))
  {
    if DecodeComponent(encoded) == Some(text) {
      var parts := DecodedIsEncoding(encoded);
      EncodeDecode(PercentDecode(encoded).value);
      assert EncodesAs(parts, encoded, Encode(text));
    }
    if Encodes(encoded, Encode(text)) {
      var parts :| EncodesAs(parts, encoded, Encode(text));
      DecodesEncoding(parts, encoded, Encode(text));
      DecodeEncode(text);
    }
  }

  // ---- one parameter ------------------------------------------------------------------------------

  /** A job id from its text; the UUID parser itself is not modelled. */
  type IdParser = string -> Option<nat>

  datatype Setting = Limit(n: nat) | Cursor(id: nat) | StatusIs(status: Status) | JobType(name: string)

  /** Where the first `=` is, or the length. */
  function EqualsAt(c: seq<byte>): (i: nat)
    ensures i <= |c| && (i < |c| ==> c[i] == EQUALS) && forall j :: 0 <= j < i ==> c[j] != EQUALS
  {
    if c == [] || c[0] == EQUALS then 0 else 1 + EqualsAt(c[1..])
  }

  function StatusOf(name: string): Option<Status> {
    if name == "queued" then Some(Queued) else if name == "running" then Some(Running)
    else if name == "retry_wait" then Some(RetryWait) else if name == "succeeded" then Some(Succeeded)
    else if name == "dead_letter" then Some(DeadLetter) else if name == "cancelled" then Some(Cancelled)
    else None
  }

  /** What a component sets, if it is valid on its own. */
  function SettingOf(c: seq<byte>, parseId: IdParser): Option<Setting> {
    var at := EqualsAt(c);
    var key, value := DecodeComponent(c[..at]), if at < |c| then DecodeComponent(c[at + 1..]) else Some([]);
    if key.None? || value.None? then None else NamedSetting(key.value, value.value, parseId)
  }

  function NamedSetting(key: string, value: string, parseId: IdParser): Option<Setting> {
    if key == "limit" then
      var n := ParseUnsigned(value, 0xFFFF);
      if n.Some? && 1 <= n.value <= MAX_LIMIT then Some(Limit(n.value)) else None
    else if key == "cursor" then
      if value == [] || Utf8Len(value) > MAX_CURSOR_BYTES || parseId(value).None? then None
      else Some(Cursor(parseId(value).value))
    else if key == "status" then
      if StatusOf(value).None? then None else Some(StatusIs(StatusOf(value).value))
    else if key == "jobType" then
      if value == [] || Utf8Len(value) > MAX_JOB_TYPE_BYTES || HasControl(value) then None else Some(JobType(value))
    else None
  }

  // ---- the whole query ----------------------------------------------------------------------------

  datatype Request = Request(limit: nat, cursor: Option<nat>, status: Option<Status>, jobType: Option<string>)

  /** The request so far, and whether a limit was given; the other parameters show in the request itself. */
  datatype Parsing = Parsing(request: Request, seenLimit: bool)

  const START := Parsing(Request(DEFAULT_LIMIT, None, None, None), false)

  predicate Seen(p: Parsing, s: Setting) {
    match s
    case Limit(_) => p.seenLimit
    case Cursor(_) => p.request.cursor.Some?
    case StatusIs(_) => p.request.status.Some?
    case JobType(_) => p.request.jobType.Some?
  }

  function Set(p: Parsing, s: Setting): Parsing {
    match s
    case Limit(n) => Parsing(p.request.(limit := n), true)
    case Cursor(id) => p.(request := p.request.(cursor := Some(id)))
    case StatusIs(status) => p.(request := p.request.(status := Some(status)))
    case JobType(name) => p.(request := p.request.(jobType := Some(name)))
  }

  /** A valid setting not seen before is recorded; every failure is the same `InvalidInput`. */
  function Record(p: Option<Parsing>, s: Option<Setting>): Option<Parsing> {
    if p.None? || s.None? || Seen(p.value, s.value) then None else Some(Set(p.value, s.value))
  }

  function RecordAll(settings: seq<Option<Setting>>): Option<Parsing> {
    if settings == [] then Some(START) else Record(RecordAll(settings[..|settings| - 1]), settings[|settings| - 1])
  }

  /** The loop over the components, which skips empty ones. */
  function Settings(components: seq<seq<byte>>, parseId: IdParser): seq<Option<Setting>> {
    if components == [] then []
    else
      var n := |components| - 1;
      Settings(components[..n], parseId) + if components[n] == [] then [] else [SettingOf(components[n], parseId)]
  }

  /** `str::split('&')` */
  function Split(q: seq<byte>): (r: seq<seq<byte>>)
    ensures r != []
  {
    if q == [] then [[]]
    else if q[0] == AMPERSAND then [[]] + Split(q[1..])
    else
      var rest := Split(q[1..]);
      [[q[0]] + rest[0]] + rest[1..]
  }

  function ParseQuery(raw: Option<seq<byte>>, parseId: IdParser): Option<Request> {
    if raw.None? then Some(START.request)
    else if |raw.value| > MAX_QUERY_BYTES then None
    else
      var p := RecordAll(Settings(Split(raw.value), parseId));
      if p.None? then None else Some(p.value.request)
  }

  /** `parse_job_list`; `None` is `InvalidInput`. */
  method ParseJobList(raw: Option<seq<byte>>, parseId: IdParser) returns (r: Option<Request>)
    ensures r == ParseQuery(raw, parseId)
  {
    if raw.None? { return Some(START.request); }
    if |raw.value| > MAX_QUERY_BYTES { return None; }
    var components := Split(raw.value);
    var p := START;
    for i := 0 to |components|
      invariant RecordAll(Settings(components[..i], parseId)) == Some(p)
    {
      NextComponent(components, i, parseId);
      if components[i] != [] {
        var s := ReadSetting(components[i], parseId);
        if s.None? || Seen(p, s.value) { return None; }
        p := Set(p, s.value);
      }
    }
    assert components[..|components|] == components;
    return Some(p.request);
  }

  method ReadSetting(c: seq<byte>, parseId: IdParser) returns (s: Option<Setting>)
    ensures s == SettingOf(c, parseId)
  {
    var at := EqualsAt(c);
    var key := DecodeQueryComponent(c[..at]);
    var value: Option<string> := Some([]);
    if at < |c| { value := DecodeQueryComponent(c[at + 1..]); }
    if key.None? || value.None? { return None; }
    return NamedSetting(key.value, value.value, parseId);
  }

  lemma NextComponent(components: seq<seq<byte>>, i: nat, parseId: IdParser)
    requires i < |components|
    ensures var before, s := RecordAll(Settings(components[..i], parseId)), SettingOf(components[i], parseId);
            && RecordAll(Settings(components[..i + 1], parseId))
              == (if components[i] == [] then before else Record(before, s))
            && (components[i] != [] && Record(before, s).None? ==> RecordAll(Settings(components, parseId)).None?)
  {
    hide SettingOf;
    var init, s := Settings(components[..i], parseId), SettingOf(components[i], parseId);
    assert components[..i + 1][..i] == components[..i];
    assert init + [] == init;
    assert (init + [s])[..|init|] == init;
    if components[i] != [] && Record(RecordAll(init), s).None? { FailureIsFinal(components, i + 1, parseId); }
  }

  lemma {:induction false} FailureIsFinal(components: seq<seq<byte>>, i: nat, parseId: IdParser)
    requires i <= |components| && RecordAll(Settings(components[..i], parseId)).None?
    ensures RecordAll(Settings(components, parseId)).None?
    decreases |components|
  {
    hide SettingOf;
    var n := |components| - 1;
    if i <= n {
      assert components[..n][..i] == components[..i];
      FailureIsFinal(components[..n], i, parseId);
      var init, s := Settings(components[..n], parseId), SettingOf(components[n], parseId);
      assert init + [] == init;
      assert (init + [s])[..|init|] == init;
    } else {
      assert components[..i] == components;
    }
  }

  // ---- what a query means -------------------------------------------------------------------------

  predicate SameKind(s: Setting, t: Setting) {
    s.Limit? == t.Limit? && s.Cursor? == t.Cursor? && s.StatusIs? == t.StatusIs?
  }

  /** Every component is valid on its own, and no parameter is given twice. */
  predicate WellFormed(settings: seq<Option<Setting>>) {
    && (forall i :: 0 <= i < |settings| ==> settings[i].Some?)
    && (forall i, j :: 0 <= i < j < |settings| ==> !SameKind(settings[i].value, settings[j].value))
  }

  /** The setting is in force: its field holds its value. */
  predicate InForce(s: Setting, r: Request) {
    match s
    case Limit(n) => r.limit == n
    case Cursor(id) => r.cursor == Some(id)
    case StatusIs(status) => r.status == Some(status)
    case JobType(name) => r.jobType == Some(name)
  }

  /** A setting of this kind was given. */
  predicate Given(settings: seq<Option<Setting>>, s: Setting) {
    exists i :: 0 <= i < |settings| && settings[i].Some? && SameKind(settings[i].value, s)
  }

  /**
   * The parser accepts exactly the well-formed queries, and then every given setting is in force, nothing else was
   * seen, and without a limit the default stands.
   */
  lemma {:induction false} QueryMeans(settings: seq<Option<Setting>>)
    ensures RecordAll(settings).Some? <==> WellFormed(settings)
    ensures RecordAll(settings).Some? ==>
              && (forall i :: 0 <= i < |settings| ==> InForce(settings[i].value, RecordAll(settings).value.request))
              && (forall s: Setting :: Seen(RecordAll(settings).value, s) <==> Given(settings, s))
              && (RecordAll(settings).value.seenLimit || RecordAll(settings).value.request.limit == DEFAULT_LIMIT)
    decreases |settings|
  {
    if settings != [] {
      var n := |settings| - 1;
      var init, last := settings[..n], settings[n];
      QueryMeans(init);
      assert forall i :: 0 <= i < n ==> init[i] == settings[i];
      if last.Some? && WellFormed(init) {
        assert Given(init, last.value) <==> exists i :: 0 <= i < n && SameKind(settings[i].value, last.value);
        if !Given(init, last.value) {
          forall s: Setting ensures Given(settings, s) <==> Given(init, s) || SameKind(last.value, s) {
            if Given(settings, s) {
              var i :| 0 <= i < |settings| && settings[i].Some? && SameKind(settings[i].value, s);
              if i < n { assert init[i] == settings[i]; }
            }
            if SameKind(last.value, s) { assert settings[n].Some?; }
          }
        }
      }
    }
  }

  // ---- the order of the components does not matter ------------------------------------------------

  lemma RecordCommutes(p: Option<Parsing>, s: Option<Setting>, t: Option<Setting>)
    ensures Record(Record(p, s), t) == Record(Record(p, t), s)
  {
  }

  /** A setting may be recorded last. */
  lemma {:induction false} RecordLast(a: seq<Option<Setting>>, s: Option<Setting>, b: seq<Option<Setting>>)
    ensures RecordAll(a + [s] + b) == Record(RecordAll(a + b), s)
    decreases |b|
  {
    if b == [] {
      assert a + [s] + b == a + [s] && a + b == a && (a + [s])[..|a|] == a;
    } else {
      var n := |b| - 1;
      assert (a + [s] + b)[..|a| + 1 + n] == a + [s] + b[..n] && (a + b)[..|a| + n] == a + b[..n];
      RecordLast(a, s, b[..n]);
      RecordCommutes(RecordAll(a + b[..n]), s, b[n]);
    }
  }

  lemma {:induction false} RecordPermuted(x: seq<Option<Setting>>, y: seq<Option<Setting>>)
    requires multiset(x) == multiset(y)
    ensures RecordAll(x) == RecordAll(y)
    decreases |x|
  {
    SameLength(x, y);
    if x != [] {
      var n, s := |x| - 1, x[|x| - 1];
      var a, b := TakeOutLast(x, y);
      RecordPermuted(x[..n], a + b);
      RecordLast(a, s, b);
    }
  }

  /** How often a component's setting occurs depends only on how often the components do. */
  lemma {:induction false} SettingsPermuted(x: seq<seq<byte>>, y: seq<seq<byte>>, parseId: IdParser)
    requires multiset(x) == multiset(y)
    ensures multiset(Settings(x, parseId)) == multiset(Settings(y, parseId))
    decreases |x|
  {
    hide Settings;
    SameLength(x, y);
    if x != [] {
      var n, c := |x| - 1, x[|x| - 1];
      var a, b := TakeOutLast(x, y);
      SettingsPermuted(x[..n], a + b, parseId);
      assert x == x[..n] + [c];
      SettingsConcat(x[..n], [c], parseId);
      SettingsAround(a, c, b, parseId);
    }
  }

  lemma SettingsAround(a: seq<seq<byte>>, c: seq<byte>, b: seq<seq<byte>>, parseId: IdParser)
    ensures multiset(Settings(a + [c] + b, parseId))
      == multiset(Settings(a + b, parseId)) + multiset(Settings([c], parseId))
  {
    hide Settings;
    SettingsConcat(a + [c], b, parseId);
    SettingsConcat(a, [c], parseId);
    SettingsConcat(a, b, parseId);
  }

  lemma {:induction false} SettingsConcat(a: seq<seq<byte>>, b: seq<seq<byte>>, parseId: IdParser)
    ensures Settings(a + b, parseId) == Settings(a, parseId) + Settings(b, parseId)
    decreases |b|
  {
    hide SettingOf;
    if b == [] {
      assert a + b == a;
    } else {
      var n := |b| - 1;
      assert (a + b)[..|a| + n] == a + b[..n] && (a + b)[|a| + n] == b[n];
      SettingsConcat(a, b[..n], parseId);
    }
  }

  /** The length of a query is that of its components and the ampersands between them. */
  function Size(components: seq<seq<byte>>): nat {
    if components == [] then 0 else Size(components[..|components| - 1]) + |components[|components| - 1]| + 1
  }

  lemma {:induction false} SizeConcat(a: seq<seq<byte>>, b: seq<seq<byte>>)
    ensures Size(a + b) == Size(a) + Size(b)
    decreases |b|
  {
    if b == [] {
      assert a + b == a;
    } else {
      var n := |b| - 1;
      assert (a + b)[..|a| + n] == a + b[..n] && (a + b)[|a| + n] == b[n];
      SizeConcat(a, b[..n]);
    }
  }

  lemma {:induction false} SizePermuted(x: seq<seq<byte>>, y: seq<seq<byte>>)
    requires multiset(x) == multiset(y)
    ensures Size(x) == Size(y)
    decreases |x|
  {
    SameLength(x, y);
    if x != [] {
      var n, c := |x| - 1, x[|x| - 1];
      var a, b := TakeOutLast(x, y);
      SizePermuted(x[..n], a + b);
      SizeConcat(a + [c], b);
      SizeConcat(a, [c]);
      SizeConcat(a, b);
    }
  }

  lemma {:induction false} SplitSize(q: seq<byte>)
    ensures Size(Split(q)) == |q| + 1
  {
    var empty: seq<byte> := [];
    SizeOfOne(empty);
    if q != [] {
      SplitSize(q[1..]);
      var rest := Split(q[1..]);
      if q[0] == AMPERSAND {
        SizeConcat([empty], rest);
      } else {
        var first := [q[0]] + rest[0];
        SizeConcat([first], rest[1..]);
        SizeConcat([rest[0]], rest[1..]);
        assert rest == [rest[0]] + rest[1..];
        SizeOfOne(first);
        SizeOfOne(rest[0]);
      }
    }
  }

  lemma SizeOfOne(c: seq<byte>)
    ensures Size([c]) == |c| + 1
  {
  }

  /** Permuting the components of a query changes neither the request nor whether it is refused. */
  lemma OrderDoesNotMatter(q: seq<byte>, r: seq<byte>, parseId: IdParser)
    requires multiset(Split(q)) == multiset(Split(r))
    ensures ParseQuery(Some(q), parseId) == ParseQuery(Some(r), parseId)
  {
    SplitSize(q);
    SplitSize(r);
    SizePermuted(Split(q), Split(r));
    SettingsPermuted(Split(q), Split(r), parseId);
    RecordPermuted(Settings(Split(q), parseId), Settings(Split(r), parseId));
  }
}
