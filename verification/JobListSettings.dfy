// What one component of a job list's query string sets, told from its key and its value.
module JobListSettings {
  import opened JobListQuery
  import opened JobQueue
  import opened Numerals
  import opened Text
  import opened Utf8

  /** The API's name of a status. */
  function StatusName(status: Status): string {
    match status
    case Queued => "queued"
    case Running => "running"
    case RetryWait => "retry_wait"
    case Succeeded => "succeeded"
    case DeadLetter => "dead_letter"
    case Cancelled => "cancelled"
  }

  /** A limit from 1 to 100; a cursor of at most 64 bytes; a status by name; a job type of at most 128 plain bytes. */
  ghost predicate Says(key: string, value: string, s: Setting, parseId: IdParser) {
    match s
    case Limit(n) =>
      key == "limit" && 1 <= n <= 100
      && exists plus, digits :: IsNumeral(value, plus, digits) && AllDigits(digits) && Value(digits) == n
    case Cursor(id) => key == "cursor" && value != [] && Utf8Len(value) <= 64 && parseId(value) == Some(id)
    case StatusIs(status) => key == "status" && value == StatusName(status)
    case JobType(name) =>
      key == "jobType" && value == name && name != [] && Utf8Len(name) <= 128
      && forall i :: 0 <= i < |name| ==> !IsControl(name[i])
  }

  lemma StatusIff(name: string, status: Status)
    ensures StatusOf(name) == Some(status) <==> name == StatusName(status)
  {
  }

  lemma KeysDiffer()
    ensures "limit" != "cursor" && "limit" != "status" && "limit" != "jobType"
    ensures "cursor" != "status" && "cursor" != "jobType" && "status" != "jobType"
  {
    assert "limit"[0] == 'l' && "cursor"[0] == 'c' && "status"[0] == 's' && "jobType"[0] == 'j';
  }

  lemma NamedSettingIff(key: string, value: string, s: Setting, parseId: IdParser)
    ensures NamedSetting(key, value, parseId) == Some(s) <==> Says(key, value, s, parseId)
  {
    KeysDiffer();
    match s
    case Limit(n) => UnsignedIff(value, 0xFFFF, n);
    case StatusIs(status) => StatusIff(value, status);
    case _ =>
  }

  /** The value of a hexadecimal digit is its place among the digits, small or capital. */
  lemma HexIsPlace(b: byte, v: nat)
    requires v < 16
    ensures HexValue(b) == Some(v) <==>
            b == "0123456789abcdef"[v] as int || b == "0123456789ABCDEF"[v] as int
  {
    assert "0123456789abcdef"
        == ['0', '1', '2', '3', '4', '5', '6', '7', '8', '9', 'a', 'b', 'c', 'd', 'e', 'f'];
    assert "0123456789ABCDEF"
        == ['0', '1', '2', '3', '4', '5', '6', '7', '8', '9', 'A', 'B', 'C', 'D', 'E', 'F'];
  }

  /** The bytes of a component: the encoded key, an equals sign, and the encoded value. */
  ghost predicate Component(c: seq<byte>, key: string, value: string) {
    exists k, v :: c == k + [EQUALS] + v && EQUALS !in k && Encodes(k, Encode(key)) && Encodes(v, Encode(value))
  }

  lemma EqualsIsFirst(k: seq<byte>, v: seq<byte>)
    requires EQUALS !in k
    ensures EqualsAt(k + [EQUALS] + v) == |k|
  {
    var c, at := k + [EQUALS] + v, EqualsAt(k + [EQUALS] + v);
    assert c[|k|] == EQUALS;
    assert forall i :: 0 <= i < |k| ==> c[i] == k[i] && k[i] in k;
  }

  lemma SettingSays(c: seq<byte>, parseId: IdParser, s: Setting) returns (key: string, value: string)
    requires SettingOf(c, parseId) == Some(s)
    ensures Component(c, key, value) && Says(key, value, s, parseId)
  {
    hide NamedSetting, DecodeComponent, Encodes, Says;
    var at := EqualsAt(c);
    key := DecodeComponent(c[..at]).value;
    value := (if at < |c| then DecodeComponent(c[at + 1..]) else Some([])).value;
    NamedSettingIff(key, value, s, parseId);
    NothingSaysNothing(key, value, s, parseId);
    DecodeIff(c[..at], key);
    DecodeIff(c[at + 1..], value);
    assert c == c[..at] + [EQUALS] + c[at + 1..];
    assert EQUALS !in c[..at];
  }

  lemma SaidIsSet(c: seq<byte>, parseId: IdParser, s: Setting, key: string, value: string)
    requires Component(c, key, value) && Says(key, value, s, parseId)
    ensures SettingOf(c, parseId) == Some(s)
  {
    hide NamedSetting, DecodeComponent, Encodes, Says;
    var k, v :| c == k + [EQUALS] + v && EQUALS !in k && Encodes(k, Encode(key)) && Encodes(v, Encode(value));
    EqualsIsFirst(k, v);
    assert c[..|k|] == k && c[|k| + 1..] == v;
    DecodeIff(k, key);
    DecodeIff(v, value);
    NamedSettingIff(key, value, s, parseId);
  }

  /** A component sets something exactly when its key and value, decoded, say so. */
  lemma SettingIff(c: seq<byte>, parseId: IdParser, s: Setting)
    ensures SettingOf(c, parseId) == Some(s) <==>
            exists key, value :: Component(c, key, value) && Says(key, value, s, parseId)
  {
    hide SettingOf, Component, Says;
    if SettingOf(c, parseId) == Some(s) { var key, value := SettingSays(c, parseId, s); }
    if key, value :| Component(c, key, value) && Says(key, value, s, parseId) {
      SaidIsSet(c, parseId, s, key, value);
    }
  }

  /** No setting has an empty value. */
  lemma NothingSaysNothing(key: string, value: string, s: Setting, parseId: IdParser)
    requires Says(key, value, s, parseId)
    ensures value != []
  {
  }

  /** The components with ampersands between them. */
  function Joined(parts: seq<seq<byte>>): seq<byte>
    requires parts != []
  {
    if |parts| == 1 then parts[0] else parts[0] + [AMPERSAND] + Joined(parts[1..])
  }

  /** Splitting is undone by joining, and no component has an ampersand. */
  lemma {:induction false} SplitJoins(q: seq<byte>)
    ensures Joined(Split(q)) == q && forall i :: 0 <= i < |Split(q)| ==> AMPERSAND !in Split(q)[i]
  {
    if q != [] {
      SplitJoins(q[1..]);
      var rest := Split(q[1..]);
      assert q == [q[0]] + q[1..];
      if q[0] == AMPERSAND {
        assert ([[]] + rest)[1..] == rest;
      } else {
        var first := [q[0]] + rest[0];
        assert ([first] + rest[1..])[1..] == rest[1..];
      }
    }
  }

  /** A query too long is refused; without one the default stands: fifty jobs from the newest, of every kind. */
  lemma QueryBounds(raw: Option<seq<byte>>, parseId: IdParser)
    ensures raw.None? ==> ParseQuery(raw, parseId) == Some(Request(50, None, None, None))
    ensures raw.Some? && |raw.value| > 2048 ==> ParseQuery(raw, parseId) == None
    ensures raw.Some? && |raw.value| <= 2048 && ParseQuery(raw, parseId).None? ==>
              !WellFormed(Settings(Split(raw.value), parseId))
  {
    if raw.Some? { QueryMeans(Settings(Split(raw.value), parseId)); }
  }
}
