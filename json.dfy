/**
 * A minimal model of the JSON library the service uses (Gson): JSON values,
 * the member accessors whose failures the service lets escape as exceptions,
 * and the compact writer that turns a request object into its text.
 */
module Json {
  import opened Wrappers
  import opened Java

  /** A JSON element. Numbers keep their literal text, as Gson's parsed numbers do. */
  datatype Json =
    | JNull
    | JBool(b: bool)
    | JNumber(literal: string)
    | JString(s: string)
    | JArray(items: seq<Json>)
    | JObject(members: seq<Member>)

  /** One `"key": value` member of an object, in insertion order. */
  datatype Member = Member(key: string, value: Json)

  // ---------------------------------------------------------------------------
  // Accessors
  // ---------------------------------------------------------------------------

  /**
   * `jsonObject.get(key)`: the value of the member named `key`, or `null`.
   * Gson's object keeps one entry per key and a later `add` of the same key
   * replaces the earlier value, so the last member named `key` is the one read.
   */
  function Get(members: seq<Member>, key: string): (r: Option<Json>)
    ensures r.None? <==> forall i :: 0 <= i < |members| ==> members[i].key != key
    ensures r.Some? ==> exists i :: 0 <= i < |members| && members[i] == Member(key, r.value)
                                    && forall j :: i < j < |members| ==> members[j].key != key
  {
    if members == [] then None
    else if members[|members| - 1].key == key then Some(members[|members| - 1].value)
    else Get(members[..|members| - 1], key)
  }

  /**
   * `element.getAsString()`: a string is itself, a number its literal text, a
   * boolean "true" or "false", and a one-element array the string of that
   * element; any other array is an IllegalStateException, and an object or
   * JSON null an UnsupportedOperationException.
   */
  function AsString(j: Json): Result<string, Exception>
  {
    match j
    case JString(s) => Success(s)
    case JNumber(lit) => Success(lit)
    case JBool(b) => Success(if b then "true" else "false")
    case JArray(items) =>
      if |items| == 1 then AsString(items[0]) else Failure(IllegalState)
    case JNull => Failure(UnsupportedOperation)
    case JObject(_) => Failure(UnsupportedOperation)
  }

  /** `element.getAsJsonObject()`: the members of an object, else IllegalStateException. */
  function AsObject(j: Json): Result<seq<Member>, Exception>
  {
    match j
    case JObject(ms) => Success(ms)
    case _ => Failure(IllegalState)
  }

  /** `obj.get(key).getAsString()`: a missing member makes `get` return null. */
  function StringMember(members: seq<Member>, key: string): Result<string, Exception>
  {
    match Get(members, key)
    case None => Failure(NullPointer)
    case Some(v) => AsString(v)
  }

  /** `obj.get(key).getAsJsonObject()`. */
  function ObjectMember(members: seq<Member>, key: string): Result<seq<Member>, Exception>
  {
    match Get(members, key)
    case None => Failure(NullPointer)
    case Some(v) => AsObject(v)
  }

  // ---------------------------------------------------------------------------
  // Writing
  // ---------------------------------------------------------------------------

  /** The lower-case hexadecimal digit for `k`, as `String.format("%04x")` writes it. */
  function HexChar(k: int): char
    requires 0 <= k < 16
  {
    if k < 10 then ('0' as int + k) as char else ('a' as int + k - 10) as char
  }

  /**
   * How Gson's writer emits one character inside a string literal (HTML
   * escaping disabled): quote and backslash are escaped, the common control
   * characters get their short escapes, other control characters and the
   * two Unicode line separators a `\uXXXX` escape; everything else is itself.
   */
  function EscapeChar(c: char): string
  {
    if c == '"' then "\\\""
    else if c == '\\' then "\\\\"
    else if c == '\t' then "\\t"
    else if c == '\U{8}' then "\\b"
    else if c == '\n' then "\\n"
    else if c == '\r' then "\\r"
    else if c == '\U{C}' then "\\f"
    else if (c as int) < 0x20 then "\\u00" + [HexChar(c as int / 16), HexChar(c as int % 16)]
    else if c == '\U{2028}' then "\\u2028"
    else if c == '\U{2029}' then "\\u2029"
    else [c]
  }

  function Escape(s: string): string
  {
    if s == [] then [] else EscapeChar(s[0]) + Escape(s[1..])
  }

  /** A string literal: the escaped text between double quotes. */
  function Quote(s: string): string
  {
    "\"" + Escape(s) + "\""
  }

  /** The compact text of a JSON element, as `gson.toJson` and `toString` write it. */
  function Write(j: Json): string
  {
    match j
    case JNull => "null"
    case JBool(b) => if b then "true" else "false"
    case JNumber(lit) => lit
    case JString(s) => Quote(s)
    case JArray(items) => "[" + WriteItems(items) + "]"
    case JObject(ms) => "{" + WriteMembers(ms) + "}"
  }

  function WriteItems(items: seq<Json>): string
  {
    if items == [] then ""
    else if |items| == 1 then Write(items[0])
    else Write(items[0]) + "," + WriteItems(items[1..])
  }

  function WriteMembers(ms: seq<Member>): string
  {
    if ms == [] then ""
    else
      var first := Quote(ms[0].key) + ":" + Write(ms[0].value);
      if |ms| == 1 then first else first + "," + WriteMembers(ms[1..])
  }

  /** How a three-member object's members are written. */
  lemma WriteThreeMembers(k1: string, v1: Json, k2: string, v2: Json, k3: string, v3: Json)
    ensures WriteMembers([Member(k1, v1), Member(k2, v2), Member(k3, v3)])
         == Quote(k1) + ":" + Write(v1) + "," + (Quote(k2) + ":" + Write(v2) + "," + (Quote(k3) + ":" + Write(v3)))
  {
    var ms := [Member(k1, v1), Member(k2, v2), Member(k3, v3)];
    assert ms[1..][1..] == ms[2..] == [Member(k3, v3)];
    assert WriteMembers(ms[2..]) == Quote(k3) + ":" + Write(v3);
    assert WriteMembers(ms[1..]) == Quote(k2) + ":" + Write(v2) + "," + WriteMembers(ms[2..]);
    assert WriteMembers(ms) == Quote(k1) + ":" + Write(v1) + "," + WriteMembers(ms[1..]);
  }

  // ---------------------------------------------------------------------------
  // Reading a string literal back: the partner of Quote
  // ---------------------------------------------------------------------------

  function HexValue(d: char): int
  {
    if '0' <= d <= '9' then d as int - '0' as int
    else if 'a' <= d <= 'f' then d as int - 'a' as int + 10
    else if 'A' <= d <= 'F' then d as int - 'A' as int + 10
    else -1
  }

  /** The character a `\uXXXX` escape with these four digits stands for, if any. */
  function UnicodeEscape(d: string): Option<char>
    requires |d| == 4
  {
    var v0, v1, v2, v3 := HexValue(d[0]), HexValue(d[1]), HexValue(d[2]), HexValue(d[3]);
    if v0 < 0 || v1 < 0 || v2 < 0 || v3 < 0 then None
    else
      var code := ((v0 * 16 + v1) * 16 + v2) * 16 + v3;
      if 0xD800 <= code < 0xE000 then None else Some(code as char)
  }

  /** The character an escape sequence at the start of `t` stands for, and its length. */
  function Unescape(t: string): (r: Option<(char, nat)>)
    requires |t| >= 2 && t[0] == '\\'
    ensures r.Some? ==> 2 <= r.value.1 <= |t|
  {
    match t[1]
    case '"' => Some(('"', 2))
    case '\\' => Some(('\\', 2))
    case '/' => Some(('/', 2))
    case 't' => Some(('\t', 2))
    case 'b' => Some(('\U{8}', 2))
    case 'n' => Some(('\n', 2))
    case 'r' => Some(('\r', 2))
    case 'f' => Some(('\U{C}', 2))
    case 'u' =>
      if |t| < 6 then None
      else (match UnicodeEscape(t[2..6])
        case None => None
        case Some(c) => Some((c, 6)))
    case _ => None
  }

  function Prepend(c: char, r: Option<(string, string)>): Option<(string, string)>
  {
    match r
    case None => None
    case Some((s, rest)) => Some(([c] + s, rest))
  }

  /**
   * Reads the body of a string literal whose opening quote has been consumed:
   * the decoded text up to the closing quote, and what follows it.
   */
  function ReadString(t: string): Option<(string, string)>
    decreases |t|
  {
    if t == [] then None
    else if t[0] == '"' then Some(("", t[1..]))
    else if t[0] != '\\' then Prepend(t[0], ReadString(t[1..]))
    else if |t| < 2 then None
    else match Unescape(t)
      case None => None
      case Some((c, n)) => Prepend(c, ReadString(t[n..]))
  }

  lemma HexCharValue(k: int)
    requires 0 <= k < 16
    ensures HexValue(HexChar(k)) == k
  {
  }

  /** Reading one written character back yields that character. */
  lemma ReadEscapeChar(c: char, t: string)
    ensures ReadString(EscapeChar(c) + t) == Prepend(c, ReadString(t))
  {
    var e := EscapeChar(c);
    var u := e + t;
    if (c as int) < 0x20 && c !in "\t\U{8}\n\r\U{C}" {
      var hi, lo := c as int / 16, c as int % 16;
      HexCharValue(hi);
      HexCharValue(lo);
      assert u[2..6] == ['0', '0', HexChar(hi), HexChar(lo)];
      assert Unescape(u) == Some((c, 6));
      assert u[6..] == t;
    } else if c == '\U{2028}' || c == '\U{2029}' {
      assert u[2..6] == e[2..6];
      assert Unescape(u) == Some((c, 6));
      assert u[6..] == t;
    } else if |e| == 2 {
      assert u[2..] == t;
    } else {
      assert e == [c];
      assert u[1..] == t;
    }
  }

  /** A quoted string reads back as itself, leaving the text after the quote. */
  lemma {:induction false} ReadQuoted(s: string, rest: string)
    ensures ReadString(Escape(s) + "\"" + rest) == Some((s, rest))
  {
    if s == [] {
      assert Escape(s) + "\"" + rest == "\"" + rest;
    } else {
      var tail := Escape(s[1..]) + "\"" + rest;
      assert Escape(s) + "\"" + rest == EscapeChar(s[0]) + tail;
      ReadEscapeChar(s[0], tail);
      ReadQuoted(s[1..], rest);
      assert [s[0]] + s[1..] == s;
    }
  }

  /** Writing a string is injective even when more text follows it. */
  lemma QuoteInjective(s1: string, rest1: string, s2: string, rest2: string)
    requires Quote(s1) + rest1 == Quote(s2) + rest2
    ensures s1 == s2 && rest1 == rest2
  {
    var t1 := Escape(s1) + "\"" + rest1;
    var t2 := Escape(s2) + "\"" + rest2;
    assert Quote(s1) + rest1 == "\"" + t1;
    assert Quote(s2) + rest2 == "\"" + t2;
    assert t1 == (Quote(s1) + rest1)[1..];
    ReadQuoted(s1, rest1);
    ReadQuoted(s2, rest2);
  }
}
