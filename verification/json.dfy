/**
 * JSON values and their compact text, as `JSON.stringify(value)` (section
 * 25.5.2 of ECMA-262) produces it with no indentation argument, and the
 * UTF-8 byte size of that text, which is what the client's outbound
 * message-size check measures.
 */
module Json {
  import opened Wrappers
  import Text
  import Utf8

  /**
   * A JSON value.  Numbers are integers; strings are sequences of Unicode
   * scalar values; an object is its own enumerable properties in order.
   */
  datatype Json =
    | Null
    | Bool(b: bool)
    | Int(i: int)
    | Str(s: string)
    | Arr(items: seq<Json>)
    | Obj(members: seq<(string, Json)>)

  /** JSON whitespace other than the space character (section 2 of RFC 8259). */
  predicate IsLineSpace(c: char) {
    c == '\t' || c == '\n' || c == '\r'
  }

  function HexDigit(d: int): (c: char)
    requires 0 <= d < 16
  {
    if d < 10 then Text.DigitChar(d) else (('a' as int) + d - 10) as char
  }

  /** Characters that `JSON.stringify` writes with a short two-character escape. */
  predicate HasShortEscape(c: char) {
    c == '"' || c == '\\' || c as int == 0x08 || c == '\t' || c == '\n' || c as int == 0x0C || c == '\r'
  }

  /** Characters that may not appear raw in a JSON string (section 7 of RFC 8259). */
  predicate MustEscape(c: char) {
    c == '"' || c == '\\' || c as int < 0x20
  }

  /**
   * The text one character becomes inside a JSON string: a short escape
   * for quote, backslash and the five named controls, `\u00xx` with
   * lower-case hex for the other controls below U+0020, itself otherwise.
   */
  function EscapeChar(c: char): (e: string)
    ensures !MustEscape(c) ==> e == [c]
    ensures MustEscape(c) ==> |e| >= 2 && e[0] == '\\'
    ensures forall i :: 0 <= i < |e| ==> !IsLineSpace(e[i]) && (e[i] == ' ' ==> c == ' ')
  {
    var n := c as int;
    if c == '"' then "\\\""
    else if c == '\\' then "\\\\"
    else if n == 0x08 then "\\b"
    else if c == '\t' then "\\t"
    else if c == '\n' then "\\n"
    else if n == 0x0C then "\\f"
    else if c == '\r' then "\\r"
    else if n < 0x20 then ['\\', 'u', '0', '0', HexDigit(n / 16), HexDigit(n % 16)]
    else [c]
  }

  /** The body of a JSON string literal: every character escaped as needed. */
  function Escape(s: string): (e: string)
    ensures |e| >= |s|
  {
    if s == [] then [] else EscapeChar(s[0]) + Escape(s[1..])
  }

  /** A complete JSON string literal. */
  function Quote(s: string): (q: string)
    ensures |q| >= 2 && q[0] == '"' && q[|q| - 1] == '"'
  {
    "\"" + Escape(s) + "\""
  }

  /** The compact serialisation: no whitespace between tokens. */
  function Serialize(v: Json): (t: string)
    ensures |t| >= 1
    ensures v.Obj? ==> |t| >= 2 && t[0] == '{' && t[|t| - 1] == '}'
    ensures v.Arr? ==> |t| >= 2 && t[0] == '[' && t[|t| - 1] == ']'
    ensures v.Str? ==> |t| >= 2 && t[0] == '"' && t[|t| - 1] == '"'
    ensures v.Int? ==> (t[0] == '-' <==> v.i < 0)
    decreases v, 1
  {
    match v
    case Null => "null"
    case Bool(b) => if b then "true" else "false"
    case Int(i) => Text.IntText(i)
    case Str(s) => Quote(s)
    case Arr(xs) => "[" + SerializeItems(xs) + "]"
    case Obj(ms) => "{" + SerializeMembers(ms) + "}"
  }

  /** Array elements separated by commas. */
  function SerializeItems(xs: seq<Json>): string
    decreases xs, 0
  {
    if xs == [] then ""
    else if |xs| == 1 then Serialize(xs[0])
    else Serialize(xs[0]) + "," + SerializeItems(xs[1..])
  }

  /** `"key":value` pairs separated by commas. */
  function SerializeMembers(ms: seq<(string, Json)>): string
    decreases ms, 0
  {
    if ms == [] then ""
    else
      assert ms[0].1 < ms[0] && ms[0] in ms;
      var m := Quote(ms[0].0) + ":" + Serialize(ms[0].1);
      if |ms| == 1 then m else m + "," + SerializeMembers(ms[1..])
  }

  /**
   * The value stored under `key` among an object's members.  With a
   * repeated key the last occurrence wins, as `JSON.parse` builds objects.
   */
  function Lookup(ms: seq<(string, Json)>, key: string): (r: Option<Json>)
    ensures r.Some? <==> exists i :: 0 <= i < |ms| && ms[i].0 == key
    ensures r.Some? ==> exists i :: 0 <= i < |ms| && ms[i] == (key, r.value)
                                    && forall j :: i < j < |ms| ==> ms[j].0 != key
  {
    if ms == [] then None
    else if ms[|ms| - 1].0 == key then Some(ms[|ms| - 1].1)
    else
      var r := Lookup(ms[..|ms| - 1], key);
      assert forall i :: 0 <= i < |ms| - 1 ==> ms[..|ms| - 1][i] == ms[i];
      r
  }

  // ---------------------------------------------------------------------
  // Byte sizes computed directly from the value, without building text.

  /** Bytes one character takes inside a JSON string. */
  function EscapedSize(c: char): nat {
    if HasShortEscape(c) then 2
    else if c as int < 0x20 then 6
    else Utf8.Width(c)
  }

  /** Bytes of the escaped body of a JSON string. */
  function BodySize(s: string): nat {
    if s == [] then 0 else EscapedSize(s[0]) + BodySize(s[1..])
  }

  /** Bytes of a JSON string literal: two quotes plus the escaped body. */
  function StringSize(s: string): nat {
    2 + BodySize(s)
  }

  /** Byte size of the compact serialisation of `v`. */
  function SizeOf(v: Json): nat
    decreases v, 1
  {
    match v
    case Null => 4
    case Bool(b) => if b then 4 else 5
    case Int(i) => if i < 0 then 1 + Text.DigitCount(-i) else Text.DigitCount(i)
    case Str(s) => StringSize(s)
    case Arr(xs) => 2 + ItemsSize(xs)
    case Obj(ms) => 2 + MembersSize(ms)
  }

  function ItemsSize(xs: seq<Json>): nat
    decreases xs, 0
  {
    if xs == [] then 0
    else if |xs| == 1 then SizeOf(xs[0])
    else SizeOf(xs[0]) + 1 + ItemsSize(xs[1..])
  }

  function MembersSize(ms: seq<(string, Json)>): nat
    decreases ms, 0
  {
    if ms == [] then 0
    else
      assert ms[0].1 < ms[0] && ms[0] in ms;
      var m := StringSize(ms[0].0) + 1 + SizeOf(ms[0].1);
      if |ms| == 1 then m else m + 1 + MembersSize(ms[1..])
  }

  /** The number of UTF-8 bytes of `JSON.stringify(v)`. */
  function ByteSize(v: Json): nat {
    |Utf8.Encode(Serialize(v))|
  }

  /**
   * The outbound size check: the serialised value fits in `max` bytes.
   * The bound is inclusive.
   */
  function WithinLimit(v: Json, max: int): (r: bool)
    ensures r <==> SizeOf(v) <= max
  {
    SerializedSize(v);
    ByteSize(v) <= max
  }

  // ---------------------------------------------------------------------
  // The byte count of the text equals the directly computed size.

  lemma EscapeCharSize(c: char)
    ensures Utf8.Length(EscapeChar(c)) == EscapedSize(c)
  {
    var e := EscapeChar(c);
    if MustEscape(c) {
      assert forall i :: 0 <= i < |e| ==> e[i] as int < 0x80;
      Utf8.AsciiLength(e);
    } else {
      assert e == [c] + [];
    }
  }

  lemma {:induction false} EscapeSize(s: string)
    ensures Utf8.Length(Escape(s)) == BodySize(s)
  {
    if s != [] {
      Utf8.LengthAppend(EscapeChar(s[0]), Escape(s[1..]));
      EscapeCharSize(s[0]);
      EscapeSize(s[1..]);
    }
  }

  lemma QuoteSize(s: string)
    ensures Utf8.Length(Quote(s)) == StringSize(s)
  {
    Utf8.LengthAppend("\"", Escape(s));
    Utf8.LengthAppend("\"" + Escape(s), "\"");
    EscapeSize(s);
  }

  lemma AsciiTextLength(t: string)
    requires forall i :: 0 <= i < |t| ==> t[i] as int < 0x80
    ensures Utf8.Length(t) == |t|
  {
    Utf8.AsciiLength(t);
  }

  lemma KeywordLengths()
    ensures Utf8.Length("null") == 4 && Utf8.Length("true") == 4 && Utf8.Length("false") == 5
  {
    AsciiTextLength("null");
    AsciiTextLength("true");
    AsciiTextLength("false");
  }

  /** A number's text is ASCII: one byte per character. */
  lemma IntTextLength(i: int)
    ensures Utf8.Length(Text.IntText(i)) == if i < 0 then 1 + Text.DigitCount(-i) else Text.DigitCount(i)
  {
    var t := Text.IntText(i);
    assert forall k :: 0 <= k < |t| ==> t[k] as int < 0x80;
    AsciiTextLength(t);
    if i < 0 {
      Text.NatTextLength(-i);
    } else {
      Text.NatTextLength(i);
    }
  }

  lemma {:induction false} SerializeLength(v: Json)
    ensures Utf8.Length(Serialize(v)) == SizeOf(v)
    decreases v, 1
  {
    match v
    case Null =>
      KeywordLengths();
    case Bool(b) =>
      KeywordLengths();
    case Int(i) =>
      IntTextLength(i);
    case Str(s) =>
      QuoteSize(s);
    case Arr(xs) =>
      Utf8.LengthAppend("[", SerializeItems(xs));
      Utf8.LengthAppend("[" + SerializeItems(xs), "]");
      ItemsLength(xs);
    case Obj(ms) =>
      Utf8.LengthAppend("{", SerializeMembers(ms));
      Utf8.LengthAppend("{" + SerializeMembers(ms), "}");
      MembersLength(ms);
  }

  lemma {:induction false} ItemsLength(xs: seq<Json>)
    ensures Utf8.Length(SerializeItems(xs)) == ItemsSize(xs)
    decreases xs, 0
  {
    if xs != [] {
      SerializeLength(xs[0]);
      if |xs| > 1 {
        ItemsLength(xs[1..]);
        Utf8.LengthAppend(Serialize(xs[0]), ",");
        Utf8.LengthAppend(Serialize(xs[0]) + ",", SerializeItems(xs[1..]));
      }
    }
  }

  lemma {:induction false} MembersLength(ms: seq<(string, Json)>)
    ensures Utf8.Length(SerializeMembers(ms)) == MembersSize(ms)
    decreases ms, 0
  {
    if ms != [] {
      assert ms[0].1 < ms[0] && ms[0] in ms;
      var (k, x) := ms[0];
      SerializeLength(x);
      QuoteSize(k);
      Utf8.LengthAppend(Quote(k), ":");
      Utf8.LengthAppend(Quote(k) + ":", Serialize(x));
      if |ms| > 1 {
        var m := Quote(k) + ":" + Serialize(x);
        MembersLength(ms[1..]);
        Utf8.LengthAppend(m, ",");
        Utf8.LengthAppend(m + ",", SerializeMembers(ms[1..]));
      }
    }
  }

  /** The size check measures exactly the UTF-8 bytes of the serialisation. */
  lemma SerializedSize(v: Json)
    ensures ByteSize(v) == SizeOf(v)
  {
    Utf8.EncodeLength(Serialize(v));
    SerializeLength(v);
  }

  // ---------------------------------------------------------------------
  // No whitespace between tokens.

  /** Whitespace in the sense of section 2 of RFC 8259. */
  predicate IsWhitespace(c: char) {
    c == ' ' || IsLineSpace(c)
  }

  predicate NoLineSpaceIn(t: string) {
    forall i :: 0 <= i < |t| ==> !IsLineSpace(t[i])
  }

  predicate NoWhitespaceIn(t: string) {
    forall i :: 0 <= i < |t| ==> !IsWhitespace(t[i])
  }

  predicate SpaceFreeText(s: string) {
    forall i :: 0 <= i < |s| ==> s[i] != ' '
  }

  /** No string or key anywhere inside `v` contains a space character. */
  predicate SpaceFree(v: Json)
    decreases v, 1
  {
    match v
    case Str(s) => SpaceFreeText(s)
    case Arr(xs) => forall i :: 0 <= i < |xs| ==> SpaceFree(xs[i])
    case Obj(ms) => forall i :: 0 <= i < |ms| ==> MemberSpaceFree(ms[i])
    case _ => true
  }

  predicate MemberSpaceFree(m: (string, Json))
    decreases m, 0
  {
    assert m.1 < m;
    SpaceFreeText(m.0) && SpaceFree(m.1)
  }

  lemma Concat3Whitespace(a: string, b: string, c: string)
    ensures NoLineSpaceIn(a) && NoLineSpaceIn(b) && NoLineSpaceIn(c) ==> NoLineSpaceIn(a + b + c)
    ensures NoWhitespaceIn(a) && NoWhitespaceIn(b) && NoWhitespaceIn(c) ==> NoWhitespaceIn(a + b + c)
  {
  }

  lemma {:induction false} EscapeWhitespace(s: string)
    ensures NoLineSpaceIn(Escape(s))
    ensures SpaceFreeText(s) ==> NoWhitespaceIn(Escape(s))
  {
    if s != [] {
      EscapeWhitespace(s[1..]);
      assert Escape(s) == EscapeChar(s[0]) + Escape(s[1..]);
    }
  }

  /**
   * The serialisation never contains a tab, line feed or carriage return,
   * and contains a space only where one of the value's own strings does:
   * `JSON.stringify` without an indent puts no whitespace between tokens.
   */
  lemma KeywordWhitespace()
    ensures NoWhitespaceIn("null") && NoWhitespaceIn("true") && NoWhitespaceIn("false")
    ensures NoLineSpaceIn("null") && NoLineSpaceIn("true") && NoLineSpaceIn("false")
  {
  }

  /** A number's text is a sign and digits. */
  lemma IntWhitespace(i: int)
    ensures NoWhitespaceIn(Text.IntText(i)) && NoLineSpaceIn(Text.IntText(i))
  {
    var t := Text.IntText(i);
    assert forall k :: 0 <= k < |t| ==> t[k] == '-' || Text.IsDigit(t[k]);
  }

  lemma {:induction false} SerializeWhitespace(v: Json)
    ensures NoLineSpaceIn(Serialize(v))
    ensures SpaceFree(v) ==> NoWhitespaceIn(Serialize(v))
    decreases v, 1
  {
    match v
    case Null =>
      KeywordWhitespace();
    case Bool(b) =>
      KeywordWhitespace();
    case Int(i) =>
      IntWhitespace(i);
    case Str(s) =>
      EscapeWhitespace(s);
      Concat3Whitespace("\"", Escape(s), "\"");
    case Arr(xs) =>
      ItemsWhitespace(xs);
      Concat3Whitespace("[", SerializeItems(xs), "]");
    case Obj(ms) =>
      MembersWhitespace(ms);
      Concat3Whitespace("{", SerializeMembers(ms), "}");
  }

  lemma {:induction false} ItemsWhitespace(xs: seq<Json>)
    ensures NoLineSpaceIn(SerializeItems(xs))
    ensures (forall i :: 0 <= i < |xs| ==> SpaceFree(xs[i])) ==> NoWhitespaceIn(SerializeItems(xs))
    decreases xs, 0
  {
    if xs != [] {
      SerializeWhitespace(xs[0]);
      if |xs| > 1 {
        ItemsWhitespace(xs[1..]);
        assert forall i :: 0 <= i < |xs[1..]| ==> xs[1..][i] == xs[i + 1];
        Concat3Whitespace(Serialize(xs[0]), ",", SerializeItems(xs[1..]));
      }
    }
  }

  lemma {:induction false} MemberWhitespace(m: (string, Json))
    ensures NoLineSpaceIn(Quote(m.0) + ":" + Serialize(m.1))
    ensures MemberSpaceFree(m) ==> NoWhitespaceIn(Quote(m.0) + ":" + Serialize(m.1))
    decreases m, 0
  {
    assert m.1 < m;
    SerializeWhitespace(m.1);
    EscapeWhitespace(m.0);
    Concat3Whitespace("\"", Escape(m.0), "\"");
    Concat3Whitespace(Quote(m.0), ":", Serialize(m.1));
  }

  lemma {:induction false} MembersWhitespace(ms: seq<(string, Json)>)
    ensures NoLineSpaceIn(SerializeMembers(ms))
    ensures (forall i :: 0 <= i < |ms| ==> MemberSpaceFree(ms[i])) ==> NoWhitespaceIn(SerializeMembers(ms))
    decreases ms, 0
  {
    if ms != [] {
      assert ms[0] in ms;
      MemberWhitespace(ms[0]);
      if |ms| > 1 {
        MembersWhitespace(ms[1..]);
        assert forall i :: 0 <= i < |ms[1..]| ==> ms[1..][i] == ms[i + 1];
        Concat3Whitespace(Quote(ms[0].0) + ":" + Serialize(ms[0].1), ",", SerializeMembers(ms[1..]));
      }
    }
  }

  // ---------------------------------------------------------------------
  // Reading an escaped string body back (section 7 of RFC 8259).

  function HexValue(c: char): Option<nat> {
    if '0' <= c <= '9' then Some(c as int - '0' as int)
    else if 'a' <= c <= 'f' then Some(c as int - 'a' as int + 10)
    else if 'A' <= c <= 'F' then Some(c as int - 'A' as int + 10)
    else None
  }

  /** Four hex digits as a 16-bit code unit. */
  function Hex4(h: string): (r: Option<nat>)
    requires |h| == 4
    ensures r.Some? ==> r.value < 0x10000
  {
    match (HexValue(h[0]), HexValue(h[1]), HexValue(h[2]), HexValue(h[3]))
    case (Some(a), Some(b), Some(c), Some(d)) =>
      if a < 16 && b < 16 && c < 16 && d < 16 then Some(((a * 16 + b) * 16 + c) * 16 + d) else None
    case _ => None
  }

  /** The character a short escape `\x` stands for. */
  function ShortEscape(x: char): Option<char> {
    if x == '"' then Some('"')
    else if x == '\\' then Some('\\')
    else if x == '/' then Some('/')
    else if x == 'b' then Some(0x08 as char)
    else if x == 'f' then Some(0x0C as char)
    else if x == 'n' then Some('\n')
    else if x == 'r' then Some('\r')
    else if x == 't' then Some('\t')
    else None
  }

  /**
   * Reads the first character of an escaped string body, with the number
   * of text characters it used: a raw character, a short escape, a
   * `\uXXXX` escape, or a surrogate pair of two such escapes.
   */
  function UnescapeFirst(e: string): (r: Option<(char, nat)>)
    ensures r.Some? ==> 1 <= r.value.1 <= |e|
  {
    if |e| == 0 then None
    else if e[0] != '\\' then
      if MustEscape(e[0]) then None else Some((e[0], 1))
    else if |e| < 2 then None
    else if e[1] != 'u' then
      match ShortEscape(e[1])
      case None => None
      case Some(c) => Some((c, 2))
    else if |e| < 6 then None
    else
      match Hex4(e[2..6])
      case None => None
      case Some(n) =>
        if n < 0xD800 || 0xE000 <= n then Some((n as char, 6))
        else if 0xDC00 <= n || |e| < 12 || e[6] != '\\' || e[7] != 'u' then None
        else
          match Hex4(e[8..12])
          case None => None
          case Some(m) =>
            if 0xDC00 <= m < 0xE000 then
              Some(((0x10000 + (n - 0xD800) * 0x400 + (m - 0xDC00)) as char, 12))
            else None
  }

  /** Reads a whole escaped string body; `None` if it is not well formed. */
  function Unescape(e: string): Option<string>
    decreases |e|
  {
    if e == [] then Some([])
    else
      match UnescapeFirst(e)
      case None => None
      case Some((c, k)) =>
        match Unescape(e[k..])
        case None => None
        case Some(rest) => Some([c] + rest)
  }

  lemma HexDigitValue(d: int)
    requires 0 <= d < 16
    ensures HexValue(HexDigit(d)) == Some(d)
  {
  }

  lemma UnescapeFirstEscapeChar(c: char, rest: string)
    ensures UnescapeFirst(EscapeChar(c) + rest) == Some((c, |EscapeChar(c)|))
  {
    var n := c as int;
    var e := EscapeChar(c) + rest;
    if MustEscape(c) && !HasShortEscape(c) {
      HexDigitValue(n / 16);
      HexDigitValue(n % 16);
      assert e[2..6] == ['0', '0', HexDigit(n / 16), HexDigit(n % 16)];
    }
  }

  /** Unescaping inverts escaping: every string survives the round trip. */
  lemma {:induction false} UnescapeEscape(s: string)
    ensures Unescape(Escape(s)) == Some(s)
  {
    if s != [] {
      var e := Escape(s);
      var head := EscapeChar(s[0]);
      assert e == head + Escape(s[1..]);
      UnescapeFirstEscapeChar(s[0], Escape(s[1..]));
      assert UnescapeFirst(e) == Some((s[0], |head|));
      assert e[|head|..] == Escape(s[1..]);
      UnescapeEscape(s[1..]);
      assert Unescape(e) == Some([s[0]] + s[1..]);
      assert [s[0]] + s[1..] == s;
    }
  }

  /** Hence two different strings never serialise to the same literal. */
  lemma QuoteInjective(a: string, b: string)
    requires Quote(a) == Quote(b)
    ensures a == b
  {
    assert Escape(a) == Quote(a)[1..|Quote(a)| - 1];
    assert Escape(b) == Quote(b)[1..|Quote(b)| - 1];
    UnescapeEscape(a);
    UnescapeEscape(b);
  }

  // ---------------------------------------------------------------------
  // Size facts used for concrete values.

  /** A character `JSON.stringify` copies unchanged and UTF-8 stores in one byte. */
  predicate IsPlainAscii(c: char) {
    0x20 <= c as int < 0x80 && c != '"' && c != '\\'
  }

  /** Plain ASCII text costs one byte per character inside a string literal. */
  lemma {:induction false} PlainBodySize(s: string)
    requires forall i :: 0 <= i < |s| ==> IsPlainAscii(s[i])
    ensures BodySize(s) == |s|
  {
    if s != [] {
      PlainBodySize(s[1..]);
    }
  }

  lemma {:induction false} BodySizeAppend(a: string, b: string)
    ensures BodySize(a + b) == BodySize(a) + BodySize(b)
  {
    if a == [] {
      assert a + b == b;
    } else {
      assert (a + b)[1..] == a[1..] + b;
      BodySizeAppend(a[1..], b);
    }
  }

  /**
   * A string with nothing to escape costs its two quotes plus the UTF-8
   * bytes of its content, whatever the character count.
   */
  lemma {:induction false} UnescapedStringSize(s: string)
    requires forall i :: 0 <= i < |s| ==> !MustEscape(s[i])
    ensures StringSize(s) == 2 + Utf8.Length(s)
  {
    if s != [] {
      UnescapedStringSize(s[1..]);
    }
  }

  /** The limit is inclusive: a value fits its own size and not one byte less. */
  lemma ExactLimit(v: Json)
    ensures WithinLimit(v, ByteSize(v))
    ensures !WithinLimit(v, ByteSize(v) - 1)
  {
    SerializedSize(v);
  }

  /** Size of a one-member object: braces, key, colon, value. */
  lemma Object1Size(k: string, v: Json)
    ensures SizeOf(Obj([(k, v)])) == 3 + StringSize(k) + SizeOf(v)
  {
    assert MembersSize([(k, v)]) == StringSize(k) + 1 + SizeOf(v);
  }

  /** Size of a two-member object: braces, two colons, one comma. */
  lemma Object2Size(k1: string, v1: Json, k2: string, v2: Json)
    ensures SizeOf(Obj([(k1, v1), (k2, v2)])) == 5 + StringSize(k1) + SizeOf(v1) + StringSize(k2) + SizeOf(v2)
  {
    var ms := [(k1, v1), (k2, v2)];
    assert ms[1..] == [(k2, v2)];
    assert MembersSize(ms[1..]) == StringSize(k2) + 1 + SizeOf(v2);
  }

  /** Size of a three-member object: braces, three colons, two commas. */
  lemma Object3Size(k1: string, v1: Json, k2: string, v2: Json, k3: string, v3: Json)
    ensures SizeOf(Obj([(k1, v1), (k2, v2), (k3, v3)]))
         == 7 + StringSize(k1) + SizeOf(v1) + StringSize(k2) + SizeOf(v2) + StringSize(k3) + SizeOf(v3)
  {
    var ms := [(k1, v1), (k2, v2), (k3, v3)];
    Object2Size(k2, v2, k3, v3);
    assert ms[1..] == [(k2, v2), (k3, v3)];
    assert MembersSize(ms[1..]) == SizeOf(Obj([(k2, v2), (k3, v3)])) - 2;
  }

  /** A member's value is strictly smaller than the object holding it. */
  lemma {:induction false} MemberValueSize(ms: seq<(string, Json)>, i: nat)
    requires i < |ms|
    ensures SizeOf(ms[i].1) < SizeOf(Obj(ms))
    decreases i
  {
    if i > 0 {
      MemberValueSize(ms[1..], i - 1);
      assert ms[1..][i - 1] == ms[i];
    }
  }

  /** In an object with three distinct keys, each key finds its own value. */
  lemma LookupDistinct3(k1: string, v1: Json, k2: string, v2: Json, k3: string, v3: Json)
    requires k1 != k2 && k1 != k3 && k2 != k3
    ensures Lookup([(k1, v1), (k2, v2), (k3, v3)], k1) == Some(v1)
    ensures Lookup([(k1, v1), (k2, v2), (k3, v3)], k2) == Some(v2)
    ensures Lookup([(k1, v1), (k2, v2), (k3, v3)], k3) == Some(v3)
  {
    var ms := [(k1, v1), (k2, v2), (k3, v3)];
    assert ms[..2] == [(k1, v1), (k2, v2)];
    assert ms[..2][..1] == [(k1, v1)];
    assert Lookup(ms[..2][..1], k1) == Some(v1);
    assert Lookup(ms[..2], k1) == Some(v1);
  }
}
