/**
 * The byte sizes the message-size tests pin down, derived from the size
 * function of module Json.
 */
module JsonSizes {
  import opened Json

  /** A plain ASCII key or string costs its length plus two quotes. */
  lemma PlainStringSize(s: string)
    requires forall i :: 0 <= i < |s| ==> IsPlainAscii(s[i])
    ensures StringSize(s) == |s| + 2
  {
    PlainBodySize(s);
  }

  // ---------------------------------------------------------------------
  // The plain literals of the tests, one each.

  lemma HiSize() ensures StringSize("Hi") == 4 { PlainStringSize("Hi"); }
  lemma HelloSize() ensures StringSize("Hello") == 7 { PlainStringSize("Hello"); }
  lemma HelloWorldSize() ensures StringSize("Hello World") == 13 { PlainStringSize("Hello World"); }
  lemma HelloSpaceSize() ensures StringSize("Hello ") == 8 { PlainStringSize("Hello "); }
  lemma NameSize() ensures StringSize("name") == 6 { PlainStringSize("name"); }
  lemma TestSize() ensures StringSize("test") == 6 { PlainStringSize("test"); }
  lemma ValueSize() ensures StringSize("value") == 7 { PlainStringSize("value"); }
  lemma DeepSize() ensures StringSize("deep") == 6 { PlainStringSize("deep"); }
  lemma InnerSize() ensures StringSize("inner") == 7 { PlainStringSize("inner"); }
  lemma OuterSize() ensures StringSize("outer") == 7 { PlainStringSize("outer"); }
  lemma IdSize() ensures StringSize("id") == 4 { PlainStringSize("id"); }
  lemma FirstSize() ensures StringSize("first") == 7 { PlainStringSize("first"); }
  lemma SecondSize() ensures StringSize("second") == 8 { PlainStringSize("second"); }
  lemma TextSize() ensures StringSize("text") == 6 { PlainStringSize("text"); }
  lemma Line1Size() ensures StringSize("Line 1") == 8 { PlainStringSize("Line 1"); }
  lemma Line2Size() ensures StringSize("Line 2") == 8 { PlainStringSize("Line 2"); }
  lemma QuotedSize() ensures StringSize("quoted") == 8 { PlainStringSize("quoted"); }
  lemma EmojiKeySize() ensures StringSize("emoji") == 7 { PlainStringSize("emoji"); }
  lemma LocationSize() ensures StringSize("location") == 10 { PlainStringSize("location"); }
  lemma TestUserSize() ensures StringSize("Test User") == 11 { PlainStringSize("Test User"); }
  lemma Tag1Size() ensures StringSize("tag1") == 6 { PlainStringSize("tag1"); }
  lemma Tag2Size() ensures StringSize("tag2") == 6 { PlainStringSize("tag2"); }
  lemma TimestampKeySize() ensures StringSize("timestamp") == 11 { PlainStringSize("timestamp"); }
  lemma TagsKeySize() ensures StringSize("tags") == 6 { PlainStringSize("tags"); }
  lemma UserSize() ensures StringSize("user") == 6 { PlainStringSize("user"); }
  lemma DataSize() ensures StringSize("data") == 6 { PlainStringSize("data"); }
  lemma MetaKeySize() ensures StringSize("meta") == 6 { PlainStringSize("meta"); }
  lemma TypeSize() ensures StringSize("type") == 6 { PlainStringSize("type"); }
  lemma SmallPayloadSize() ensures StringSize("small payload") == 15 { PlainStringSize("small payload"); }

  // ---------------------------------------------------------------------
  // Scalars, strings and flat containers.

  lemma LiteralSizes()
    ensures SizeOf(Null) == 4
    ensures SizeOf(Bool(true)) == 4
    ensures SizeOf(Bool(false)) == 5
    ensures SizeOf(Int(12345)) == 5
    ensures SizeOf(Obj([])) == 2
    ensures SizeOf(Arr([])) == 2
    ensures SizeOf(Str("")) == 2
  {
  }

  lemma AsciiStringSizes()
    ensures SizeOf(Str("Hi")) == 4
    ensures SizeOf(Str("Hello")) == 7
    ensures SizeOf(Str("Hello World")) == 13
  {
    HiSize();
    HelloSize();
    HelloWorldSize();
  }

  /** U+1F389 takes four UTF-8 bytes, U+4E16 and U+754C three each. */
  lemma UnicodeStringSizes()
    ensures SizeOf(Str("\U{1F389}")) == 6
    ensures SizeOf(Str("Hello \U{4E16}\U{754C}")) == 14
  {
    PartyPopperSize();
    GreetingSize();
  }

  lemma PartyPopperSize()
    ensures StringSize("\U{1F389}") == 6
  {
    assert BodySize("\U{1F389}") == EscapedSize('\U{1F389}') + BodySize("");
  }

  lemma GreetingSize()
    ensures StringSize("Hello \U{4E16}\U{754C}") == 14
  {
    HelloSpaceSize();
    WorldSize();
    BodySizeAppend("Hello ", "\U{4E16}\U{754C}");
    assert "Hello " + "\U{4E16}\U{754C}" == "Hello \U{4E16}\U{754C}";
  }

  lemma WorldSize()
    ensures BodySize("\U{4E16}\U{754C}") == 6
  {
    assert "\U{4E16}\U{754C}"[1..] == "\U{754C}";
  }

  lemma ArraySize()
    ensures SizeOf(Arr([Int(1), Int(2), Int(3), Int(4), Int(5)])) == 11
  {
  }

  lemma ObjectSize()
    ensures SizeOf(Obj([("name", Str("test")), ("value", Int(123))])) == 27
  {
    NameSize();
    TestSize();
    ValueSize();
    assert SizeOf(Int(123)) == 3;
    Object2Size("name", Str("test"), "value", Int(123));
  }

  // ---------------------------------------------------------------------
  // Nested values.

  const Deep: Json := Obj([("deep", Str("value"))])
  const Inner: Json := Obj([("inner", Deep)])
  const Nested: Json := Obj([("outer", Inner)])

  /** Three levels of one-member objects. */
  lemma NestedObjectSize()
    ensures SizeOf(Nested) == 36
  {
    DeepSize();
    ValueSize();
    Object1Size("deep", Str("value"));
    assert SizeOf(Deep) == 16;
    InnerSize();
    Object1Size("inner", Deep);
    assert SizeOf(Inner) == 26;
    OuterSize();
    Object1Size("outer", Inner);
  }

  /** Size of a two-element array: brackets and one comma. */
  lemma Array2Size(a: Json, b: Json)
    ensures SizeOf(Arr([a, b])) == 3 + SizeOf(a) + SizeOf(b)
  {
    assert [a, b][1..] == [b];
    assert ItemsSize([b]) == SizeOf(b);
  }

  /** An object with a one-digit "id" and a string "name". */
  lemma IdNameSize(id: int, name: string)
    requires 0 <= id < 10
    ensures SizeOf(Obj([("id", Int(id)), ("name", Str(name))])) == 16 + StringSize(name)
  {
    assert SizeOf(Int(id)) == 1;
    IdSize();
    NameSize();
    Object2Size("id", Int(id), "name", Str(name));
  }

  const First: Json := Obj([("id", Int(1)), ("name", Str("first"))])
  const Second: Json := Obj([("id", Int(2)), ("name", Str("second"))])

  lemma ArrayOfObjectsSize()
    ensures SizeOf(Arr([First, Second])) == 50
  {
    FirstSize();
    SecondSize();
    IdNameSize(1, "first");
    IdNameSize(2, "second");
    Array2Size(First, Second);
  }

  // ---------------------------------------------------------------------
  // Escaped characters.

  /** Text around a line feed, a tab and a quoted word: each of the four escapes takes two bytes. */
  lemma EscapedBody(p1: string, p2: string, p3: string)
    ensures BodySize(p1 + "\n" + p2 + "\t" + "\"" + p3 + "\"") == BodySize(p1) + BodySize(p2) + BodySize(p3) + 8
  {
    SingleEscapes();
    var a := p1 + "\n";
    BodySizeAppend(p1, "\n");
    var b := a + p2;
    BodySizeAppend(a, p2);
    var c := b + "\t";
    BodySizeAppend(b, "\t");
    var d := c + "\"";
    BodySizeAppend(c, "\"");
    var e := d + p3;
    BodySizeAppend(d, p3);
    BodySizeAppend(e, "\"");
  }

  /** Line feed, tab and quote each take two bytes once escaped. */
  lemma SingleEscapes()
    ensures BodySize("\n") == 2 && BodySize("\t") == 2 && BodySize("\"") == 2
  {
  }

  /** The test's text `Line 1<LF>Line 2<TAB>"quoted"`, written piecewise. */
  const SpecialText: string := "Line 1" + "\n" + "Line 2" + "\t" + "\"" + "quoted" + "\""

  /** Line feed, tab and quote are each counted in their two-byte escaped form. */
  lemma EscapedCharactersSize()
    ensures SizeOf(Obj([("text", Str(SpecialText))])) == 37
  {
    Line1Size();
    Line2Size();
    QuotedSize();
    EscapedBody("Line 1", "Line 2", "quoted");
    TextSize();
    Object1Size("text", Str(SpecialText));
  }

  // ---------------------------------------------------------------------
  // The nested structure with Unicode text.

  /** Two four-byte emoji (U+1F389, U+1F38A) and two three-byte CJK characters (U+6771, U+4EAC). */
  const Emoji: string := "\U{1F389}\U{1F38A}"
  const Tokyo: string := "\U{6771}\U{4EAC}"

  lemma MultiByteBodies()
    ensures BodySize(Emoji) == 8
    ensures BodySize(Tokyo) == 6
  {
    assert Emoji[1..] == "\U{1F38A}";
    assert Tokyo[1..] == "\U{4EAC}";
  }

  const User: Json := Obj([("name", Str("Test User")), ("emoji", Str(Emoji)), ("location", Str(Tokyo))])
  const Meta: Json := Obj([("timestamp", Int(1234567890)), ("tags", Arr([Str("tag1"), Str("tag2")]))])
  const Numbers: Json := Arr([Int(1), Int(2), Int(3)])

  /** The shape of the user object, whatever its three strings. */
  lemma UserShapeSize(name: string, emoji: string, location: string)
    ensures SizeOf(Obj([("name", Str(name)), ("emoji", Str(emoji)), ("location", Str(location))]))
         == 30 + StringSize(name) + StringSize(emoji) + StringSize(location)
  {
    NameSize();
    EmojiKeySize();
    LocationSize();
    Object3Size("name", Str(name), "emoji", Str(emoji), "location", Str(location));
  }

  lemma UserObjectSize()
    ensures SizeOf(User) == 59
  {
    TestUserSize();
    MultiByteBodies();
    UserShapeSize("Test User", Emoji, Tokyo);
  }

  lemma TagsSize()
    ensures SizeOf(Arr([Str("tag1"), Str("tag2")])) == 15
  {
    Tag1Size();
    Tag2Size();
    Array2Size(Str("tag1"), Str("tag2"));
  }

  lemma TimestampSize()
    ensures SizeOf(Int(1234567890)) == 10
  {
  }

  /** The shape of the meta object, whatever its two values. */
  lemma MetaShapeSize(timestamp: Json, tags: Json)
    ensures SizeOf(Obj([("timestamp", timestamp), ("tags", tags)])) == 22 + SizeOf(timestamp) + SizeOf(tags)
  {
    TimestampKeySize();
    TagsKeySize();
    Object2Size("timestamp", timestamp, "tags", tags);
  }

  lemma MetaObjectSize()
    ensures SizeOf(Meta) == 47
  {
    TagsSize();
    TimestampSize();
    MetaShapeSize(Int(1234567890), Arr([Str("tag1"), Str("tag2")]));
  }

  lemma NumbersSize()
    ensures SizeOf(Numbers) == 7
  {
  }

  /** The shape of the top-level object, whatever its three values. */
  lemma TopShapeSize(user: Json, data: Json, meta: Json)
    ensures SizeOf(Obj([("user", user), ("data", data), ("meta", meta)]))
         == 25 + SizeOf(user) + SizeOf(data) + SizeOf(meta)
  {
    UserSize();
    DataSize();
    MetaKeySize();
    Object3Size("user", user, "data", data, "meta", meta);
  }

  /** The nested structure with Unicode text of the size tests. */
  lemma ComplexUnicodeSize()
    ensures SizeOf(Obj([("user", User), ("data", Numbers), ("meta", Meta)])) == 138
  {
    UserObjectSize();
    MetaObjectSize();
    NumbersSize();
    TopShapeSize(User, Numbers, Meta);
  }

  // ---------------------------------------------------------------------
  // Limits.

  /** `n` copies of the letter x, as `"x".repeat(n)` builds them. */
  function Repeat(n: nat): (s: string)
    ensures |s| == n
    ensures forall i :: 0 <= i < n ==> s[i] == 'x'
  {
    seq(n, _ => 'x')
  }

  /** `{"data": "x".repeat(n)}` takes exactly n + 11 bytes. */
  lemma RepeatedDataSize(n: nat)
    ensures SizeOf(Obj([("data", Str(Repeat(n)))])) == n + 11
  {
    DataSize();
    PlainStringSize(Repeat(n));
    Object1Size("data", Str(Repeat(n)));
  }

  /** The fifty-character message fits a 61-byte limit and not a 60-byte one. */
  lemma FiftyCharacterBoundary()
    ensures WithinLimit(Obj([("data", Str(Repeat(50)))]), 61)
    ensures !WithinLimit(Obj([("data", Str(Repeat(50)))]), 60)
  {
    RepeatedDataSize(50);
  }

  /** A 100000-character payload exceeds a 1000-byte limit. */
  lemma LargeMessageRejected()
    ensures !WithinLimit(Obj([("type", Str("test")), ("data", Str(Repeat(100000)))]), 1000)
  {
    TypeSize();
    TestSize();
    DataSize();
    PlainStringSize(Repeat(100000));
    Object2Size("type", Str("test"), "data", Str(Repeat(100000)));
  }

  /** A small message fits a one-megabyte limit. */
  lemma SmallMessageAccepted()
    ensures WithinLimit(Obj([("type", Str("test")), ("data", Str("small payload"))]), 1024 * 1024)
  {
    TypeSize();
    TestSize();
    DataSize();
    SmallPayloadSize();
    Object2Size("type", Str("test"), "data", Str("small payload"));
  }
}
