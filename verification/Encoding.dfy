/** JSON text in compact form, and its UTF-8 bytes: what json.dumps writes
    without escaping what is not ASCII. No two values share a text, and no
    two texts their bytes. */
module Encoding {
  import opened Texts

  type Bytes = seq<int>

  /** A float as its shortest representation: digits and signs, with a point or an exponent. */
  type FloatToken = t: Text | IsFloatToken(t) witness [ZERO, POINT, ZERO]

  predicate IsFloatToken(t: Text) {
    t != [] && (t[0] == MINUS || IsDigit(t[0])) && AllNumeric(t) && (POINT in t || EXPONENT in t)
  }

  /** What integers and floats are written with. */
  predicate IsNumeric(c: int) {
    IsDigit(c) || c == MINUS || c == PLUS || c == POINT || c == EXPONENT
  }

  predicate AllNumeric(s: Text) {
    forall i | 0 <= i < |s| :: IsNumeric(s[i])
  }

  /** The members of a dictionary are in the order of their names. */
  datatype Value =
    | Null
    | Bool(b: bool)
    | Number(n: int)
    | Float(token: FloatToken)
    | Str(s: Text)
    | List(items: seq<Value>)
    | Object(members: seq<Member>)

  datatype Member = Member(name: Text, value: Value)

  const QUOTE := 34
  const PLUS := 43
  const COMMA := 44
  const MINUS := 45
  const POINT := 46
  const ZERO := 48
  const COLON := 58
  const OPEN_LIST := 91
  const BACKSLASH := 92
  const CLOSE_LIST := 93
  const EXPONENT := 101
  const OPEN_OBJECT := 123
  const CLOSE_OBJECT := 125
  const NULL: Text := [110, 117, 108, 108]
  const TRUE: Text := [116, 114, 117, 101]
  const FALSE: Text := [102, 97, 108, 115, 101]

  function Digits(n: int): (r: Text)
    requires n >= 0
    ensures r != [] && forall i | 0 <= i < |r| :: IsDigit(r[i])
  {
    if n < 10 then [ZERO + n] else Digits(n / 10) + [ZERO + n % 10]
  }

  predicate IsDigit(c: int) {
    ZERO <= c <= ZERO + 9
  }

  function WriteNumber(n: int): Text {
    if n < 0 then [MINUS] + Digits(-n) else Digits(n)
  }

  function HexDigit(n: int): int {
    if n < 10 then ZERO + n else 87 + n
  }

  /** Quotes, backslashes and control characters are escaped. */
  function Escape(c: int): Text {
    if c == QUOTE || c == BACKSLASH then [BACKSLASH, c]
    else if c == 8 then [BACKSLASH, 98]
    else if c == 9 then [BACKSLASH, 116]
    else if c == 10 then [BACKSLASH, 110]
    else if c == 12 then [BACKSLASH, 102]
    else if c == 13 then [BACKSLASH, 114]
    else if 0 <= c < 32 then [BACKSLASH, 117, ZERO, ZERO, HexDigit(c / 16), HexDigit(c % 16)]
    else [c]
  }

  function EscapeAll(s: Text): Text {
    if s == [] then [] else Escape(s[0]) + EscapeAll(s[1..])
  }

  function WriteString(s: Text): Text {
    [QUOTE] + EscapeAll(s) + [QUOTE]
  }

  function Write(v: Value): Text {
    match v
    case Null => NULL
    case Bool(b) => if b then TRUE else FALSE
    case Number(n) => WriteNumber(n)
    case Float(token) => token
    case Str(s) => WriteString(s)
    case List(items) => [OPEN_LIST] + WriteItems(items) + [CLOSE_LIST]
    case Object(members) => [OPEN_OBJECT] + WriteMembers(members) + [CLOSE_OBJECT]
  }

  function WriteItems(items: seq<Value>): Text {
    if items == [] then []
    else if |items| == 1 then Write(items[0])
    else Write(items[0]) + [COMMA] + WriteItems(items[1..])
  }

  function WriteMember(member: Member): Text {
    WriteString(member.name) + [COLON] + Write(member.value)
  }

  function WriteMembers(members: seq<Member>): Text {
    if members == [] then []
    else if |members| == 1 then WriteMember(members[0])
    else WriteMember(members[0]) + [COMMA] + WriteMembers(members[1..])
  }

  // Parts of a text

  lemma {:induction false} Regroup(x: Text, y: Text, z: Text)
    ensures (x + y) + z == x + (y + z)
  {
  }

  lemma {:induction false} Heads(x: Text, y: Text)
    requires x != []
    ensures (x + y)[0] == x[0] && (x + y)[1..] == x[1..] + y
  {
  }

  /** Beginnings of the same length are the same, and so is what follows. */
  lemma {:induction false} SplitSame(x: Text, y: Text, s: Text, t: Text)
    requires x + s == y + t && |x| == |y|
    ensures x == y && s == t
  {
    assert x == (x + s)[..|x|] && y == (y + t)[..|y|];
    assert s == (x + s)[|x|..] && t == (y + t)[|y|..];
  }

  // Numbers

  function FromDigits(s: Text): int {
    if s == [] then 0 else FromDigits(s[..|s| - 1]) * 10 + (s[|s| - 1] - ZERO)
  }

  lemma {:induction false} DigitsRoundTrip(n: int)
    requires n >= 0
    ensures FromDigits(Digits(n)) == n
  {
    if n >= 10 {
      DigitsRoundTrip(n / 10);
      assert Digits(n)[..|Digits(n)| - 1] == Digits(n / 10);
    } else {
      assert Digits(n)[..0] == [];
    }
  }

  /** What may follow a value: nothing, or a separator. */
  predicate Ends(s: Text) {
    s == [] || s[0] == COMMA || s[0] == CLOSE_LIST || s[0] == CLOSE_OBJECT
  }

  /** A run of such characters does not go on where nothing prolongs it. */
  lemma {:induction false} NoLonger(a: Text, b: Text, s: Text, t: Text)
    requires AllNumeric(b) && Ends(s) && a + s == b + t
    ensures |b| <= |a|
  {
    var u := a + s;
    assert s != [] ==> u[|a|] == s[0];
    assert forall i | 0 <= i < |b| :: u[i] == b[i];
  }

  lemma {:induction false} NumericTell(a: Text, b: Text, s: Text, t: Text)
    requires AllNumeric(a) && AllNumeric(b) && Ends(s) && Ends(t) && a + s == b + t
    ensures a == b && s == t
  {
    NoLonger(a, b, s, t);
    NoLonger(b, a, t, s);
    SplitSame(a, b, s, t);
  }

  lemma {:induction false} NumberIsNumeric(n: int)
    ensures AllNumeric(WriteNumber(n)) && POINT !in WriteNumber(n) && EXPONENT !in WriteNumber(n)
  {
  }

  lemma {:induction false} NumberIsOneToOne(m: int, n: int)
    requires WriteNumber(m) == WriteNumber(n)
    ensures m == n
  {
    assert WriteNumber(m)[0] == WriteNumber(n)[0];
    if m < 0 {
      assert Digits(-m) == WriteNumber(m)[1..] == WriteNumber(n)[1..] == Digits(-n);
      DigitsRoundTrip(-m);
      DigitsRoundTrip(-n);
    } else {
      DigitsRoundTrip(m);
      DigitsRoundTrip(n);
    }
  }

  lemma {:induction false} NumbersTell(m: int, n: int, s: Text, t: Text)
    requires Ends(s) && Ends(t) && WriteNumber(m) + s == WriteNumber(n) + t
    ensures m == n && s == t
  {
    NumberIsNumeric(m);
    NumberIsNumeric(n);
    NumericTell(WriteNumber(m), WriteNumber(n), s, t);
    NumberIsOneToOne(m, n);
  }

  /** No integer is written like a float. */
  lemma {:induction false} NumberIsNoFloat(n: int, token: FloatToken, s: Text, t: Text)
    requires Ends(s) && Ends(t)
    ensures WriteNumber(n) + s != token + t
  {
    NumberIsNumeric(n);
    if WriteNumber(n) + s == token + t {
      NumericTell(WriteNumber(n), token, s, t);
    }
  }

  // Strings

  /** The length of an escape shows in its first two characters. */
  lemma {:induction false} EscapeLength(c: int, s: Text)
    ensures var e := Escape(c) + s;
      |Escape(c)| == (if e[0] != BACKSLASH then 1 else if e[1] == 117 then 6 else 2)
  {
  }

  lemma {:induction false} EscapeIsOneToOne(c: int, d: int)
    requires Escape(c) == Escape(d)
    ensures c == d
  {
  }

  lemma {:induction false} EscapesTell(c: int, d: int, s: Text, t: Text)
    requires Escape(c) + s == Escape(d) + t
    ensures c == d && s == t
  {
    EscapeLength(c, s);
    EscapeLength(d, t);
    SplitSame(Escape(c), Escape(d), s, t);
    EscapeIsOneToOne(c, d);
  }

  /** The rest of a string, up to its quote, and what follows. */
  function Rest(a: Text, s: Text): Text {
    EscapeAll(a) + ([QUOTE] + s)
  }

  lemma {:induction false} RestSplits(a: Text, s: Text)
    ensures a == [] ==> Rest(a, s) == [QUOTE] + s
    ensures a != [] ==> Rest(a, s) == Escape(a[0]) + Rest(a[1..], s) && Rest(a, s)[0] != QUOTE
  {
    if a != [] {
      Regroup(Escape(a[0]), EscapeAll(a[1..]), [QUOTE] + s);
      Heads(Escape(a[0]), Rest(a[1..], s));
    }
  }

  lemma {:induction false} StringsTell(a: Text, b: Text, s: Text, t: Text)
    requires Rest(a, s) == Rest(b, t)
    ensures a == b && s == t
  {
    RestSplits(a, s);
    RestSplits(b, t);
    if a == [] {
      SplitSame([QUOTE], [QUOTE], s, t);
    } else {
      EscapesTell(a[0], b[0], Rest(a[1..], s), Rest(b[1..], t));
      StringsTell(a[1..], b[1..], s, t);
      assert a == [a[0]] + a[1..] && b == [b[0]] + b[1..];
    }
  }

  lemma {:induction false} QuotedSplits(a: Text, s: Text)
    ensures WriteString(a) + s == [QUOTE] + Rest(a, s)
  {
  }

  lemma {:induction false} QuotedTell(a: Text, b: Text, s: Text, t: Text)
    requires WriteString(a) + s == WriteString(b) + t
    ensures a == b && s == t
  {
    QuotedSplits(a, s);
    QuotedSplits(b, t);
    SplitSame([QUOTE], [QUOTE], Rest(a, s), Rest(b, t));
    StringsTell(a, b, s, t);
  }

  // Values

  /** The first character tells the kind of a value. */
  function Kind(c: int): int {
    if c == NULL[0] then 0
    else if c == TRUE[0] || c == FALSE[0] then 1
    else if c == MINUS || IsDigit(c) then 2
    else if c == QUOTE then 3
    else if c == OPEN_LIST then 4
    else if c == OPEN_OBJECT then 5
    else 6
  }

  function KindOf(v: Value): int {
    match v
    case Null => 0
    case Bool(_) => 1
    case Number(_) => 2
    case Float(_) => 2
    case Str(_) => 3
    case List(_) => 4
    case Object(_) => 5
  }

  lemma {:induction false} FirstTells(v: Value)
    ensures Write(v) != [] && Kind(Write(v)[0]) == KindOf(v)
  {
  }

  lemma {:induction false} KindsTell(a: Value, b: Value, s: Text, t: Text)
    requires Write(a) + s == Write(b) + t
    ensures KindOf(a) == KindOf(b)
  {
    FirstTells(a);
    FirstTells(b);
    Heads(Write(a), s);
    Heads(Write(b), t);
  }

  lemma {:induction false} BooleansTell(a: bool, b: bool, s: Text, t: Text)
    requires Write(Bool(a)) + s == Write(Bool(b)) + t
    ensures a == b && s == t
  {
    Heads(Write(Bool(a)), s);
    Heads(Write(Bool(b)), t);
    SplitSame(Write(Bool(a)), Write(Bool(b)), s, t);
  }

  /** The rest of a list and what follows. */
  function RestOfList(items: seq<Value>, s: Text): Text {
    WriteItems(items) + ([CLOSE_LIST] + s)
  }

  /** What follows the first item: the end of the list, or a comma and the other items. */
  function AfterItem(items: seq<Value>, s: Text): Text
    requires items != []
  {
    if |items| == 1 then [CLOSE_LIST] + s else [COMMA] + RestOfList(items[1..], s)
  }

  lemma {:induction false} ListSplits(items: seq<Value>, s: Text)
    ensures Write(List(items)) + s == [OPEN_LIST] + RestOfList(items, s)
    ensures items == [] ==> RestOfList(items, s) == [CLOSE_LIST] + s
    ensures items != [] ==> RestOfList(items, s) == Write(items[0]) + AfterItem(items, s)
  {
    Regroup([OPEN_LIST] + WriteItems(items), [CLOSE_LIST], s);
    Regroup([OPEN_LIST], WriteItems(items), [CLOSE_LIST] + s);
    if |items| > 1 {
      Regroup(Write(items[0]) + [COMMA], WriteItems(items[1..]), [CLOSE_LIST] + s);
      Regroup(Write(items[0]), [COMMA], RestOfList(items[1..], s));
    }
  }

  lemma {:induction false} ListHead(items: seq<Value>, s: Text)
    ensures RestOfList(items, s) != []
    ensures items == [] <==> RestOfList(items, s)[0] == CLOSE_LIST
  {
    ListSplits(items, s);
    if items != [] {
      FirstTells(items[0]);
      Heads(Write(items[0]), AfterItem(items, s));
    }
  }

  function RestOfObject(members: seq<Member>, s: Text): Text {
    WriteMembers(members) + ([CLOSE_OBJECT] + s)
  }

  function AfterMember(members: seq<Member>, s: Text): Text
    requires members != []
  {
    if |members| == 1 then [CLOSE_OBJECT] + s else [COMMA] + RestOfObject(members[1..], s)
  }

  lemma {:induction false} ObjectSplits(members: seq<Member>, s: Text)
    ensures Write(Object(members)) + s == [OPEN_OBJECT] + RestOfObject(members, s)
    ensures members == [] ==> RestOfObject(members, s) == [CLOSE_OBJECT] + s
    ensures members != [] ==> RestOfObject(members, s) == WriteMember(members[0]) + AfterMember(members, s)
  {
    Regroup([OPEN_OBJECT] + WriteMembers(members), [CLOSE_OBJECT], s);
    Regroup([OPEN_OBJECT], WriteMembers(members), [CLOSE_OBJECT] + s);
    if |members| > 1 {
      Regroup(WriteMember(members[0]) + [COMMA], WriteMembers(members[1..]), [CLOSE_OBJECT] + s);
      Regroup(WriteMember(members[0]), [COMMA], RestOfObject(members[1..], s));
    }
  }

  lemma {:induction false} MemberSplits(member: Member, s: Text)
    ensures WriteMember(member) + s == WriteString(member.name) + ([COLON] + (Write(member.value) + s))
    ensures (WriteMember(member) + s)[0] == QUOTE
  {
    Regroup(WriteString(member.name) + [COLON], Write(member.value), s);
    Regroup(WriteString(member.name), [COLON], Write(member.value) + s);
    Heads(WriteString(member.name), [COLON] + (Write(member.value) + s));
  }

  lemma {:induction false} ObjectHead(members: seq<Member>, s: Text)
    ensures RestOfObject(members, s) != []
    ensures members == [] <==> RestOfObject(members, s)[0] == CLOSE_OBJECT
  {
    ObjectSplits(members, s);
    if members != [] {
      MemberSplits(members[0], AfterMember(members, s));
    }
  }

  /** A text that something may follow is read as one value only, and ends in one place only. */
  lemma {:induction false} ValuesTell(a: Value, b: Value, s: Text, t: Text)
    requires Ends(s) && Ends(t) && Write(a) + s == Write(b) + t
    ensures a == b && s == t
    decreases a
  {
    KindsTell(a, b, s, t);
    match a {
      case Null => SplitSame(NULL, NULL, s, t);
      case Bool(_) => BooleansTell(a.b, b.b, s, t);
      case Number(n) =>
        if b.Number? {
          NumbersTell(n, b.n, s, t);
        } else {
          NumberIsNoFloat(n, b.token, s, t);
        }
      case Float(token) =>
        if b.Number? {
          NumberIsNoFloat(b.n, token, t, s);
        } else {
          NumericTell(token, b.token, s, t);
        }
      case Str(text) => QuotedTell(text, b.s, s, t);
      case List(items) =>
        ListSplits(items, s);
        ListSplits(b.items, t);
        SplitSame([OPEN_LIST], [OPEN_LIST], RestOfList(items, s), RestOfList(b.items, t));
        ItemsTell(items, b.items, s, t);
      case Object(members) =>
        ObjectSplits(members, s);
        ObjectSplits(b.members, t);
        SplitSame([OPEN_OBJECT], [OPEN_OBJECT], RestOfObject(members, s), RestOfObject(b.members, t));
        MembersTell(members, b.members, s, t);
    }
  }

  lemma {:induction false} ItemsTell(a: seq<Value>, b: seq<Value>, s: Text, t: Text)
    requires RestOfList(a, s) == RestOfList(b, t)
    ensures a == b && s == t
    decreases a
  {
    ListSplits(a, s);
    ListSplits(b, t);
    ListHead(a, s);
    ListHead(b, t);
    if a == [] {
      SplitSame([CLOSE_LIST], [CLOSE_LIST], s, t);
    } else {
      ValuesTell(a[0], b[0], AfterItem(a, s), AfterItem(b, t));
      assert a == [a[0]] + a[1..] && b == [b[0]] + b[1..];
      assert |a| == 1 <==> AfterItem(a, s)[0] == CLOSE_LIST;
      assert |b| == 1 <==> AfterItem(b, t)[0] == CLOSE_LIST;
      if |a| == 1 {
        SplitSame([CLOSE_LIST], [CLOSE_LIST], s, t);
      } else {
        SplitSame([COMMA], [COMMA], RestOfList(a[1..], s), RestOfList(b[1..], t));
        ItemsTell(a[1..], b[1..], s, t);
      }
    }
  }

  lemma {:induction false} MemberTells(a: Member, b: Member, s: Text, t: Text)
    requires Ends(s) && Ends(t) && WriteMember(a) + s == WriteMember(b) + t
    ensures a == b && s == t
    decreases a
  {
    MemberSplits(a, s);
    MemberSplits(b, t);
    QuotedTell(a.name, b.name, [COLON] + (Write(a.value) + s), [COLON] + (Write(b.value) + t));
    SplitSame([COLON], [COLON], Write(a.value) + s, Write(b.value) + t);
    ValuesTell(a.value, b.value, s, t);
  }

  lemma {:induction false} MembersTell(a: seq<Member>, b: seq<Member>, s: Text, t: Text)
    requires RestOfObject(a, s) == RestOfObject(b, t)
    ensures a == b && s == t
    decreases a
  {
    ObjectSplits(a, s);
    ObjectSplits(b, t);
    ObjectHead(a, s);
    ObjectHead(b, t);
    if a == [] {
      SplitSame([CLOSE_OBJECT], [CLOSE_OBJECT], s, t);
    } else {
      MemberTells(a[0], b[0], AfterMember(a, s), AfterMember(b, t));
      assert a == [a[0]] + a[1..] && b == [b[0]] + b[1..];
      assert |a| == 1 <==> AfterMember(a, s)[0] == CLOSE_OBJECT;
      assert |b| == 1 <==> AfterMember(b, t)[0] == CLOSE_OBJECT;
      if |a| == 1 {
        SplitSame([CLOSE_OBJECT], [CLOSE_OBJECT], s, t);
      } else {
        SplitSame([COMMA], [COMMA], RestOfObject(a[1..], s), RestOfObject(b[1..], t));
        MembersTell(a[1..], b[1..], s, t);
      }
    }
  }

  // UTF-8

  /** What can be encoded: no surrogates. */
  predicate IsScalar(c: int) {
    0 <= c < 0xD800 || 0xE000 <= c < 0x11_0000
  }

  predicate Encodable(s: Text) {
    forall i | 0 <= i < |s| :: IsScalar(s[i])
  }

  /** Section 3 of RFC 3629. */
  function Utf8(c: int): Bytes {
    if c < 0x80 then [c]
    else if c < 0x800 then [0xC0 + c / 64, 0x80 + c % 64]
    else if c < 0x1_0000 then [0xE0 + c / 4096, 0x80 + c / 64 % 64, 0x80 + c % 64]
    else [0xF0 + c / 262144, 0x80 + c / 4096 % 64, 0x80 + c / 64 % 64, 0x80 + c % 64]
  }

  function Encode(s: Text): Bytes {
    if s == [] then [] else Utf8(s[0]) + Encode(s[1..])
  }

  /** The first byte tells the length. */
  function LengthFrom(first: int): int {
    if first < 0x80 then 1 else if first < 0xE0 then 2 else if first < 0xF0 then 3 else 4
  }

  function FromUtf8(b: Bytes): int
    requires 1 <= |b| <= 4
  {
    if |b| == 1 then b[0]
    else if |b| == 2 then (b[0] - 0xC0) * 64 + (b[1] - 0x80)
    else if |b| == 3 then ((b[0] - 0xE0) * 64 + (b[1] - 0x80)) * 64 + (b[2] - 0x80)
    else (((b[0] - 0xF0) * 64 + (b[1] - 0x80)) * 64 + (b[2] - 0x80)) * 64 + (b[3] - 0x80)
  }

  lemma {:induction false} Utf8RoundTrip(c: int)
    requires IsScalar(c)
    ensures |Utf8(c)| == LengthFrom(Utf8(c)[0]) && FromUtf8(Utf8(c)) == c
  {
    assert c / 4096 == c / 64 / 64 && c / 262144 == c / 4096 / 64;
  }

  lemma {:induction false} Utf8Tells(c: int, d: int, s: Bytes, t: Bytes)
    requires IsScalar(c) && IsScalar(d) && Utf8(c) + s == Utf8(d) + t
    ensures c == d && s == t
  {
    Utf8RoundTrip(c);
    Utf8RoundTrip(d);
    Heads(Utf8(c), s);
    Heads(Utf8(d), t);
    SplitSame(Utf8(c), Utf8(d), s, t);
  }

  /** No two texts share their bytes. */
  lemma {:induction false} TextsAreTold(a: Text, b: Text)
    requires Encodable(a) && Encodable(b) && Encode(a) == Encode(b)
    ensures a == b
  {
    if a != [] && b != [] {
      Utf8Tells(a[0], b[0], Encode(a[1..]), Encode(b[1..]));
      TextsAreTold(a[1..], b[1..]);
      assert a == [a[0]] + a[1..] && b == [b[0]] + b[1..];
    }
  }

  function Payload(v: Value): Bytes {
    Encode(Write(v))
  }

  /** No two values share their encoded text. */
  lemma {:induction false} PayloadsAreTold(a: Value, b: Value)
    requires Encodable(Write(a)) && Encodable(Write(b)) && Payload(a) == Payload(b)
    ensures a == b
  {
    TextsAreTold(Write(a), Write(b));
    assert Write(a) + [] == Write(b) + [];
    ValuesTell(a, b, [], []);
  }
}
