/** A reader by sections 2 to 7 of RFC 8259, on bytes, and the round trip with the printer. */
module JsonReader {
  import opened Bytes
  import opened JsonText

  /** What a JSON text denotes. A number with a fraction or an exponent stays as it is written. */
  datatype Value =
    | VNull
    | VBool(b: bool)
    | VNumber(n: int)
    | VReal(lexeme: bytes)
    | VText(text: bytes)
    | VArray(items: seq<Value>)
    | VObject(members: seq<VMember>)

  datatype VMember = VMember(key: bytes, value: Value)

  datatype Parsed<+T> = Fail | Got(value: T, rest: bytes)

  // ---- Section 2: white space ----

  predicate IsSpace(c: byte) { c == 0x20 || c == 0x09 || c == 0x0a || c == 0x0d }

  function Skip(s: bytes): (r: bytes)
    ensures |r| <= |s|
  {
    if s != [] && IsSpace(s[0]) then Skip(s[1..]) else s
  }

  // ---- Section 7: strings ----

  function HexValue(c: byte): Option<nat> {
    if 0x30 <= c <= 0x39 then Some(ValueOf(c) - 0x30)
    else if 0x61 <= c <= 0x66 then Some(ValueOf(c) - 0x61 + 10)
    else if 0x41 <= c <= 0x46 then Some(ValueOf(c) - 0x41 + 10)
    else None
  }

  function Hex4(s: bytes): Option<nat> {
    if |s| < 4 || HexValue(s[0]) == None || HexValue(s[1]) == None || HexValue(s[2]) == None || HexValue(s[3]) == None then None
    else Some(((HexValue(s[0]).value * 16 + HexValue(s[1]).value) * 16 + HexValue(s[2]).value) * 16 + HexValue(s[3]).value)
  }

  /** The UTF-8 form of a code point. */
  function Utf8(code: nat): bytes
    requires code < 0x110000
  {
    if code < 0x80 then [ByteOf(code)]
    else if code < 0x800 then [ByteOf(0xc0 + code / 0x40), ByteOf(0x80 + code % 0x40)]
    else if code < 0x10000 then [ByteOf(0xe0 + code / 0x1000), ByteOf(0x80 + code / 0x40 % 0x40), ByteOf(0x80 + code % 0x40)]
    else [ByteOf(0xf0 + code / 0x40000), ByteOf(0x80 + code / 0x1000 % 0x40), ByteOf(0x80 + code / 0x40 % 0x40), ByteOf(0x80 + code % 0x40)]
  }

  /** The digits behind `\u`, with the second half of a surrogate pair where there must be one. */
  function ReadUnicode(s: bytes): (r: Parsed<bytes>)
    ensures r.Got? ==> |r.rest| < |s|
  {
    var high := Hex4(s);
    if high == None || 0xdc00 <= high.value < 0xe000 || high.value >= 0x10000 then Fail
    else if high.value < 0xd800 || 0xe000 <= high.value then Got(Utf8(high.value), s[4..])
    else if |s| < 10 || s[4] != 0x5c || s[5] != 0x75 then Fail
    else
      var low := Hex4(s[6..]);
      if low == None || !(0xdc00 <= low.value < 0xe000) then Fail
      else Got(Utf8(0x10000 + (high.value - 0xd800) * 0x400 + (low.value - 0xdc00)), s[10..])
  }

  function Unescaped(c: byte): Option<byte> {
    match c
    case 0x22 => Some(0x22)
    case 0x5c => Some(0x5c)
    case 0x2f => Some(0x2f)
    case 0x62 => Some(0x08)
    case 0x66 => Some(0x0c)
    case 0x6e => Some(0x0a)
    case 0x72 => Some(0x0d)
    case 0x74 => Some(0x09)
    case _ => None
  }

  /** One character of a string, written plainly or escaped. */
  function ReadChar(s: bytes): (r: Parsed<bytes>)
    ensures r.Got? ==> |r.rest| < |s|
  {
    if s == [] || s[0] < 0x20 || s[0] == 0x22 then Fail
    else if s[0] != 0x5c then Got([s[0]], s[1..])
    else if |s| < 2 then Fail
    else if s[1] == 0x75 then ReadUnicode(s[2..])
    else if Unescaped(s[1]) == None then Fail
    else Got([Unescaped(s[1]).value], s[2..])
  }

  /** A string behind its opening quote. */
  function ReadChars(s: bytes): (r: Parsed<bytes>)
    ensures r.Got? ==> |r.rest| < |s|
    decreases |s|
  {
    if s != [] && s[0] == 0x22 then Got([], s[1..])
    else
      var c := ReadChar(s);
      if c.Fail? then Fail
      else
        var more := ReadChars(c.rest);
        if more.Fail? then Fail else Got(c.value + more.value, more.rest)
  }

  // ---- Section 6: numbers ----

  function DigitValue(c: byte): nat { if IsDigit(c) then ValueOf(c) - 0x30 else 0 }


  function ReadDigits(s: bytes, acc: nat): (r: (nat, bytes))
    ensures |r.1| <= |s|
    decreases |s|
  {
    if s != [] && IsDigit(s[0]) then ReadDigits(s[1..], acc * 10 + DigitValue(s[0])) else (acc, s)
  }

  function SkipDigits(s: bytes): (r: bytes)
    ensures |r| <= |s|
  {
    if s != [] && IsDigit(s[0]) then SkipDigits(s[1..]) else s
  }

  /** An optional fraction and an optional exponent; None if one is malformed. */
  function SkipFraction(s: bytes): (r: Option<bytes>)
    ensures r.Some? ==> |r.value| <= |s|
  {
    if s == [] || s[0] != 0x2e then Some(s)
    else if |s| < 2 || !IsDigit(s[1]) then None
    else Some(SkipDigits(s[1..]))
  }

  function SkipExponent(s: bytes): (r: Option<bytes>)
    ensures r.Some? ==> |r.value| <= |s|
  {
    if s == [] || (s[0] != 0x65 && s[0] != 0x45) then Some(s)
    else
      var t := if |s| > 1 && (s[1] == 0x2b || s[1] == 0x2d) then s[2..] else s[1..];
      if t == [] || !IsDigit(t[0]) then None else Some(SkipDigits(t))
  }

  /** The integer part without a sign: no leading zeros. */
  function ReadInt(s: bytes): (r: Parsed<nat>)
    ensures r.Got? ==> |r.rest| < |s|
  {
    if s == [] || !IsDigit(s[0]) then Fail
    else if s[0] == 0x30 then Got(0, s[1..])
    else var d := ReadDigits(s[1..], DigitValue(s[0])); Got(d.0, d.1)
  }

  function WithSign(negative: bool, n: nat): int { if negative then 0 - n else n }

  function ReadNumber(s: bytes): (r: Parsed<Value>)
    ensures r.Got? ==> |r.rest| < |s|
  {
    var negative := s != [] && s[0] == 0x2d;
    var whole := ReadInt(if negative then s[1..] else s);
    if whole.Fail? then Fail
    else
      var fraction := SkipFraction(whole.rest);
      if fraction == None then Fail
      else
        var exponent := SkipExponent(fraction.value);
        if exponent == None then Fail
        else if exponent.value == whole.rest then Got(VNumber(WithSign(negative, whole.value)), whole.rest)
        else Got(VReal(s[..|s| - |exponent.value|]), exponent.value)
  }

  // ---- Sections 3 to 5: values, objects, arrays ----

  predicate Begins(s: bytes, literal: bytes) { literal <= s }

  const NULL: bytes := [0x6e, 0x75, 0x6c, 0x6c]
  const TRUE: bytes := [0x74, 0x72, 0x75, 0x65]
  const FALSE: bytes := [0x66, 0x61, 0x6c, 0x73, 0x65]

  function ReadLiteral(s: bytes): (r: Parsed<Value>)
    ensures r.Got? ==> |r.rest| < |s|
  {
    if Begins(s, NULL) then Got(VNull, s[4..])
    else if Begins(s, TRUE) then Got(VBool(true), s[4..])
    else if Begins(s, FALSE) then Got(VBool(false), s[5..])
    else Fail
  }

  function ReadValue(s: bytes): (r: Parsed<Value>)
    ensures r.Got? ==> |r.rest| < |s|
    decreases |s|, 1
  {
    var t := Skip(s);
    if t == [] then Fail
    else if t[0] == 0x22 then
      var text := ReadChars(t[1..]);
      if text.Fail? then Fail else Got(VText(text.value), text.rest)
    else if t[0] == 0x5b then
      var u := Skip(t[1..]);
      if u != [] && u[0] == 0x5d then Got(VArray([]), u[1..])
      else
        var items := ReadElements(t[1..]);
        if items.Fail? then Fail else Got(VArray(items.value), items.rest)
    else if t[0] == 0x7b then
      var u := Skip(t[1..]);
      if u != [] && u[0] == 0x7d then Got(VObject([]), u[1..])
      else
        var members := ReadMembers(t[1..]);
        if members.Fail? then Fail else Got(VObject(members.value), members.rest)
    else if t[0] == 0x2d || IsDigit(t[0]) then ReadNumber(t)
    else ReadLiteral(t)
  }

  /** The values of an array, up to its closing bracket. */
  function ReadElements(s: bytes): (r: Parsed<seq<Value>>)
    ensures r.Got? ==> |r.rest| < |s|
    decreases |s|, 2
  {
    var v := ReadValue(s);
    if v.Fail? then Fail
    else
      var u := Skip(v.rest);
      if u != [] && u[0] == 0x5d then Got([v.value], u[1..])
      else if u != [] && u[0] == 0x2c then
        var more := ReadElements(u[1..]);
        if more.Fail? then Fail else Got([v.value] + more.value, more.rest)
      else Fail
  }

  /** A name and its value. */
  function ReadMember(s: bytes): (r: Parsed<VMember>)
    ensures r.Got? ==> |r.rest| < |s|
    decreases |s|, 2
  {
    var t := Skip(s);
    if t == [] || t[0] != 0x22 then Fail
    else
      var key := ReadChars(t[1..]);
      if key.Fail? then Fail
      else
        var u := Skip(key.rest);
        if u == [] || u[0] != 0x3a then Fail
        else
          var v := ReadValue(u[1..]);
          if v.Fail? then Fail else Got(VMember(key.value, v.value), v.rest)
  }

  function ReadMembers(s: bytes): (r: Parsed<seq<VMember>>)
    ensures r.Got? ==> |r.rest| < |s|
    decreases |s|, 3
  {
    var m := ReadMember(s);
    if m.Fail? then Fail
    else
      var u := Skip(m.rest);
      if u != [] && u[0] == 0x7d then Got([m.value], u[1..])
      else if u != [] && u[0] == 0x2c then
        var more := ReadMembers(u[1..]);
        if more.Fail? then Fail else Got([m.value] + more.value, more.rest)
      else Fail
  }

  // ---- What a printed value means ----

  /** The value, without the tag of a number. */
  function Meaning(v: Json): Value
    decreases v
  {
    match v
    case Null => VNull
    case Bool(b) => VBool(b)
    case Signed(i) => VNumber(i)
    case Unsigned(u) => VNumber(u)
    case Text(text) => VText(text)
    case Array(items) => VArray(MeaningOfItems(items))
    case Object(members) => VObject(MeaningOfMembers(members))
  }

  function MeaningOfItems(items: seq<Json>): seq<Value>
    decreases items
  {
    if items == [] then [] else [Meaning(items[0])] + MeaningOfItems(items[1..])
  }

  function MeaningOfMember(m: Member): VMember
    decreases m
  {
    VMember(m.key, Meaning(m.value))
  }

  function MeaningOfMembers(members: seq<Member>): seq<VMember>
    decreases members
  {
    if members == [] then [] else [MeaningOfMember(members[0])] + MeaningOfMembers(members[1..])
  }

  // ---- The round trip ----

  lemma ControlRoundTrip(c: byte, rest: bytes)
    requires c < 0x20
    ensures ReadUnicode([0x30, 0x30, HEX[ValueOf(c) / 16], HEX[ValueOf(c) % 16]] + rest) == Got([c], rest)
  {
    var s := [0x30, 0x30, HEX[ValueOf(c) / 16], HEX[ValueOf(c) % 16]] + rest;
    HexRoundTrip(ValueOf(c) / 16);
    HexRoundTrip(ValueOf(c) % 16);
    assert Hex4(s) == Some(ValueOf(c));
    assert s[4..] == rest;
  }

  lemma HexRoundTrip(d: nat)
    requires d < 16
    ensures HexValue(HEX[d]) == Some(d)
  {
  }

  lemma CharRoundTrip(c: byte, rest: bytes)
    ensures ReadChar(Escaped(c) + rest) == Got([c], rest)
  {
    var e := Escaped(c);
    var s := e + rest;
    if |e| == 1 {
      assert s[1..] == rest;
    } else if |e| == 2 {
      assert s[2..] == rest;
    } else {
      assert s[2..] == [0x30, 0x30, HEX[ValueOf(c) / 16], HEX[ValueOf(c) % 16]] + rest;
      ControlRoundTrip(c, rest);
    }
  }

  lemma {:induction false} StringRoundTrip(text: bytes, rest: bytes)
    ensures ReadChars(EscapedAll(text) + [0x22] + rest) == Got(text, rest)
  {
    if text == [] {
      assert EscapedAll(text) + [0x22] + rest == [0x22] + rest;
    } else {
      var tail := EscapedAll(text[1..]) + [0x22] + rest;
      StringRoundTrip(text[1..], rest);
      assert EscapedAll(text) + [0x22] + rest == Escaped(text[0]) + tail;
      CharRoundTrip(text[0], tail);
      EscapedStart(text[0], tail);
      assert [text[0]] + text[1..] == text;
    }
  }

  lemma EscapedStart(c: byte, tail: bytes)
    ensures Escaped(c) + tail != [] && (Escaped(c) + tail)[0] != 0x22
  {
  }

  /** What may follow a number so that it ends there. */
  predicate Stops(rest: bytes) {
    rest == [] || (!IsDigit(rest[0]) && rest[0] != 0x2e && rest[0] != 0x65 && rest[0] != 0x45)
  }

  /** The value of a run of digits read behind acc. */
  function Fold(ds: bytes, acc: nat): nat
    requires forall d :: d in ds ==> IsDigit(d)
  {
    if ds == [] then acc else Fold(ds[1..], acc * 10 + DigitValue(ds[0]))
  }

  lemma {:induction false} DigitsRead(ds: bytes, acc: nat, rest: bytes)
    requires (forall d :: d in ds ==> IsDigit(d)) && (rest == [] || !IsDigit(rest[0]))
    ensures ReadDigits(ds + rest, acc) == (Fold(ds, acc), rest)
  {
    if ds == [] {
      assert ds + rest == rest;
    } else {
      assert (ds + rest)[1..] == ds[1..] + rest;
      DigitsRead(ds[1..], acc * 10 + DigitValue(ds[0]), rest);
    }
  }

  lemma {:induction false} FoldSnoc(ds: bytes, last: byte, acc: nat)
    requires (forall d :: d in ds ==> IsDigit(d)) && IsDigit(last)
    ensures Fold(ds + [last], acc) == Fold(ds, acc) * 10 + DigitValue(last)
  {
    if ds == [] {
      assert ds + [last] == [last] && [last][1..] == [];
    } else {
      assert (ds + [last])[1..] == ds[1..] + [last];
      FoldSnoc(ds[1..], last, acc * 10 + DigitValue(ds[0]));
    }
  }

  lemma {:induction false} FoldDigits(n: nat)
    ensures Fold(Digits(n), 0) == n
    ensures n > 0 ==> Digits(n)[0] != 0x30
    ensures n == 0 ==> Digits(n) == [0x30]
  {
    if n >= 10 {
      FoldDigits(n / 10);
      FoldSnoc(Digits(n / 10), ByteOf(0x30 + n % 10), 0);
    }
  }

  lemma IntRoundTrip(n: nat, rest: bytes)
    requires Stops(rest)
    ensures ReadInt(Digits(n) + rest) == Got(n, rest)
  {
    var ds := Digits(n);
    FoldDigits(n);
    if n > 0 {
      assert (ds + rest)[1..] == ds[1..] + rest;
      DigitsRead(ds[1..], DigitValue(ds[0]), rest);
    }
  }

  lemma NumberRoundTrip(n: int, rest: bytes)
    requires Stops(rest)
    ensures ReadNumber(DumpInt(n) + rest) == Got(VNumber(n), rest)
    ensures DumpInt(n) != [] && (DumpInt(n)[0] == 0x2d || IsDigit(DumpInt(n)[0]))
  {
    var m: nat := if n < 0 then -n else n;
    IntRoundTrip(m, rest);
    if n < 0 {
      assert (DumpInt(n) + rest)[1..] == Digits(m) + rest;
    } else {
      assert Digits(m)[0] in Digits(m);
      assert (Digits(m) + rest)[0] == Digits(m)[0];
    }
  }

  /** A printed value begins with a byte that is neither white space nor a closing bracket. */
  lemma DumpBegins(v: Json)
    ensures Dump(v) != [] && !IsSpace(Dump(v)[0]) && Dump(v)[0] != 0x5d
  {
    if v.Signed? {
      NumberRoundTrip(v.i, []);
    } else if v.Unsigned? {
      NumberRoundTrip(v.u, []);
    }
  }

  lemma SkipNothing(s: bytes)
    requires s == [] || !IsSpace(s[0])
    ensures Skip(s) == s
  {
  }

  lemma LiteralRoundTrip(v: Json, rest: bytes)
    requires v.Null? || v.Bool?
    ensures ReadValue(Dump(v) + rest) == Got(Meaning(v), rest)
  {
    var s := Dump(v) + rest;
    SkipNothing(s);
    assert s[|Dump(v)|..] == rest;
    assert s[..|Dump(v)|] == Dump(v);
  }

  lemma NumberValue(v: Json, n: int, rest: bytes)
    requires Stops(rest) && Dump(v) == DumpInt(n) && Meaning(v) == VNumber(n)
    ensures ReadValue(Dump(v) + rest) == Got(Meaning(v), rest)
  {
    NumberRoundTrip(n, rest);
    SkipNothing(Dump(v) + rest);
    assert (Dump(v) + rest)[0] == Dump(v)[0];
  }

  lemma TextValue(text: bytes, rest: bytes)
    ensures ReadValue(DumpString(text) + rest) == Got(VText(text), rest)
  {
    var s := DumpString(text) + rest;
    SkipNothing(s);
    assert s[1..] == EscapedAll(text) + [0x22] + rest;
    StringRoundTrip(text, rest);
  }

  /** Reading what was printed gives the value back, whatever its nesting, up to the tag of a number, and
      consumes exactly the printed text. */
  lemma {:induction false} RoundTrip(v: Json, rest: bytes)
    requires Stops(rest)
    ensures ReadValue(Dump(v) + rest) == Got(Meaning(v), rest)
    decreases v, 1
  {
    match v
    case Null => LiteralRoundTrip(v, rest);
    case Bool(_) => LiteralRoundTrip(v, rest);
    case Signed(i) => NumberValue(v, i, rest);
    case Unsigned(u) => NumberValue(v, u, rest);
    case Text(text) => TextValue(text, rest);
    case Array(items) => ArrayRoundTrip(v, rest);
    case Object(members) => ObjectRoundTrip(v, rest);
  }

  lemma {:induction false} ArrayRoundTrip(v: Json, rest: bytes)
    requires v.Array?
    ensures ReadValue(Dump(v) + rest) == Got(Meaning(v), rest)
    decreases v, 0
  {
    var s := Dump(v) + rest;
    var inner := DumpItems(v.items) + [0x5d] + rest;
    assert s[1..] == inner && s[0] == 0x5b;
    SkipNothing(s);
    SkipNothing([0x5d] + rest);
    if v.items == [] {
      assert inner == [0x5d] + rest;
    } else {
      ItemsBegin(v.items, [0x5d] + rest);
      assert inner == DumpItems(v.items) + ([0x5d] + rest);
      SkipNothing(inner);
      ItemsRoundTrip(v.items, rest);
    }
  }

  lemma ItemsBegin(items: seq<Json>, more: bytes)
    requires items != []
    ensures var s := DumpItems(items) + more; s != [] && !IsSpace(s[0]) && s[0] != 0x5d
  {
    DumpBegins(items[0]);
    assert DumpItems(items)[0] == Dump(items[0])[0];
    assert (DumpItems(items) + more)[0] == DumpItems(items)[0];
  }

  lemma ListShape(first: bytes, others: bytes, close: byte, rest: bytes)
    ensures first + [0x2c] + others + [close] + rest == first + ([0x2c] + (others + [close] + rest))
    ensures first + [close] + rest == first + ([close] + rest)
  {
  }

  /** One element was read; a comma and the others follow, or the closing bracket. */
  lemma ElementsStep(s: bytes, v: Value, after: bytes, others: Parsed<seq<Value>>)
    requires ReadValue(s) == Got(v, after) && Skip(after) == after && after != []
    requires after[0] == 0x2c ==> ReadElements(after[1..]) == others && others.Got?
    ensures after[0] == 0x5d ==> ReadElements(s) == Got([v], after[1..])
    ensures after[0] == 0x2c ==> ReadElements(s) == Got([v] + others.value, others.rest)
  {
  }

  lemma ItemsHead(items: seq<Json>, rest: bytes)
    requires items != []
    ensures DumpItems(items) + [0x5d] + rest == Dump(items[0]) + After(|items| == 1, 0x5d, DumpItems(items[1..]), rest)
    ensures MeaningOfItems(items) == [Meaning(items[0])] + MeaningOfItems(items[1..])
    ensures |items| == 1 ==> MeaningOfItems(items) == [Meaning(items[0])]
  {
    ListShape(Dump(items[0]), DumpItems(items[1..]), 0x5d, rest);
    assert |items| == 1 ==> items[1..] == [];
  }

  /** What follows the first element of a printed list. */
  function After(last: bool, close: byte, others: bytes, rest: bytes): (after: bytes)
    ensures after != [] && after[0] == (if last then close else 0x2c)
    ensures after[1..] == if last then rest else others + [close] + rest
  {
    if last then [close] + rest else [0x2c] + (others + [close] + rest)
  }

  lemma {:induction false} ItemsRoundTrip(items: seq<Json>, rest: bytes)
    requires items != []
    ensures ReadElements(DumpItems(items) + [0x5d] + rest) == Got(MeaningOfItems(items), rest)
    decreases items
  {
    var after := After(|items| == 1, 0x5d, DumpItems(items[1..]), rest);
    ItemsHead(items, rest);
    RoundTrip(items[0], after);
    SkipNothing(after);
    if |items| > 1 {
      ItemsRoundTrip(items[1..], rest);
    }
    ElementsStep(Dump(items[0]) + after, Meaning(items[0]), after, Got(MeaningOfItems(items[1..]), rest));
  }

  lemma {:induction false} ObjectRoundTrip(v: Json, rest: bytes)
    requires v.Object?
    ensures ReadValue(Dump(v) + rest) == Got(Meaning(v), rest)
    decreases v, 0
  {
    var s := Dump(v) + rest;
    var inner := DumpMembers(v.members) + [0x7d] + rest;
    assert s[1..] == inner && s[0] == 0x7b;
    SkipNothing(s);
    SkipNothing([0x7d] + rest);
    if v.members == [] {
      assert inner == [0x7d] + rest;
    } else {
      assert DumpMembers(v.members)[0] == DumpMember(v.members[0])[0] == 0x22;
      SkipNothing(inner);
      MembersRoundTrip(v.members, rest);
    }
  }

  lemma MemberShape(text: bytes, value: bytes, rest: bytes)
    ensures ([0x22] + text + [0x22]) + [0x3a] + value + rest == [0x22] + (text + [0x22] + ([0x3a] + (value + rest)))
  {
  }

  /** A member is read from its parts. */
  lemma MemberParts(m: Member, text: bytes, afterKey: bytes, rest: bytes)
    requires text == EscapedAll(m.key) && afterKey == [0x3a] + (Dump(m.value) + rest)
    requires DumpMember(m) + rest == [0x22] + (text + [0x22] + afterKey)
    requires Skip([0x22] + (text + [0x22] + afterKey)) == [0x22] + (text + [0x22] + afterKey) && Skip(afterKey) == afterKey
    requires ReadChars(text + [0x22] + afterKey) == Got(m.key, afterKey)
    requires ReadValue(Dump(m.value) + rest) == Got(Meaning(m.value), rest)
    ensures ReadMember(DumpMember(m) + rest) == Got(MeaningOfMember(m), rest)
  {
    var s := DumpMember(m) + rest;
    assert s[1..] == text + [0x22] + afterKey && s[0] == 0x22;
    assert afterKey[1..] == Dump(m.value) + rest && afterKey[0] == 0x3a;
  }

  lemma {:induction false} MemberRoundTrip(m: Member, rest: bytes)
    requires Stops(rest)
    ensures ReadMember(DumpMember(m) + rest) == Got(MeaningOfMember(m), rest)
    decreases m
  {
    var text := EscapedAll(m.key);
    var afterKey := [0x3a] + (Dump(m.value) + rest);
    MemberShape(text, Dump(m.value), rest);
    StringRoundTrip(m.key, afterKey);
    SkipNothing([0x22] + (text + [0x22] + afterKey));
    SkipNothing(afterKey);
    RoundTrip(m.value, rest);
    MemberParts(m, text, afterKey, rest);
  }

  lemma MembersStep(s: bytes, m: VMember, after: bytes, others: Parsed<seq<VMember>>)
    requires ReadMember(s) == Got(m, after) && Skip(after) == after && after != []
    requires after[0] == 0x2c ==> ReadMembers(after[1..]) == others && others.Got?
    ensures after[0] == 0x7d ==> ReadMembers(s) == Got([m], after[1..])
    ensures after[0] == 0x2c ==> ReadMembers(s) == Got([m] + others.value, others.rest)
  {
  }

  lemma MembersHead(members: seq<Member>, rest: bytes)
    requires members != []
    ensures DumpMembers(members) + [0x7d] + rest == DumpMember(members[0]) + After(|members| == 1, 0x7d, DumpMembers(members[1..]), rest)
    ensures MeaningOfMembers(members) == [MeaningOfMember(members[0])] + MeaningOfMembers(members[1..])
    ensures |members| == 1 ==> MeaningOfMembers(members) == [MeaningOfMember(members[0])]
  {
    ListShape(DumpMember(members[0]), DumpMembers(members[1..]), 0x7d, rest);
    assert |members| == 1 ==> members[1..] == [];
  }

  lemma {:induction false} MembersRoundTrip(members: seq<Member>, rest: bytes)
    requires members != []
    ensures ReadMembers(DumpMembers(members) + [0x7d] + rest) == Got(MeaningOfMembers(members), rest)
    decreases members
  {
    var after := After(|members| == 1, 0x7d, DumpMembers(members[1..]), rest);
    MembersHead(members, rest);
    MemberRoundTrip(members[0], after);
    SkipNothing(after);
    if |members| > 1 {
      MembersRoundTrip(members[1..], rest);
    }
    MembersStep(DumpMember(members[0]) + after, MeaningOfMember(members[0]), after, Got(MeaningOfMembers(members[1..]), rest));
  }

  /** Two values with one printed text mean the same. */
  lemma DumpIsInjective(v: Json, w: Json)
    requires Dump(v) == Dump(w)
    ensures Meaning(v) == Meaning(w)
  {
    RoundTrip(v, []);
    RoundTrip(w, []);
  }
}
