/** The JSON printer, and a reader by sections 2 to 7 of RFC 8259, on bytes. (include/deep_jit/utils/json.hpp) */
module JsonText {
  import opened Bytes

  type int64 = i: int | -0x8000_0000_0000_0000 <= i < 0x8000_0000_0000_0000
  type uint64 = u: int | 0 <= u < 0x1_0000_0000_0000_0000

  /** The variants of `json`; an object is a list of members, in order, and may repeat a key. */
  datatype Json =
    | Null
    | Bool(b: bool)
    | Signed(i: int64)
    | Unsigned(u: uint64)
    | Text(text: bytes)
    | Array(items: seq<Json>)
    | Object(members: seq<Member>)

  datatype Member = Member(key: bytes, value: Json)

  // ---- The printer ----

  const HEX: bytes := [0x30, 0x31, 0x32, 0x33, 0x34, 0x35, 0x36, 0x37, 0x38, 0x39, 0x61, 0x62, 0x63, 0x64, 0x65, 0x66]

  /** How the printer writes one byte of a string. */
  function Escaped(c: byte): bytes {
    match c
    case 0x22 => [0x5c, 0x22]
    case 0x5c => [0x5c, 0x5c]
    case 0x08 => [0x5c, 0x62]
    case 0x0c => [0x5c, 0x66]
    case 0x0a => [0x5c, 0x6e]
    case 0x0d => [0x5c, 0x72]
    case 0x09 => [0x5c, 0x74]
    case _ => if c < 0x20 then [0x5c, 0x75, 0x30, 0x30, HEX[ValueOf(c) / 16], HEX[ValueOf(c) % 16]] else [c]
  }

  function FlatMap(f: byte -> bytes, s: bytes): bytes { if s == [] then [] else f(s[0]) + FlatMap(f, s[1..]) }

  function EscapedAll(s: bytes): bytes { FlatMap(Escaped, s) }

  function DumpString(s: bytes): bytes { [0x22] + EscapedAll(s) + [0x22] }

  /** The decimal digits of a number, without leading zeros. */
  function Digits(n: nat): (ds: bytes)
    ensures ds != [] && forall d :: d in ds ==> IsDigit(d)
  {
    if n < 10 then [ByteOf(0x30 + n)] else Digits(n / 10) + [ByteOf(0x30 + n % 10)]
  }

  predicate IsDigit(c: byte) { 0x30 <= c <= 0x39 }

  function DumpInt(n: int): bytes { if n < 0 then [0x2d] + Digits(-n) else Digits(n) }

  function Dump(v: Json): bytes
    decreases v
  {
    match v
    case Null => [0x6e, 0x75, 0x6c, 0x6c]
    case Bool(b) => if b then [0x74, 0x72, 0x75, 0x65] else [0x66, 0x61, 0x6c, 0x73, 0x65]
    case Signed(i) => DumpInt(i)
    case Unsigned(u) => DumpInt(u)
    case Text(text) => DumpString(text)
    case Array(items) => [0x5b] + DumpItems(items) + [0x5d]
    case Object(members) => [0x7b] + DumpMembers(members) + [0x7d]
  }

  function DumpItems(items: seq<Json>): bytes
    decreases items
  {
    if items == [] then []
    else if |items| == 1 then Dump(items[0])
    else Dump(items[0]) + [0x2c] + DumpItems(items[1..])
  }

  function DumpMember(m: Member): bytes
    decreases m
  {
    DumpString(m.key) + [0x3a] + Dump(m.value)
  }

  function DumpMembers(members: seq<Member>): bytes
    decreases members
  {
    if members == [] then []
    else if |members| == 1 then DumpMember(members[0])
    else DumpMember(members[0]) + [0x2c] + DumpMembers(members[1..])
  }

  // ---- The printer as the program runs it, appending to one output ----

  class Output {
    var text: bytes

    constructor ()
      ensures text == []
    {
      text := [];
    }

    method Append(s: bytes)
      modifies this
      ensures text == old(text) + s
    {
      text := text + s;
    }

    method AppendEscaped(c: byte)
      modifies this
      ensures text == old(text) + Escaped(c)
    {
      match c
      case 0x22 => Append([0x5c, 0x22]);
      case 0x5c => Append([0x5c, 0x5c]);
      case 0x08 => Append([0x5c, 0x62]);
      case 0x0c => Append([0x5c, 0x66]);
      case 0x0a => Append([0x5c, 0x6e]);
      case 0x0d => Append([0x5c, 0x72]);
      case 0x09 => Append([0x5c, 0x74]);
      case _ =>
        if c < 0x20 {
          Append([0x5c, 0x75, 0x30, 0x30]);
          Append([HEX[ValueOf(c) / 16]]);
          Append([HEX[ValueOf(c) % 16]]);
        } else {
          Append([c]);
        }
    }

    method AppendString(value: bytes)
      modifies this
      ensures text == old(text) + DumpString(value)
    {
      ghost var start := text;
      Append([0x22]);
      for i := 0 to |value|
        invariant text == start + [0x22] + EscapedAll(value[..i])
      {
        EscapedNext(value, i, start + [0x22]);
        AppendEscaped(value[i]);
      }
      assert value[..|value|] == value;
      Append([0x22]);
    }

    method AppendJson(v: Json)
      modifies this
      ensures text == old(text) + Dump(v)
      decreases v, 1
    {
      match v
      case Null => Append([0x6e, 0x75, 0x6c, 0x6c]);
      case Bool(b) => Append(if b then [0x74, 0x72, 0x75, 0x65] else [0x66, 0x61, 0x6c, 0x73, 0x65]);
      case Signed(i) => Append(DumpInt(i));
      case Unsigned(u) => Append(DumpInt(u));
      case Text(s) => AppendString(s);
      case Array(items) => AppendArray(v);
      case Object(members) => AppendObject(v);
    }

    method AppendArray(v: Json)
      requires v.Array?
      modifies this
      ensures text == old(text) + Dump(v)
      decreases v, 0
    {
      ghost var start := text;
      var items := v.items;
      Append([0x5b]);
      var first := true;
      for i := 0 to |items|
        invariant first == (i == 0) && text == start + [0x5b] + DumpItems(items[..i])
      {
        ItemsNext(items, i, start + [0x5b]);
        if !first {
          Append([0x2c]);
        }
        first := false;
        AppendJson(items[i]);
      }
      assert items[..|items|] == items;
      Append([0x5d]);
    }

    method AppendObject(v: Json)
      requires v.Object?
      modifies this
      ensures text == old(text) + Dump(v)
      decreases v, 0
    {
      ghost var start := text;
      var members := v.members;
      Append([0x7b]);
      var first := true;
      for i := 0 to |members|
        invariant first == (i == 0) && text == start + [0x7b] + DumpMembers(members[..i])
      {
        MembersNext(members, i, start + [0x7b]);
        if !first {
          Append([0x2c]);
        }
        first := false;
        MemberAppended(members[i], text);
        AppendString(members[i].key);
        Append([0x3a]);
        assert members[i].value < members[i];
        AppendJson(members[i].value);
      }
      assert members[..|members|] == members;
      Append([0x7d]);
    }
  }

  lemma {:induction false} FlatMapSnoc(f: byte -> bytes, s: bytes, last: byte)
    ensures FlatMap(f, s + [last]) == FlatMap(f, s) + f(last)
  {
    if s == [] {
      assert s + [last] == [last];
      assert FlatMap(f, [last]) == f(last) + FlatMap(f, []);
    } else {
      FlatMapSnoc(f, s[1..], last);
      assert (s + [last])[1..] == s[1..] + [last];
    }
  }

  lemma EscapedNext(s: bytes, i: nat, prefix: bytes)
    requires i < |s|
    ensures prefix + EscapedAll(s[..i + 1]) == prefix + EscapedAll(s[..i]) + Escaped(s[i])
  {
    FlatMapSnoc(Escaped, s[..i], s[i]);
    assert s[..i + 1] == s[..i] + [s[i]];
  }

  lemma SnocShape(first: bytes, others: bytes, last: bytes)
    ensures first + [0x2c] + (others + [0x2c] + last) == first + [0x2c] + others + [0x2c] + last
  {
  }

  lemma {:induction false} ItemsSnoc(items: seq<Json>, last: Json)
    ensures DumpItems(items + [last]) == if items == [] then Dump(last) else DumpItems(items) + [0x2c] + Dump(last)
  {
    var all := items + [last];
    if items == [] {
      assert all == [last];
    } else {
      assert all[1..] == items[1..] + [last] && all[0] == items[0];
      ItemsSnoc(items[1..], last);
      SnocShape(Dump(items[0]), DumpItems(items[1..]), Dump(last));
    }
  }

  lemma {:induction false} MembersSnoc(members: seq<Member>, last: Member)
    ensures DumpMembers(members + [last]) == if members == [] then DumpMember(last) else DumpMembers(members) + [0x2c] + DumpMember(last)
  {
    var all := members + [last];
    if members == [] {
      assert all == [last];
    } else {
      assert all[1..] == members[1..] + [last] && all[0] == members[0];
      MembersSnoc(members[1..], last);
      SnocShape(DumpMember(members[0]), DumpMembers(members[1..]), DumpMember(last));
    }
  }

  function Separator(i: nat): bytes { if i == 0 then [] else [0x2c] }

  lemma Associates(p: bytes, a: bytes, b: bytes, c: bytes)
    ensures p + (a + b + c) == p + a + b + c
    ensures p + ([] + [] + c) == p + [] + [] + c == p + c
  {
  }

  lemma ItemsNext(items: seq<Json>, i: nat, prefix: bytes)
    requires i < |items|
    ensures prefix + DumpItems(items[..i + 1]) == prefix + DumpItems(items[..i]) + Separator(i) + Dump(items[i])
  {
    ItemsSnoc(items[..i], items[i]);
    assert items[..i + 1] == items[..i] + [items[i]];
    Associates(prefix, DumpItems(items[..i]), Separator(i), Dump(items[i]));
  }

  lemma MembersNext(members: seq<Member>, i: nat, prefix: bytes)
    requires i < |members|
    ensures prefix + DumpMembers(members[..i + 1]) == prefix + DumpMembers(members[..i]) + Separator(i) + DumpMember(members[i])
  {
    MembersSnoc(members[..i], members[i]);
    assert members[..i + 1] == members[..i] + [members[i]];
    Associates(prefix, DumpMembers(members[..i]), Separator(i), DumpMember(members[i]));
  }

  lemma MemberAppended(m: Member, start: bytes)
    ensures start + DumpString(m.key) + [0x3a] + Dump(m.value) == start + DumpMember(m)
  {
    Associates(start, DumpString(m.key), [0x3a], Dump(m.value));
  }
}
