/** The two-lane FNV-1a hash of include/deep_jit/utils/hash.hpp. */
module Fnv {
  import opened Bytes
  import opened Words

  datatype State = State(lane0: bv64, lane1: bv64)

  const SEED := State(0xc6a4a7935bd1e995, 0xff51afd7ed558ccd)

  function Bit(p: bool, bit: bv64): bv64 { if p then bit else 0 }

  function Pack(p0: bool, p1: bool, p2: bool, p3: bool, p4: bool, p5: bool, p6: bool, p7: bool): bv64 {
    Bit(p0, 1) | Bit(p1, 2) | Bit(p2, 4) | Bit(p3, 8) | Bit(p4, 16) | Bit(p5, 32) | Bit(p6, 64) | Bit(p7, 128)
  }

  predicate Odd(n: nat) { n % 2 == 1 }

  function Half(n: nat): nat { n / 2 }

  function Half4(n: nat): nat { Half(Half(Half(Half(n)))) }

  /** The 64-bit word with the bits of b. */
  function Widen(b: byte): bv64 {
    var n := ValueOf(b);
    var m := Half4(n);
    Pack(Odd(n), Odd(Half(n)), Odd(Half(Half(n))), Odd(Half(Half(Half(n)))),
         Odd(m), Odd(Half(m)), Odd(Half(Half(m))), Odd(Half(Half(Half(m)))))
  }

  function Step(s: State, b: byte): State {
    State(Prime0(Xor(s.lane0, Widen(b))), Prime1(Xor(s.lane1, Widen(b))))
  }

  /** Feed the bytes of bs, first to last. */
  function Absorb(s: State, bs: bytes): State {
    if bs == [] then s else Step(Absorb(s, bs[..|bs| - 1]), bs[|bs| - 1])
  }

  lemma AbsorbNext(s: State, bs: bytes, k: nat)
    requires k < |bs|
    ensures Absorb(s, bs[..k + 1]) == Step(Absorb(s, bs[..k]), bs[k])
  {
    assert bs[..k + 1][..k] == bs[..k];
  }

  /** One `update`: eight length bytes, then the data. */
  function Frame(data: Str): bytes { LittleEndian(|data|, 8) + data }

  function Updated(s: State, data: Str): State { Absorb(s, Frame(data)) }

  /** A chain of `update` calls on a given state, and the bytes that the chain feeds. */
  function UpdateAll(s: State, parts: seq<Str>): State {
    if parts == [] then s else Updated(UpdateAll(s, parts[..|parts| - 1]), parts[|parts| - 1])
  }

  function Frames(parts: seq<Str>): bytes {
    if parts == [] then [] else Frame(parts[0]) + Frames(parts[1..])
  }

  // ---- The finaliser ----

  function SplitMix(x: bv64): bv64 { Fold31(Mix1(Fold27(Mix0(Fold30(x))))) }

  function Unsplit(y: bv64): bv64 { Unfold30(Unmix0(Unfold27(Unmix1(Unfold31(y))))) }

  const HEX: bytes := [0x30, 0x31, 0x32, 0x33, 0x34, 0x35, 0x36, 0x37, 0x38, 0x39, 0x61, 0x62, 0x63, 0x64, 0x65, 0x66]

  /** The hexadecimal digit of the four low bits. */
  function HexDigit(v: bv64): byte {
    HEX[(if v & 8 != 0 then 8 else 0) + (if v & 4 != 0 then 4 else 0) +
        (if v & 2 != 0 then 2 else 0) + (if v & 1 != 0 then 1 else 0)]
  }

  function Shr4(v: bv64): bv64 { v >> 4 }

  /** The low n hexadecimal digits of v, most significant first. */
  function HexDigits(v: bv64, n: nat): (h: bytes)
    ensures |h| == n
  {
    if n == 0 then [] else HexDigits(Shr4(v), n - 1) + [HexDigit(v)]
  }

  function Digest(s: State): (d: Str)
    ensures |d| == 32
  {
    HexDigits(SplitMix(s.lane0), 16) + HexDigits(SplitMix(s.lane1), 16)
  }

  /** The digest of a chain of components, from the initial state. */
  function Hash(parts: seq<Str>): (d: Str)
    ensures |d| == 32
  {
    Digest(UpdateAll(SEED, parts))
  }

  /** s is the state after a chain of updates with these components. The trigger keeps the definition of
      the hash out of proofs that only pass chains on. */
  ghost predicate Chained(s: State, parts: seq<Str>) {
    forall p {:trigger UpdateAll(SEED, p)} :: p == parts ==> s == UpdateAll(SEED, p)
  }

  // ---- The class, as the source updates it ----

  class FNV1a {
    var state_0: bv64
    var state_1: bv64

    function Value(): State
      reads this
    {
      State(state_0, state_1)
    }

    constructor ()
      ensures Value() == SEED
    {
      state_0 := SEED.lane0;
      state_1 := SEED.lane1;
    }

    constructor Copy(other: FNV1a)
      ensures Value() == other.Value()
    {
      state_0 := other.state_0;
      state_1 := other.state_1;
    }

    method UpdateByte(b: byte)
      modifies this
      ensures Value() == Step(old(Value()), b)
    {
      state_0 := Prime0(Xor(state_0, Widen(b)));
      state_1 := Prime1(Xor(state_1, Widen(b)));
    }

    /** The length prefix, shifted out byte by byte. */
    method UpdateSize(size: nat)
      modifies this
      ensures Value() == Absorb(old(Value()), LittleEndian(size, 8))
    {
      ghost var start, fed := Value(), LittleEndian(size, 8);
      for k := 0 to 8
        invariant Value() == Absorb(start, fed[..k])
      {
        LittleEndianAt(size, 8, k);
        AbsorbNext(start, fed, k);
        UpdateByte(ByteOf(ShiftRight(size, k) % 256));
      }
      assert fed[..8] == fed;
    }

    method UpdateData(data: bytes)
      modifies this
      ensures Value() == Absorb(old(Value()), data)
    {
      ghost var start := Value();
      for i := 0 to |data|
        invariant Value() == Absorb(start, data[..i])
      {
        AbsorbNext(start, data, i);
        UpdateByte(data[i]);
      }
      assert data[..|data|] == data;
    }

    method Update(data: Str)
      modifies this
      ensures Value() == Updated(old(Value()), data)
    {
      AbsorbConcat(Value(), LittleEndian(|data|, 8), data);
      UpdateSize(|data|);
      UpdateData(data);
    }

    method GetHexDigest() returns (d: Str)
      ensures d == Digest(Value())
    {
      d := HexDigits(SplitMix(state_0), 16) + HexDigits(SplitMix(state_1), 16);
    }
  }

  method StartChain() returns (hash: FNV1a)
    ensures fresh(hash) && Chained(hash.Value(), [])
  {
    hash := new FNV1a();
    assert UpdateAll(SEED, []) == SEED;
  }

  /** `hash.update(data)` on a chain. */
  method ExtendChain(hash: FNV1a, data: Str, ghost parts: seq<Str>)
    requires Chained(hash.Value(), parts)
    modifies hash
    ensures Chained(hash.Value(), parts + [data])
  {
    assert hash.Value() == UpdateAll(SEED, parts);
    assert (parts + [data])[..|parts|] == parts;
    hash.Update(data);
  }

  /** h is the hash above, as a function value. */
  ghost predicate IsHash(h: seq<Str> -> Str) {
    forall p {:trigger Hash(p)} :: h(p) == Hash(p)
  }

  /** `hash.get_hex_digest()` of a chain. */
  method FinishChain(hash: FNV1a, ghost parts: seq<Str>, ghost h: seq<Str> -> Str) returns (d: Str)
    requires Chained(hash.Value(), parts) && IsHash(h)
    ensures d == h(parts)
  {
    assert hash.Value() == UpdateAll(SEED, parts);
    d := hash.GetHexDigest();
    assert d == Hash(parts);
  }

  // ---- A chain of updates feeds one uniquely decodable stream ----

  lemma {:induction false} AbsorbConcat(s: State, a: bytes, b: bytes)
    ensures Absorb(s, a + b) == Absorb(Absorb(s, a), b)
  {
    if b == [] {
      assert a + b == a;
    } else {
      assert (a + b)[..|a + b| - 1] == a + b[..|b| - 1];
      AbsorbConcat(s, a, b[..|b| - 1]);
    }
  }

  lemma {:induction false} FramesSnoc(parts: seq<Str>, last: Str)
    ensures Frames(parts + [last]) == Frames(parts) + Frame(last)
  {
    if parts != [] {
      assert (parts + [last])[1..] == parts[1..] + [last];
      FramesSnoc(parts[1..], last);
    } else {
      assert (parts + [last])[1..] == [];
    }
  }

  lemma {:induction false} UpdateAllIsOneStream(s: State, parts: seq<Str>)
    ensures UpdateAll(s, parts) == Absorb(s, Frames(parts))
  {
    if parts != [] {
      var init, last := parts[..|parts| - 1], parts[|parts| - 1];
      assert parts == init + [last];
      FramesSnoc(init, last);
      UpdateAllIsOneStream(s, init);
      AbsorbConcat(s, Frames(init), Frame(last));
    }
  }

  lemma Pow256Of8()
    ensures Pow256(8) == 0x1_0000_0000_0000_0000
  {
    assert Pow256(4) == 0x1_0000_0000;
    assert Pow256(6) == 0x1_0000_0000_0000;
  }

  /** Frames are self-delimiting: a frame that starts two streams is the same frame. */
  lemma FramePrefix(a: Str, b: Str, x: bytes, y: bytes)
    requires Frame(a) + x == Frame(b) + y
    ensures a == b && x == y
  {
    assert LittleEndian(|a|, 8) == (Frame(a) + x)[..8] == LittleEndian(|b|, 8);
    Pow256Of8();
    LittleEndianRoundTrip(|a|, 8);
    LittleEndianRoundTrip(|b|, 8);
    assert a == (Frame(a) + x)[8..8 + |a|];
    assert b == (Frame(b) + y)[8..8 + |b|];
    assert x == (Frame(a) + x)[8 + |a|..];
    assert y == (Frame(b) + y)[8 + |b|..];
  }

  /** Two chains that feed the same bytes are the same list of components: no boundary can move. */
  lemma {:induction false} FramesInjective(a: seq<Str>, b: seq<Str>)
    requires Frames(a) == Frames(b)
    ensures a == b
  {
    if a != [] && b != [] {
      FramePrefix(a[0], b[0], Frames(a[1..]), Frames(b[1..]));
      FramesInjective(a[1..], b[1..]);
    }
  }

  // ---- The byte step, the finaliser and the digest lose nothing ----

  function Unstep(s: State, b: byte): State {
    State(Xor(Unprime0(s.lane0), Widen(b)), Xor(Unprime1(s.lane1), Widen(b)))
  }

  lemma StepBijective(s: State, b: byte)
    ensures Unstep(Step(s, b), b) == s
    ensures Step(Unstep(s, b), b) == s
  {
    Prime0Bijective(Xor(s.lane0, Widen(b)));
    Prime1Bijective(Xor(s.lane1, Widen(b)));
    Prime0Bijective(s.lane0);
    Prime1Bijective(s.lane1);
    XorTwice(s.lane0, Widen(b));
    XorTwice(s.lane1, Widen(b));
    XorTwice(Unprime0(s.lane0), Widen(b));
    XorTwice(Unprime1(s.lane1), Widen(b));
  }

  lemma SplitMixBijective(x: bv64)
    ensures Unsplit(SplitMix(x)) == x
    ensures SplitMix(Unsplit(x)) == x
  {
    Fold30Bijective(x);
    Mix0Bijective(Fold30(x));
    Fold27Bijective(Mix0(Fold30(x)));
    Mix1Bijective(Fold27(Mix0(Fold30(x))));
    Fold31Bijective(Mix1(Fold27(Mix0(Fold30(x)))));
    var y4 := Unfold31(x);
    var y3 := Unmix1(y4);
    var y2 := Unfold27(y3);
    var y1 := Unmix0(y2);
    Fold31Bijective(x);
    Mix1Bijective(y4);
    Fold27Bijective(y3);
    Mix0Bijective(y2);
    Fold30Bijective(y1);
  }

  lemma HexDigitInjective(v: bv64, w: bv64)
    requires HexDigit(v) == HexDigit(w) && Shr4(v) == Shr4(w)
    ensures v == w
  {
  }

  /** What n shifts by four leave. */
  function Rest(v: bv64, n: nat): bv64 { if n == 0 then v else Rest(Shr4(v), n - 1) }

  lemma RestOf4(v: bv64, n: nat)
    requires n >= 4
    ensures Rest(v, n) == Rest(Shr16(v), n - 4)
  {
    assert Rest(v, n) == Rest(Shr4(v), n - 1) == Rest(Shr4(Shr4(v)), n - 2);
    assert Rest(Shr4(Shr4(v)), n - 2) == Rest(Shr4(Shr4(Shr4(v))), n - 3) == Rest(Shr4(Shr4(Shr4(Shr4(v)))), n - 4);
    assert Shr4(Shr4(Shr4(Shr4(v)))) == Shr16(v);
  }

  function Shr16(v: bv64): bv64 { v >> 16 }

  lemma RestOf16(v: bv64)
    ensures Rest(v, 16) == 0
  {
    RestOf4(v, 16);
    RestOf4(Shr16(v), 12);
    RestOf4(Shr16(Shr16(v)), 8);
    RestOf4(Shr16(Shr16(Shr16(v))), 4);
    assert Shr16(Shr16(Shr16(Shr16(v)))) == 0;
  }

  lemma {:induction false} HexDigitsInjective(v: bv64, w: bv64, n: nat)
    requires HexDigits(v, n) == HexDigits(w, n) && Rest(v, n) == Rest(w, n)
    ensures v == w
  {
    if n > 0 {
      var hv, hw := HexDigits(v, n), HexDigits(w, n);
      assert hv[..n - 1] == HexDigits(Shr4(v), n - 1) && hw[..n - 1] == HexDigits(Shr4(w), n - 1);
      assert hv[n - 1] == HexDigit(v) && hw[n - 1] == HexDigit(w);
      HexDigitsInjective(Shr4(v), Shr4(w), n - 1);
      HexDigitInjective(v, w);
    }
  }

  lemma HalfInjective(v: bv64, w: bv64)
    requires HexDigits(SplitMix(v), 16) == HexDigits(SplitMix(w), 16)
    ensures v == w
  {
    RestOf16(SplitMix(v));
    RestOf16(SplitMix(w));
    HexDigitsInjective(SplitMix(v), SplitMix(w), 16);
    SplitMixBijective(v);
    SplitMixBijective(w);
  }

  lemma DigestHalves(s: State)
    ensures Digest(s)[..16] == HexDigits(SplitMix(s.lane0), 16)
    ensures Digest(s)[16..] == HexDigits(SplitMix(s.lane1), 16)
  {
  }

  /** The hexadecimal digest determines both lanes. */
  lemma DigestInjective(s: State, t: State)
    requires Digest(s) == Digest(t)
    ensures s == t
  {
    DigestHalves(s);
    DigestHalves(t);
    HalfInjective(s.lane0, t.lane0);
    HalfInjective(s.lane1, t.lane1);
  }

  // ---- Sensitivity ----

  /** The two states differ in both lanes. */
  predicate Apart(s: State, t: State) { s.lane0 != t.lane0 && s.lane1 != t.lane1 }

  lemma StepKeepsApart(s: State, t: State, b: byte)
    requires Apart(s, t)
    ensures Apart(Step(s, b), Step(t, b))
  {
    var s', t' := Step(s, b), Step(t, b);
    StepBijective(s, b);
    StepBijective(t, b);
  }

  lemma PackInjective(p0: bool, p1: bool, p2: bool, p3: bool, p4: bool, p5: bool, p6: bool, p7: bool,
                      q0: bool, q1: bool, q2: bool, q3: bool, q4: bool, q5: bool, q6: bool, q7: bool)
    requires Pack(p0, p1, p2, p3, p4, p5, p6, p7) == Pack(q0, q1, q2, q3, q4, q5, q6, q7)
    ensures p0 == q0 && p1 == q1 && p2 == q2 && p3 == q3
    ensures p4 == q4 && p5 == q5 && p6 == q6 && p7 == q7
  {
  }

  lemma HalvesDetermine(n: nat, m: nat)
    requires Odd(n) == Odd(m) && Half(n) == Half(m)
    ensures n == m
  {
  }

  lemma NibbleDetermined(n: nat, m: nat)
    requires Odd(n) == Odd(m) && Odd(Half(n)) == Odd(Half(m)) && Odd(Half(Half(n))) == Odd(Half(Half(m)))
    requires Odd(Half(Half(Half(n)))) == Odd(Half(Half(Half(m)))) && Half4(n) == Half4(m)
    ensures n == m
  {
    HalvesDetermine(Half(Half(Half(n))), Half(Half(Half(m))));
    HalvesDetermine(Half(Half(n)), Half(Half(m)));
    HalvesDetermine(Half(n), Half(m));
    HalvesDetermine(n, m);
  }

  lemma EightBits(n: nat)
    requires n < 256
    ensures Half4(Half4(n)) == 0
  {
    assert Half(Half(n)) < 64;
    assert Half4(n) < 16;
  }

  lemma WidenInjective(b: byte, c: byte)
    requires Widen(b) == Widen(c)
    ensures b == c
  {
    var n, n' := ValueOf(b), ValueOf(c);
    var m, m' := Half4(n), Half4(n');
    PackInjective(Odd(n), Odd(Half(n)), Odd(Half(Half(n))), Odd(Half(Half(Half(n)))),
                  Odd(m), Odd(Half(m)), Odd(Half(Half(m))), Odd(Half(Half(Half(m)))),
                  Odd(n'), Odd(Half(n')), Odd(Half(Half(n'))), Odd(Half(Half(Half(n')))),
                  Odd(m'), Odd(Half(m')), Odd(Half(Half(m'))), Odd(Half(Half(Half(m')))));
    EightBits(n);
    EightBits(n');
    NibbleDetermined(m, m');
    NibbleDetermined(n, n');
  }

  lemma XorLeftInjective(x: bv64, p: bv64, q: bv64)
    requires Xor(x, p) == Xor(x, q)
    ensures p == q
  {
  }

  lemma XorSeparates(x: bv64, b: byte, c: byte)
    requires b != c
    ensures Xor(x, Widen(b)) != Xor(x, Widen(c))
  {
    if Xor(x, Widen(b)) == Xor(x, Widen(c)) {
      XorLeftInjective(x, Widen(b), Widen(c));
      WidenInjective(b, c);
    }
  }

  lemma StepSeparates(s: State, b: byte, c: byte)
    requires b != c
    ensures Apart(Step(s, b), Step(s, c))
  {
    XorSeparates(s.lane0, b, c);
    XorSeparates(s.lane1, b, c);
    Prime0Bijective(Xor(s.lane0, Widen(b)));
    Prime0Bijective(Xor(s.lane0, Widen(c)));
    Prime1Bijective(Xor(s.lane1, Widen(b)));
    Prime1Bijective(Xor(s.lane1, Widen(c)));
  }

  lemma {:induction false} AbsorbKeepsApart(s: State, t: State, bs: bytes)
    requires Apart(s, t)
    ensures Apart(Absorb(s, bs), Absorb(t, bs))
  {
    if bs != [] {
      AbsorbKeepsApart(s, t, bs[..|bs| - 1]);
      StepKeepsApart(Absorb(s, bs[..|bs| - 1]), Absorb(t, bs[..|bs| - 1]), bs[|bs| - 1]);
    }
  }

  lemma StreamSeparates(s: State, bs: bytes, k: nat, b: byte)
    requires k < |bs| && b != bs[k]
    ensures Apart(Absorb(s, bs), Absorb(s, bs[k := b]))
  {
    var head, tail := bs[..k], bs[k + 1..];
    assert bs == (head + [bs[k]]) + tail;
    assert bs[k := b] == (head + [b]) + tail;
    assert (head + [bs[k]])[..k] == head && (head + [b])[..k] == head;
    StepSeparates(Absorb(s, head), bs[k], b);
    AbsorbConcat(s, head + [bs[k]], tail);
    AbsorbConcat(s, head + [b], tail);
    AbsorbKeepsApart(Absorb(s, head + [bs[k]]), Absorb(s, head + [b]), tail);
  }

  /** Replacing byte j of component i replaces one byte of the stream. */
  lemma {:induction false} FramesReplace(parts: seq<Str>, i: nat, j: nat, b: byte) returns (k: nat)
    requires i < |parts| && j < |parts[i]|
    ensures k < |Frames(parts)| && Frames(parts)[k] == parts[i][j]
    ensures Frames(parts[i := parts[i][j := b]]) == Frames(parts)[k := b]
  {
    var changed := parts[i := parts[i][j := b]];
    if i == 0 {
      k := 8 + j;
      assert changed[1..] == parts[1..];
      assert Frame(changed[0]) == Frame(parts[0])[k := b];
    } else {
      k := FramesReplace(parts[1..], i - 1, j, b);
      k := k + |Frame(parts[0])|;
      assert changed[1..] == parts[1..][i - 1 := parts[1..][i - 1][j := b]];
    }
  }

  /** Changing exactly one byte of one component changes both halves of the digest, whatever the rest. */
  lemma OneByteChangesBothHalves(parts: seq<Str>, i: nat, j: nat, b: byte)
    requires i < |parts| && j < |parts[i]| && b != parts[i][j]
    ensures Hash(parts)[..16] != Hash(parts[i := parts[i][j := b]])[..16]
    ensures Hash(parts)[16..] != Hash(parts[i := parts[i][j := b]])[16..]
  {
    var changed := parts[i := parts[i][j := b]];
    var k := FramesReplace(parts, i, j, b);
    StreamSeparates(SEED, Frames(parts), k, b);
    UpdateAllIsOneStream(SEED, parts);
    UpdateAllIsOneStream(SEED, changed);
    var s, t := UpdateAll(SEED, parts), UpdateAll(SEED, changed);
    DigestHalves(s);
    DigestHalves(t);
    if Hash(parts)[..16] == Hash(changed)[..16] {
      HalfInjective(s.lane0, t.lane0);
    }
    if Hash(parts)[16..] == Hash(changed)[16..] {
      HalfInjective(s.lane1, t.lane1);
    }
  }

  /** Equal digests of different component lists: an explicit collision. */
  ghost predicate Collision(a: seq<Str>, b: seq<Str>) { a != b && Hash(a) == Hash(b) }

  /** Every collision is a collision of the lanes on two different byte streams: framing, the
      finaliser and the hexadecimal printing contribute none. */
  lemma CollisionIsInTheLanes(a: seq<Str>, b: seq<Str>)
    ensures Collision(a, b) <==> Frames(a) != Frames(b) && Absorb(SEED, Frames(a)) == Absorb(SEED, Frames(b))
  {
    UpdateAllIsOneStream(SEED, a);
    UpdateAllIsOneStream(SEED, b);
    if Hash(a) == Hash(b) {
      DigestInjective(UpdateAll(SEED, a), UpdateAll(SEED, b));
    }
    if Frames(a) == Frames(b) {
      FramesInjective(a, b);
    }
  }
}
