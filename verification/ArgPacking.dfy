/** The packing of kernel arguments into one host buffer.
    (include/deep_jit/backend/ascend/kernel.hpp) */
module ArgPacking {
  import opened Bytes

  // ---- The mask formula ----

  function Pow2(k: nat): (p: nat)
    ensures p > 0
  {
    if k == 0 then 1 else 2 * Pow2(k - 1)
  }

  /** Bitwise `&` of two unsigned numbers. */
  function BitAnd(x: nat, y: nat): nat {
    if x == 0 then 0 else (if x % 2 == 1 && y % 2 == 1 then 1 else 0) + 2 * BitAnd(x / 2, y / 2)
  }

  const MAX64 := 0xffff_ffff_ffff_ffff

  /** Bitwise `~` of a `size_t`. */
  function Not64(m: nat): nat
    requires m <= MAX64
  {
    MAX64 - m
  }

  /** The least multiple of a that is not below x. */
  function RoundUp(x: nat, a: nat): nat
    requires a > 0
  {
    (x + a - 1) / a * a
  }

  /** `(offset + a - 1) & ~(a - 1)` on `size_t`, for a = 2 to the power k. */
  function Align(offset: nat, k: nat): nat
    requires k < 64 && Pow2(k) - 1 <= MAX64 && offset + Pow2(k) - 1 <= MAX64
  {
    BitAnd(offset + Pow2(k) - 1, Not64(Pow2(k) - 1))
  }

  lemma {:induction false} AllOnes(x: nat, w: nat)
    requires x < Pow2(w)
    ensures BitAnd(x, Pow2(w) - 1) == x
  {
    if x > 0 {
      assert (Pow2(w) - 1) % 2 == 1 && (Pow2(w) - 1) / 2 == Pow2(w - 1) - 1;
      AllOnes(x / 2, w - 1);
    }
  }

  lemma HalfThenDivide(x: nat, p: nat)
    requires p > 0
    ensures x / (2 * p) == (x / 2) / p
  {
    var q, r := (x / 2) / p, (x / 2) % p;
    assert x == 2 * (q * p + r) + x % 2 == q * (2 * p) + (2 * r + x % 2);
    DivUnique(x, 2 * p, q, 2 * r + x % 2);
  }

  lemma MulMonotone(a: int, b: int, d: nat)
    requires a <= b
    ensures a * d <= b * d
  {
    assert b * d - a * d == (b - a) * d;
  }

  lemma DivUnique(x: nat, d: nat, q: nat, r: nat)
    requires d > 0 && x == q * d + r && r < d
    ensures x / d == q
  {
    var e := x / d;
    assert x == e * d + x % d;
    if e < q {
      MulMonotone(e + 1, q, d);
      assert false;
    } else if q < e {
      MulMonotone(q + 1, e, d);
      assert false;
    }
  }

  lemma EvenMask(x: nat, y: nat, h: nat)
    requires y == 2 * h
    ensures BitAnd(x, y) == 2 * BitAnd(x / 2, h)
  {
    assert y % 2 == 0 && y / 2 == h;
  }

  lemma FloorTwice(x: nat, p: nat, d: nat)
    requires 0 < p && d == 2 * p
    ensures x / d * d == 2 * (x / 2 / p * p)
  {
    HalfThenDivide(x, p);
    var q := x / 2 / p;
    assert q * d == 2 * (q * p);
  }

  /** Masking off the low k bits rounds down to a multiple of 2 to the power k. */
  lemma {:induction false} MaskRoundsDown(x: nat, k: nat, w: nat)
    requires x < Pow2(w) && k <= w
    ensures Pow2(k) <= Pow2(w) && BitAnd(x, Pow2(w) - Pow2(k)) == x / Pow2(k) * Pow2(k)
    decreases w
  {
    if k == 0 {
      AllOnes(x, w);
    } else {
      MaskRoundsDown(x / 2, k - 1, w - 1);
      var p := Pow2(k - 1);
      FloorTwice(x, p, Pow2(k));
      EvenMask(x, Pow2(w) - Pow2(k), Pow2(w - 1) - p);
    }
  }

  lemma Pow2Of64()
    ensures Pow2(64) == MAX64 + 1
  {
    assert Pow2(8) == 256;
    Pow2Sum(8, 8);
    assert Pow2(16) == 0x1_0000;
    Pow2Sum(16, 16);
    assert Pow2(32) == 0x1_0000_0000;
    Pow2Sum(32, 32);
  }

  lemma {:induction false} Pow2Sum(a: nat, b: nat)
    ensures Pow2(a + b) == Pow2(a) * Pow2(b)
  {
    if a > 0 {
      Pow2Sum(a - 1, b);
    }
  }

  /** The mask formula is true rounding up: the least multiple of the alignment that is not below the
      offset. */
  lemma AlignIsRoundUp(offset: nat, k: nat)
    requires k < 64 && Pow2(k) - 1 <= MAX64 && offset + Pow2(k) - 1 <= MAX64
    ensures Align(offset, k) == RoundUp(offset, Pow2(k))
    ensures Align(offset, k) % Pow2(k) == 0 && offset <= Align(offset, k) < offset + Pow2(k)
  {
    Pow2Of64();
    MaskRoundsDown(offset + Pow2(k) - 1, k, 64);
    RoundUpBounds(offset, Pow2(k));
  }

  lemma RoundUpBounds(x: nat, a: nat)
    requires a > 0
    ensures RoundUp(x, a) % a == 0 && x <= RoundUp(x, a) < x + a
  {
    var q, r := (x + a - 1) / a, (x + a - 1) % a;
    assert x + a - 1 == q * a + r;
    MultipleMod(q, a);
  }

  lemma {:induction false} MultipleMod(q: nat, a: nat)
    requires a > 0
    ensures (q * a) % a == 0
  {
    if q > 0 {
      MultipleMod(q - 1, a);
      assert q * a == (q - 1) * a + a;
      DivUnique(q * a, a, q, 0);
    }
  }

  // ---- The layout ----

  /** An argument: its bytes, and the power of two that its type is aligned to. */
  datatype Arg = Arg(data: bytes, log: nat)

  /** Kernel arguments are aligned to at least 4 bytes. */
  function ArgLog(a: Arg): nat { if a.log < 2 then 2 else a.log }

  /** Where argument n - 1 ends, for n > 0. */
  function End(args: seq<Arg>, n: nat): nat
    requires n <= |args|
    decreases n, 0
  {
    if n == 0 then 0 else Start(args, n - 1) + |args[n - 1].data|
  }

  /** Where argument i starts: at the least multiple of its alignment behind the one before. */
  function Start(args: seq<Arg>, i: nat): nat
    requires i < |args|
    decreases i, 1
  {
    RoundUp(End(args, i), Pow2(ArgLog(args[i])))
  }

  function Size(args: seq<Arg>): nat {
    var end := RoundUp(End(args, |args|), 8); if end < 8 then 8 else end
  }

  /** The layout can be computed in 64 bits. */
  predicate Fits(args: seq<Arg>) {
    && (forall i :: 0 <= i < |args| ==> args[i].log < 64 && End(args, i) + Pow2(ArgLog(args[i])) - 1 <= MAX64)
    && (forall i :: 0 <= i <= |args| ==> End(args, i) + 7 <= MAX64)
  }

  lemma Pow2Of8()
    ensures Pow2(3) == 8
  {
  }

  /** `align_kernel_arg`. */
  method AlignKernelArg(args: seq<Arg>, i: nat, offset: nat) returns (start: nat)
    requires i < |args| && Fits(args) && offset == End(args, i)
    ensures start == Start(args, i) && offset <= start
  {
    var log := ArgLog(args[i]);
    PowerFits(log);
    AlignIsRoundUp(offset, log);
    start := Align(offset, log);
  }

  lemma PowerFits(k: nat)
    requires k < 64
    ensures Pow2(k) - 1 <= MAX64
  {
    Pow2Of64();
    Pow2Grows(k, 64);
  }

  lemma {:induction false} Pow2Grows(j: nat, k: nat)
    requires j <= k
    ensures Pow2(j) <= Pow2(k)
  {
    if j < k {
      Pow2Grows(j, k - 1);
    }
  }

  /** The fold that computes the buffer's size. */
  method ParameterSize(args: seq<Arg>) returns (size: nat)
    requires Fits(args)
    ensures size == Size(args)
  {
    var offset := 0;
    for i := 0 to |args|
      invariant offset == End(args, i)
    {
      var start := AlignKernelArg(args, i, offset);
      offset := start + |args[i].data|;
    }
    Pow2Of8();
    AlignIsRoundUp(offset, 3);
    size := Align(offset, 3);
    if size < 8 {
      size := 8;
    }
  }

  lemma {:induction false} Ordered(args: seq<Arg>, i: nat, n: nat)
    requires i < n <= |args|
    ensures End(args, i) <= Start(args, i) && Start(args, i) + |args[i].data| <= End(args, n)
  {
    RoundUpBounds(End(args, i), Pow2(ArgLog(args[i])));
    if i + 1 < n {
      Ordered(args, i, n - 1);
      RoundUpBounds(End(args, n - 1), Pow2(ArgLog(args[n - 1])));
    }
  }

  /** Every argument is aligned, behind all earlier ones, and inside a buffer whose size is a multiple of 8
      and at least 8. */
  lemma LayoutIsSound(args: seq<Arg>, i: nat, j: nat)
    requires i < |args|
    ensures Start(args, i) % Pow2(ArgLog(args[i])) == 0 && ArgLog(args[i]) >= 2 && ArgLog(args[i]) >= args[i].log
    ensures Start(args, i) + |args[i].data| <= Size(args)
    ensures Size(args) % 8 == 0 && Size(args) >= 8
    ensures i < j < |args| ==> Start(args, i) + |args[i].data| <= Start(args, j)
  {
    RoundUpBounds(End(args, i), Pow2(ArgLog(args[i])));
    Ordered(args, i, |args|);
    RoundUpBounds(End(args, |args|), 8);
    if i < j < |args| {
      Ordered(args, i, j);
      RoundUpBounds(End(args, j), Pow2(ArgLog(args[j])));
    }
  }

  // ---- The buffer ----

  /** Byte p belongs to argument i. */
  predicate Covers(args: seq<Arg>, i: nat, p: int) {
    i < |args| && Start(args, i) <= p < Start(args, i) + |args[i].data|
  }

  /** The first n arguments lie at their offsets, and every other byte is zero. */
  ghost predicate Packed(args: seq<Arg>, n: nat, buffer: seq<byte>) {
    && n <= |args| && |buffer| == Size(args)
    && (forall i: nat, p :: i < n && Covers(args, i, p) && 0 <= p < |buffer| ==> buffer[p] == args[i].data[p - Start(args, i)])
    && (forall p :: 0 <= p < |buffer| && (forall i: nat :: i < n ==> !Covers(args, i, p)) ==> buffer[p] == 0)
  }

  /** `memcpy` of one argument to its offset. */
  method CopyArg(args: seq<Arg>, i: nat, buffer: array<byte>)
    requires i < |args| && Packed(args, i, buffer[..])
    modifies buffer
    ensures Packed(args, i + 1, buffer[..])
  {
    ghost var was := buffer[..];
    var start, data := Start(args, i), args[i].data;
    LayoutIsSound(args, i, i);
    for k := 0 to |data|
      invariant forall p :: 0 <= p < buffer.Length ==> buffer[p] == if start <= p < start + k then data[p - start] else was[p]
    {
      buffer[start + k] := data[k];
    }
    CopiedIsPacked(args, i, was, buffer[..]);
  }

  lemma CopiedIsPacked(args: seq<Arg>, i: nat, was: seq<byte>, now: seq<byte>)
    requires i < |args| && Packed(args, i, was) && |now| == |was|
    requires forall p :: 0 <= p < |now| ==> now[p] == if Covers(args, i, p) then args[i].data[p - Start(args, i)] else was[p]
    ensures Packed(args, i + 1, now)
  {
    forall n: nat, p | n < i + 1 && Covers(args, n, p) && 0 <= p < |now|
      ensures now[p] == args[n].data[p - Start(args, n)]
    {
      if n < i {
        LayoutIsSound(args, n, i);
      }
    }
  }

  lemma NothingPacked(args: seq<Arg>, zeros: seq<byte>)
    requires |zeros| == Size(args) && forall p :: 0 <= p < |zeros| ==> zeros[p] == 0
    ensures Packed(args, 0, zeros)
  {
  }

  /** One round of the copying fold. */
  method PackArg(args: seq<Arg>, i: nat, offset: nat, buffer: array<byte>) returns (next: nat)
    requires i < |args| && Fits(args) && offset == End(args, i) && Packed(args, i, buffer[..])
    modifies buffer
    ensures next == End(args, i + 1) && Packed(args, i + 1, buffer[..])
  {
    var start := AlignKernelArg(args, i, offset);
    CopyArg(args, i, buffer);
    next := start + |args[i].data|;
  }

  method Zeros(args: seq<Arg>, size: nat) returns (buffer: array<byte>)
    requires size == Size(args)
    ensures fresh(buffer) && Packed(args, 0, buffer[..])
  {
    buffer := new byte[size](_ => 0);
    NothingPacked(args, buffer[..]);
  }

  /** The packing of `launch`: the copying fold runs through the same offsets as the size fold, and the buffer
      holds each argument at its offset and zeros in the gaps. */
  method Pack(args: seq<Arg>) returns (buffer: array<byte>)
    requires Fits(args)
    ensures fresh(buffer) && Packed(args, |args|, buffer[..])
  {
    var size := ParameterSize(args);
    buffer := Zeros(args, size);
    var offset := 0;
    for i := 0 to |args|
      invariant offset == End(args, i) && Packed(args, i, buffer[..])
    {
      offset := PackArg(args, i, offset, buffer);
    }
  }

  // ---- Reading back ----

  /** Reading an argument back at its offset gives its bytes. */
  lemma ReadsBack(args: seq<Arg>, buffer: seq<byte>, i: nat)
    requires Packed(args, |args|, buffer) && i < |args|
    ensures Start(args, i) + |args[i].data| <= |buffer|
    ensures buffer[Start(args, i)..Start(args, i) + |args[i].data|] == args[i].data
  {
    LayoutIsSound(args, i, i);
    var read := buffer[Start(args, i)..Start(args, i) + |args[i].data|];
    forall k | 0 <= k < |args[i].data|
      ensures read[k] == args[i].data[k]
    {
      assert Covers(args, i, Start(args, i) + k);
    }
  }

  /** Nothing but the arguments determines the buffer. */
  lemma PackedIsUnique(args: seq<Arg>, a: seq<byte>, b: seq<byte>)
    requires Packed(args, |args|, a) && Packed(args, |args|, b)
    ensures a == b
  {
    forall p | 0 <= p < |a|
      ensures a[p] == b[p]
    {
      if i: nat :| i < |args| && Covers(args, i, p) {
        assert a[p] == args[i].data[p - Start(args, i)];
      } else {
        assert a[p] == 0 && b[p] == 0;
      }
    }
  }
}
