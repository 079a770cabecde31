/** Laws of 64-bit exclusive-or, shift and multiplication by an odd constant. The operators are
    wrapped in functions, so that proofs above this module reason by these laws alone. */
module Words {

  function Xor(a: bv64, b: bv64): bv64 { a ^ b }

  lemma XorCongruent(p: bv64, q: bv64, c: bv64)
    requires p == q
    ensures p ^ c == q ^ c && c ^ p == c ^ q
  {
  }

  lemma XorAssociative(a: bv64, b: bv64, c: bv64)
    ensures Xor(Xor(a, b), c) == Xor(a, Xor(b, c))
  {
    XorCongruent(Xor(a, b), a ^ b, c);
    XorCongruent(Xor(b, c), b ^ c, a);
  }

  lemma XorSelf(a: bv64)
    ensures Xor(a, a) == 0
  {
  }

  lemma XorZero(a: bv64)
    ensures Xor(a, 0) == a
  {
  }

  lemma XorTwice(a: bv64, b: bv64)
    ensures Xor(Xor(a, b), b) == a
  {
    XorAssociative(a, b, b);
    XorSelf(b);
    XorZero(a);
  }

  /** The cancellation behind undoing `x ^ (x >> k)` when 3k >= 64. */
  lemma XorCancel(x: bv64, p: bv64, q: bv64)
    ensures Xor(Xor(Xor(x, p), Xor(p, q)), q) == x
    ensures Xor(Xor(Xor(x, p), q), Xor(p, q)) == x
  {
    XorAssociative(Xor(x, p), p, q);
    XorTwice(x, p);
    XorTwice(x, q);
    XorAssociative(x, p, q);
    XorTwice(x, Xor(p, q));
  }

  function Shr30(x: bv64): bv64 { x >> 30 }
  function Shr60(x: bv64): bv64 { x >> 60 }
  function Shr27(x: bv64): bv64 { x >> 27 }
  function Shr54(x: bv64): bv64 { x >> 54 }
  function Shr31(x: bv64): bv64 { x >> 31 }
  function Shr62(x: bv64): bv64 { x >> 62 }

  lemma ShrXor30(a: bv64, b: bv64)
    ensures Shr30(Xor(a, b)) == Xor(Shr30(a), Shr30(b))
    ensures Shr60(Xor(a, b)) == Xor(Shr60(a), Shr60(b))
  {
  }

  lemma ShrShr30(a: bv64)
    ensures Shr30(Shr30(a)) == Shr60(a) && Shr60(Shr30(a)) == 0 && Shr30(Shr60(a)) == 0
  {
  }

  lemma ShrXor27(a: bv64, b: bv64)
    ensures Shr27(Xor(a, b)) == Xor(Shr27(a), Shr27(b))
    ensures Shr54(Xor(a, b)) == Xor(Shr54(a), Shr54(b))
  {
  }

  lemma ShrShr27(a: bv64)
    ensures Shr27(Shr27(a)) == Shr54(a) && Shr54(Shr27(a)) == 0 && Shr27(Shr54(a)) == 0
  {
  }

  lemma ShrXor31(a: bv64, b: bv64)
    ensures Shr31(Xor(a, b)) == Xor(Shr31(a), Shr31(b))
    ensures Shr62(Xor(a, b)) == Xor(Shr62(a), Shr62(b))
  {
  }

  lemma ShrShr31(a: bv64)
    ensures Shr31(Shr31(a)) == Shr62(a) && Shr62(Shr31(a)) == 0 && Shr31(Shr62(a)) == 0
  {
  }

  function Fold30(x: bv64): bv64 { Xor(x, Shr30(x)) }
  function Unfold30(x: bv64): bv64 { Xor(Xor(x, Shr30(x)), Shr60(x)) }
  function Fold27(x: bv64): bv64 { Xor(x, Shr27(x)) }
  function Unfold27(x: bv64): bv64 { Xor(Xor(x, Shr27(x)), Shr54(x)) }
  function Fold31(x: bv64): bv64 { Xor(x, Shr31(x)) }
  function Unfold31(x: bv64): bv64 { Xor(Xor(x, Shr31(x)), Shr62(x)) }

  lemma Fold30Bijective(x: bv64)
    ensures Unfold30(Fold30(x)) == x && Fold30(Unfold30(x)) == x
  {
    ShrXor30(x, Shr30(x));
    ShrXor30(Xor(x, Shr30(x)), Shr60(x));
    XorCancel(x, Shr30(x), Shr60(x));
    XorZero(Shr60(x));
    XorZero(Xor(Shr30(x), Shr60(x)));
    ShrShr30(x);
  }

  lemma Fold27Bijective(x: bv64)
    ensures Unfold27(Fold27(x)) == x && Fold27(Unfold27(x)) == x
  {
    ShrXor27(x, Shr27(x));
    ShrXor27(Xor(x, Shr27(x)), Shr54(x));
    XorCancel(x, Shr27(x), Shr54(x));
    XorZero(Shr54(x));
    XorZero(Xor(Shr27(x), Shr54(x)));
    ShrShr27(x);
  }

  lemma Fold31Bijective(x: bv64)
    ensures Unfold31(Fold31(x)) == x && Fold31(Unfold31(x)) == x
  {
    ShrXor31(x, Shr31(x));
    ShrXor31(Xor(x, Shr31(x)), Shr62(x));
    XorCancel(x, Shr31(x), Shr62(x));
    XorZero(Shr62(x));
    XorZero(Xor(Shr31(x), Shr62(x)));
    ShrShr31(x);
  }

  function Prime0(x: bv64): bv64 { x * 0x100000001b3 }
  function Unprime0(x: bv64): bv64 { x * 0xce965057aff6957b }
  function Prime1(x: bv64): bv64 { x * 0x9e3779b97f4a7c15 }
  function Unprime1(x: bv64): bv64 { x * 0xf1de83e19937733d }
  function Mix0(x: bv64): bv64 { x * 0xbf58476d1ce4e5b9 }
  function Unmix0(x: bv64): bv64 { x * 0x96de1b173f119089 }
  function Mix1(x: bv64): bv64 { x * 0x94d049bb133111eb }
  function Unmix1(x: bv64): bv64 { x * 0x319642b2d24d8ec3 }

  lemma Prime0Congruent(a: bv64, b: bv64)
    requires a == b
    ensures a * 0x100000001b3 == b * 0x100000001b3
    ensures a * 0xce965057aff6957b == b * 0xce965057aff6957b
  {
  }

  lemma Prime0Bijective(x: bv64)
    ensures Unprime0(Prime0(x)) == x && Prime0(Unprime0(x)) == x
  {
    Prime0Congruent(Prime0(x), x * 0x100000001b3);
    Prime0Congruent(Unprime0(x), x * 0xce965057aff6957b);
  }

  lemma Prime1Congruent(a: bv64, b: bv64)
    requires a == b
    ensures a * 0x9e3779b97f4a7c15 == b * 0x9e3779b97f4a7c15
    ensures a * 0xf1de83e19937733d == b * 0xf1de83e19937733d
  {
  }

  lemma Prime1Bijective(x: bv64)
    ensures Unprime1(Prime1(x)) == x && Prime1(Unprime1(x)) == x
  {
    Prime1Congruent(Prime1(x), x * 0x9e3779b97f4a7c15);
    Prime1Congruent(Unprime1(x), x * 0xf1de83e19937733d);
  }

  lemma Mix0Congruent(a: bv64, b: bv64)
    requires a == b
    ensures a * 0xbf58476d1ce4e5b9 == b * 0xbf58476d1ce4e5b9
    ensures a * 0x96de1b173f119089 == b * 0x96de1b173f119089
  {
  }

  lemma Mix0Bijective(x: bv64)
    ensures Unmix0(Mix0(x)) == x && Mix0(Unmix0(x)) == x
  {
    Mix0Congruent(Mix0(x), x * 0xbf58476d1ce4e5b9);
    Mix0Congruent(Unmix0(x), x * 0x96de1b173f119089);
  }

  lemma Mix1Congruent(a: bv64, b: bv64)
    requires a == b
    ensures a * 0x94d049bb133111eb == b * 0x94d049bb133111eb
    ensures a * 0x319642b2d24d8ec3 == b * 0x319642b2d24d8ec3
  {
  }

  lemma Mix1Bijective(x: bv64)
    ensures Unmix1(Mix1(x)) == x && Mix1(Unmix1(x)) == x
  {
    Mix1Congruent(Mix1(x), x * 0x94d049bb133111eb);
    Mix1Congruent(Unmix1(x), x * 0x319642b2d24d8ec3);
  }
}
