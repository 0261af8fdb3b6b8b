/** 256-bit compact targets: expansion, compaction and the work they stand for. */
module CompactTarget {
  import opened Ids

  function Pow2(n: nat): (r: nat)
    ensures r > 0
  {
    if n == 0 then 1 else 2 * Pow2(n - 1)
  }

  /** `v << k`. */
  function Shl(v: nat, k: nat): nat {
    v * Pow2(k)
  }

  function Quotient(v: nat, d: nat): nat
    requires d > 0
  {
    v / d
  }

  /** `v >> k`. */
  function Shr(v: nat, k: nat): nat {
    Quotient(v, Pow2(k))
  }

  const MAX: nat := Pow2(256) - 1
  const POW_LIMIT: nat := 0x7F_FFFF * Pow2(8 * 29)
  const U32: nat := 0x1_0000_0000

  datatype TargetError = NotU32 | UnknownNumerator | InvalidTarget | OutOfRange | InvalidContribution | SumOverflow

  /** `int.bit_length`. */
  function BitLength(v: nat): nat {
    if v == 0 then 0 else 1 + BitLength(v / 2)
  }

  /** The target of a 32-bit compact word. */
  function Expand(bits: nat): (target: nat)
    requires bits < U32
  {
    var exponent, mantissa := bits / 0x100_0000, bits % 0x80_0000;
    if exponent == 0 then MAX
    else if mantissa == 0 then 0
    else if exponent >= 3 then
      var wide := Shl(mantissa, 8 * (exponent - 3));
      if wide < MAX then wide else MAX
    else
      Shr(mantissa, 8 * (3 - exponent))
  }

  function Compact(target: int): nat {
    if !(0 < target <= MAX) then 0
    else
      var size := (BitLength(target) + 7) / 8;
      var word := if size >= 3 then Shr(target, 8 * (size - 3)) else Shl(target, 8 * (3 - size));
      if word / 0x80_0000 % 2 == 1 then
        (size + 1) * 0x100_0000 + word / 256 % 0x80_0000
      else
        size * 0x100_0000 + word % 0x80_0000
  }

  predicate ValidV3(bits: nat)
    requires bits < U32
  {
    1 <= Expand(bits) <= POW_LIMIT && Compact(Expand(bits)) == bits
  }

  // ---------- powers of two ----------

  lemma {:induction false} Pow2Add(a: nat, b: nat)
    ensures Pow2(a + b) == Pow2(a) * Pow2(b)
    decreases a
  {
    if a > 0 {
      Pow2Add(a - 1, b);
    }
  }

  lemma Pow2Le(a: nat, b: nat)
    requires a <= b
    ensures Pow2(a) <= Pow2(b)
  {
    Pow2Add(a, b - a);
  }

  lemma Pow2Values()
    ensures Pow2(8) == 256 && Pow2(15) == 0x8000 && Pow2(16) == 0x1_0000
    ensures Pow2(23) == 0x80_0000 && Pow2(24) == 0x100_0000
  {
    assert Pow2(4) == 16;
    Pow2Add(4, 4);
    Pow2Add(8, 8);
    Pow2Add(16, 8);
    assert Pow2(16) == 2 * Pow2(15) && Pow2(24) == 2 * Pow2(23);
  }

  lemma {:induction false} BitLengthBounds(v: nat)
    requires v > 0
    ensures BitLength(v) > 0
    ensures Pow2(BitLength(v) - 1) <= v < Pow2(BitLength(v))
  {
    if v > 1 {
      BitLengthBounds(v / 2);
    }
  }

  // ---------- the normal form ----------

  /** A target scaled by 2^24 lies between `m` and `m + 1` units of 256^e. */
  ghost predicate Normal(e: nat, m: nat, t: nat) {
    && 0x8000 <= m < 0x80_0000
    && m * Pow2(8 * e) <= t * 0x100_0000 < (m + 1) * Pow2(8 * e)
  }

  /** The three-byte word of a target: the floor of its scaled value. */
  function Word(t: nat, s: nat): nat {
    if s >= 3 then Shr(t, 8 * (s - 3)) else Shl(t, 8 * (3 - s))
  }

  lemma WordFloor(t: nat, s: nat)
    ensures Word(t, s) * Pow2(8 * s) <= t * 0x100_0000 < (Word(t, s) + 1) * Pow2(8 * s)
  {
    hide Pow2;
    Pow2Values();
    if s >= 3 {
      Pow2Add(24, 8 * (s - 3));
      ScaleDown(t, Pow2(8 * (s - 3)));
    } else {
      Pow2Add(8 * (3 - s), 8 * s);
      ScaleUp(t, Pow2(8 * (3 - s)), Pow2(8 * s));
    }
  }

  lemma ScaleDown(t: nat, u: nat)
    requires u > 0
    ensures t / u * (0x100_0000 * u) <= t * 0x100_0000 < (t / u + 1) * (0x100_0000 * u)
  {
    var w := t / u;
    assert t == u * w + t % u;
    assert w * u <= t < w * u + u;
    assert w * (0x100_0000 * u) == w * u * 0x100_0000;
    assert (w + 1) * (0x100_0000 * u) == (w * u + u) * 0x100_0000;
  }

  lemma ScaleUp(t: nat, u: nat, p: nat)
    requires u * p == 0x100_0000 && p > 0
    ensures t * u * p <= t * 0x100_0000 < (t * u + 1) * p
  {
    assert t * u * p == t * (u * p);
    assert (t * u + 1) * p == t * u * p + p;
  }

  /** A target of `s` bytes has a word with its top byte set. */
  lemma WordRange(t: nat, s: nat)
    requires s > 0 && Pow2(8 * (s - 1)) <= t < Pow2(8 * s)
    ensures 0x1_0000 <= Word(t, s) < 0x100_0000
  {
    hide Pow2, Word;
    var w, p := Word(t, s), Pow2(8 * s);
    WordFloor(t, s);
    Pow2Values();
    Pow2Add(8, 8 * (s - 1));
    if w >= 0x100_0000 {
      MulLe(0x100_0000, w, p);
      assert false;
    }
    if w + 1 <= 0x1_0000 {
      MulLe(w + 1, 0x1_0000, p);
      assert false;
    }
  }

  lemma MulLe(a: nat, b: nat, c: nat)
    requires a <= b
    ensures a * c <= b * c
  {
  }

  lemma ByteSize(t: nat)
    requires 0 < t
    ensures var s := (BitLength(t) + 7) / 8; s > 0 && Pow2(8 * (s - 1)) <= t < Pow2(8 * s)
  {
    hide Pow2, BitLength;
    BitLengthBounds(t);
    var s := (BitLength(t) + 7) / 8;
    Pow2Le(8 * (s - 1), BitLength(t) - 1);
    Pow2Le(BitLength(t), 8 * s);
  }

  /** Compaction yields the normal form. */
  lemma CompactNormal(t: nat)
    requires 0 < t <= MAX
    ensures var e, m := Compact(t) / 0x100_0000, Compact(t) % 0x100_0000;
            1 <= e <= 33 && Normal(e, m, t)
  {
    hide Pow2, BitLength, Word, Compact;
    var s := (BitLength(t) + 7) / 8;
    ByteSize(t);
    SizeBound(t, s);
    WordFloor(t, s);
    WordRange(t, s);
    CompactWord(t);
    if Word(t, s) >= 0x80_0000 {
      Pow2Values();
      Pow2Add(8, 8 * s);
      assert 8 + 8 * s == 8 * (s + 1);
      DropByte(t, Word(t, s), Pow2(8 * s));
      SplitWord(s + 1, Word(t, s) / 256);
    } else {
      SplitWord(s, Word(t, s));
    }
  }

  lemma SplitWord(e: nat, m: nat)
    requires m < 0x100_0000
    ensures (e * 0x100_0000 + m) / 0x100_0000 == e && (e * 0x100_0000 + m) % 0x100_0000 == m
  {
  }

  lemma SizeBound(t: nat, s: nat)
    requires 0 < t <= MAX && s > 0 && Pow2(8 * (s - 1)) <= t
    ensures s <= 32
  {
    hide Pow2;
    if s > 32 {
      Pow2Le(256, 8 * (s - 1));
    }
  }

  lemma CompactWord(t: nat)
    requires 0 < t <= MAX && Word(t, (BitLength(t) + 7) / 8) < 0x100_0000
    ensures var s := (BitLength(t) + 7) / 8;
            var w := Word(t, s);
            Compact(t) == if w >= 0x80_0000 then (s + 1) * 0x100_0000 + w / 256 else s * 0x100_0000 + w
  {
    hide Pow2, BitLength, MAX, Shl, Shr;
    var s := (BitLength(t) + 7) / 8;
    var w := Word(t, s);
    TopBit(w);
    assert Compact(t) == if w / 0x80_0000 % 2 == 1 then (s + 1) * 0x100_0000 + w / 256 % 0x80_0000
                         else s * 0x100_0000 + w % 0x80_0000;
  }

  lemma TopBit(w: nat)
    requires w < 0x100_0000
    ensures w / 0x80_0000 % 2 == 1 <==> w >= 0x80_0000
    ensures w < 0x80_0000 ==> w % 0x80_0000 == w
    ensures w / 256 % 0x80_0000 == w / 256
  {
  }

  lemma DropByte(t: nat, w: nat, p: nat)
    requires w * p <= t * 0x100_0000 < (w + 1) * p
    ensures w / 256 * (256 * p) <= t * 0x100_0000 < (w / 256 + 1) * (256 * p)
  {
    var m := w / 256;
    assert m * 256 <= w && w + 1 <= (m + 1) * 256;
    MulLe(m * 256, w, p);
    MulLe(w + 1, (m + 1) * 256, p);
  }

  /** The normal form is unique, and ordered like the targets. */
  lemma NormalOrder(e: nat, m: nat, t: nat, e': nat, m': nat, t': nat)
    requires Normal(e, m, t) && Normal(e', m', t')
    requires e < e' || (e == e' && m < m')
    ensures t < t'
  {
    hide Pow2;
    var p, p' := Pow2(8 * e), Pow2(8 * e');
    if e < e' {
      Pow2Values();
      Pow2Add(8, 8 * e);
      Pow2Le(8 * e + 8, 8 * e');
      MulLe(m + 1, 0x80_0000, p);
      MulLe(0x8000, m', p');
      assert 0x80_0000 * p == 0x8000 * (256 * p) <= 0x8000 * p';
    } else {
      MulLe(m + 1, m', p);
    }
  }

  lemma NormalUnique(e: nat, m: nat, e': nat, m': nat, t: nat)
    requires Normal(e, m, t) && Normal(e', m', t)
    ensures e == e' && m == m'
  {
    hide Normal;
    if e < e' || (e == e' && m < m') {
      NormalOrder(e, m, t, e', m', t);
    } else if e' < e || (e == e' && m' < m) {
      NormalOrder(e', m', t, e, m, t);
    }
  }

  // ---------- theorems ----------

  lemma ExpandWord(e: nat, m: nat)
    requires 1 <= e <= 33 && 0 < m < 0x80_0000
    ensures e * 0x100_0000 + m < U32
    ensures e >= 3 && m * Pow2(8 * (e - 3)) <= MAX ==>
              Expand(e * 0x100_0000 + m) == m * Pow2(8 * (e - 3))
    ensures e < 3 ==> Expand(e * 0x100_0000 + m) == m / Pow2(8 * (3 - e))
  {
    hide Pow2;
    SplitWord(e, m);
    assert (e * 0x100_0000 + m) % 0x80_0000 == m;
  }

  /** What a normal-form word expands to. */
  lemma ExpandNormal(e: nat, m: nat, t: nat)
    requires 1 <= e <= 33 && Normal(e, m, t) && t <= MAX
    ensures e * 0x100_0000 + m < U32
    ensures var r := Expand(e * 0x100_0000 + m);
            && 0 < r <= t
            && (t - r) * 0x8000 < t
            && Normal(e, m, r)
  {
    hide Pow2, Expand;
    Pow2Values();
    ExpandWord(e, m);
    if e >= 3 {
      Pow2Add(24, 8 * (e - 3));
      ExpandWide(m, t, Pow2(8 * (e - 3)));
    } else {
      Pow2Add(8 * (3 - e), 8 * e);
      ExpandNarrow(m, t, Pow2(8 * (3 - e)), Pow2(8 * e));
    }
  }

  lemma ExpandWide(m: nat, t: nat, u: nat)
    requires u > 0 && 0x8000 <= m
    requires m * (0x100_0000 * u) <= t * 0x100_0000 < (m + 1) * (0x100_0000 * u)
    ensures 0 < m * u <= t && (t - m * u) * 0x8000 < t
    ensures m * (0x100_0000 * u) <= m * u * 0x100_0000 < (m + 1) * (0x100_0000 * u)
  {
    assert m * (0x100_0000 * u) == m * u * 0x100_0000;
    assert (m + 1) * (0x100_0000 * u) == (m * u + u) * 0x100_0000;
    MulLe(0x8000, m, u);
  }

  lemma ExpandNarrow(m: nat, t: nat, u: nat, p: nat)
    requires u * p == 0x100_0000 && u > 0 && p > 0
    requires m * p <= t * 0x100_0000 < (m + 1) * p
    ensures m == t * u && m / u == t
  {
    assert t * 0x100_0000 == t * u * p;
    if m < t * u {
      MulLe(m + 1, t * u, p);
      assert false;
    }
    if t * u < m {
      MulLe(t * u + 1, m, p);
      assert false;
    }
  }

  lemma MulLt(a: nat, b: nat, c: nat)
    requires a < b && c > 0
    ensures a * c < b * c
  {
    MulLe(a + 1, b, c);
    assert (a + 1) * c == a * c + c;
  }

  lemma WideExact(m: nat, u: nat, t: nat)
    requires u > 0 && t == (if m * u < MAX then m * u else MAX)
    ensures m * (0x100_0000 * u) < MAX * 0x100_0000 ==>
              t * 0x100_0000 <= m * (0x100_0000 * u) < (t + 1) * 0x100_0000
    ensures m * (0x100_0000 * u) >= MAX * 0x100_0000 ==> t == MAX
  {
    hide MAX;
    assert m * (0x100_0000 * u) == m * u * 0x100_0000;
  }

  lemma NarrowExact(m: nat, u: nat, p: nat)
    requires u * p == 0x100_0000 && u > 0 && p > 0
    ensures m / u * 0x100_0000 <= m * p < (m / u + 1) * 0x100_0000
  {
    var t := m / u;
    assert t * u <= m < (t + 1) * u;
    MulLe(t * u, m, p);
    MulLt(m, (t + 1) * u, p);
    assert t * u * p == t * (u * p) && (t + 1) * u * p == (t + 1) * (u * p);
  }

  lemma NarrowSmall(m: nat, e: nat)
    requires m < 0x80_0000 && e < 3
    ensures m * Pow2(8 * e) < MAX * 0x100_0000
  {
    Pow2Values();
    Pow2Le(8 * e, 16);
    Pow2Le(24, 256);
    assert MAX >= 0xFF_FFFF;
    hide Pow2, MAX;
    MulLe(Pow2(8 * e), 0x1_0000, m);
    assert m * Pow2(8 * e) <= 0x1_0000 * m;
  }

  /**
   * Expansion is the floor of mantissa times 256^exponent over 2^24, capped at
   * the largest target; exponent zero always gives the largest target.
   */
  lemma ExpandExact(bits: nat)
    requires bits < U32
    ensures var e, m, t := bits / 0x100_0000, bits % 0x80_0000, Expand(bits);
            && (e == 0 ==> t == MAX)
            && (e > 0 && m * Pow2(8 * e) < MAX * 0x100_0000 ==>
                  t * 0x100_0000 <= m * Pow2(8 * e) < (t + 1) * 0x100_0000)
            && (e > 0 && m * Pow2(8 * e) >= MAX * 0x100_0000 ==> t == MAX)
  {
    hide Pow2, MAX;
    var e, m := bits / 0x100_0000, bits % 0x80_0000;
    Pow2Values();
    if e >= 3 {
      var u := Pow2(8 * (e - 3));
      Pow2Add(24, 8 * (e - 3));
      MaxPositive();
      assert Expand(bits) == if m * u < MAX then m * u else MAX;
      WideExact(m, u, Expand(bits));
    } else if e > 0 {
      Pow2Add(8 * (3 - e), 8 * e);
      NarrowExact(m, Pow2(8 * (3 - e)), Pow2(8 * e));
      NarrowSmall(m, e);
    }
  }

  lemma MaxPositive()
    ensures MAX > 0
  {
  }

  /** Anything but a positive 256-bit target compacts to zero. */
  lemma CompactOutside(t: int)
    ensures !(0 < t < Pow2(256)) ==> Compact(t) == 0
  {
  }

  /** Expanding a compacted target loses less than one part in 2^15, downwards. */
  lemma RoundTripLoss(t: nat)
    requires 0 < t <= MAX
    ensures Compact(t) < U32
    ensures 0 < Expand(Compact(t)) <= t
    ensures (t - Expand(Compact(t))) * 0x8000 < t
  {
    hide Pow2, Compact, Expand, Normal;
    CompactNormal(t);
    ExpandNormal(Compact(t) / 0x100_0000, Compact(t) % 0x100_0000, t);
  }

  /** Compaction is idempotent through expansion. */
  lemma CompactIdempotent(t: nat)
    requires 0 < t <= MAX
    ensures Compact(t) < U32
    ensures Compact(Expand(Compact(t))) == Compact(t)
  {
    hide Pow2, Compact, Expand, Normal;
    var c := Compact(t);
    CompactNormal(t);
    RoundTripLoss(t);
    ExpandNormal(c / 0x100_0000, c % 0x100_0000, t);
    var r := Expand(c);
    CompactNormal(r);
    NormalUnique(c / 0x100_0000, c % 0x100_0000, Compact(r) / 0x100_0000, Compact(r) % 0x100_0000, r);
  }

  /** Smaller targets have smaller or equal words. */
  lemma CompactMonotone(t: nat, t': nat)
    requires 0 < t <= t' <= MAX
    ensures Compact(t) <= Compact(t')
  {
    hide Pow2, Compact, Normal;
    var c, c' := Compact(t), Compact(t');
    CompactNormal(t);
    CompactNormal(t');
    if c' < c {
      NormalOrder(c' / 0x100_0000, c' % 0x100_0000, t', c / 0x100_0000, c % 0x100_0000, t);
    }
  }

  lemma LimitBelowMax()
    ensures POW_LIMIT < Pow2(255) && Pow2(256) == 2 * Pow2(255) && POW_LIMIT + 1 <= MAX
  {
    hide Pow2;
    Pow2Values();
    Pow2Add(23, 8 * 29);
    Pow2Add(1, 255);
    Pow2One();
    assert 0x7F_FFFF * Pow2(8 * 29) < 0x80_0000 * Pow2(8 * 29);
  }

  lemma Pow2One()
    ensures Pow2(1) == 2
  {
  }

  /** The limit is the target of 0x207FFFFF, the largest valid word. */
  lemma LimitWord()
    ensures Expand(0x207F_FFFF) == POW_LIMIT && ValidV3(0x207F_FFFF)
    ensures forall bits: nat :: bits < U32 && ValidV3(bits) ==> bits <= 0x207F_FFFF
  {
    LimitExpands();
    LimitNormal();
    CompactNormal(POW_LIMIT);
    hide Expand, Compact, POW_LIMIT, MAX, Normal;
    NormalUnique(32, 0x7F_FFFF, Compact(POW_LIMIT) / 0x100_0000, Compact(POW_LIMIT) % 0x100_0000, POW_LIMIT);
    assert Compact(POW_LIMIT) == 0x207F_FFFF;
    forall bits: nat | bits < U32 && ValidV3(bits)
      ensures bits <= 0x207F_FFFF
    {
      CompactMonotone(Expand(bits), POW_LIMIT);
    }
  }

  lemma LimitExpands()
    ensures Expand(0x207F_FFFF) == POW_LIMIT && 0 < POW_LIMIT <= MAX
  {
    LimitBelowMax();
    hide Pow2;
    assert 0x207F_FFFF / 0x100_0000 == 32 && 0x207F_FFFF % 0x80_0000 == 0x7F_FFFF;
  }

  lemma LimitNormal()
    ensures Normal(32, 0x7F_FFFF, POW_LIMIT)
  {
    Pow2Values();
    Pow2Add(24, 8 * 29);
    hide Pow2;
    assert POW_LIMIT * 0x100_0000 == 0x7F_FFFF * Pow2(256);
  }

  /** Valid words are exactly the images of targets up to the limit. */
  lemma ValidAreImages(bits: nat)
    requires bits < U32
    ensures ValidV3(bits) <==> exists t: nat :: 1 <= t <= POW_LIMIT && Compact(t) == bits
  {
    hide Pow2, Compact, Expand;
    LimitBelowMax();
    forall t: nat | 1 <= t <= POW_LIMIT && Compact(t) == bits
      ensures ValidV3(bits)
    {
      RoundTripLoss(t);
      CompactIdempotent(t);
    }
  }

  /** The numeric order of valid words is the order of their targets. */
  lemma ValidOrder(a: nat, b: nat)
    requires a < U32 && b < U32 && ValidV3(a) && ValidV3(b)
    ensures a < b <==> Expand(a) < Expand(b)
  {
    hide Pow2, Compact, Expand;
    LimitBelowMax();
    if Expand(a) <= Expand(b) {
      CompactMonotone(Expand(a), Expand(b));
    }
    if Expand(b) <= Expand(a) {
      CompactMonotone(Expand(b), Expand(a));
    }
  }

  // ---------- work ----------

  const FULL: nat := Pow2(256)

  /** `NUMERATORS.get(policy)`. */
  function Numerator(policy: string): Option<nat> {
    if policy == "full_2pow256" then Some(FULL)
    else if policy == "max_u256" then Some(MAX)
    else None
  }

  function WorkCandidate(bits: int, policy: string): Result<nat, TargetError> {
    if Numerator(policy).None? then Err(UnknownNumerator)
    else if !(0 <= bits < U32) then Err(NotU32)
    else if !ValidV3(bits) then Err(InvalidTarget)
    else
      var contribution := Numerator(policy).value / (Expand(bits) + 1);
      if !(1 <= contribution <= MAX) then Err(OutOfRange) else Ok(contribution)
  }

  /** Every valid word has work under both numerators; the range check never fails. */
  lemma WorkInRange(bits: int, policy: string)
    ensures WorkCandidate(bits, policy) != Err(OutOfRange)
    ensures WorkCandidate(bits, policy).Ok? <==>
            Numerator(policy).Some? && 0 <= bits < U32 && ValidV3(bits)
    ensures WorkCandidate(bits, policy).Ok? ==> 1 <= WorkCandidate(bits, policy).value <= MAX
  {
    hide Pow2, Compact, Expand;
    LimitBelowMax();
    if Numerator(policy).Some? && 0 <= bits < U32 && ValidV3(bits) {
      QuotientRange(Numerator(policy).value, Expand(bits) + 1);
    }
  }

  lemma QuotientRange(n: nat, d: nat)
    requires 2 <= d <= n
    ensures 1 <= n / d && 2 * (n / d) <= n
  {
    var q := n / d;
    assert n == d * q + n % d;
    MulLe(2, d, q);
  }

  /** The two numerators give different work exactly when `target + 1` divides 2^256. */
  lemma NumeratorsDiffer(bits: nat)
    requires bits < U32 && ValidV3(bits)
    ensures var d := Expand(bits) + 1;
            && WorkCandidate(bits, "full_2pow256").Ok? && WorkCandidate(bits, "max_u256").Ok?
            && WorkCandidate(bits, "full_2pow256").value - WorkCandidate(bits, "max_u256").value
               == (if FULL % d == 0 then 1 else 0)
  {
    hide Pow2, Compact, Expand, ValidV3;
    WorkInRange(bits, "full_2pow256");
    WorkInRange(bits, "max_u256");
    QuotientOfPredecessor(FULL, Expand(bits) + 1);
  }

  lemma QuotientOfPredecessor(n: nat, d: nat)
    requires n > 0 && d > 0
    ensures n / d - (n - 1) / d == (if n % d == 0 then 1 else 0)
  {
    var q, r := n / d, n % d;
    assert n == d * q + r;
    if r == 0 {
      assert q > 0 && n - 1 == d * (q - 1) + (d - 1);
      QuotientIs(n - 1, d, q - 1, d - 1);
    } else {
      QuotientIs(n - 1, d, q, r - 1);
    }
  }

  lemma QuotientIs(a: nat, d: nat, q: nat, r: nat)
    requires d > 0 && a == d * q + r && r < d
    ensures a / d == q
  {
    var q' := a / d;
    assert a == d * q' + a % d;
    if q' < q {
      MulLe(q' + 1, q, d);
    } else if q < q' {
      MulLe(q + 1, q', d);
    }
  }

  /** Work is the largest number of `target + 1` that fit into the numerator. */
  lemma WorkExact(bits: int, policy: string)
    requires WorkCandidate(bits, policy).Ok?
    ensures 0 <= bits < U32 && (policy == "full_2pow256" || policy == "max_u256")
    ensures var n := Pow2(256) - if policy == "max_u256" then 1 else 0;
            var w, d := WorkCandidate(bits, policy).value, Expand(bits) + 1;
            w * d <= n < (w + 1) * d
  {
    hide Expand, ValidV3, Pow2;
    var n, d := Numerator(policy).value, Expand(bits) + 1;
    Floor(n, d);
  }

  lemma Floor(n: nat, d: nat)
    requires d > 0
    ensures n / d * d <= n < (n / d + 1) * d
  {
  }

  /** A harder target never carries less work. */
  lemma WorkOrder(a: nat, b: nat, policy: string)
    requires a < U32 && b < U32 && ValidV3(a) && ValidV3(b) && Numerator(policy).Some? && a <= b
    ensures WorkCandidate(a, policy).Ok? && WorkCandidate(b, policy).Ok?
    ensures WorkCandidate(a, policy).value >= WorkCandidate(b, policy).value
  {
    hide Pow2, Compact, Expand, ValidV3;
    WorkInRange(a, policy);
    WorkInRange(b, policy);
    ValidOrder(a, b);
    ValidOrder(b, a);
    QuotientAntitone(Numerator(policy).value, Expand(a) + 1, Expand(b) + 1);
  }

  lemma QuotientAntitone(n: nat, d: nat, d': nat)
    requires 0 < d <= d'
    ensures n / d' <= n / d
  {
    var q, q' := n / d, n / d';
    assert n == d * q + n % d && n == d' * q' + n % d';
    if q < q' {
      MulLe(q + 1, q', d);
      MulLe(d, d', q');
    }
  }

  // ---------- cumulative work ----------

  function Total(c: seq<int>): int {
    if c == [] then 0 else Total(c[..|c| - 1]) + c[|c| - 1]
  }

  /** Totals of one term and of two lists put together; these determine the sum. */
  lemma {:induction false} TotalConcat(a: seq<int>, b: seq<int>, x: int)
    ensures Total([x]) == x
    ensures Total(a + b) == Total(a) + Total(b)
    decreases |b|
  {
    assert [x][..0] == [];
    if b == [] {
      assert a + b == a;
    } else {
      var front := b[..|b| - 1];
      TotalConcat(a, front, x);
      assert (a + b)[..|a + b| - 1] == a + front;
    }
  }

  ghost predicate Contributions(c: seq<int>) {
    forall i :: 0 <= i < |c| ==> 0 <= c[i] <= MAX
  }

  lemma {:induction false} TotalPrefix(c: seq<int>, i: nat)
    requires i <= |c| && forall j :: 0 <= j < |c| ==> c[j] >= 0
    ensures Total(c[..i]) <= Total(c)
    decreases |c| - i
  {
    if i == |c| {
      assert c[..i] == c;
    } else {
      assert c[..i + 1][..i] == c[..i];
      TotalPrefix(c, i + 1);
    }
  }

  /** The first term at which the sum fails, and why. */
  ghost predicate StopsAt(c: seq<int>, i: nat, e: TargetError)
    requires i < |c|
  {
    && (forall j :: 0 <= j < i ==> 0 <= c[j] <= MAX) && Total(c[..i]) <= MAX
    && match e
       case InvalidContribution => !(0 <= c[i] <= MAX)
       case SumOverflow => 0 <= c[i] <= MAX && Total(c[..i + 1]) > MAX
       case _ => false
  }

  /** Sums without saturating: succeeds exactly when every term and the total fit. */
  method CheckedSum(c: seq<int>) returns (r: Result<int, TargetError>)
    ensures r.Ok? <==> Contributions(c) && Total(c) <= MAX
    ensures r.Ok? ==> r.value == Total(c)
    ensures r.Err? ==> exists i :: 0 <= i < |c| && StopsAt(c, i, r.error)
  {
    hide Pow2;
    var total := 0;
    for i := 0 to |c|
      invariant total == Total(c[..i]) <= MAX
      invariant forall j :: 0 <= j < i ==> 0 <= c[j] <= MAX
    {
      if !(0 <= c[i] <= MAX) {
        assert StopsAt(c, i, InvalidContribution);
        return Err(InvalidContribution);
      }
      assert c[..i + 1][..i] == c[..i];
      total := total + c[i];
      if total > MAX {
        if Contributions(c) {
          TotalPrefix(c, i + 1);
        }
        assert StopsAt(c, i, SumOverflow);
        return Err(SumOverflow);
      }
    }
    assert c[..|c|] == c;
    return Ok(total);
  }
}
