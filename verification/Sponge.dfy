/** The oracle's sponge and cSHAKE256 (section 4 of FIPS 202, section 3 of NIST SP 800-185). */
module Sponge {
  import CompactTarget
  import opened Keccak

  type Byte = bv8

  const RATE := 136

  const ZERO: Byte := 0

  // ---------- bytes and lanes, little-endian ----------

  /** Byte `b` at place `j` of a lane. */
  function Shifted(b: Byte, j: nat): bv64
    requires j < 8
  {
    match j
    case 0 => b as bv64
    case 1 => (b as bv64) << 8
    case 2 => (b as bv64) << 16
    case 3 => (b as bv64) << 24
    case 4 => (b as bv64) << 32
    case 5 => (b as bv64) << 40
    case 6 => (b as bv64) << 48
    case _ => (b as bv64) << 56
  }

  function ByteAt(v: bv64, j: nat): Byte
    requires j < 8
  {
    match j
    case 0 => (v & 0xFF) as bv8
    case 1 => ((v >> 8) & 0xFF) as bv8
    case 2 => ((v >> 16) & 0xFF) as bv8
    case 3 => ((v >> 24) & 0xFF) as bv8
    case 4 => ((v >> 32) & 0xFF) as bv8
    case 5 => ((v >> 40) & 0xFF) as bv8
    case 6 => ((v >> 48) & 0xFF) as bv8
    case _ => ((v >> 56) & 0xFF) as bv8
  }

  function High(b: Byte): (n: nat)
    ensures n < 16
  {
    (b >> 4) as nat
  }

  function Low(b: Byte): (n: nat)
    ensures n < 16
  {
    (b & 0x0F) as nat
  }

  /** Two six-bit numbers in one byte, as the kernel's cast leaves them. */
  function Packed(hi: nat, lo: nat): Byte
    requires hi < 64 && lo < 64
  {
    ((((hi as bv16) << 4) | (lo as bv16)) & 0xFF) as bv8
  }

  /** Nibbles pack without loss: the byte gives both of them back. */
  lemma PackedNibbles(hi: nat, lo: nat)
    requires hi < 16 && lo < 16
    ensures High(Packed(hi, lo)) == hi
    ensures Low(Packed(hi, lo)) == lo
  {
  }

  lemma NibblesOf(b: Byte)
    ensures High(b) == (b as nat) / 16 && Low(b) == (b as nat) % 16
  {
  }

  /** The byte of a number. */
  function AsByte(v: nat): Byte
    requires v < 256
  {
    Packed(v / 16, v % 16)
  }

  lemma AsByteValue(v: nat)
    requires v < 256
    ensures AsByte(v) as nat == v
  {
    hide Packed, High, Low;
    PackedNibbles(v / 16, v % 16);
    NibblesOf(AsByte(v));
  }

  function Placed(b: Byte, j: nat): Lane
    requires j < 8
  {
    Lane(Shifted(b, j))
  }

  /** Xor of the first `k` bytes of lane `l` of a block, each at its place. */
  function LanePart(block: seq<Byte>, l: nat, k: nat): Lane
    requires k <= 8 && 8 * l + 8 <= |block|
  {
    if k == 0 then Lane(0) else Xor(LanePart(block, l, k - 1), Placed(block[8 * l + k - 1], k - 1))
  }

  function LaneAt(block: seq<Byte>, l: nat): Lane
    requires 8 * l + 8 <= |block|
  {
    LanePart(block, l, 8)
  }

  function LaneBytes(lane: Lane): (b: seq<Byte>)
    ensures |b| == 8
  {
    seq(8, j requires 0 <= j < 8 => ByteAt(lane.bits, j))
  }

  function BytesOf(lanes: seq<Lane>): (b: seq<Byte>)
    ensures |b| == 8 * |lanes|
  {
    if lanes == [] then [] else BytesOf(lanes[..|lanes| - 1]) + LaneBytes(lanes[|lanes| - 1])
  }

  lemma BitXorLaws(a: bv64, b: bv64, c: bv64)
    ensures BitXor(BitXor(a, b), c) == BitXor(a, BitXor(b, c))
    ensures BitXor(a, 0) == a
  {
  }

  lemma XorLaws(a: Lane, b: Lane, c: Lane)
    ensures Xor(Xor(a, b), c) == Xor(a, Xor(b, c))
    ensures Xor(a, Lane(0)) == a
  {
    hide BitXor;
    BitXorLaws(a.bits, b.bits, c.bits);
  }

  lemma BytesRejoin(v: bv64)
    ensures JoinedBits(ByteAt(v, 0), ByteAt(v, 1), ByteAt(v, 2), ByteAt(v, 3),
                       ByteAt(v, 4), ByteAt(v, 5), ByteAt(v, 6), ByteAt(v, 7)) == v
  {
  }

  /** The eight bytes of a lane, joined by xor. */
  function Joined(b0: Byte, b1: Byte, b2: Byte, b3: Byte, b4: Byte, b5: Byte, b6: Byte, b7: Byte): Lane {
    Xor(Xor(Xor(Xor(Xor(Xor(Xor(Xor(Lane(0), Placed(b0, 0)), Placed(b1, 1)), Placed(b2, 2)), Placed(b3, 3)),
                    Placed(b4, 4)), Placed(b5, 5)), Placed(b6, 6)), Placed(b7, 7))
  }

  lemma LaneAtJoined(block: seq<Byte>, l: nat)
    requires 8 * l + 8 <= |block|
    ensures var i := 8 * l;
            LaneAt(block, l) == Joined(block[i], block[i + 1], block[i + 2], block[i + 3],
                                       block[i + 4], block[i + 5], block[i + 6], block[i + 7])
  {
    hide Placed, Xor;
    assert LanePart(block, l, 1) == Xor(LanePart(block, l, 0), Placed(block[8 * l], 0));
    assert LanePart(block, l, 3) ==
           Xor(Xor(LanePart(block, l, 1), Placed(block[8 * l + 1], 1)), Placed(block[8 * l + 2], 2));
    assert LanePart(block, l, 5) ==
           Xor(Xor(LanePart(block, l, 3), Placed(block[8 * l + 3], 3)), Placed(block[8 * l + 4], 4));
    assert LanePart(block, l, 7) ==
           Xor(Xor(LanePart(block, l, 5), Placed(block[8 * l + 5], 5)), Placed(block[8 * l + 6], 6));
  }

  function JoinedBits(b0: Byte, b1: Byte, b2: Byte, b3: Byte, b4: Byte, b5: Byte, b6: Byte, b7: Byte): bv64 {
    BitXor(BitXor(BitXor(BitXor(BitXor(BitXor(BitXor(BitXor(0, Shifted(b0, 0)), Shifted(b1, 1)), Shifted(b2, 2)),
                                       Shifted(b3, 3)), Shifted(b4, 4)), Shifted(b5, 5)), Shifted(b6, 6)),
           Shifted(b7, 7))
  }

  lemma JoinedIs(b0: Byte, b1: Byte, b2: Byte, b3: Byte, b4: Byte, b5: Byte, b6: Byte, b7: Byte)
    ensures Joined(b0, b1, b2, b3, b4, b5, b6, b7) == Lane(JoinedBits(b0, b1, b2, b3, b4, b5, b6, b7))
  {
    hide Shifted, BitXor;
  }

  /** Loading the eight bytes of a lane gives the lane back. */
  lemma LoadStore(block: seq<Byte>, l: nat, lane: Lane)
    requires 8 * l + 8 <= |block| && block[8 * l..8 * l + 8] == LaneBytes(lane)
    ensures LaneAt(block, l) == lane
  {
    hide Shifted, ByteAt, Joined, JoinedBits, LaneAt;
    LaneAtJoined(block, l);
    var b := block[8 * l..8 * l + 8];
    assert b[0] == block[8 * l] && b[1] == block[8 * l + 1] && b[2] == block[8 * l + 2] && b[3] == block[8 * l + 3];
    assert b[4] == block[8 * l + 4] && b[5] == block[8 * l + 5] && b[6] == block[8 * l + 6] && b[7] == block[8 * l + 7];
    JoinedIs(b[0], b[1], b[2], b[3], b[4], b[5], b[6], b[7]);
    BytesRejoin(lane.bits);
  }

  lemma {:induction false} PartLocal(a: seq<Byte>, b: seq<Byte>, l: nat, m: nat, k: nat)
    requires k <= 8 && 8 * l + 8 <= |a| && 8 * m + 8 <= |b|
    requires a[8 * l..8 * l + 8] == b[8 * m..8 * m + 8]
    ensures LanePart(a, l, k) == LanePart(b, m, k)
  {
    hide Xor, Placed;
    if k > 0 {
      PartLocal(a, b, l, m, k - 1);
      assert a[8 * l + k - 1] == a[8 * l..8 * l + 8][k - 1] == b[8 * m..8 * m + 8][k - 1] == b[8 * m + k - 1];
    }
  }

  lemma {:induction false} BytesPrefix(lanes: seq<Lane>, k: nat)
    requires k <= |lanes|
    ensures BytesOf(lanes)[..8 * k] == BytesOf(lanes[..k])
    decreases |lanes|
  {
    hide LaneBytes;
    if k < |lanes| {
      var front := lanes[..|lanes| - 1];
      BytesPrefix(front, k);
      assert front[..k] == lanes[..k];
      assert BytesOf(lanes)[..8 * k] == BytesOf(front)[..8 * k];
    } else {
      assert lanes[..k] == lanes;
    }
  }

  // ---------- absorbing ----------

  function XorByte(s: State, i: nat, v: Byte): State
    requires i < RATE
  {
    s[i / 8 := Xor(s[i / 8], Placed(v, i % 8))]
  }

  /** The first `n` bytes of a block, one by one. */
  function XorBytes(s: State, block: seq<Byte>, n: nat): State
    requires n <= RATE && n <= |block|
  {
    if n == 0 then s else XorByte(XorBytes(s, block, n - 1), n - 1, block[n - 1])
  }

  function AbsorbBlock(s: State, block: seq<Byte>): State
    requires |block| == RATE
  {
    KeccakF(XorBytes(s, block, RATE))
  }

  function Absorb(s: State, padded: seq<Byte>): State
    decreases |padded|
  {
    if |padded| < RATE then s else Absorb(AbsorbBlock(s, padded[..RATE]), padded[RATE..])
  }

  function Zeros(n: nat): (z: seq<Byte>)
    ensures |z| == n && forall i :: 0 <= i < n ==> z[i] == 0
  {
    seq(n, _ => ZERO)
  }

  /** Bytes missing to the next multiple of the rate. */
  function Gap(n: nat): (g: nat)
    ensures g < RATE && (n + g) % RATE == 0
  {
    if n % RATE == 0 then 0 else RATE - n % RATE
  }

  function WithLastBit(bytes: seq<Byte>): (b: seq<Byte>)
    requires bytes != []
    ensures |b| == |bytes|
  {
    bytes[|bytes| - 1 := bytes[|bytes| - 1] ^ 0x80]
  }

  function Pad(message: seq<Byte>, suffix: Byte): (b: seq<Byte>)
    ensures |b| % RATE == 0 && |b| > |message|
  {
    WithLastBit(message + [suffix] + Zeros(Gap(|message| + 1)))
  }

  function Squeeze(s: State, length: nat): (b: seq<Byte>)
    ensures |b| == length
    decreases length
  {
    if length <= RATE then BytesOf(s[..17])[..length]
    else BytesOf(s[..17]) + Squeeze(KeccakF(s), length - RATE)
  }

  function EmptyState(): State {
    seq(25, _ => Lane(0))
  }

  function SpongeOf(message: seq<Byte>, suffix: Byte, length: nat): (b: seq<Byte>)
    ensures |b| == length
  {
    Squeeze(Absorb(EmptyState(), Pad(message, suffix)), length)
  }

  /** How many bytes of lane `l` are among the first `n`. */
  function Within(n: nat, l: nat): (k: nat)
    ensures k <= 8
  {
    if n <= 8 * l then 0 else if n >= 8 * l + 8 then 8 else n - 8 * l
  }

  /** Byte-wise absorption changes each lane by the xor of its own bytes. */
  lemma {:induction false} AbsorbLane(s: State, block: seq<Byte>, n: nat, l: nat)
    requires n <= RATE == |block| && l < 17
    ensures XorBytes(s, block, n)[l] == Xor(s[l], LanePart(block, l, Within(n, l)))
  {
    hide Xor, Placed;
    if n == 0 {
      XorLaws(s[l], s[l], s[l]);
    } else {
      AbsorbLane(s, block, n - 1, l);
      XorLaws(s[l], LanePart(block, l, Within(n - 1, l)), Placed(block[n - 1], (n - 1) % 8));
      WithinStep(n, l);
    }
  }

  lemma WithinStep(n: nat, l: nat)
    requires n > 0
    ensures (n - 1) / 8 == l ==> Within(n, l) == (n - 1) % 8 + 1 && Within(n - 1, l) == (n - 1) % 8
    ensures (n - 1) / 8 == l ==> 8 * l + (n - 1) % 8 == n - 1
    ensures (n - 1) / 8 != l ==> Within(n, l) == Within(n - 1, l)
  {
  }

  lemma {:induction false} CapacityKept(s: State, block: seq<Byte>, n: nat, l: nat)
    requires n <= RATE == |block| && 17 <= l < 25
    ensures XorBytes(s, block, n)[l] == s[l]
  {
    hide Xor, Placed;
    if n > 0 {
      CapacityKept(s, block, n - 1, l);
    }
  }

  /** Lanes xored into the front of a state. */
  function XorLanes(s: State, lanes: seq<Lane>): State {
    seq(25, l requires 0 <= l < 25 => if l < |lanes| then Xor(s[l], lanes[l]) else s[l])
  }

  function LanesOf(message: seq<Byte>): (lanes: seq<Lane>)
    ensures 8 * |lanes| <= |message|
  {
    seq(|message| / 8, l requires 0 <= l < |message| / 8 => LaneAt(message, l))
  }

  lemma PadAt(message: seq<Byte>, suffix: Byte, i: nat)
    requires |message| < RATE && i < RATE
    ensures |Pad(message, suffix)| == RATE == |Pad(Zeros(|message|), suffix)|
    ensures i < |message| ==> Pad(message, suffix)[i] == message[i] && Pad(Zeros(|message|), suffix)[i] == 0
    ensures i >= |message| ==> Pad(message, suffix)[i] == Pad(Zeros(|message|), suffix)[i]
  {
  }

  lemma {:induction false} ZeroPart(block: seq<Byte>, l: nat, k: nat)
    requires k <= 8 && 8 * l + 8 <= |block|
    requires block[8 * l..8 * l + 8] == Zeros(8)
    ensures LanePart(block, l, k) == Lane(0)
  {
    if k > 0 {
      ZeroPart(block, l, k - 1);
      assert block[8 * l + k - 1] == block[8 * l..8 * l + 8][k - 1];
      ZeroPlaced(k - 1);
    }
  }

  lemma ZeroPlaced(j: nat)
    requires j < 8
    ensures Placed(0, j) == Lane(0)
  {
  }

  /** A padded block of whole lanes is the padding alone with the message's lanes xored in. */
  lemma PaddingApart(s: State, message: seq<Byte>, suffix: Byte)
    requires |message| < RATE && |message| % 8 == 0
    ensures |Pad(message, suffix)| == RATE == |Pad(Zeros(|message|), suffix)|
    ensures XorBytes(s, Pad(message, suffix), RATE) ==
            XorLanes(XorBytes(s, Pad(Zeros(|message|), suffix), RATE), LanesOf(message))
  {
    hide Pad, XorBytes, LaneAt, Xor;
    PadAt(message, suffix, 0);
    forall l | 0 <= l < 25
      ensures XorBytes(s, Pad(message, suffix), RATE)[l] ==
              XorLanes(XorBytes(s, Pad(Zeros(|message|), suffix), RATE), LanesOf(message))[l]
    {
      PaddingApartAt(s, message, suffix, l);
    }
  }

  lemma PaddingApartAt(s: State, message: seq<Byte>, suffix: Byte, l: nat)
    requires |message| < RATE && |message| % 8 == 0 && l < 25
    requires |Pad(message, suffix)| == RATE == |Pad(Zeros(|message|), suffix)|
    ensures XorBytes(s, Pad(message, suffix), RATE)[l] ==
            if l < |LanesOf(message)| then
              Xor(XorBytes(s, Pad(Zeros(|message|), suffix), RATE)[l], LanesOf(message)[l])
            else XorBytes(s, Pad(Zeros(|message|), suffix), RATE)[l]
  {
    hide Pad, XorBytes, LanePart, Xor;
    var block, blank := Pad(message, suffix), Pad(Zeros(|message|), suffix);
    if l >= 17 {
      CapacityKept(s, block, RATE, l);
      CapacityKept(s, blank, RATE, l);
    } else {
      AbsorbLane(s, block, RATE, l);
      AbsorbLane(s, blank, RATE, l);
      forall i | 8 * l <= i < 8 * l + 8
        ensures i < |message| ==> block[i] == message[i] && blank[i] == 0
        ensures i >= |message| ==> block[i] == blank[i]
      {
        PadAt(message, suffix, i);
      }
      if l < |LanesOf(message)| {
        assert block[8 * l..8 * l + 8] == message[8 * l..8 * l + 8];
        PartLocal(block, message, l, l, 8);
        assert blank[8 * l..8 * l + 8] == Zeros(8);
        ZeroPart(blank, l, 8);
        XorLaws(s[l], s[l], s[l]);
      } else {
        assert block[8 * l..8 * l + 8] == blank[8 * l..8 * l + 8];
        PartLocal(block, blank, l, l, 8);
      }
    }
  }

  lemma {:induction false} AbsorbAppend(s: State, a: seq<Byte>, b: seq<Byte>, blocks: nat)
    requires |a| == RATE * blocks
    ensures Absorb(s, a + b) == Absorb(Absorb(s, a), b)
    decreases blocks
  {
    hide AbsorbBlock;
    if blocks == 0 {
      assert a + b == b;
    } else {
      AbsorbAppend(AbsorbBlock(s, a[..RATE]), a[RATE..], b, blocks - 1);
      assert (a + b)[..RATE] == a[..RATE];
      assert (a + b)[RATE..] == a[RATE..] + b;
    }
  }

  lemma PadAppend(whole: seq<Byte>, message: seq<Byte>, suffix: Byte)
    requires |whole| % RATE == 0
    ensures Pad(whole + message, suffix) == whole + Pad(message, suffix)
  {
    GapPeriodic(|whole|, |message| + 1);
    var gap := Zeros(Gap(|message| + 1));
    assert whole + message + [suffix] + gap == whole + (message + [suffix] + gap);
  }

  lemma GapPeriodic(whole: nat, n: nat)
    requires whole % RATE == 0
    ensures Gap(whole + n) == Gap(n)
  {
  }

  // ---------- cSHAKE256 ----------

  /** Bytes of a number, at least one. */
  function ByteCount(v: nat): (c: nat)
    ensures c >= 1
  {
    if v < 256 then 1 else ByteCount(v / 256) + 1
  }

  function BigEndian(v: nat, count: nat): (b: seq<Byte>)
    ensures |b| == count
  {
    if count == 0 then [] else BigEndian(v / 256, count - 1) + [AsByte(v % 256)]
  }

  function LeftEncode(v: nat): (b: seq<Byte>)
    requires ByteCount(v) < 256
    ensures |b| == 1 + ByteCount(v)
  {
    [AsByte(ByteCount(v))] + BigEndian(v, ByteCount(v))
  }

  predicate Encodable(custom: seq<Byte>) {
    ByteCount(8 * |custom|) < 256
  }

  function EncodeString(x: seq<Byte>): seq<Byte>
    requires Encodable(x)
  {
    LeftEncode(8 * |x|) + x
  }

  /** The block that carries the rate and the two names, filled to the rate. */
  function Prefix(custom: seq<Byte>): (b: seq<Byte>)
    requires Encodable(custom)
    ensures |b| % RATE == 0
  {
    var head := LeftEncode(RATE) + EncodeString([]) + EncodeString(custom);
    head + Zeros(Gap(|head|))
  }

  function PrefixState(custom: seq<Byte>): State
    requires Encodable(custom)
  {
    Absorb(EmptyState(), Prefix(custom))
  }

  /** What cSHAKE256 feeds to the permutation. */
  function CShakeInput(message: seq<Byte>, custom: seq<Byte>): seq<Byte>
    requires Encodable(custom)
  {
    if custom == [] then Pad(message, 0x1F) else Pad(Prefix(custom) + message, 0x04)
  }

  function CShakeOf(message: seq<Byte>, custom: seq<Byte>): (b: seq<Byte>)
    requires Encodable(custom)
    ensures |b| == 32
  {
    Squeeze(Absorb(EmptyState(), CShakeInput(message, custom)), 32)
  }

  /** The state a named hash may start from: prefix absorbed, padding for `n` bytes already in. */
  function StartState(custom: seq<Byte>, n: nat): State
    requires Encodable(custom) && n < RATE
  {
    PadAt(Zeros(n), 0x04, 0);
    XorBytes(PrefixState(custom), Pad(Zeros(n), 0x04), RATE)
  }

  /** cSHAKE256 of a short message of whole lanes is one permutation of the prepared state. */
  lemma CShakeFromStart(message: seq<Byte>, custom: seq<Byte>)
    requires Encodable(custom) && custom != [] && |message| < RATE && |message| % 8 == 0
    ensures CShakeOf(message, custom) ==
            BytesOf(KeccakF(XorLanes(StartState(custom, |message|), LanesOf(message)))[..4])
  {
    hide Pad, XorBytes, KeccakF, XorLanes, LanesOf, Prefix, BytesOf;
    PadAppend(Prefix(custom), message, 0x04);
    AbsorbAppend(EmptyState(), Prefix(custom), Pad(message, 0x04), |Prefix(custom)| / RATE);
    var s := PrefixState(custom);
    PaddingApart(s, message, 0x04);
    var block := Pad(message, 0x04);
    assert block[..RATE] == block && block[RATE..] == [];
    var done := AbsorbBlock(s, block);
    assert Absorb(s, block) == done;
    BytesPrefix(done[..17], 4);
    assert done[..17][..4] == done[..4];
  }

  // ---------- numbers and squeezed bytes, one by one ----------

  function Pow256(n: nat): (r: nat)
    ensures r > 0
  {
    if n == 0 then 1 else 256 * Pow256(n - 1)
  }

  /** The fewest bytes that hold a number, at least one. */
  lemma {:induction false} ByteCountExact(v: nat)
    ensures v < Pow256(ByteCount(v))
    ensures ByteCount(v) > 1 ==> v >= Pow256(ByteCount(v) - 1)
  {
    if v >= 256 {
      ByteCountExact(v / 256);
    } else {
      assert Pow256(1) == 256 * Pow256(0);
    }
  }

  /** Byte `i` of `count` is the digit of weight 256^(count - 1 - i). */
  lemma {:induction false} BigEndianDigit(v: nat, count: nat, i: nat)
    requires i < count
    ensures BigEndian(v, count)[i] == AsByte(v / Pow256(count - 1 - i) % 256)
  {
    hide AsByte;
    if i < count - 1 {
      BigEndianDigit(v / 256, count - 1, i);
      DivTwice(v, Pow256(count - 2 - i));
    }
  }

  lemma DivTwice(v: nat, p: nat)
    requires p > 0
    ensures v / 256 / p == v / (256 * p)
  {
    var w := v / 256;
    var q, m := w / p, w % p;
    assert w == p * q + m;
    assert 256 * (p * q) == 256 * p * q;
    CompactTarget.QuotientIs(v, 256 * p, q, 256 * m + v % 256);
  }

  ghost function Permuted(s: State, n: nat): State
    decreases n
  {
    if n == 0 then s else Permuted(KeccakF(s), n - 1)
  }

  lemma {:induction false} BytesOfAt(lanes: seq<Lane>, i: nat)
    requires i < 8 * |lanes|
    ensures BytesOf(lanes)[i] == ByteAt(lanes[i / 8].bits, i % 8)
  {
    hide ByteAt;
    var n := |lanes| - 1;
    if i < 8 * n {
      BytesOfAt(lanes[..n], i);
    }
  }

  /** Output byte `i` is a byte of the state after one permutation for every full rate before it. */
  lemma {:induction false} SqueezeByte(s: State, length: nat, i: nat)
    requires i < length
    ensures Squeeze(s, length)[i] == ByteAt(Permuted(s, i / RATE)[i % RATE / 8].bits, i % RATE % 8)
    decreases length
  {
    hide ByteAt, KeccakF, BytesOf;
    if i < RATE {
      BytesOfAt(s[..17], i);
    } else {
      SqueezeByte(KeccakF(s), length - RATE, i - RATE);
      RateSteps(i);
    }
  }

  lemma RateSteps(i: nat)
    requires i >= RATE
    ensures i / RATE == (i - RATE) / RATE + 1 && i % RATE == (i - RATE) % RATE
  {
  }

  /** Without a name cSHAKE256 is SHAKE256, suffix 1111 and the first padding bit. */
  lemma CShakeUnnamed(message: seq<Byte>)
    ensures Encodable([]) && CShakeOf(message, []) == SpongeOf(message, 0x1F, 32)
  {
    hide Pad, Absorb, Squeeze;
  }

  // ---------- no two inputs are padded alike ----------

  /** Suffixes whose top bit is free for the final padding bit. */
  predicate Suffix(b: Byte) {
    b != 0 && b & 0x80 == 0
  }

  lemma SuffixBits(b: Byte, c: Byte)
    requires Suffix(b) && Suffix(c)
    ensures b ^ 0x80 != 0 && b ^ 0x80 != 0x80 && b ^ 0x80 != c && (b ^ 0x80 == c ^ 0x80 ==> b == c)
  {
  }

  lemma PadBytes(m: seq<Byte>, suffix: Byte, i: nat)
    requires i < |Pad(m, suffix)|
    ensures i < |m| ==> Pad(m, suffix)[i] == m[i]
    ensures i == |m| ==>
              Pad(m, suffix)[i] == suffix || (Pad(m, suffix)[i] == suffix ^ 0x80 && i + 1 == |Pad(m, suffix)|)
    ensures i > |m| ==>
              Pad(m, suffix)[i] == 0 || (Pad(m, suffix)[i] == 0 ^ 0x80 && i + 1 == |Pad(m, suffix)|)
    ensures i == |m| && i + 1 == |Pad(m, suffix)| ==> Pad(m, suffix)[i] == suffix ^ 0x80
    ensures i > |m| && i + 1 == |Pad(m, suffix)| ==> Pad(m, suffix)[i] == 0 ^ 0x80
  {
  }

  lemma NotLonger(a: seq<Byte>, s: Byte, b: seq<Byte>, t: Byte)
    requires Suffix(s) && Suffix(t) && Pad(a, s) == Pad(b, t)
    ensures |b| <= |a|
  {
    hide Pad;
    if |b| > |a| {
      PadBytes(a, s, |b|);
      PadBytes(b, t, |b|);
      SuffixBits(t, t);
      assert false;
    }
  }

  /** Padding loses neither the message nor the suffix. */
  lemma PadInjective(a: seq<Byte>, s: Byte, b: seq<Byte>, t: Byte)
    requires Suffix(s) && Suffix(t) && Pad(a, s) == Pad(b, t)
    ensures a == b && s == t
  {
    hide Pad;
    NotLonger(a, s, b, t);
    NotLonger(b, t, a, s);
    forall i | 0 <= i < |a|
      ensures a[i] == b[i]
    {
      PadBytes(a, s, i);
      PadBytes(b, t, i);
    }
    PadBytes(a, s, |a|);
    PadBytes(b, t, |a|);
    SuffixBits(s, t);
  }

  lemma ByteOf(v: nat, w: nat)
    requires v < 256 && w < 256 && AsByte(v) == AsByte(w)
    ensures v == w
  {
    hide Packed, High, Low;
    PackedNibbles(v / 16, v % 16);
    PackedNibbles(w / 16, w % 16);
  }

  lemma {:induction false} BigEndianInjective(v: nat, w: nat, count: nat)
    requires ByteCount(v) <= count && ByteCount(w) <= count && BigEndian(v, count) == BigEndian(w, count)
    ensures v == w
    decreases count
  {
    var a, b := BigEndian(v, count), BigEndian(w, count);
    assert a[count - 1] == b[count - 1];
    ByteOf(v % 256, w % 256);
    if count == 1 {
    } else {
      assert a[..count - 1] == BigEndian(v / 256, count - 1);
      assert b[..count - 1] == BigEndian(w / 256, count - 1);
      BigEndianInjective(v / 256, w / 256, count - 1);
    }
  }

  /** A left-encoded number can be read off the front of any string. */
  lemma LeftEncodeFree(v: nat, x: seq<Byte>, w: nat, y: seq<Byte>)
    requires ByteCount(v) < 256 && ByteCount(w) < 256 && LeftEncode(v) + x == LeftEncode(w) + y
    ensures v == w && x == y
  {
    hide ByteCount, BigEndian;
    var a, b := LeftEncode(v) + x, LeftEncode(w) + y;
    assert a[0] == b[0];
    ByteOf(ByteCount(v), ByteCount(w));
    var c := ByteCount(v);
    assert a[1..c + 1] == BigEndian(v, c) && b[1..c + 1] == BigEndian(w, c);
    BigEndianInjective(v, w, c);
    assert a[c + 1..] == x && b[c + 1..] == y;
  }

  lemma EncodeStringFree(c: seq<Byte>, x: seq<Byte>, d: seq<Byte>, y: seq<Byte>)
    requires Encodable(c) && Encodable(d) && EncodeString(c) + x == EncodeString(d) + y
    ensures c == d && x == y
  {
    hide LeftEncode, ByteCount;
    assert EncodeString(c) + x == LeftEncode(8 * |c|) + (c + x);
    assert EncodeString(d) + y == LeftEncode(8 * |d|) + (d + y);
    LeftEncodeFree(8 * |c|, c + x, 8 * |d|, d + y);
    assert c == (c + x)[..|c|] && d == (d + y)[..|c|];
    assert x == (c + x)[|c|..] && y == (d + y)[|c|..];
  }

  lemma PrefixFree(c: seq<Byte>, m: seq<Byte>, d: seq<Byte>, n: seq<Byte>)
    requires Encodable(c) && Encodable(d) && Prefix(c) + m == Prefix(d) + n
    ensures c == d && m == n
  {
    hide LeftEncode, EncodeString, Gap;
    var front := LeftEncode(RATE) + EncodeString([]);
    var x := Zeros(Gap(|front + EncodeString(c)|)) + m;
    var y := Zeros(Gap(|front + EncodeString(d)|)) + n;
    assert Prefix(c) + m == front + (EncodeString(c) + x);
    assert Prefix(d) + n == front + (EncodeString(d) + y);
    SameTail(front, EncodeString(c) + x, EncodeString(d) + y);
    EncodeStringFree(c, x, d, y);
    SameTail(Prefix(c), m, n);
  }

  lemma SameTail(a: seq<Byte>, x: seq<Byte>, y: seq<Byte>)
    requires a + x == a + y
    ensures x == y
  {
    assert x == (a + x)[|a|..] && y == (a + y)[|a|..];
  }

  /** Messages and names are kept apart: equal inputs come from equal arguments. */
  lemma CShakeSeparates(m: seq<Byte>, c: seq<Byte>, n: seq<Byte>, d: seq<Byte>)
    requires Encodable(c) && Encodable(d) && CShakeInput(m, c) == CShakeInput(n, d)
    ensures m == n && c == d
  {
    hide Pad, Prefix, ByteCount;
    var a := if c == [] then m else Prefix(c) + m;
    var b := if d == [] then n else Prefix(d) + n;
    PadInjective(a, if c == [] then 0x1F else 0x04, b, if d == [] then 0x1F else 0x04);
    if c != [] {
      PrefixFree(c, m, d, n);
    }
  }

  // ---------- the oracle's loops ----------

  method AbsorbInto(state: array<Lane>, block: seq<Byte>)
    requires state.Length == 25 && |block| == RATE
    modifies state
    ensures state[..] == XorBytes(old(state[..]), block, RATE)
  {
    hide Xor, Shifted;
    for i := 0 to RATE
      invariant state[..] == XorBytes(old(state[..]), block, i)
    {
      state[i / 8] := Xor(state[i / 8], Placed(block[i], i % 8));
    }
  }

  method RateBytes(state: array<Lane>) returns (out: seq<Byte>)
    requires state.Length == 25
    ensures out == BytesOf(state[..17])
  {
    hide LaneBytes;
    out := [];
    for l := 0 to 17
      invariant out == BytesOf(state[..l])
    {
      assert state[..l + 1][..l] == state[..l];
      out := out + LaneBytes(state[l]);
    }
  }

  method AbsorbAll(state: array<Lane>, padded: seq<Byte>)
    requires state.Length == 25 && |padded| % RATE == 0
    modifies state
    ensures state[..] == Absorb(old(state[..]), padded)
  {
    hide XorBytes, KeccakF;
    var offset := 0;
    while offset < |padded|
      invariant 0 <= offset <= |padded| && (|padded| - offset) % RATE == 0
      invariant Absorb(state[..], padded[offset..]) == Absorb(old(state[..]), padded)
    {
      var rest := padded[offset..];
      AbsorbInto(state, rest[..RATE]);
      OracleKeccak(state);
      assert rest[RATE..] == padded[offset + RATE..];
      offset := offset + RATE;
    }
  }

  method SqueezeAll(state: array<Lane>, length: nat) returns (out: seq<Byte>)
    requires state.Length == 25
    modifies state
    ensures out == Squeeze(old(state[..]), length)
  {
    hide KeccakF, BytesOf;
    ghost var wanted := Squeeze(state[..], length);
    out := [];
    while |out| < length
      invariant |out| < length ==> out + Squeeze(state[..], length - |out|) == wanted
      invariant |out| >= length ==> out[..length] == wanted
    {
      ghost var before, s := out, state[..];
      var bytes := RateBytes(state);
      out := out + bytes;
      assert state[..17] == s[..17];
      if |out| < length {
        OracleKeccak(state);
        assert before + (bytes + Squeeze(KeccakF(s), length - |out|)) == out + Squeeze(KeccakF(s), length - |out|);
      } else {
        assert out[..length] == before + bytes[..length - |before|];
      }
    }
    out := out[..length];
  }

  /** `sponge`. */
  method SpongeBytes(message: seq<Byte>, suffix: Byte, length: nat) returns (out: seq<Byte>)
    ensures out == SpongeOf(message, suffix, length)
  {
    hide Absorb, Squeeze, Gap;
    var state := new Lane[25](_ => Lane(0));
    assert state[..] == EmptyState();
    var padded := message + [suffix];
    padded := padded + Zeros(Gap(|padded|));
    padded := WithLastBit(padded);
    AbsorbAll(state, padded);
    out := SqueezeAll(state, length);
  }

  /** `cshake256`. */
  method CShake256(message: seq<Byte>, custom: seq<Byte>) returns (out: seq<Byte>)
    requires Encodable(custom)
    ensures out == CShakeOf(message, custom)
  {
    hide Absorb, Squeeze, LeftEncode, Pad;
    if custom == [] {
      out := SpongeBytes(message, 0x1F, 32);
      return;
    }
    var prefix := LeftEncode(RATE) + EncodeString([]) + EncodeString(custom);
    prefix := prefix + Zeros(Gap(|prefix|));
    out := SpongeBytes(prefix + message, 0x04, 32);
  }
}
