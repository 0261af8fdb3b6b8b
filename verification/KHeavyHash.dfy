/** The kernel's kHeavyHash and the oracle's, over any 64 by 64 matrix of nibbles. */
module KHeavyHash {
  import opened Keccak
  import opened KeccakFlat
  import opened PreparedStates
  import opened Sponge

  // ---------- nibbles and the matrix ----------

  /** High nibble before low nibble, byte by byte. */
  function Nibbles(bytes: seq<Byte>): (v: seq<nat>)
    ensures |v| == 2 * |bytes| && forall i :: 0 <= i < |v| ==> v[i] < 16
  {
    seq(2 * |bytes|, i requires 0 <= i < 2 * |bytes| => if i % 2 == 0 then High(bytes[i / 2]) else Low(bytes[i / 2]))
  }

  type Matrix = m: seq<seq<nat>> | |m| == 64 && forall i :: 0 <= i < 64 ==> |m[i]| == 64
    witness seq(64, _ => seq(64, _ => 0))

  /** The quotients and remainders by sixteen, byte by byte. */
  lemma NibblesAre(bytes: seq<Byte>, i: nat)
    requires i < |bytes|
    ensures Nibbles(bytes)[2 * i] == (bytes[i] as nat) / 16
    ensures Nibbles(bytes)[2 * i + 1] == (bytes[i] as nat) % 16
  {
    hide High, Low;
    NibblesOf(bytes[i]);
  }

  predicate NibbleRow(row: seq<nat>) {
    forall i :: 0 <= i < |row| ==> row[i] < 16
  }

  predicate NibbleMatrix(m: Matrix) {
    forall i :: 0 <= i < 64 ==> NibbleRow(m[i])
  }

  function Dot(row: seq<nat>, v: seq<nat>, n: nat): nat
    requires n <= |row| && n <= |v|
  {
    if n == 0 then 0 else Dot(row, v, n - 1) + row[n - 1] * v[n - 1]
  }

  const WORD := 65536

  /** The kernel's sums are kept modulo 2^16. */
  function KernelByte(m: Matrix, initial: seq<Byte>, i: nat): Byte
    requires |initial| == 32 && i < 32
  {
    var v := Nibbles(initial);
    Packed(Dot(m[2 * i], v, 64) % WORD / 1024, Dot(m[2 * i + 1], v, 64) % WORD / 1024) ^ initial[i]
  }

  /** The oracle's sums are exact and masked to a nibble. */
  function OracleByte(m: Matrix, initial: seq<Byte>, i: nat): Byte
    requires |initial| == 32 && i < 32
  {
    var v := Nibbles(initial);
    initial[i] ^ Packed(Dot(m[2 * i], v, 64) / 1024 % 16, Dot(m[2 * i + 1], v, 64) / 1024 % 16)
  }

  function KernelProduct(m: Matrix, initial: seq<Byte>): (p: seq<Byte>)
    requires |initial| == 32
    ensures |p| == 32
  {
    seq(32, i requires 0 <= i < 32 => KernelByte(m, initial, i))
  }

  function OracleProduct(m: Matrix, initial: seq<Byte>): (p: seq<Byte>)
    requires |initial| == 32
    ensures |p| == 32
  {
    seq(32, i requires 0 <= i < 32 => OracleByte(m, initial, i))
  }

  lemma ProductLe(a: nat, b: nat)
    requires a < 16 && b < 16
    ensures 0 <= a * b <= 225
  {
    assert a * b <= 15 * b;
  }

  /** A product of nibble vectors never reaches 2^14, so nothing is lost to the word or to the mask. */
  lemma {:induction false} DotBound(row: seq<nat>, v: seq<nat>, n: nat)
    requires n <= |row| && n <= |v|
    requires forall i :: 0 <= i < n ==> row[i] < 16
    requires forall i :: 0 <= i < n ==> v[i] < 16
    ensures Dot(row, v, n) <= 225 * n
  {
    if n > 0 {
      DotBound(row, v, n - 1);
      ProductLe(row[n - 1], v[n - 1]);
    }
  }

  lemma SumFits(row: seq<nat>, v: seq<nat>)
    requires |row| == 64 && NibbleRow(row) && |v| == 64 && forall i :: 0 <= i < 64 ==> v[i] < 16
    ensures Dot(row, v, 64) <= 14400
    ensures Dot(row, v, 64) % WORD / 1024 == Dot(row, v, 64) / 1024 % 16 == Dot(row, v, 64) / 1024 <= 14
  {
    hide Dot;
    DotBound(row, v, 64);
  }

  lemma XorCommutes(a: Byte, b: Byte)
    ensures a ^ b == b ^ a
  {
  }

  lemma ByteAgrees(m: Matrix, initial: seq<Byte>, i: nat)
    requires NibbleMatrix(m) && |initial| == 32 && i < 32
    ensures KernelByte(m, initial, i) == OracleByte(m, initial, i)
  {
    hide Dot, Packed, Nibbles, NibbleRow;
    var v := Nibbles(initial);
    SumFits(m[2 * i], v);
    SumFits(m[2 * i + 1], v);
    XorCommutes(Packed(Dot(m[2 * i], v, 64) / 1024, Dot(m[2 * i + 1], v, 64) / 1024), initial[i]);
  }

  /** Sixteen-bit sums give the oracle's product for every nibble matrix. */
  lemma ProductsAgree(m: Matrix, initial: seq<Byte>)
    requires NibbleMatrix(m) && |initial| == 32
    ensures KernelProduct(m, initial) == OracleProduct(m, initial)
  {
    hide KernelByte, OracleByte, NibbleMatrix;
    forall i | 0 <= i < 32
      ensures KernelByte(m, initial, i) == OracleByte(m, initial, i)
    {
      ByteAgrees(m, initial, i);
    }
  }

  /** A vector with one nonzero entry picks out one entry of the row. */
  lemma {:induction false} DotUnit(row: seq<nat>, v: seq<nat>, k: nat, n: nat)
    requires n <= |row| && n <= |v| && k < |v| && forall j :: 0 <= j < |v| && j != k ==> v[j] == 0
    ensures Dot(row, v, n) == if k < n then row[k] * v[k] else 0
  {
    if n > 0 {
      DotUnit(row, v, k, n - 1);
      if n - 1 != k {
        assert v[n - 1] == 0;
      }
    }
  }

  /** Products are additive in the vector. */
  lemma {:induction false} DotAdds(row: seq<nat>, u: seq<nat>, v: seq<nat>, w: seq<nat>, n: nat)
    requires n <= |row| && n <= |u| && n <= |v| && n <= |w| && forall j :: 0 <= j < n ==> w[j] == u[j] + v[j]
    ensures Dot(row, w, n) == Dot(row, u, n) + Dot(row, v, n)
  {
    if n > 0 {
      DotAdds(row, u, v, w, n - 1);
      assert row[n - 1] * w[n - 1] == row[n - 1] * u[n - 1] + row[n - 1] * v[n - 1];
    }
  }

  /** The bytes that differ from the initial hash, by xor. */
  function XorBytesOf(a: seq<Byte>, b: seq<Byte>): (c: seq<Byte>)
    requires |a| == |b|
    ensures |c| == |a|
  {
    seq(|a|, i requires 0 <= i < |a| => a[i] ^ b[i])
  }

  lemma XorBack(a: Byte, p: Byte)
    ensures (a ^ p) ^ a == p
  {
  }

  /**
   * Nibble `j` of the product, before the initial hash is xored back in, is bits
   * ten to thirteen of row `j` times the nibbles of the initial hash.
   */
  lemma ProductNibbles(m: Matrix, initial: seq<Byte>, j: nat)
    requires |initial| == 32 && j < 64
    ensures Nibbles(XorBytesOf(OracleProduct(m, initial), initial))[j] == Dot(m[j], Nibbles(initial), 64) / 1024 % 16
  {
    hide Dot, Packed, High, Low;
    var i := j / 2;
    var v := Nibbles(initial);
    var hi, lo := Dot(m[2 * i], v, 64) / 1024 % 16, Dot(m[2 * i + 1], v, 64) / 1024 % 16;
    XorBack(initial[i], Packed(hi, lo));
    assert XorBytesOf(OracleProduct(m, initial), initial)[i] == Packed(hi, lo);
    PackedNibbles(hi, lo);
    assert j == 2 * i || j == 2 * i + 1;
  }

  // ---------- the two stages ----------

  /** What the oracle hashes first: the header's hash, a zero timestamp, padding and the nonce. */
  function Message(pre: seq<Byte>, nonce: Lane): (m: seq<Byte>)
    requires |pre| == 32
    ensures |m| == 80
  {
    pre + Zeros(8) + Zeros(32) + LaneBytes(nonce)
  }

  /** The 32-byte hash, 40 zero bytes, then the nonce, least significant byte first. */
  lemma MessageLayout(pre: seq<Byte>, nonce: Lane, i: nat)
    requires |pre| == 32 && i < 80
    ensures Message(pre, nonce)[i] ==
            if i < 32 then pre[i] else if i < 72 then ZERO else ByteAt(nonce.bits, i - 72)
  {
    hide ByteAt;
    assert Message(pre, nonce) == pre + Zeros(40) + LaneBytes(nonce);
  }

  /** What the kernel computes from a starting state. */
  function KernelPow(table: State, pre: seq<Byte>, nonce: Lane): (b: seq<Byte>)
    requires |pre| == 32
    ensures |b| == 32
  {
    var s := XorLanes(table, LanesOf(pre));
    BytesOf(KeccakF(s[9 := Xor(s[9], nonce)])[..4])
  }

  function KernelHeavy(table: State, m: Matrix, initial: seq<Byte>): (b: seq<Byte>)
    requires |initial| == 32
    ensures |b| == 32
  {
    BytesOf(KeccakF(XorLanes(table, LanesOf(KernelProduct(m, initial))))[..4])
  }

  /** The oracle's stages after the header hash. */
  function OracleInitial(pre: seq<Byte>, nonce: Lane): (b: seq<Byte>)
    requires |pre| == 32
    ensures |b| == 32
  {
    NamesEncodable();
    CShakeOf(Message(pre, nonce), POW_NAME)
  }

  function OracleFinal(pre: seq<Byte>, m: Matrix, nonce: Lane): (b: seq<Byte>)
    requires |pre| == 32
    ensures |b| == 32
  {
    NamesEncodable();
    CShakeOf(OracleProduct(m, OracleInitial(pre, nonce)), HEAVY_NAME)
  }

  lemma MessageLane(pre: seq<Byte>, nonce: Lane, l: nat)
    requires |pre| == 32 && l < 10
    ensures LaneAt(Message(pre, nonce), l) ==
            if l < 4 then LaneAt(pre, l) else if l < 9 then Lane(0) else nonce
  {
    hide LanePart, LaneBytes;
    var m := Message(pre, nonce);
    if l < 4 {
      assert m[8 * l..8 * l + 8] == pre[8 * l..8 * l + 8];
      PartLocal(m, pre, l, l, 8);
    } else if l < 9 {
      assert m[8 * l..8 * l + 8] == Zeros(8);
      ZeroPart(m, l, 8);
    } else {
      assert m[72..80] == LaneBytes(nonce);
      LoadStore(m, 9, nonce);
    }
  }

  lemma MessageLanes(table: State, pre: seq<Byte>, nonce: Lane)
    requires |pre| == 32
    ensures var s := XorLanes(table, LanesOf(pre));
            XorLanes(table, LanesOf(Message(pre, nonce))) == s[9 := Xor(s[9], nonce)]
  {
    hide LaneAt, Message, Xor;
    forall l | 0 <= l < 10
      ensures LanesOf(Message(pre, nonce))[l] == if l < 4 then LaneAt(pre, l) else if l < 9 then Lane(0) else nonce
      ensures Xor(table[l], Lane(0)) == table[l]
    {
      MessageLane(pre, nonce, l);
      XorLaws(table[l], table[l], table[l]);
    }
  }

  /** One permutation from the kernel's table is cSHAKE256 of the oracle's message. */
  lemma PowHashRefines(pre: seq<Byte>, nonce: Lane)
    requires |pre| == 32
    ensures KernelPow(StateOf(PowTable()), pre, nonce) == OracleInitial(pre, nonce)
  {
    hide BytesOf, KeccakF, XorLanes, LanesOf, CShakeOf, StartState, Message, ByteCount, Xor, PowTable, StateOf;
    NamesEncodable();
    PowTableIs();
    CShakeFromStart(Message(pre, nonce), POW_NAME);
    MessageLanes(StartState(POW_NAME, 80), pre, nonce);
  }

  lemma HeavyHashRefines(m: Matrix, initial: seq<Byte>)
    requires NibbleMatrix(m) && |initial| == 32
    ensures Encodable(HEAVY_NAME)
    ensures KernelHeavy(StateOf(HeavyTable()), m, initial) == CShakeOf(OracleProduct(m, initial), HEAVY_NAME)
  {
    hide BytesOf, KeccakF, XorLanes, LanesOf, CShakeOf, StartState, ByteCount, KernelProduct, OracleProduct;
    hide NibbleMatrix;
    hide HeavyTable, StateOf;
    NamesEncodable();
    HeavyTableIs();
    ProductsAgree(m, initial);
    CShakeFromStart(OracleProduct(m, initial), HEAVY_NAME);
  }

  /** The kernel computes the oracle's kHeavyHash for every header hash, nibble matrix and nonce. */
  lemma KernelRefinesOracle(pre: seq<Byte>, m: Matrix, nonce: Lane)
    requires |pre| == 32 && NibbleMatrix(m)
    ensures KernelHeavy(StateOf(HeavyTable()), m, KernelPow(StateOf(PowTable()), pre, nonce)) ==
            OracleFinal(pre, m, nonce)
  {
    hide KernelPow, KernelHeavy, PowTable, HeavyTable, StateOf, CShakeOf, OracleProduct, OracleInitial, ByteCount;
    hide NibbleMatrix;
    PowHashRefines(pre, nonce);
    HeavyHashRefines(m, OracleInitial(pre, nonce));
  }

  // ---------- the kernel ----------

  function BitOr(a: bv64, b: bv64): bv64 {
    a | b
  }

  /** `pd_load64_le`: eight bytes joined by or. */
  function Load(b0: Byte, b1: Byte, b2: Byte, b3: Byte, b4: Byte, b5: Byte, b6: Byte, b7: Byte): bv64 {
    BitOr(BitOr(BitOr(BitOr(BitOr(BitOr(BitOr(Shifted(b0, 0), Shifted(b1, 1)), Shifted(b2, 2)), Shifted(b3, 3)),
                            Shifted(b4, 4)), Shifted(b5, 5)), Shifted(b6, 6)), Shifted(b7, 7))
  }

  lemma ShiftedAre(b: Byte)
    ensures Shifted(b, 0) == b as bv64
    ensures Shifted(b, 1) == (b as bv64) << 8
    ensures Shifted(b, 2) == (b as bv64) << 16
    ensures Shifted(b, 3) == (b as bv64) << 24
    ensures Shifted(b, 4) == (b as bv64) << 32
    ensures Shifted(b, 5) == (b as bv64) << 40
    ensures Shifted(b, 6) == (b as bv64) << 48
    ensures Shifted(b, 7) == (b as bv64) << 56
  {
  }

  lemma FirstByte(b: Byte)
    ensures BitXor(0, b as bv64) == b as bv64 && (b as bv64) & 0xFFFF_FFFF_FFFF_FF00 == 0
  {
  }

  // A word of `k` bytes and a byte placed above them.

  lemma Place1(v: bv64, b: Byte, x: bv64)
    requires v & 0xFFFF_FFFF_FFFF_FF00 == 0 && x == (b as bv64) << 8
    ensures BitOr(v, x) == BitXor(v, x)
    ensures BitOr(v, x) & 0xFFFF_FFFF_FFFF_0000 == 0
  {
  }

  lemma Place2(v: bv64, b: Byte, x: bv64)
    requires v & 0xFFFF_FFFF_FFFF_0000 == 0 && x == (b as bv64) << 16
    ensures BitOr(v, x) == BitXor(v, x)
    ensures BitOr(v, x) & 0xFFFF_FFFF_FF00_0000 == 0
  {
  }

  lemma Place3(v: bv64, b: Byte, x: bv64)
    requires v & 0xFFFF_FFFF_FF00_0000 == 0 && x == (b as bv64) << 24
    ensures BitOr(v, x) == BitXor(v, x)
    ensures BitOr(v, x) & 0xFFFF_FFFF_0000_0000 == 0
  {
  }

  lemma Place4(v: bv64, b: Byte, x: bv64)
    requires v & 0xFFFF_FFFF_0000_0000 == 0 && x == (b as bv64) << 32
    ensures BitOr(v, x) == BitXor(v, x)
    ensures BitOr(v, x) & 0xFFFF_FF00_0000_0000 == 0
  {
  }

  lemma Place5(v: bv64, b: Byte, x: bv64)
    requires v & 0xFFFF_FF00_0000_0000 == 0 && x == (b as bv64) << 40
    ensures BitOr(v, x) == BitXor(v, x)
    ensures BitOr(v, x) & 0xFFFF_0000_0000_0000 == 0
  {
  }

  lemma Place6(v: bv64, b: Byte, x: bv64)
    requires v & 0xFFFF_0000_0000_0000 == 0 && x == (b as bv64) << 48
    ensures BitOr(v, x) == BitXor(v, x)
    ensures BitOr(v, x) & 0xFF00_0000_0000_0000 == 0
  {
  }

  lemma Place7(v: bv64, b: Byte, x: bv64)
    requires v & 0xFF00_0000_0000_0000 == 0 && x == (b as bv64) << 56
    ensures BitOr(v, x) == BitXor(v, x)
  {
  }

  /** Bytes at different places do not meet, so or and xor load the same lane. */
  lemma LoadIsXor(b0: Byte, b1: Byte, b2: Byte, b3: Byte, b4: Byte, b5: Byte, b6: Byte, b7: Byte)
    ensures Load(b0, b1, b2, b3, b4, b5, b6, b7) == JoinedBits(b0, b1, b2, b3, b4, b5, b6, b7)
  {
    hide Shifted, BitOr, BitXor;
    ShiftedAre(b0);
    FirstByte(b0);
    ShiftedAre(b1);
    var v1 := Shifted(b0, 0);
    Place1(v1, b1, Shifted(b1, 1));
    ShiftedAre(b2);
    var v2 := BitOr(v1, Shifted(b1, 1));
    Place2(v2, b2, Shifted(b2, 2));
    ShiftedAre(b3);
    var v3 := BitOr(v2, Shifted(b2, 2));
    Place3(v3, b3, Shifted(b3, 3));
    ShiftedAre(b4);
    var v4 := BitOr(v3, Shifted(b3, 3));
    Place4(v4, b4, Shifted(b4, 4));
    ShiftedAre(b5);
    var v5 := BitOr(v4, Shifted(b4, 4));
    Place5(v5, b5, Shifted(b5, 5));
    ShiftedAre(b6);
    var v6 := BitOr(v5, Shifted(b5, 5));
    Place6(v6, b6, Shifted(b6, 6));
    ShiftedAre(b7);
    var v7 := BitOr(v6, Shifted(b6, 6));
    Place7(v7, b7, Shifted(b7, 7));
  }

  method LoadLane(bytes: seq<Byte>, l: nat) returns (lane: Lane)
    requires 8 * l + 8 <= |bytes|
    ensures lane == LaneAt(bytes, l)
  {
    hide Load, Joined, JoinedBits, LaneAt;
    var i := 8 * l;
    lane := Lane(Load(bytes[i], bytes[i + 1], bytes[i + 2], bytes[i + 3],
                      bytes[i + 4], bytes[i + 5], bytes[i + 6], bytes[i + 7]));
    LaneAtJoined(bytes, l);
    JoinedIs(bytes[i], bytes[i + 1], bytes[i + 2], bytes[i + 3],
             bytes[i + 4], bytes[i + 5], bytes[i + 6], bytes[i + 7]);
    LoadIsXor(bytes[i], bytes[i + 1], bytes[i + 2], bytes[i + 3],
              bytes[i + 4], bytes[i + 5], bytes[i + 6], bytes[i + 7]);
  }

  /** `pd_store64_le_private`. */
  method StoreLane(bytes: array<Byte>, at: nat, lane: Lane)
    requires at + 8 <= bytes.Length
    modifies bytes
    ensures bytes[..] == old(bytes[..at]) + LaneBytes(lane) + old(bytes[at + 8..])
  {
    hide ByteAt;
    for j := 0 to 8
      invariant bytes[..at] == old(bytes[..at]) && bytes[at + 8..] == old(bytes[at + 8..])
      invariant bytes[at..at + j] == LaneBytes(lane)[..j]
    {
      bytes[at + j] := ByteAt(lane.bits, j);
      assert bytes[at..at + j + 1] == bytes[at..at + j] + [bytes[at + j]];
    }
    assert bytes[..] == bytes[..at] + bytes[at..at + 8] + bytes[at + 8..];
  }

  /** Copies the table and xors four loaded lanes into its front. */
  method Prepare(table: State, bytes: seq<Byte>) returns (state: array<Lane>)
    requires |bytes| == 32
    ensures fresh(state) && state.Length == 25 && state[..] == XorLanes(table, LanesOf(bytes))
  {
    hide Xor, LaneAt;
    state := new Lane[25](i requires 0 <= i < 25 => table[i]);
    for l := 0 to 4
      invariant forall i :: 0 <= i < 25 ==> state[i] == if i < l then Xor(table[i], LaneAt(bytes, i)) else table[i]
    {
      var lane := LoadLane(bytes, l);
      state[l] := Xor(state[l], lane);
    }
  }

  method StoreFront(state: array<Lane>, output: array<Byte>)
    requires state.Length == 25 && output.Length == 32
    modifies output
    ensures output[..] == BytesOf(state[..4])
  {
    hide LaneBytes;
    for l := 0 to 4
      invariant output[..8 * l] == BytesOf(state[..l])
    {
      StoreLane(output, 8 * l, state[l]);
      assert state[..l + 1][..l] == state[..l];
      assert output[..8 * (l + 1)] == output[..8 * l] + output[8 * l..8 * l + 8];
    }
    assert output[..] == output[..32];
  }

  /** `pd_pow_hash_with_nonce`. */
  method PowHashWithNonce(pre: seq<Byte>, nonce: Lane, output: array<Byte>)
    requires |pre| == 32 && output.Length == 32
    modifies output
    ensures output[..] == OracleInitial(pre, nonce)
  {
    hide XorLanes, LanesOf, KeccakF, BytesOf, Xor, PowTable, StateOf, OracleInitial;
    var state := Prepare(StateOf(PowTable()), pre);
    state[9] := Xor(state[9], nonce);
    KernelKeccak(state);
    StoreFront(state, output);
    PowHashRefines(pre, nonce);
  }

  method SplitNibbles(bytes: seq<Byte>) returns (vector: array<nat>)
    requires |bytes| == 32
    ensures fresh(vector) && vector[..] == Nibbles(bytes)
  {
    hide High, Low;
    vector := new nat[64];
    for i := 0 to 32
      invariant vector[..2 * i] == Nibbles(bytes)[..2 * i]
    {
      vector[2 * i] := High(bytes[i]);
      vector[2 * i + 1] := Low(bytes[i]);
      assert vector[..2 * (i + 1)] == vector[..2 * i] + [High(bytes[i]), Low(bytes[i])];
    }
    assert vector[..] == vector[..64];
  }

  predicate FlatMatrix(flat: seq<nat>, m: Matrix) {
    |flat| == 4096 && forall i :: 0 <= i < 64 ==> flat[64 * i..64 * i + 64] == m[i]
  }

  lemma WordStep(sum: nat, term: nat)
    ensures (sum % WORD + term) % WORD == (sum + term) % WORD
  {
  }

  /** Both sums of one output byte, in sixteen bits. */
  method RowSums(flat: seq<nat>, ghost m: Matrix, vector: array<nat>, index: nat) returns (high: nat, low: nat)
    requires FlatMatrix(flat, m) && vector.Length == 64 && index < 32
    ensures high == Dot(m[2 * index], vector[..], 64) % WORD
    ensures low == Dot(m[2 * index + 1], vector[..], 64) % WORD
  {
    high, low := 0, 0;
    for c := 0 to 64
      invariant high == Dot(m[2 * index], vector[..], c) % WORD
      invariant low == Dot(m[2 * index + 1], vector[..], c) % WORD
    {
      FlatEntry(flat, m, 2 * index, c);
      FlatEntry(flat, m, 2 * index + 1, c);
      WordStep(Dot(m[2 * index], vector[..], c), m[2 * index][c] * vector[c]);
      WordStep(Dot(m[2 * index + 1], vector[..], c), m[2 * index + 1][c] * vector[c]);
      high := (high + flat[(2 * index) * 64 + c] * vector[c]) % WORD;
      low := (low + flat[(2 * index + 1) * 64 + c] * vector[c]) % WORD;
    }
  }

  lemma FlatEntry(flat: seq<nat>, m: Matrix, i: nat, c: nat)
    requires FlatMatrix(flat, m) && i < 64 && c < 64
    ensures i * 64 + c < |flat| && flat[i * 64 + c] == m[i][c]
  {
    assert flat[64 * i..64 * i + 64][c] == m[i][c];
  }

  /** `pd_heavy_hash`. */
  method HeavyHash(flat: seq<nat>, ghost m: Matrix, initial: seq<Byte>, output: array<Byte>)
    requires FlatMatrix(flat, m) && |initial| == 32 && output.Length == 32
    modifies output
    ensures output[..] == KernelHeavy(StateOf(HeavyTable()), m, initial)
  {
    hide Nibbles, Dot, Packed, FlatMatrix, XorLanes, LanesOf, KeccakF, BytesOf, HeavyTable, StateOf;
    var vector := SplitNibbles(initial);
    var product := new Byte[32];
    for index := 0 to 32
      invariant vector[..] == Nibbles(initial)
      invariant product[..index] == KernelProduct(m, initial)[..index]
    {
      var high, low := RowSums(flat, m, vector, index);
      product[index] := Packed(high / 1024, low / 1024);
      product[index] := product[index] ^ initial[index];
      assert product[..index + 1] == product[..index] + [product[index]];
    }
    assert product[..] == product[..32] == KernelProduct(m, initial);
    var state := Prepare(StateOf(HeavyTable()), product[..]);
    KernelKeccak(state);
    StoreFront(state, output);
  }

  /** `pd_kheavyhash_from_pre_pow_hash`. */
  method KHeavyHashKernel(pre: seq<Byte>, flat: seq<nat>, ghost m: Matrix, nonce: Lane, output: array<Byte>)
    requires |pre| == 32 && FlatMatrix(flat, m) && output.Length == 32
    modifies output
    ensures NibbleMatrix(m) ==> output[..] == OracleFinal(pre, m, nonce)
    ensures output[..] == KernelHeavy(StateOf(HeavyTable()), m, OracleInitial(pre, nonce))
  {
    hide *;
    var initial := new Byte[32];
    PowHashWithNonce(pre, nonce, initial);
    HeavyHash(flat, m, initial[..], output);
    if NibbleMatrix(m) {
      PowHashRefines(pre, nonce);
      KernelRefinesOracle(pre, m, nonce);
    }
  }

  // ---------- the oracle ----------

  /** `kheavy_stages` after the header hash and the matrix. */
  method OracleStages(pre: seq<Byte>, m: Matrix, nonce: Lane)
    returns (initial: seq<Byte>, xored: seq<Byte>, final: seq<Byte>)
    requires |pre| == 32
    ensures initial == OracleInitial(pre, nonce)
    ensures xored == OracleProduct(m, initial)
    ensures final == OracleFinal(pre, m, nonce)
  {
    hide CShakeOf, OracleByte, Message;
    NamesEncodable();
    initial := CShake256(Message(pre, nonce), POW_NAME);
    xored := [];
    for i := 0 to 32
      invariant xored == OracleProduct(m, initial)[..i]
    {
      xored := xored + [OracleByte(m, initial, i)];
    }
    final := CShake256(xored, HEAVY_NAME);
  }
}
