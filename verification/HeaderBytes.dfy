/** Canonical header bytes: the two independent encoders and what their output determines. */
module HeaderBytes {
  import opened Ids

  type byte = x: int | 0 <= x < 256

  type Bytes = seq<byte>

  const DOMAIN: string := "PulseDAG:block-header:v3:nanoseconds"
  const LIMIT_PARENTS := 64
  const LIMIT_CHAIN_BYTES := 128
  const LIMIT_ENCODED_BYTES := 8192
  const U32: int := 0x1_0000_0000
  const U64: int := 0x1_0000_0000_0000_0000

  datatype Header = Header(
    version: int, parents: seq<Id>, timestampNs: int, difficulty: int, nonce: int,
    merkleRoot: Id, stateRoot: Id, blueScore: int, height: int)

  datatype HeaderError = InvalidChain | InvalidField | Oversized

  // ---------- fields ----------

  function Pow256(n: nat): (r: nat)
    ensures r > 0
  {
    if n == 0 then 1 else 256 * Pow256(n - 1)
  }

  /** `n` little-endian bytes. */
  function LE(v: nat, n: nat): (r: Bytes)
    ensures |r| == n
  {
    if n == 0 then [] else [v % 256] + LE(v / 256, n - 1)
  }

  predicate Ascii(s: string) {
    forall i :: 0 <= i < |s| ==> s[i] as int < 128
  }

  /** The bytes of an ASCII string. */
  function Encoded(s: string): (r: Bytes)
    requires Ascii(s)
    ensures |r| == |s|
  {
    seq(|s|, i requires 0 <= i < |s| => s[i] as int)
  }

  /** A length-prefixed byte string. */
  function Field(data: Bytes): (r: Bytes)
    ensures |r| == 4 + |data|
  {
    LE(|data|, 4) + data
  }

  predicate HexDigit(c: char) {
    '0' <= c <= '9' || 'a' <= c <= 'f'
  }

  predicate HexRoot(s: string) {
    |s| == 64 && forall i :: 0 <= i < |s| ==> HexDigit(s[i])
  }

  predicate ChainOk(chain: string) {
    && 0 < |chain| <= LIMIT_CHAIN_BYTES
    && forall i :: 0 <= i < |chain| ==> 33 <= chain[i] as int <= 126
  }

  predicate ParentsOk(ps: seq<Id>) {
    && |ps| <= LIMIT_PARENTS
    && (forall i :: 0 <= i < |ps| ==> HexRoot(ps[i]))
    && (forall i :: 0 < i < |ps| ==> Less(ps[i - 1], ps[i]))
  }

  function ParentFields(ps: seq<Id>): Bytes
    requires forall i :: 0 <= i < |ps| ==> HexRoot(ps[i])
  {
    if ps == [] then []
    else
      assert HexRoot(ps[0]);
      Field(Encoded(ps[0])) + ParentFields(ps[1..])
  }

  // ---------- acceptance ----------

  /** Everything both encoders check except the width of the nonce. */
  predicate ShapeOk(h: Header) {
    && h.version == 3
    && 0 < h.timestampNs < U64
    && ParentsOk(h.parents)
    && 0 <= h.height < U64
    && (h.height == 0 <==> h.parents == [])
    && HexRoot(h.merkleRoot) && HexRoot(h.stateRoot)
    && 0 <= h.difficulty < U32
    && 0 <= h.blueScore < U64
  }

  predicate NonceOk(h: Header) {
    0 <= h.nonce < U64
  }

  /** What a valid header promises, with the limits written out. */
  lemma ShapeMeans(h: Header, i: nat, j: nat)
    requires ShapeOk(h) && i < j < |h.parents|
    ensures |h.parents| <= 64 && h.version == 3 && h.timestampNs > 0 && h.height > 0
    ensures |h.parents[i]| == 64 && forall c :: c in h.parents[i] ==> c in "0123456789abcdef"
    ensures exists k :: DiffersAt(h.parents[i], h.parents[j], k)
  {
    hide Less, DiffersAt;
    ParentsAscend(h.parents, i, j);
    LessExact(h.parents[i], h.parents[j]);
    assert HexRoot(h.parents[i]);
    forall c | c in h.parents[i]
      ensures c in "0123456789abcdef"
    {
      assert HexDigit(c);
      HexDigitIs(c);
    }
  }

  lemma HexDigitIs(c: char)
    ensures HexDigit(c) <==> c in "0123456789abcdef"
  {
    var digits := "0123456789abcdef";
    if HexDigit(c) {
      var k := if c <= '9' then c as int - '0' as int else c as int - 'a' as int + 10;
      assert digits[k] == c;
    }
  }

  lemma {:induction false} ParentsAscend(ps: seq<Id>, i: nat, j: nat)
    requires ParentsOk(ps) && i < j < |ps|
    ensures Less(ps[i], ps[j])
    decreases j - i
  {
    hide Less;
    if i + 1 < j {
      ParentsAscend(ps, i, j - 1);
      LessTransitive(ps[i], ps[j - 1], ps[j]);
    }
  }

  /** A chain name is one to 128 visible ASCII characters. */
  lemma ChainMeans(chain: string, i: nat)
    requires ChainOk(chain) && i < |chain|
    ensures |chain| <= 128 && '!' <= chain[i] <= '~'
  {
  }

  // ---------- the encoding ----------

  function Closing(h: Header): Bytes
    requires ShapeOk(h)
  {
    Field(Encoded(h.merkleRoot)) +
    (Field(Encoded(h.stateRoot)) +
    (LE(h.blueScore, 8) +
    LE(h.height, 8)))
  }

  function NonceField(h: Header, full: bool): (r: Bytes)
    requires full ==> NonceOk(h)
    ensures |r| == if full then 8 else 0
  {
    if full then LE(h.nonce, 8) else []
  }

  /** Header bytes; the nonce is left out of the proof-of-work preimage. */
  function Encode(h: Header, chain: string, full: bool): Bytes
    requires ShapeOk(h) && ChainOk(chain) && (full ==> NonceOk(h))
  {
    Field(Encoded(DOMAIN)) +
    (Field(Encoded(chain)) +
    (LE(h.version, 4) +
    (LE(|h.parents|, 4) +
    (ParentFields(h.parents) +
    (LE(h.timestampNs, 8) +
    (LE(h.difficulty, 4) +
    (NonceField(h, full) +
    Closing(h))))))))
  }

  // ---------- sizes ----------

  lemma {:induction false} ParentFieldsSize(ps: seq<Id>)
    requires forall i :: 0 <= i < |ps| ==> HexRoot(ps[i])
    ensures |ParentFields(ps)| == 68 * |ps|
  {
    if ps != [] {
      ParentFieldsSize(ps[1..]);
    }
  }

  /** No header reaches the size limit: 4704 bytes is the most an encoding takes. */
  lemma EncodedSize(h: Header, chain: string, full: bool)
    requires ShapeOk(h) && ChainOk(chain) && (full ==> NonceOk(h))
    ensures |Encode(h, chain, full)| == 216 + |chain| + 68 * |h.parents| + (if full then 8 else 0)
    ensures |Encode(h, chain, full)| <= 4704 < LIMIT_ENCODED_BYTES
  {
    ParentFieldsSize(h.parents);
    assert |DOMAIN| == 36;
  }

  // ---------- unique decoding ----------

  lemma Peel(a: Bytes, b: Bytes, x: Bytes, y: Bytes)
    requires |a| == |b| && a + x == b + y
    ensures a == b && x == y
  {
    assert a == (a + x)[..|a|] && b == (b + y)[..|b|];
    assert x == (a + x)[|a|..] && y == (b + y)[|b|..];
  }

  lemma {:induction false} LEInjective(v: nat, w: nat, n: nat)
    requires v < Pow256(n) && w < Pow256(n) && LE(v, n) == LE(w, n)
    ensures v == w
  {
    if n > 0 {
      assert LE(v, n)[0] == v % 256 && LE(w, n)[0] == w % 256;
      assert LE(v, n)[1..] == LE(v / 256, n - 1) && LE(w, n)[1..] == LE(w / 256, n - 1);
      LEInjective(v / 256, w / 256, n - 1);
    }
  }

  lemma Widths()
    ensures Pow256(4) == U32 && Pow256(8) == U64
  {
    assert Pow256(2) == 65536;
    assert Pow256(4) == 65536 * Pow256(2);
    assert Pow256(6) == 65536 * Pow256(4);
    assert Pow256(8) == 65536 * Pow256(6);
  }

  lemma PeelLE(v: nat, w: nat, n: nat, x: Bytes, y: Bytes)
    requires v < Pow256(n) && w < Pow256(n) && LE(v, n) + x == LE(w, n) + y
    ensures v == w && x == y
  {
    Peel(LE(v, n), LE(w, n), x, y);
    LEInjective(v, w, n);
  }

  lemma PeelField(u: Bytes, w: Bytes, x: Bytes, y: Bytes)
    requires |u| < U32 && |w| < U32 && Field(u) + x == Field(w) + y
    ensures u == w && x == y
  {
    Widths();
    assert Field(u) + x == LE(|u|, 4) + (u + x);
    assert Field(w) + y == LE(|w|, 4) + (w + y);
    PeelLE(|u|, |w|, 4, u + x, w + y);
    Peel(u, w, x, y);
  }

  lemma EncodedInjective(s: string, t: string)
    requires Ascii(s) && Ascii(t) && Encoded(s) == Encoded(t)
    ensures s == t
  {
    assert |Encoded(s)| == |s| && |Encoded(t)| == |t|;
    forall i | 0 <= i < |s|
      ensures s[i] == t[i]
    {
      assert Encoded(s)[i] == Encoded(t)[i];
    }
  }

  lemma PeelText(s: string, t: string, x: Bytes, y: Bytes)
    requires Ascii(s) && Ascii(t) && |s| < U32 && |t| < U32
    requires Field(Encoded(s)) + x == Field(Encoded(t)) + y
    ensures s == t && x == y
  {
    PeelField(Encoded(s), Encoded(t), x, y);
    EncodedInjective(s, t);
  }

  lemma {:induction false} PeelParents(ps: seq<Id>, qs: seq<Id>, x: Bytes, y: Bytes)
    requires |ps| == |qs|
    requires forall i :: 0 <= i < |ps| ==> HexRoot(ps[i]) && HexRoot(qs[i])
    requires ParentFields(ps) + x == ParentFields(qs) + y
    ensures ps == qs && x == y
  {
    if ps == [] {
      assert ParentFields(ps) + x == x && ParentFields(qs) + y == y;
    } else {
      var x', y' := ParentFields(ps[1..]) + x, ParentFields(qs[1..]) + y;
      assert ParentFields(ps) + x == Field(Encoded(ps[0])) + x';
      assert ParentFields(qs) + y == Field(Encoded(qs[0])) + y';
      PeelText(ps[0], qs[0], x', y');
      PeelParents(ps[1..], qs[1..], x, y);
      assert ps == [ps[0]] + ps[1..] && qs == [qs[0]] + qs[1..];
    }
  }

  /** From the parent list on. */
  function Body(h: Header, full: bool): Bytes
    requires ShapeOk(h) && (full ==> NonceOk(h))
  {
    ParentFields(h.parents) +
    (LE(h.timestampNs, 8) +
    (LE(h.difficulty, 4) +
    (NonceField(h, full) +
    Closing(h))))
  }

  lemma PreambleInjective(h: Header, h': Header, c: string, c': string, full: bool, full': bool)
    requires ShapeOk(h) && ChainOk(c) && (full ==> NonceOk(h))
    requires ShapeOk(h') && ChainOk(c') && (full' ==> NonceOk(h'))
    requires Encode(h, c, full) == Encode(h', c', full')
    ensures c == c' && |h.parents| == |h'.parents| && Body(h, full) == Body(h', full')
  {
    hide Body, LE, Field, Encoded;
    Widths();
    var count, count' := LE(|h.parents|, 4) + Body(h, full), LE(|h'.parents|, 4) + Body(h', full');
    var ver, ver' := LE(h.version, 4) + count, LE(h'.version, 4) + count';
    Split(h, c, full);
    Split(h', c', full');
    PeelText(DOMAIN, DOMAIN, Field(Encoded(c)) + ver, Field(Encoded(c')) + ver');
    PeelText(c, c', ver, ver');
    PeelLE(h.version, h'.version, 4, count, count');
    PeelLE(|h.parents|, |h'.parents|, 4, Body(h, full), Body(h', full'));
  }

  lemma Split(h: Header, c: string, full: bool)
    requires ShapeOk(h) && ChainOk(c) && (full ==> NonceOk(h))
    ensures Encode(h, c, full) ==
            Field(Encoded(DOMAIN)) + (Field(Encoded(c)) + (LE(h.version, 4) + (LE(|h.parents|, 4) + Body(h, full))))
  {
  }

  lemma BodyInjective(h: Header, h': Header, full: bool, full': bool)
    requires ShapeOk(h) && (full ==> NonceOk(h))
    requires ShapeOk(h') && (full' ==> NonceOk(h'))
    requires |h.parents| == |h'.parents| && Body(h, full) == Body(h', full')
    ensures full == full' && h.(nonce := 0) == h'.(nonce := 0)
    ensures full ==> h == h'
  {
    Widths();
    var rest, rest' := NonceField(h, full) + Closing(h), NonceField(h', full') + Closing(h');
    var diff, diff' := LE(h.difficulty, 4) + rest, LE(h'.difficulty, 4) + rest';
    PeelParents(h.parents, h'.parents, LE(h.timestampNs, 8) + diff, LE(h'.timestampNs, 8) + diff');
    PeelLE(h.timestampNs, h'.timestampNs, 8, diff, diff');
    PeelLE(h.difficulty, h'.difficulty, 4, rest, rest');
    assert |Closing(h)| == |Closing(h')| == 152;
    Peel(NonceField(h, full), NonceField(h', full'), Closing(h), Closing(h'));
    if full {
      LEInjective(h.nonce, h'.nonce, 8);
    }
    ClosingInjective(h, h');
  }

  lemma ClosingInjective(h: Header, h': Header)
    requires ShapeOk(h) && ShapeOk(h') && Closing(h) == Closing(h')
    ensures h.merkleRoot == h'.merkleRoot && h.stateRoot == h'.stateRoot
    ensures h.blueScore == h'.blueScore && h.height == h'.height
  {
    Widths();
    var score, score' := LE(h.blueScore, 8) + LE(h.height, 8), LE(h'.blueScore, 8) + LE(h'.height, 8);
    PeelText(h.merkleRoot, h'.merkleRoot,
             Field(Encoded(h.stateRoot)) + score, Field(Encoded(h'.stateRoot)) + score');
    PeelText(h.stateRoot, h'.stateRoot, score, score');
    PeelLE(h.blueScore, h'.blueScore, 8, LE(h.height, 8), LE(h'.height, 8));
    LEInjective(h.height, h'.height, 8);
  }

  /**
   * Canonical bytes determine everything they commit to: chain, header and whether
   * the nonce is present. A full encoding never equals a nonce-free one.
   */
  lemma EncodeInjective(h: Header, h': Header, c: string, c': string, full: bool, full': bool)
    requires ShapeOk(h) && ChainOk(c) && (full ==> NonceOk(h))
    requires ShapeOk(h') && ChainOk(c') && (full' ==> NonceOk(h'))
    requires Encode(h, c, full) == Encode(h', c', full')
    ensures full == full' && c == c'
    ensures h.(nonce := 0) == h'.(nonce := 0)
    ensures full ==> h == h'
  {
    PreambleInjective(h, h', c, c', full, full');
    BodyInjective(h, h', full, full');
  }

  /** Nonce-free bytes ignore the nonce. */
  lemma PreimageIgnoresNonce(h: Header, c: string, nonce: int)
    requires ShapeOk(h) && ChainOk(c)
    ensures Encode(h, c, false) == Encode(h.(nonce := nonce), c, false)
  {
  }

  // ---------- the two encoders ----------

  lemma Assoc(a: Bytes, b: Bytes, c: Bytes)
    ensures (a + b) + c == a + (b + c)
  {
  }

  /** Appending one field after another gives the nested encoding. */
  lemma Appended(h: Header, chain: string, full: bool)
    requires ShapeOk(h) && ChainOk(chain) && (full ==> NonceOk(h))
    ensures Field(Encoded(DOMAIN)) + Field(Encoded(chain)) + LE(h.version, 4) + LE(|h.parents|, 4)
            + ParentFields(h.parents) + LE(h.timestampNs, 8) + LE(h.difficulty, 4) + NonceField(h, full)
            + Field(Encoded(h.merkleRoot)) + Field(Encoded(h.stateRoot)) + LE(h.blueScore, 8) + LE(h.height, 8)
            == Encode(h, chain, full)
  {
    hide LE, Field, Encoded, ParentFields, NonceField;
    var d, c := Field(Encoded(DOMAIN)), Field(Encoded(chain));
    var v, n, p := LE(h.version, 4), LE(|h.parents|, 4), ParentFields(h.parents);
    var t, f, o := LE(h.timestampNs, 8), LE(h.difficulty, 4), NonceField(h, full);
    var m, s := Field(Encoded(h.merkleRoot)), Field(Encoded(h.stateRoot));
    var b, e := LE(h.blueScore, 8), LE(h.height, 8);
    Assoc(d + c + v + n + p + t + f + o + m + s, b, e);
    Assoc(d + c + v + n + p + t + f + o + m, s, b + e);
    Assoc(d + c + v + n + p + t + f + o, m, s + (b + e));
    Assoc(d + c + v + n + p + t + f, o, Closing(h));
    Assoc(d + c + v + n + p + t, f, o + Closing(h));
    Assoc(d + c + v + n + p, t, f + (o + Closing(h)));
    Assoc(d + c + v + n, p, t + (f + (o + Closing(h))));
    Assoc(d + c + v, n, p + (t + (f + (o + Closing(h)))));
    Assoc(d + c, v, n + (p + (t + (f + (o + Closing(h))))));
    Assoc(d, c, v + (n + (p + (t + (f + (o + Closing(h)))))));
  }

  /** `canonical_material`: field checks in order, then appends to a buffer. */
  method CanonicalMaterial(h: Header, chain: string, full: bool) returns (r: Result<Bytes, HeaderError>)
    ensures r.Ok? <==> ChainOk(chain) && ShapeOk(h) && NonceOk(h)
    ensures r.Ok? ==> r.value == Encode(h, chain, full)
    ensures r.Err? ==> r.error == if ChainOk(chain) then InvalidField else InvalidChain
  {
    hide LE, Field, Encoded, NonceField, ParentFields, Encode;
    if !ChainOk(chain) { return Err(InvalidChain); }
    if h.version != 3 || !(0 < h.timestampNs < U64) || !ParentsOk(h.parents) { return Err(InvalidField); }
    if !(0 <= h.height < U64) { return Err(InvalidField); }
    if h.height == 0 && h.parents != [] { return Err(InvalidField); }
    if h.height > 0 && h.parents == [] { return Err(InvalidField); }
    if !HexRoot(h.merkleRoot) || !HexRoot(h.stateRoot) { return Err(InvalidField); }
    if !(0 <= h.difficulty < U32) || !NonceOk(h) || !(0 <= h.blueScore < U64) { return Err(InvalidField); }
    var material := Field(Encoded(DOMAIN));
    material := material + Field(Encoded(chain));
    material := material + LE(h.version, 4);
    material := material + LE(|h.parents|, 4);
    material := AppendParents(material, h.parents);
    material := material + LE(h.timestampNs, 8);
    material := material + LE(h.difficulty, 4);
    material := material + NonceField(h, full);
    material := material + Field(Encoded(h.merkleRoot));
    material := material + Field(Encoded(h.stateRoot));
    material := material + LE(h.blueScore, 8);
    material := material + LE(h.height, 8);
    Appended(h, chain, full);
    EncodedSize(h, chain, full);
    if |material| > LIMIT_ENCODED_BYTES {
      assert false;
      return Err(Oversized);
    }
    return Ok(material);
  }

  method AppendParents(buffer: Bytes, ps: seq<Id>) returns (r: Bytes)
    requires forall i :: 0 <= i < |ps| ==> HexRoot(ps[i])
    ensures r == buffer + ParentFields(ps)
  {
    r := buffer;
    for i := 0 to |ps|
      invariant r + ParentFields(ps[i..]) == buffer + ParentFields(ps)
    {
      assert ParentFields(ps[i..]) == Field(Encoded(ps[i])) + ParentFields(ps[i + 1..]) by {
        assert ps[i..][1..] == ps[i + 1..];
      }
      r := r + Field(Encoded(ps[i]));
    }
  }

  /** `canonical_header`: the same bytes, but the nonce is only checked when encoded. */
  method CanonicalHeader(h: Header, chain: string, full: bool) returns (r: Result<Bytes, HeaderError>)
    ensures r.Ok? <==> ChainOk(chain) && ShapeOk(h) && (full ==> NonceOk(h))
    ensures r.Ok? ==> r.value == Encode(h, chain, full)
    ensures r.Err? ==> r.error == if ChainOk(chain) then InvalidField else InvalidChain
  {
    hide LE, Field, Encoded, NonceField, ParentFields, Encode;
    if !ChainOk(chain) { return Err(InvalidChain); }
    if !ParentsOk(h.parents) { return Err(InvalidField); }
    if !(HexRoot(h.merkleRoot) && HexRoot(h.stateRoot)) { return Err(InvalidField); }
    if h.version != 3 || !(0 < h.timestampNs < U64) || !(0 <= h.height < U64) { return Err(InvalidField); }
    if (h.height == 0 && h.parents != []) || (h.height > 0 && h.parents == []) { return Err(InvalidField); }
    var out := Field(Encoded(DOMAIN)) + Field(Encoded(chain));
    out := out + LE(h.version, 4) + LE(|h.parents|, 4);
    out := AppendParents(out, h.parents);
    if !(0 <= h.difficulty < U32) { return Err(InvalidField); }
    out := out + LE(h.timestampNs, 8) + LE(h.difficulty, 4);
    if full && !NonceOk(h) { return Err(InvalidField); }
    out := out + NonceField(h, full);
    out := out + Field(Encoded(h.merkleRoot));
    out := out + Field(Encoded(h.stateRoot));
    if !(0 <= h.blueScore < U64) { return Err(InvalidField); }
    out := out + LE(h.blueScore, 8) + LE(h.height, 8);
    Appended(h, chain, full);
    EncodedSize(h, chain, full);
    if |out| > LIMIT_ENCODED_BYTES {
      assert false;
      return Err(Oversized);
    }
    return Ok(out);
  }
}
