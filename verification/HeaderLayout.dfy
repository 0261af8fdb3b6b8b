/** Where each field of a header stands in its canonical bytes, and in which byte order. */
module HeaderLayout {
  import CompactTarget
  import opened Ids
  import opened HeaderBytes

  /** `v` stands at `at` in `width` bytes, least significant first. */
  ghost predicate NumberAt(bytes: Bytes, at: nat, width: nat, v: nat) {
    && at + width <= |bytes|
    && forall i :: at <= i < at + width ==> bytes[i] == v / Pow256(i - at) % 256
  }

  ghost predicate TextAt(bytes: Bytes, at: nat, s: string) {
    && at + |s| <= |bytes|
    && forall i :: at <= i < at + |s| ==> bytes[i] == s[i - at] as int
  }

  /** A text after its length in four bytes. */
  ghost predicate LabelAt(bytes: Bytes, at: nat, s: string) {
    NumberAt(bytes, at, 4, |s|) && TextAt(bytes, at + 4, s)
  }

  lemma DivDiv(v: nat, p: nat)
    requires p > 0
    ensures v / 256 / p == v / (256 * p)
  {
    var w := v / 256;
    var q, m := w / p, w % p;
    assert w == p * q + m;
    Scale(p, q);
    CompactTarget.QuotientIs(v, 256 * p, q, 256 * m + v % 256);
  }

  lemma Scale(p: nat, q: nat)
    ensures 256 * (p * q) == 256 * p * q
  {
  }

  /** Byte `i` is the digit of weight 256^i. */
  lemma {:induction false} LEDigit(v: nat, n: nat, i: nat)
    requires i < n
    ensures LE(v, n)[i] == v / Pow256(i) % 256
  {
    if i > 0 {
      LEDigit(v / 256, n - 1, i - 1);
      DivDiv(v, Pow256(i - 1));
      assert LE(v, n)[i] == LE(v / 256, n - 1)[i - 1];
    }
  }

  ghost predicate PartAt(bytes: Bytes, at: nat, part: Bytes) {
    at + |part| <= |bytes| && bytes[at..at + |part|] == part
  }

  lemma PartFront(part: Bytes, rest: Bytes)
    ensures PartAt(part + rest, 0, part)
  {
    assert (part + rest)[..|part|] == part;
  }

  lemma PartShift(front: Bytes, bytes: Bytes, at: nat, part: Bytes)
    requires PartAt(bytes, at, part)
    ensures PartAt(front + bytes, |front| + at, part)
  {
    assert (front + bytes)[|front| + at..|front| + at + |part|] == bytes[at..at + |part|];
  }

  lemma PartNumber(bytes: Bytes, at: nat, v: nat, width: nat)
    requires PartAt(bytes, at, LE(v, width))
    ensures NumberAt(bytes, at, width, v)
  {
    forall i | at <= i < at + width
      ensures bytes[i] == v / Pow256(i - at) % 256
    {
      assert bytes[i] == bytes[at..at + width][i - at];
      LEDigit(v, width, i - at);
    }
  }

  lemma PartLabel(bytes: Bytes, at: nat, s: string)
    requires Ascii(s) && PartAt(bytes, at, Field(Encoded(s)))
    ensures LabelAt(bytes, at, s)
  {
    hide LE;
    var f := Field(Encoded(s));
    var part := bytes[at..at + |f|];
    assert bytes[at..at + 4] == part[..4] == LE(|s|, 4);
    PartNumber(bytes, at, |s|, 4);
    forall i | at + 4 <= i < at + 4 + |s|
      ensures bytes[i] == s[i - (at + 4)] as int
    {
      assert bytes[i] == part[i - at] == Encoded(s)[i - at - 4];
    }
  }

  lemma {:induction false} ParentsAt(ps: seq<Id>, i: nat)
    requires (forall j :: 0 <= j < |ps| ==> HexRoot(ps[j])) && i < |ps|
    ensures PartAt(ParentFields(ps), 68 * i, Field(Encoded(ps[i])))
    decreases |ps|
  {
    hide Field, Encoded, LE, PartAt;
    var first, rest := Field(Encoded(ps[0])), ParentFields(ps[1..]);
    if i == 0 {
      PartFront(first, rest);
    } else {
      ParentsAt(ps[1..], i - 1);
      PartShift(first, rest, 68 * (i - 1), Field(Encoded(ps[i])));
      RootSize(ps[0]);
    }
  }

  lemma RootSize(s: string)
    requires HexRoot(s)
    ensures |Field(Encoded(s))| == 68
  {
  }

  // ---------- the tail, the middle and the whole ----------

  lemma ClosingParts(h: Header)
    requires ShapeOk(h)
    ensures |Closing(h)| == 152
    ensures PartAt(Closing(h), 0, Field(Encoded(h.merkleRoot)))
    ensures PartAt(Closing(h), 68, Field(Encoded(h.stateRoot)))
    ensures PartAt(Closing(h), 136, LE(h.blueScore, 8))
    ensures PartAt(Closing(h), 144, LE(h.height, 8))
  {
    RootSize(h.merkleRoot);
    RootSize(h.stateRoot);
    hide Field, Encoded, LE, PartAt;
    FourParts(Field(Encoded(h.merkleRoot)), Field(Encoded(h.stateRoot)), LE(h.blueScore, 8), LE(h.height, 8));
  }

  lemma PartWhole(part: Bytes)
    ensures PartAt(part, 0, part)
  {
  }

  function Middle(h: Header, full: bool): Bytes
    requires ShapeOk(h) && (full ==> NonceOk(h))
  {
    LE(h.timestampNs, 8) + (LE(h.difficulty, 4) + (NonceField(h, full) + Closing(h)))
  }

  lemma MiddleParts(h: Header, full: bool)
    requires ShapeOk(h) && (full ==> NonceOk(h))
    ensures PartAt(Middle(h, full), 0, LE(h.timestampNs, 8))
    ensures PartAt(Middle(h, full), 8, LE(h.difficulty, 4))
    ensures full ==> PartAt(Middle(h, full), 12, LE(h.nonce, 8))
    ensures PartAt(Middle(h, full), if full then 20 else 12, Closing(h))
  {
    hide LE, Closing, PartAt;
    FourParts(LE(h.timestampNs, 8), LE(h.difficulty, 4), NonceField(h, full), Closing(h));
  }

  lemma PartInside(bytes: Bytes, at: nat, part: Bytes, off: nat, inner: Bytes)
    requires PartAt(bytes, at, part) && PartAt(part, off, inner)
    ensures PartAt(bytes, at + off, inner)
  {
    assert forall i :: 0 <= i < |part| ==> part[i] == bytes[at..at + |part|][i] == bytes[at + i];
    assert bytes[at + off..at + off + |inner|] == part[off..off + |inner|];
  }

  /** Six parts one after the other. */
  lemma SixParts(a: Bytes, b: Bytes, c: Bytes, d: Bytes, e: Bytes, f: Bytes)
    ensures var x := a + (b + (c + (d + (e + f))));
            && PartAt(x, 0, a)
            && PartAt(x, |a|, b)
            && PartAt(x, |a| + |b|, c)
            && PartAt(x, |a| + |b| + |c|, d)
            && PartAt(x, |a| + |b| + |c| + |d|, e)
            && PartAt(x, |a| + |b| + |c| + |d| + |e|, f)
  {
    hide PartAt;
    FiveParts(b, c, d, e, f);
    var y := b + (c + (d + (e + f)));
    PartFront(a, y);
    PartShift(a, y, 0, b);
    PartShift(a, y, |b|, c);
    PartShift(a, y, |b| + |c|, d);
    PartShift(a, y, |b| + |c| + |d|, e);
    PartShift(a, y, |b| + |c| + |d| + |e|, f);
  }

  lemma FiveParts(b: Bytes, c: Bytes, d: Bytes, e: Bytes, f: Bytes)
    ensures var x := b + (c + (d + (e + f)));
            && PartAt(x, 0, b)
            && PartAt(x, |b|, c)
            && PartAt(x, |b| + |c|, d)
            && PartAt(x, |b| + |c| + |d|, e)
            && PartAt(x, |b| + |c| + |d| + |e|, f)
  {
    hide PartAt;
    FourParts(c, d, e, f);
    var y := c + (d + (e + f));
    PartFront(b, y);
    PartShift(b, y, 0, c);
    PartShift(b, y, |c|, d);
    PartShift(b, y, |c| + |d|, e);
    PartShift(b, y, |c| + |d| + |e|, f);
  }

  lemma FourParts(a: Bytes, b: Bytes, c: Bytes, d: Bytes)
    ensures var x := a + (b + (c + d));
            && PartAt(x, 0, a)
            && PartAt(x, |a|, b)
            && PartAt(x, |a| + |b|, c)
            && PartAt(x, |a| + |b| + |c|, d)
  {
    hide PartAt;
    PartFront(a, b + (c + d));
    PartFront(b, c + d);
    PartShift(a, b + (c + d), 0, b);
    PartFront(c, d);
    PartShift(b, c + d, 0, c);
    PartShift(a, b + (c + d), |b|, c);
    PartWhole(d);
    PartShift(c, d, 0, d);
    PartShift(b, c + d, |c|, d);
    PartShift(a, b + (c + d), |b| + |c|, d);
  }

  function DomainField(): Bytes {
    Field(Encoded(DOMAIN))
  }

  /** The encoding in six parts. */
  function SixOf(h: Header, chain: string, full: bool): (r: seq<Bytes>)
    requires ShapeOk(h) && ChainOk(chain) && (full ==> NonceOk(h))
    ensures |r| == 6
  {
    [DomainField(), Field(Encoded(chain)), LE(h.version, 4), LE(|h.parents|, 4),
     ParentFields(h.parents), Middle(h, full)]
  }

  lemma EncodeIs(h: Header, chain: string, full: bool)
    requires ShapeOk(h) && ChainOk(chain) && (full ==> NonceOk(h))
    ensures var r := SixOf(h, chain, full); Encode(h, chain, full) == r[0] + (r[1] + (r[2] + (r[3] + (r[4] + r[5]))))
  {
    hide LE, Encoded, Field, ParentFields, Closing, NonceField, HexRoot, Less;
  }

  lemma SixSizes(h: Header, chain: string, full: bool)
    requires ShapeOk(h) && ChainOk(chain) && (full ==> NonceOk(h))
    ensures var r := SixOf(h, chain, full);
            |r[0]| == 40 && |r[1]| == 4 + |chain| && |r[2]| == 4 && |r[3]| == 4 && |r[4]| == 68 * |h.parents|
  {
    ParentFieldsSize(h.parents);
    DomainIs();
    assert |DomainField()| == 40;
    hide DOMAIN, DomainField, LE, Encoded, ParentFields, Middle, HexRoot, Less;
  }

  /** Where the six parts stand. */
  lemma WholeParts(h: Header, chain: string, full: bool)
    requires ShapeOk(h) && ChainOk(chain) && (full ==> NonceOk(h))
    ensures var e, r, c := Encode(h, chain, full), SixOf(h, chain, full), |chain|;
            && PartAt(e, 0, r[0]) && PartAt(e, 40, r[1]) && PartAt(e, 44 + c, r[2]) && PartAt(e, 48 + c, r[3])
            && PartAt(e, 52 + c, r[4]) && PartAt(e, 52 + c + 68 * |h.parents|, r[5])
  {
    hide Encode, SixOf, PartAt, ShapeOk, ChainOk;
    EncodeIs(h, chain, full);
    SixSizes(h, chain, full);
    var r := SixOf(h, chain, full);
    SixParts(r[0], r[1], r[2], r[3], r[4], r[5]);
  }

  lemma DomainIs()
    ensures DOMAIN == "PulseDAG:block-header:v3:nanoseconds" && |DOMAIN| == 36 && Ascii(DOMAIN)
  {
  }

  // ---------- the layout ----------

  lemma ParentLabels(e: Bytes, at: nat, ps: seq<Id>, i: nat)
    requires forall j :: 0 <= j < |ps| ==> HexRoot(ps[j])
    requires PartAt(e, at, ParentFields(ps)) && i < |ps|
    ensures LabelAt(e, at + 68 * i, ps[i])
  {
    hide LE, Encoded, Field, ParentFields, PartAt, LabelAt;
    ParentsAt(ps, i);
    PartInside(e, at, ParentFields(ps), 68 * i, Field(Encoded(ps[i])));
    PartLabel(e, at + 68 * i, ps[i]);
  }

  lemma ClosingLabels(e: Bytes, at: nat, h: Header)
    requires ShapeOk(h) && PartAt(e, at, Closing(h))
    ensures LabelAt(e, at, h.merkleRoot) && LabelAt(e, at + 68, h.stateRoot)
    ensures NumberAt(e, at + 136, 8, h.blueScore) && NumberAt(e, at + 144, 8, h.height)
    ensures at + 152 <= |e|
  {
    ClosingParts(h);
    assert at + 152 <= |e|;
    hide LE, Encoded, Field, Closing, PartAt, LabelAt, NumberAt;
    var c := Closing(h);
    PartInside(e, at, c, 0, Field(Encoded(h.merkleRoot)));
    PartLabel(e, at, h.merkleRoot);
    PartInside(e, at, c, 68, Field(Encoded(h.stateRoot)));
    PartLabel(e, at + 68, h.stateRoot);
    PartInside(e, at, c, 136, LE(h.blueScore, 8));
    PartNumber(e, at + 136, h.blueScore, 8);
    PartInside(e, at, c, 144, LE(h.height, 8));
    PartNumber(e, at + 144, h.height, 8);
  }

  lemma MiddleNumbers(e: Bytes, at: nat, h: Header, full: bool)
    requires ShapeOk(h) && (full ==> NonceOk(h)) && PartAt(e, at, Middle(h, full))
    ensures NumberAt(e, at, 8, h.timestampNs) && NumberAt(e, at + 8, 4, h.difficulty)
    ensures full ==> NumberAt(e, at + 12, 8, h.nonce)
    ensures PartAt(e, at + if full then 20 else 12, Closing(h))
  {
    MiddleParts(h, full);
    hide LE, Closing, Middle, PartAt, NumberAt;
    var m := Middle(h, full);
    PartInside(e, at, m, 0, LE(h.timestampNs, 8));
    PartNumber(e, at, h.timestampNs, 8);
    PartInside(e, at, m, 8, LE(h.difficulty, 4));
    PartNumber(e, at + 8, h.difficulty, 4);
    if full {
      PartInside(e, at, m, 12, LE(h.nonce, 8));
      PartNumber(e, at + 12, h.nonce, 8);
    }
    PartInside(e, at, m, if full then 20 else 12, Closing(h));
  }

  lemma FrontIs(h: Header, chain: string, full: bool)
    requires ShapeOk(h) && ChainOk(chain) && (full ==> NonceOk(h))
    ensures Ascii(chain)
    ensures var r := SixOf(h, chain, full);
            r[0] == DomainField() && r[1] == Field(Encoded(chain)) && r[2] == LE(3, 4)
            && r[3] == LE(|h.parents|, 4)
  {
    hide LE, Encoded, Field, ParentFields, Middle, HexRoot, Less, DOMAIN, DomainField;
  }

  lemma BackIs(h: Header, chain: string, full: bool)
    requires ShapeOk(h) && ChainOk(chain) && (full ==> NonceOk(h))
    ensures forall j :: 0 <= j < |h.parents| ==> HexRoot(h.parents[j])
    ensures SixOf(h, chain, full)[4] == ParentFields(h.parents)
    ensures SixOf(h, chain, full)[5] == Middle(h, full)
  {
    hide LE, Encoded, Field, ParentFields, Middle, HexRoot, Less, DOMAIN, DomainField;
  }

  /** The domain, the chain, the version and the number of parents. */
  lemma FrontLayout(h: Header, chain: string, full: bool)
    requires ShapeOk(h) && ChainOk(chain) && (full ==> NonceOk(h))
    ensures var e, c := Encode(h, chain, full), |chain|;
            && LabelAt(e, 0, "PulseDAG:block-header:v3:nanoseconds")
            && LabelAt(e, 40, chain)
            && NumberAt(e, 44 + c, 4, 3)
            && NumberAt(e, 48 + c, 4, |h.parents|)
  {
    hide DOMAIN, DomainField, Encode, SixOf, LE, Encoded, Field, PartAt, LabelAt, NumberAt, ShapeOk, ChainOk, Ascii;
    DomainIs();
    WholeParts(h, chain, full);
    FrontIs(h, chain, full);
    FrontLabels(Encode(h, chain, full), chain, |h.parents|);
  }

  lemma FrontLabels(e: Bytes, chain: string, parents: nat)
    requires Ascii(chain) && PartAt(e, 0, DomainField()) && PartAt(e, 40, Field(Encoded(chain)))
    requires PartAt(e, 44 + |chain|, LE(3, 4)) && PartAt(e, 48 + |chain|, LE(parents, 4))
    ensures LabelAt(e, 0, DOMAIN) && LabelAt(e, 40, chain)
    ensures NumberAt(e, 44 + |chain|, 4, 3) && NumberAt(e, 48 + |chain|, 4, parents)
  {
    hide DOMAIN, LE, Encoded, Field, PartAt, LabelAt, NumberAt, Ascii;
    DomainIs();
    PartLabel(e, 0, DOMAIN);
    PartLabel(e, 40, chain);
    PartNumber(e, 44 + |chain|, 3, 4);
    PartNumber(e, 48 + |chain|, parents, 4);
  }

  lemma ParentsPart(h: Header, chain: string, full: bool)
    requires ShapeOk(h) && ChainOk(chain) && (full ==> NonceOk(h))
    ensures forall j :: 0 <= j < |h.parents| ==> HexRoot(h.parents[j])
    ensures PartAt(Encode(h, chain, full), 52 + |chain|, ParentFields(h.parents))
  {
    hide Encode, SixOf, ParentFields, PartAt, ShapeOk, ChainOk, HexRoot, Less, Middle;
    WholeParts(h, chain, full);
    BackIs(h, chain, full);
  }

  /** The parents, in order, 68 bytes each. */
  lemma ParentsLayout(h: Header, chain: string, full: bool, i: nat)
    requires ShapeOk(h) && ChainOk(chain) && (full ==> NonceOk(h)) && i < |h.parents|
    ensures LabelAt(Encode(h, chain, full), 52 + |chain| + 68 * i, h.parents[i])
  {
    hide Encode, ParentFields, PartAt, LabelAt, ShapeOk, ChainOk, NonceOk, HexRoot;
    ParentsPart(h, chain, full);
    ParentLabels(Encode(h, chain, full), 52 + |chain|, h.parents, i);
  }

  lemma MiddlePart(h: Header, chain: string, full: bool)
    requires ShapeOk(h) && ChainOk(chain) && (full ==> NonceOk(h))
    ensures PartAt(Encode(h, chain, full), 52 + |chain| + 68 * |h.parents|, Middle(h, full))
  {
    hide Encode, SixOf, ParentFields, PartAt, ShapeOk, ChainOk, HexRoot, Less, Middle;
    WholeParts(h, chain, full);
    BackIs(h, chain, full);
  }

  /** The numbers and the roots after the parents; the nonce only in full bytes. */
  lemma BackLayout(h: Header, chain: string, full: bool)
    requires ShapeOk(h) && ChainOk(chain) && (full ==> NonceOk(h))
    ensures var e, q := Encode(h, chain, full), 52 + |chain| + 68 * |h.parents|;
            var r := q + if full then 20 else 12;
            && NumberAt(e, q, 8, h.timestampNs)
            && NumberAt(e, q + 8, 4, h.difficulty)
            && (full ==> NumberAt(e, q + 12, 8, h.nonce))
            && LabelAt(e, r, h.merkleRoot)
            && LabelAt(e, r + 68, h.stateRoot)
            && NumberAt(e, r + 136, 8, h.blueScore)
            && NumberAt(e, r + 144, 8, h.height)
            && |e| == r + 152
  {
    hide Encode, Closing, Middle, PartAt, LabelAt, NumberAt, ShapeOk, ChainOk, NonceOk;
    EncodedSize(h, chain, full);
    MiddlePart(h, chain, full);
    var e, q := Encode(h, chain, full), 52 + |chain| + 68 * |h.parents|;
    MiddleNumbers(e, q, h, full);
    ClosingLabels(e, q + if full then 20 else 12, h);
  }
}
