/** One round on 25 named lanes, for evaluating the permutation on constants. */
module KeccakFlat {
  import opened Keccak

  datatype Flat = Flat(
    a0: Lane, a1: Lane, a2: Lane, a3: Lane, a4: Lane,
    a5: Lane, a6: Lane, a7: Lane, a8: Lane, a9: Lane,
    a10: Lane, a11: Lane, a12: Lane, a13: Lane, a14: Lane,
    a15: Lane, a16: Lane, a17: Lane, a18: Lane, a19: Lane,
    a20: Lane, a21: Lane, a22: Lane, a23: Lane, a24: Lane)

  datatype Five = Five(c0: Lane, c1: Lane, c2: Lane, c3: Lane, c4: Lane)

  /** What a round passes through: parities of three rows and of all five, the latter turned by one,
      theta's deltas, and the state after theta, after pi and after chi. */
  datatype Trace = Trace(p: Five, c: Five, r: Five, d: Five, t: Flat, b: Flat, x: Flat)

  function Nth(f: Flat, i: nat): Lane
    requires i < 25
  {
    match i
    case 0 => f.a0
    case 1 => f.a1
    case 2 => f.a2
    case 3 => f.a3
    case 4 => f.a4
    case 5 => f.a5
    case 6 => f.a6
    case 7 => f.a7
    case 8 => f.a8
    case 9 => f.a9
    case 10 => f.a10
    case 11 => f.a11
    case 12 => f.a12
    case 13 => f.a13
    case 14 => f.a14
    case 15 => f.a15
    case 16 => f.a16
    case 17 => f.a17
    case 18 => f.a18
    case 19 => f.a19
    case 20 => f.a20
    case 21 => f.a21
    case 22 => f.a22
    case 23 => f.a23
    case _ => f.a24
  }

  function Fifth(p: Five, x: nat): Lane
    requires x < 5
  {
    match x
    case 0 => p.c0
    case 1 => p.c1
    case 2 => p.c2
    case 3 => p.c3
    case _ => p.c4
  }

  function StateOf(f: Flat): State {
    seq(25, i requires 0 <= i < 25 => Nth(f, i))
  }

  predicate Xor3Is(a: Lane, b: Lane, c: Lane, r: Lane) {
    r.bits == a.bits ^ b.bits ^ c.bits
  }

  predicate XorIs(a: Lane, b: Lane, r: Lane) {
    r.bits == a.bits ^ b.bits
  }

  // Rotation by each shift that occurs.

  predicate Turned1(a: Lane, r: Lane) {
    r.bits == (a.bits << 1) | (a.bits >> 63)
  }

  predicate Turned2(a: Lane, r: Lane) {
    r.bits == (a.bits << 2) | (a.bits >> 62)
  }

  predicate Turned3(a: Lane, r: Lane) {
    r.bits == (a.bits << 3) | (a.bits >> 61)
  }

  predicate Turned6(a: Lane, r: Lane) {
    r.bits == (a.bits << 6) | (a.bits >> 58)
  }

  predicate Turned8(a: Lane, r: Lane) {
    r.bits == (a.bits << 8) | (a.bits >> 56)
  }

  predicate Turned10(a: Lane, r: Lane) {
    r.bits == (a.bits << 10) | (a.bits >> 54)
  }

  predicate Turned14(a: Lane, r: Lane) {
    r.bits == (a.bits << 14) | (a.bits >> 50)
  }

  predicate Turned15(a: Lane, r: Lane) {
    r.bits == (a.bits << 15) | (a.bits >> 49)
  }

  predicate Turned18(a: Lane, r: Lane) {
    r.bits == (a.bits << 18) | (a.bits >> 46)
  }

  predicate Turned20(a: Lane, r: Lane) {
    r.bits == (a.bits << 20) | (a.bits >> 44)
  }

  predicate Turned21(a: Lane, r: Lane) {
    r.bits == (a.bits << 21) | (a.bits >> 43)
  }

  predicate Turned25(a: Lane, r: Lane) {
    r.bits == (a.bits << 25) | (a.bits >> 39)
  }

  predicate Turned27(a: Lane, r: Lane) {
    r.bits == (a.bits << 27) | (a.bits >> 37)
  }

  predicate Turned28(a: Lane, r: Lane) {
    r.bits == (a.bits << 28) | (a.bits >> 36)
  }

  predicate Turned36(a: Lane, r: Lane) {
    r.bits == (a.bits << 36) | (a.bits >> 28)
  }

  predicate Turned39(a: Lane, r: Lane) {
    r.bits == (a.bits << 39) | (a.bits >> 25)
  }

  predicate Turned41(a: Lane, r: Lane) {
    r.bits == (a.bits << 41) | (a.bits >> 23)
  }

  predicate Turned43(a: Lane, r: Lane) {
    r.bits == (a.bits << 43) | (a.bits >> 21)
  }

  predicate Turned44(a: Lane, r: Lane) {
    r.bits == (a.bits << 44) | (a.bits >> 20)
  }

  predicate Turned45(a: Lane, r: Lane) {
    r.bits == (a.bits << 45) | (a.bits >> 19)
  }

  predicate Turned55(a: Lane, r: Lane) {
    r.bits == (a.bits << 55) | (a.bits >> 9)
  }

  predicate Turned56(a: Lane, r: Lane) {
    r.bits == (a.bits << 56) | (a.bits >> 8)
  }

  predicate Turned61(a: Lane, r: Lane) {
    r.bits == (a.bits << 61) | (a.bits >> 3)
  }

  predicate Turned62(a: Lane, r: Lane) {
    r.bits == (a.bits << 62) | (a.bits >> 2)
  }

  predicate ChiIs(a: Lane, b: Lane, c: Lane, r: Lane) {
    r.bits == a.bits ^ (!b.bits & c.bits)
  }

  predicate ColumnsIs(f: Flat, u: Trace) {
    && Xor3Is(f.a0, f.a5, f.a10, u.p.c0) && Xor3Is(f.a1, f.a6, f.a11, u.p.c1)
    && Xor3Is(f.a2, f.a7, f.a12, u.p.c2) && Xor3Is(f.a3, f.a8, f.a13, u.p.c3)
    && Xor3Is(f.a4, f.a9, f.a14, u.p.c4) && Xor3Is(u.p.c0, f.a15, f.a20, u.c.c0)
    && Xor3Is(u.p.c1, f.a16, f.a21, u.c.c1) && Xor3Is(u.p.c2, f.a17, f.a22, u.c.c2)
    && Xor3Is(u.p.c3, f.a18, f.a23, u.c.c3) && Xor3Is(u.p.c4, f.a19, f.a24, u.c.c4)
  }

  predicate DeltasIs(u: Trace) {
    && Turned1(u.c.c0, u.r.c0) && Turned1(u.c.c1, u.r.c1)
    && Turned1(u.c.c2, u.r.c2) && Turned1(u.c.c3, u.r.c3)
    && Turned1(u.c.c4, u.r.c4) && XorIs(u.c.c4, u.r.c1, u.d.c0)
    && XorIs(u.c.c0, u.r.c2, u.d.c1) && XorIs(u.c.c1, u.r.c3, u.d.c2)
    && XorIs(u.c.c2, u.r.c4, u.d.c3) && XorIs(u.c.c3, u.r.c0, u.d.c4)
  }

  predicate ThetaIs(f: Flat, u: Trace) {
    && XorIs(f.a0, u.d.c0, u.t.a0) && XorIs(f.a1, u.d.c1, u.t.a1)
    && XorIs(f.a2, u.d.c2, u.t.a2) && XorIs(f.a3, u.d.c3, u.t.a3)
    && XorIs(f.a4, u.d.c4, u.t.a4) && XorIs(f.a5, u.d.c0, u.t.a5)
    && XorIs(f.a6, u.d.c1, u.t.a6) && XorIs(f.a7, u.d.c2, u.t.a7)
    && XorIs(f.a8, u.d.c3, u.t.a8) && XorIs(f.a9, u.d.c4, u.t.a9)
    && XorIs(f.a10, u.d.c0, u.t.a10) && XorIs(f.a11, u.d.c1, u.t.a11)
    && XorIs(f.a12, u.d.c2, u.t.a12) && XorIs(f.a13, u.d.c3, u.t.a13)
    && XorIs(f.a14, u.d.c4, u.t.a14) && XorIs(f.a15, u.d.c0, u.t.a15)
    && XorIs(f.a16, u.d.c1, u.t.a16) && XorIs(f.a17, u.d.c2, u.t.a17)
    && XorIs(f.a18, u.d.c3, u.t.a18) && XorIs(f.a19, u.d.c4, u.t.a19)
    && XorIs(f.a20, u.d.c0, u.t.a20) && XorIs(f.a21, u.d.c1, u.t.a21)
    && XorIs(f.a22, u.d.c2, u.t.a22) && XorIs(f.a23, u.d.c3, u.t.a23)
    && XorIs(f.a24, u.d.c4, u.t.a24)
  }

  predicate RhoPiIs(u: Trace) {
    && u.b.a0 == u.t.a0 && Turned44(u.t.a6, u.b.a1)
    && Turned43(u.t.a12, u.b.a2) && Turned21(u.t.a18, u.b.a3)
    && Turned14(u.t.a24, u.b.a4) && Turned28(u.t.a3, u.b.a5)
    && Turned20(u.t.a9, u.b.a6) && Turned3(u.t.a10, u.b.a7)
    && Turned45(u.t.a16, u.b.a8) && Turned61(u.t.a22, u.b.a9)
    && Turned1(u.t.a1, u.b.a10) && Turned6(u.t.a7, u.b.a11)
    && Turned25(u.t.a13, u.b.a12) && Turned8(u.t.a19, u.b.a13)
    && Turned18(u.t.a20, u.b.a14) && Turned27(u.t.a4, u.b.a15)
    && Turned36(u.t.a5, u.b.a16) && Turned10(u.t.a11, u.b.a17)
    && Turned15(u.t.a17, u.b.a18) && Turned56(u.t.a23, u.b.a19)
    && Turned62(u.t.a2, u.b.a20) && Turned55(u.t.a8, u.b.a21)
    && Turned39(u.t.a14, u.b.a22) && Turned41(u.t.a15, u.b.a23)
    && Turned2(u.t.a21, u.b.a24)
  }

  predicate ChisIs(u: Trace) {
    && ChiIs(u.b.a0, u.b.a1, u.b.a2, u.x.a0) && ChiIs(u.b.a1, u.b.a2, u.b.a3, u.x.a1)
    && ChiIs(u.b.a2, u.b.a3, u.b.a4, u.x.a2) && ChiIs(u.b.a3, u.b.a4, u.b.a0, u.x.a3)
    && ChiIs(u.b.a4, u.b.a0, u.b.a1, u.x.a4) && ChiIs(u.b.a5, u.b.a6, u.b.a7, u.x.a5)
    && ChiIs(u.b.a6, u.b.a7, u.b.a8, u.x.a6) && ChiIs(u.b.a7, u.b.a8, u.b.a9, u.x.a7)
    && ChiIs(u.b.a8, u.b.a9, u.b.a5, u.x.a8) && ChiIs(u.b.a9, u.b.a5, u.b.a6, u.x.a9)
    && ChiIs(u.b.a10, u.b.a11, u.b.a12, u.x.a10) && ChiIs(u.b.a11, u.b.a12, u.b.a13, u.x.a11)
    && ChiIs(u.b.a12, u.b.a13, u.b.a14, u.x.a12) && ChiIs(u.b.a13, u.b.a14, u.b.a10, u.x.a13)
    && ChiIs(u.b.a14, u.b.a10, u.b.a11, u.x.a14) && ChiIs(u.b.a15, u.b.a16, u.b.a17, u.x.a15)
    && ChiIs(u.b.a16, u.b.a17, u.b.a18, u.x.a16) && ChiIs(u.b.a17, u.b.a18, u.b.a19, u.x.a17)
    && ChiIs(u.b.a18, u.b.a19, u.b.a15, u.x.a18) && ChiIs(u.b.a19, u.b.a15, u.b.a16, u.x.a19)
    && ChiIs(u.b.a20, u.b.a21, u.b.a22, u.x.a20) && ChiIs(u.b.a21, u.b.a22, u.b.a23, u.x.a21)
    && ChiIs(u.b.a22, u.b.a23, u.b.a24, u.x.a22) && ChiIs(u.b.a23, u.b.a24, u.b.a20, u.x.a23)
    && ChiIs(u.b.a24, u.b.a20, u.b.a21, u.x.a24)
  }

  /** `g` is the state one round after `f`, with `u` in between. */
  predicate RoundIs(f: Flat, u: Trace, rc: Lane, g: Flat) {
    && ColumnsIs(f, u) && DeltasIs(u) && ThetaIs(f, u) && RhoPiIs(u) && ChisIs(u)
    && XorIs(u.x.a0, rc, g.a0) && g == u.x.(a0 := g.a0)
  }

  lemma XorFact(a: Lane, b: Lane, r: Lane)
    requires XorIs(a, b, r)
    ensures Xor(a, b) == r
  {
  }

  lemma Xor3Fact(a: Lane, b: Lane, c: Lane, r: Lane)
    requires Xor3Is(a, b, c, r)
    ensures Xor(Xor(a, b), c) == r
  {
  }

  lemma ChiFact(a: Lane, b: Lane, c: Lane, r: Lane)
    requires ChiIs(a, b, c, r)
    ensures ChiLane(a, b, c) == r
  {
  }

  lemma Rot1(a: Lane, r: Lane)
    requires Turned1(a, r)
    ensures Rot(a, 1) == r
  {
  }

  lemma Rot2(a: Lane, r: Lane)
    requires Turned2(a, r)
    ensures Rot(a, 2) == r
  {
  }

  lemma Rot3(a: Lane, r: Lane)
    requires Turned3(a, r)
    ensures Rot(a, 3) == r
  {
  }

  lemma Rot6(a: Lane, r: Lane)
    requires Turned6(a, r)
    ensures Rot(a, 6) == r
  {
  }

  lemma Rot8(a: Lane, r: Lane)
    requires Turned8(a, r)
    ensures Rot(a, 8) == r
  {
  }

  lemma Rot10(a: Lane, r: Lane)
    requires Turned10(a, r)
    ensures Rot(a, 10) == r
  {
  }

  lemma Rot14(a: Lane, r: Lane)
    requires Turned14(a, r)
    ensures Rot(a, 14) == r
  {
  }

  lemma Rot15(a: Lane, r: Lane)
    requires Turned15(a, r)
    ensures Rot(a, 15) == r
  {
  }

  lemma Rot18(a: Lane, r: Lane)
    requires Turned18(a, r)
    ensures Rot(a, 18) == r
  {
  }

  lemma Rot20(a: Lane, r: Lane)
    requires Turned20(a, r)
    ensures Rot(a, 20) == r
  {
  }

  lemma Rot21(a: Lane, r: Lane)
    requires Turned21(a, r)
    ensures Rot(a, 21) == r
  {
  }

  lemma Rot25(a: Lane, r: Lane)
    requires Turned25(a, r)
    ensures Rot(a, 25) == r
  {
  }

  lemma Rot27(a: Lane, r: Lane)
    requires Turned27(a, r)
    ensures Rot(a, 27) == r
  {
  }

  lemma Rot28(a: Lane, r: Lane)
    requires Turned28(a, r)
    ensures Rot(a, 28) == r
  {
  }

  lemma Rot36(a: Lane, r: Lane)
    requires Turned36(a, r)
    ensures Rot(a, 36) == r
  {
  }

  lemma Rot39(a: Lane, r: Lane)
    requires Turned39(a, r)
    ensures Rot(a, 39) == r
  {
  }

  lemma Rot41(a: Lane, r: Lane)
    requires Turned41(a, r)
    ensures Rot(a, 41) == r
  {
  }

  lemma Rot43(a: Lane, r: Lane)
    requires Turned43(a, r)
    ensures Rot(a, 43) == r
  {
  }

  lemma Rot44(a: Lane, r: Lane)
    requires Turned44(a, r)
    ensures Rot(a, 44) == r
  {
  }

  lemma Rot45(a: Lane, r: Lane)
    requires Turned45(a, r)
    ensures Rot(a, 45) == r
  {
  }

  lemma Rot55(a: Lane, r: Lane)
    requires Turned55(a, r)
    ensures Rot(a, 55) == r
  {
  }

  lemma Rot56(a: Lane, r: Lane)
    requires Turned56(a, r)
    ensures Rot(a, 56) == r
  {
  }

  lemma Rot61(a: Lane, r: Lane)
    requires Turned61(a, r)
    ensures Rot(a, 61) == r
  {
  }

  lemma Rot62(a: Lane, r: Lane)
    requires Turned62(a, r)
    ensures Rot(a, 62) == r
  {
  }

  lemma Lanes(f: Flat)
    ensures StateOf(f)[0] == f.a0
    ensures StateOf(f)[1] == f.a1
    ensures StateOf(f)[2] == f.a2
    ensures StateOf(f)[3] == f.a3
    ensures StateOf(f)[4] == f.a4
    ensures StateOf(f)[5] == f.a5
    ensures StateOf(f)[6] == f.a6
    ensures StateOf(f)[7] == f.a7
    ensures StateOf(f)[8] == f.a8
    ensures StateOf(f)[9] == f.a9
    ensures StateOf(f)[10] == f.a10
    ensures StateOf(f)[11] == f.a11
    ensures StateOf(f)[12] == f.a12
    ensures StateOf(f)[13] == f.a13
    ensures StateOf(f)[14] == f.a14
    ensures StateOf(f)[15] == f.a15
    ensures StateOf(f)[16] == f.a16
    ensures StateOf(f)[17] == f.a17
    ensures StateOf(f)[18] == f.a18
    ensures StateOf(f)[19] == f.a19
    ensures StateOf(f)[20] == f.a20
    ensures StateOf(f)[21] == f.a21
    ensures StateOf(f)[22] == f.a22
    ensures StateOf(f)[23] == f.a23
    ensures StateOf(f)[24] == f.a24
  {
  }

  lemma ColumnsFact(f: Flat, u: Trace)
    requires ColumnsIs(f, u)
    ensures Column(StateOf(f), 0) == u.c.c0
    ensures Column(StateOf(f), 1) == u.c.c1
    ensures Column(StateOf(f), 2) == u.c.c2
    ensures Column(StateOf(f), 3) == u.c.c3
    ensures Column(StateOf(f), 4) == u.c.c4
  {
    hide Xor, Xor3Is, StateOf;
    Lanes(f);
    Xor3Fact(f.a0, f.a5, f.a10, u.p.c0);
    Xor3Fact(f.a1, f.a6, f.a11, u.p.c1);
    Xor3Fact(f.a2, f.a7, f.a12, u.p.c2);
    Xor3Fact(f.a3, f.a8, f.a13, u.p.c3);
    Xor3Fact(f.a4, f.a9, f.a14, u.p.c4);
    Xor3Fact(u.p.c0, f.a15, f.a20, u.c.c0);
    Xor3Fact(u.p.c1, f.a16, f.a21, u.c.c1);
    Xor3Fact(u.p.c2, f.a17, f.a22, u.c.c2);
    Xor3Fact(u.p.c3, f.a18, f.a23, u.c.c3);
    Xor3Fact(u.p.c4, f.a19, f.a24, u.c.c4);
  }

  lemma DeltasFact(s: State, u: Trace)
    requires DeltasIs(u)
    requires Column(s, 0) == u.c.c0
    requires Column(s, 1) == u.c.c1
    requires Column(s, 2) == u.c.c2
    requires Column(s, 3) == u.c.c3
    requires Column(s, 4) == u.c.c4
    ensures Delta(s, 0) == u.d.c0
    ensures Delta(s, 1) == u.d.c1
    ensures Delta(s, 2) == u.d.c2
    ensures Delta(s, 3) == u.d.c3
    ensures Delta(s, 4) == u.d.c4
  {
    hide Xor, Rot, Column, XorIs, Turned1;
    Rot1(u.c.c0, u.r.c0);
    Rot1(u.c.c1, u.r.c1);
    Rot1(u.c.c2, u.r.c2);
    Rot1(u.c.c3, u.r.c3);
    Rot1(u.c.c4, u.r.c4);
    XorFact(u.c.c4, u.r.c1, u.d.c0);
    XorFact(u.c.c0, u.r.c2, u.d.c1);
    XorFact(u.c.c1, u.r.c3, u.d.c2);
    XorFact(u.c.c2, u.r.c4, u.d.c3);
    XorFact(u.c.c3, u.r.c0, u.d.c4);
  }

  lemma ThetaAt(f: Flat, u: Trace, i: nat)
    requires ThetaIs(f, u) && i < 25
    ensures Xor(Nth(f, i), Fifth(u.d, ColumnNo(i))) == Nth(u.t, i)
  {
    hide Xor, XorIs;
    XorFact(f.a0, u.d.c0, u.t.a0);
    XorFact(f.a1, u.d.c1, u.t.a1);
    XorFact(f.a2, u.d.c2, u.t.a2);
    XorFact(f.a3, u.d.c3, u.t.a3);
    XorFact(f.a4, u.d.c4, u.t.a4);
    XorFact(f.a5, u.d.c0, u.t.a5);
    XorFact(f.a6, u.d.c1, u.t.a6);
    XorFact(f.a7, u.d.c2, u.t.a7);
    XorFact(f.a8, u.d.c3, u.t.a8);
    XorFact(f.a9, u.d.c4, u.t.a9);
    XorFact(f.a10, u.d.c0, u.t.a10);
    XorFact(f.a11, u.d.c1, u.t.a11);
    XorFact(f.a12, u.d.c2, u.t.a12);
    XorFact(f.a13, u.d.c3, u.t.a13);
    XorFact(f.a14, u.d.c4, u.t.a14);
    XorFact(f.a15, u.d.c0, u.t.a15);
    XorFact(f.a16, u.d.c1, u.t.a16);
    XorFact(f.a17, u.d.c2, u.t.a17);
    XorFact(f.a18, u.d.c3, u.t.a18);
    XorFact(f.a19, u.d.c4, u.t.a19);
    XorFact(f.a20, u.d.c0, u.t.a20);
    XorFact(f.a21, u.d.c1, u.t.a21);
    XorFact(f.a22, u.d.c2, u.t.a22);
    XorFact(f.a23, u.d.c3, u.t.a23);
    XorFact(f.a24, u.d.c4, u.t.a24);
  }

  lemma ThetaFact(f: Flat, u: Trace)
    requires ThetaIs(f, u)
    requires forall x :: 0 <= x < 5 ==> Delta(StateOf(f), x) == Fifth(u.d, x)
    ensures Theta(StateOf(f)) == StateOf(u.t)
  {
    hide Xor, Delta, ThetaIs, Nth, Fifth, ColumnNo;
    forall i | 0 <= i < 25
      ensures Theta(StateOf(f))[i] == StateOf(u.t)[i]
    {
      ThetaAt(f, u, i);
    }
  }

  lemma Sources()
    ensures PiSource(0) == 0 && PiSource(1) == 6 && PiSource(2) == 12 && PiSource(3) == 18 && PiSource(4) == 24
    ensures PiSource(5) == 3 && PiSource(6) == 9 && PiSource(7) == 10 && PiSource(8) == 16 && PiSource(9) == 22
    ensures PiSource(10) == 1 && PiSource(11) == 7 && PiSource(12) == 13 && PiSource(13) == 19 && PiSource(14) == 20
    ensures PiSource(15) == 4 && PiSource(16) == 5 && PiSource(17) == 11 && PiSource(18) == 17 && PiSource(19) == 23
    ensures PiSource(20) == 2 && PiSource(21) == 8 && PiSource(22) == 14 && PiSource(23) == 15 && PiSource(24) == 21
  {
  }

  lemma Rotations()
    ensures Rotation(0, 0) == 0 && Rotation(0, 1) == 36 && Rotation(0, 2) == 3 && Rotation(0, 3) == 41
    ensures Rotation(0, 4) == 18
    ensures Rotation(1, 0) == 1 && Rotation(1, 1) == 44 && Rotation(1, 2) == 10 && Rotation(1, 3) == 45
    ensures Rotation(1, 4) == 2
    ensures Rotation(2, 0) == 62 && Rotation(2, 1) == 6 && Rotation(2, 2) == 43 && Rotation(2, 3) == 15
    ensures Rotation(2, 4) == 61
    ensures Rotation(3, 0) == 28 && Rotation(3, 1) == 55 && Rotation(3, 2) == 25 && Rotation(3, 3) == 21
    ensures Rotation(3, 4) == 56
    ensures Rotation(4, 0) == 27 && Rotation(4, 1) == 20 && Rotation(4, 2) == 39 && Rotation(4, 3) == 8
    ensures Rotation(4, 4) == 14
  {
  }

  lemma RhoPiWords(u: Trace)
    requires RhoPiIs(u)
    ensures Rot(u.t.a0, 0) == u.b.a0 && Rot(u.t.a6, 44) == u.b.a1 && Rot(u.t.a12, 43) == u.b.a2
    ensures Rot(u.t.a18, 21) == u.b.a3 && Rot(u.t.a24, 14) == u.b.a4
    ensures Rot(u.t.a3, 28) == u.b.a5 && Rot(u.t.a9, 20) == u.b.a6 && Rot(u.t.a10, 3) == u.b.a7
    ensures Rot(u.t.a16, 45) == u.b.a8 && Rot(u.t.a22, 61) == u.b.a9
    ensures Rot(u.t.a1, 1) == u.b.a10 && Rot(u.t.a7, 6) == u.b.a11 && Rot(u.t.a13, 25) == u.b.a12
    ensures Rot(u.t.a19, 8) == u.b.a13 && Rot(u.t.a20, 18) == u.b.a14
    ensures Rot(u.t.a4, 27) == u.b.a15 && Rot(u.t.a5, 36) == u.b.a16 && Rot(u.t.a11, 10) == u.b.a17
    ensures Rot(u.t.a17, 15) == u.b.a18 && Rot(u.t.a23, 56) == u.b.a19
    ensures Rot(u.t.a2, 62) == u.b.a20 && Rot(u.t.a8, 55) == u.b.a21 && Rot(u.t.a14, 39) == u.b.a22
    ensures Rot(u.t.a15, 41) == u.b.a23 && Rot(u.t.a21, 2) == u.b.a24
  {
    hide Rot, Turned1, Turned2, Turned3, Turned6, Turned8, Turned10, Turned14, Turned15, Turned18, Turned20, Turned21;
    hide Turned25, Turned27, Turned28, Turned36, Turned39, Turned41, Turned43, Turned44, Turned45, Turned55, Turned56;
    hide Turned61, Turned62;
    RotZero(u.t.a0);
    Rot44(u.t.a6, u.b.a1);
    Rot43(u.t.a12, u.b.a2);
    Rot21(u.t.a18, u.b.a3);
    Rot14(u.t.a24, u.b.a4);
    Rot28(u.t.a3, u.b.a5);
    Rot20(u.t.a9, u.b.a6);
    Rot3(u.t.a10, u.b.a7);
    Rot45(u.t.a16, u.b.a8);
    Rot61(u.t.a22, u.b.a9);
    Rot1(u.t.a1, u.b.a10);
    Rot6(u.t.a7, u.b.a11);
    Rot25(u.t.a13, u.b.a12);
    Rot8(u.t.a19, u.b.a13);
    Rot18(u.t.a20, u.b.a14);
    Rot27(u.t.a4, u.b.a15);
    Rot36(u.t.a5, u.b.a16);
    Rot10(u.t.a11, u.b.a17);
    Rot15(u.t.a17, u.b.a18);
    Rot56(u.t.a23, u.b.a19);
    Rot62(u.t.a2, u.b.a20);
    Rot55(u.t.a8, u.b.a21);
    Rot39(u.t.a14, u.b.a22);
    Rot41(u.t.a15, u.b.a23);
    Rot2(u.t.a21, u.b.a24);
  }

  /** The lane that rho and pi put at position `j`. */
  function Moved(a: State, j: nat): Lane
    requires j < 25
  {
    var i := PiSource(j); Rot(a[i], Rotation(i % 5, i / 5))
  }

  lemma MovedRow0(u: Trace)
    requires RhoPiIs(u)
    ensures Moved(StateOf(u.t), 0) == u.b.a0
    ensures Moved(StateOf(u.t), 1) == u.b.a1
    ensures Moved(StateOf(u.t), 2) == u.b.a2
    ensures Moved(StateOf(u.t), 3) == u.b.a3
    ensures Moved(StateOf(u.t), 4) == u.b.a4
  {
    hide Rot, RhoPiIs, PiSource, Rotation, StateOf;
    Sources();
    Rotations();
    Lanes(u.t);
    RhoPiWords(u);
  }

  lemma MovedRow1(u: Trace)
    requires RhoPiIs(u)
    ensures Moved(StateOf(u.t), 5) == u.b.a5
    ensures Moved(StateOf(u.t), 6) == u.b.a6
    ensures Moved(StateOf(u.t), 7) == u.b.a7
    ensures Moved(StateOf(u.t), 8) == u.b.a8
    ensures Moved(StateOf(u.t), 9) == u.b.a9
  {
    hide Rot, RhoPiIs, PiSource, Rotation, StateOf;
    Sources();
    Rotations();
    Lanes(u.t);
    RhoPiWords(u);
  }

  lemma MovedRow2(u: Trace)
    requires RhoPiIs(u)
    ensures Moved(StateOf(u.t), 10) == u.b.a10
    ensures Moved(StateOf(u.t), 11) == u.b.a11
    ensures Moved(StateOf(u.t), 12) == u.b.a12
    ensures Moved(StateOf(u.t), 13) == u.b.a13
    ensures Moved(StateOf(u.t), 14) == u.b.a14
  {
    hide Rot, RhoPiIs, PiSource, Rotation, StateOf;
    Sources();
    Rotations();
    Lanes(u.t);
    RhoPiWords(u);
  }

  lemma MovedRow3(u: Trace)
    requires RhoPiIs(u)
    ensures Moved(StateOf(u.t), 15) == u.b.a15
    ensures Moved(StateOf(u.t), 16) == u.b.a16
    ensures Moved(StateOf(u.t), 17) == u.b.a17
    ensures Moved(StateOf(u.t), 18) == u.b.a18
    ensures Moved(StateOf(u.t), 19) == u.b.a19
  {
    hide Rot, RhoPiIs, PiSource, Rotation, StateOf;
    Sources();
    Rotations();
    Lanes(u.t);
    RhoPiWords(u);
  }

  lemma MovedRow4(u: Trace)
    requires RhoPiIs(u)
    ensures Moved(StateOf(u.t), 20) == u.b.a20
    ensures Moved(StateOf(u.t), 21) == u.b.a21
    ensures Moved(StateOf(u.t), 22) == u.b.a22
    ensures Moved(StateOf(u.t), 23) == u.b.a23
    ensures Moved(StateOf(u.t), 24) == u.b.a24
  {
    hide Rot, RhoPiIs, PiSource, Rotation, StateOf;
    Sources();
    Rotations();
    Lanes(u.t);
    RhoPiWords(u);
  }

  lemma RhoPiAt(u: Trace, j: nat)
    requires RhoPiIs(u) && j < 25
    ensures Moved(StateOf(u.t), j) == Nth(u.b, j)
  {
    hide Moved, RhoPiIs, StateOf;
    if j < 5 {
      MovedRow0(u);
    } else if j < 10 {
      MovedRow1(u);
    } else if j < 15 {
      MovedRow2(u);
    } else if j < 20 {
      MovedRow3(u);
    } else {
      MovedRow4(u);
    }
  }

  lemma RhoPiFact(u: Trace)
    requires RhoPiIs(u)
    ensures RhoPi(StateOf(u.t)) == StateOf(u.b)
  {
    hide Rot, RhoPiIs, Nth, PiSource, Rotation;
    forall j | 0 <= j < 25
      ensures RhoPi(StateOf(u.t))[j] == StateOf(u.b)[j]
    {
      RhoPiAt(u, j);
    }
  }

  lemma RotZero(a: Lane)
    ensures Rot(a, 0) == a
  {
  }

  lemma ChiRow0(u: Trace)
    requires ChisIs(u)
    ensures ChiFrom(StateOf(u.b), 0, 0) == u.x.a0
    ensures ChiFrom(StateOf(u.b), 0, 1) == u.x.a1
    ensures ChiFrom(StateOf(u.b), 0, 2) == u.x.a2
    ensures ChiFrom(StateOf(u.b), 0, 3) == u.x.a3
    ensures ChiFrom(StateOf(u.b), 0, 4) == u.x.a4
  {
    hide ChiLane, ChiIs, StateOf;
    Lanes(u.b);
    ChiFact(u.b.a0, u.b.a1, u.b.a2, u.x.a0);
    ChiFact(u.b.a1, u.b.a2, u.b.a3, u.x.a1);
    ChiFact(u.b.a2, u.b.a3, u.b.a4, u.x.a2);
    ChiFact(u.b.a3, u.b.a4, u.b.a0, u.x.a3);
    ChiFact(u.b.a4, u.b.a0, u.b.a1, u.x.a4);
  }

  lemma ChiRow1(u: Trace)
    requires ChisIs(u)
    ensures ChiFrom(StateOf(u.b), 5, 5) == u.x.a5
    ensures ChiFrom(StateOf(u.b), 5, 6) == u.x.a6
    ensures ChiFrom(StateOf(u.b), 5, 7) == u.x.a7
    ensures ChiFrom(StateOf(u.b), 5, 8) == u.x.a8
    ensures ChiFrom(StateOf(u.b), 5, 9) == u.x.a9
  {
    hide ChiLane, ChiIs, StateOf;
    Lanes(u.b);
    ChiFact(u.b.a5, u.b.a6, u.b.a7, u.x.a5);
    ChiFact(u.b.a6, u.b.a7, u.b.a8, u.x.a6);
    ChiFact(u.b.a7, u.b.a8, u.b.a9, u.x.a7);
    ChiFact(u.b.a8, u.b.a9, u.b.a5, u.x.a8);
    ChiFact(u.b.a9, u.b.a5, u.b.a6, u.x.a9);
  }

  lemma ChiRow2(u: Trace)
    requires ChisIs(u)
    ensures ChiFrom(StateOf(u.b), 10, 10) == u.x.a10
    ensures ChiFrom(StateOf(u.b), 10, 11) == u.x.a11
    ensures ChiFrom(StateOf(u.b), 10, 12) == u.x.a12
    ensures ChiFrom(StateOf(u.b), 10, 13) == u.x.a13
    ensures ChiFrom(StateOf(u.b), 10, 14) == u.x.a14
  {
    hide ChiLane, ChiIs, StateOf;
    Lanes(u.b);
    ChiFact(u.b.a10, u.b.a11, u.b.a12, u.x.a10);
    ChiFact(u.b.a11, u.b.a12, u.b.a13, u.x.a11);
    ChiFact(u.b.a12, u.b.a13, u.b.a14, u.x.a12);
    ChiFact(u.b.a13, u.b.a14, u.b.a10, u.x.a13);
    ChiFact(u.b.a14, u.b.a10, u.b.a11, u.x.a14);
  }

  lemma ChiRow3(u: Trace)
    requires ChisIs(u)
    ensures ChiFrom(StateOf(u.b), 15, 15) == u.x.a15
    ensures ChiFrom(StateOf(u.b), 15, 16) == u.x.a16
    ensures ChiFrom(StateOf(u.b), 15, 17) == u.x.a17
    ensures ChiFrom(StateOf(u.b), 15, 18) == u.x.a18
    ensures ChiFrom(StateOf(u.b), 15, 19) == u.x.a19
  {
    hide ChiLane, ChiIs, StateOf;
    Lanes(u.b);
    ChiFact(u.b.a15, u.b.a16, u.b.a17, u.x.a15);
    ChiFact(u.b.a16, u.b.a17, u.b.a18, u.x.a16);
    ChiFact(u.b.a17, u.b.a18, u.b.a19, u.x.a17);
    ChiFact(u.b.a18, u.b.a19, u.b.a15, u.x.a18);
    ChiFact(u.b.a19, u.b.a15, u.b.a16, u.x.a19);
  }

  lemma ChiRow4(u: Trace)
    requires ChisIs(u)
    ensures ChiFrom(StateOf(u.b), 20, 20) == u.x.a20
    ensures ChiFrom(StateOf(u.b), 20, 21) == u.x.a21
    ensures ChiFrom(StateOf(u.b), 20, 22) == u.x.a22
    ensures ChiFrom(StateOf(u.b), 20, 23) == u.x.a23
    ensures ChiFrom(StateOf(u.b), 20, 24) == u.x.a24
  {
    hide ChiLane, ChiIs, StateOf;
    Lanes(u.b);
    ChiFact(u.b.a20, u.b.a21, u.b.a22, u.x.a20);
    ChiFact(u.b.a21, u.b.a22, u.b.a23, u.x.a21);
    ChiFact(u.b.a22, u.b.a23, u.b.a24, u.x.a22);
    ChiFact(u.b.a23, u.b.a24, u.b.a20, u.x.a23);
    ChiFact(u.b.a24, u.b.a20, u.b.a21, u.x.a24);
  }

  lemma ChiAt(u: Trace, i: nat)
    requires ChisIs(u) && i < 25
    ensures ChiFrom(StateOf(u.b), RowOf(i), i) == Nth(u.x, i)
  {
    hide ChiFrom, ChisIs, StateOf;
    if i < 5 {
      ChiRow0(u);
    } else if i < 10 {
      ChiRow1(u);
    } else if i < 15 {
      ChiRow2(u);
    } else if i < 20 {
      ChiRow3(u);
    } else {
      ChiRow4(u);
    }
  }

  lemma ChiFacts(u: Trace)
    requires ChisIs(u)
    ensures Chi(StateOf(u.b)) == StateOf(u.x)
  {
    hide ChiFrom, ChisIs, Nth, RowOf;
    forall i | 0 <= i < 25
      ensures Chi(StateOf(u.b))[i] == StateOf(u.x)[i]
    {
      ChiAt(u, i);
    }
  }

  lemma DeltasFive(s: State, u: Trace)
    requires Delta(s, 0) == u.d.c0
    requires Delta(s, 1) == u.d.c1
    requires Delta(s, 2) == u.d.c2
    requires Delta(s, 3) == u.d.c3
    requires Delta(s, 4) == u.d.c4
    ensures forall x :: 0 <= x < 5 ==> Delta(s, x) == Fifth(u.d, x)
  {
    hide Delta;
  }

  lemma IotaFact(x: Flat, rc: Lane, g: Flat)
    requires Xor(x.a0, rc) == g.a0 && g == x.(a0 := g.a0)
    ensures Iota(StateOf(x), rc) == StateOf(g)
  {
    hide Xor;
    forall i | 0 < i < 25
      ensures Nth(x, i) == Nth(g, i)
    {
    }
  }

  lemma RoundStages(f: Flat, u: Trace, rc: Lane, g: Flat)
    requires RoundIs(f, u, rc, g)
    ensures Round(StateOf(f), rc) == StateOf(g)
  {
    hide Xor, XorIs, Iota, Column, Delta, Theta, RhoPi, Chi, ColumnsIs, DeltasIs, ThetaIs, RhoPiIs, ChisIs, StateOf;
    hide Fifth;
    ColumnsFact(f, u);
    DeltasFact(StateOf(f), u);
    DeltasFive(StateOf(f), u);
    ThetaFact(f, u);
    RhoPiFact(u);
    ChiFacts(u);
    XorFact(u.x.a0, rc, g.a0);
    IotaFact(u.x, rc, g);
  }

  /** `g` is the state one round after `f`, word by word. */
  ghost predicate Follows(f: Flat, rc: Lane, g: Flat) {
    exists u :: RoundIs(f, u, rc, g)
  }

  /** A round on words is a round of the permutation. */
  lemma RoundFact(f: Flat, rc: Lane, g: Flat)
    requires Follows(f, rc, g)
    ensures Round(StateOf(f), rc) == StateOf(g)
  {
    hide Round, RoundIs, StateOf;
    var u :| RoundIs(f, u, rc, g);
    RoundStages(f, u, rc, g);
  }

  // ---------- computing a round ----------

  function ParitiesOf(f: Flat): Five {
    Five(
      Lane(f.a0.bits ^ f.a5.bits ^ f.a10.bits), Lane(f.a1.bits ^ f.a6.bits ^ f.a11.bits),
      Lane(f.a2.bits ^ f.a7.bits ^ f.a12.bits), Lane(f.a3.bits ^ f.a8.bits ^ f.a13.bits),
      Lane(f.a4.bits ^ f.a9.bits ^ f.a14.bits))
  }

  function ColumnsOf(p: Five, f: Flat): Five {
    Five(
      Lane(p.c0.bits ^ f.a15.bits ^ f.a20.bits), Lane(p.c1.bits ^ f.a16.bits ^ f.a21.bits),
      Lane(p.c2.bits ^ f.a17.bits ^ f.a22.bits), Lane(p.c3.bits ^ f.a18.bits ^ f.a23.bits),
      Lane(p.c4.bits ^ f.a19.bits ^ f.a24.bits))
  }

  function TurnedOf(c: Five): Five {
    Five(
      Lane((c.c0.bits << 1) | (c.c0.bits >> 63)), Lane((c.c1.bits << 1) | (c.c1.bits >> 63)),
      Lane((c.c2.bits << 1) | (c.c2.bits >> 63)), Lane((c.c3.bits << 1) | (c.c3.bits >> 63)),
      Lane((c.c4.bits << 1) | (c.c4.bits >> 63)))
  }

  function DeltasOf(c: Five, r: Five): Five {
    Five(
      Lane(c.c4.bits ^ r.c1.bits), Lane(c.c0.bits ^ r.c2.bits), Lane(c.c1.bits ^ r.c3.bits),
      Lane(c.c2.bits ^ r.c4.bits), Lane(c.c3.bits ^ r.c0.bits))
  }

  function ThetaOf(f: Flat, d: Five): Flat {
    Flat(
      Lane(f.a0.bits ^ d.c0.bits), Lane(f.a1.bits ^ d.c1.bits), Lane(f.a2.bits ^ d.c2.bits),
      Lane(f.a3.bits ^ d.c3.bits), Lane(f.a4.bits ^ d.c4.bits), Lane(f.a5.bits ^ d.c0.bits),
      Lane(f.a6.bits ^ d.c1.bits), Lane(f.a7.bits ^ d.c2.bits), Lane(f.a8.bits ^ d.c3.bits),
      Lane(f.a9.bits ^ d.c4.bits), Lane(f.a10.bits ^ d.c0.bits), Lane(f.a11.bits ^ d.c1.bits),
      Lane(f.a12.bits ^ d.c2.bits), Lane(f.a13.bits ^ d.c3.bits), Lane(f.a14.bits ^ d.c4.bits),
      Lane(f.a15.bits ^ d.c0.bits), Lane(f.a16.bits ^ d.c1.bits), Lane(f.a17.bits ^ d.c2.bits),
      Lane(f.a18.bits ^ d.c3.bits), Lane(f.a19.bits ^ d.c4.bits), Lane(f.a20.bits ^ d.c0.bits),
      Lane(f.a21.bits ^ d.c1.bits), Lane(f.a22.bits ^ d.c2.bits), Lane(f.a23.bits ^ d.c3.bits),
      Lane(f.a24.bits ^ d.c4.bits))
  }

  function RhoPiOf(t: Flat): Flat {
    Flat(
      Lane(t.a0.bits), Lane((t.a6.bits << 44) | (t.a6.bits >> 20)), Lane((t.a12.bits << 43) | (t.a12.bits >> 21)),
      Lane((t.a18.bits << 21) | (t.a18.bits >> 43)), Lane((t.a24.bits << 14) | (t.a24.bits >> 50)),
      Lane((t.a3.bits << 28) | (t.a3.bits >> 36)), Lane((t.a9.bits << 20) | (t.a9.bits >> 44)),
      Lane((t.a10.bits << 3) | (t.a10.bits >> 61)), Lane((t.a16.bits << 45) | (t.a16.bits >> 19)),
      Lane((t.a22.bits << 61) | (t.a22.bits >> 3)), Lane((t.a1.bits << 1) | (t.a1.bits >> 63)),
      Lane((t.a7.bits << 6) | (t.a7.bits >> 58)), Lane((t.a13.bits << 25) | (t.a13.bits >> 39)),
      Lane((t.a19.bits << 8) | (t.a19.bits >> 56)), Lane((t.a20.bits << 18) | (t.a20.bits >> 46)),
      Lane((t.a4.bits << 27) | (t.a4.bits >> 37)), Lane((t.a5.bits << 36) | (t.a5.bits >> 28)),
      Lane((t.a11.bits << 10) | (t.a11.bits >> 54)), Lane((t.a17.bits << 15) | (t.a17.bits >> 49)),
      Lane((t.a23.bits << 56) | (t.a23.bits >> 8)), Lane((t.a2.bits << 62) | (t.a2.bits >> 2)),
      Lane((t.a8.bits << 55) | (t.a8.bits >> 9)), Lane((t.a14.bits << 39) | (t.a14.bits >> 25)),
      Lane((t.a15.bits << 41) | (t.a15.bits >> 23)), Lane((t.a21.bits << 2) | (t.a21.bits >> 62)))
  }

  function ChiOf(b: Flat): Flat {
    Flat(
      Lane(b.a0.bits ^ (!b.a1.bits & b.a2.bits)), Lane(b.a1.bits ^ (!b.a2.bits & b.a3.bits)),
      Lane(b.a2.bits ^ (!b.a3.bits & b.a4.bits)), Lane(b.a3.bits ^ (!b.a4.bits & b.a0.bits)),
      Lane(b.a4.bits ^ (!b.a0.bits & b.a1.bits)), Lane(b.a5.bits ^ (!b.a6.bits & b.a7.bits)),
      Lane(b.a6.bits ^ (!b.a7.bits & b.a8.bits)), Lane(b.a7.bits ^ (!b.a8.bits & b.a9.bits)),
      Lane(b.a8.bits ^ (!b.a9.bits & b.a5.bits)), Lane(b.a9.bits ^ (!b.a5.bits & b.a6.bits)),
      Lane(b.a10.bits ^ (!b.a11.bits & b.a12.bits)), Lane(b.a11.bits ^ (!b.a12.bits & b.a13.bits)),
      Lane(b.a12.bits ^ (!b.a13.bits & b.a14.bits)), Lane(b.a13.bits ^ (!b.a14.bits & b.a10.bits)),
      Lane(b.a14.bits ^ (!b.a10.bits & b.a11.bits)), Lane(b.a15.bits ^ (!b.a16.bits & b.a17.bits)),
      Lane(b.a16.bits ^ (!b.a17.bits & b.a18.bits)), Lane(b.a17.bits ^ (!b.a18.bits & b.a19.bits)),
      Lane(b.a18.bits ^ (!b.a19.bits & b.a15.bits)), Lane(b.a19.bits ^ (!b.a15.bits & b.a16.bits)),
      Lane(b.a20.bits ^ (!b.a21.bits & b.a22.bits)), Lane(b.a21.bits ^ (!b.a22.bits & b.a23.bits)),
      Lane(b.a22.bits ^ (!b.a23.bits & b.a24.bits)), Lane(b.a23.bits ^ (!b.a24.bits & b.a20.bits)),
      Lane(b.a24.bits ^ (!b.a20.bits & b.a21.bits)))
  }

  function TraceOf(f: Flat): Trace {
    var p := ParitiesOf(f);
    var c := ColumnsOf(p, f);
    var r := TurnedOf(c);
    var d := DeltasOf(c, r);
    var t := ThetaOf(f, d);
    var b := RhoPiOf(t);
    Trace(p, c, r, d, t, b, ChiOf(b))
  }
}
