/** Keccak-f[1600]: the permutation of FIPS 202, the plain oracle and the in-place kernel. */
module Keccak {

  /** A 64-bit word. */
  datatype Lane = Lane(bits: bv64)

  /** 25 lanes; lane (x, y) is at position x + 5y. */
  type State = s: seq<Lane> | |s| == 25 witness seq(25, _ => Lane(0))

  function BitRot(v: bv64, shift: nat): bv64
    requires shift < 64
  {
    if shift == 0 then v else (v << shift) | (v >> (64 - shift))
  }

  function Rot(v: Lane, shift: nat): Lane
    requires shift < 64
  {
    Lane(BitRot(v.bits, shift))
  }

  function BitXor(a: bv64, b: bv64): bv64 {
    a ^ b
  }

  function Xor(a: Lane, b: Lane): Lane {
    Lane(BitXor(a.bits, b.bits))
  }

  /** `k % 5` for the sums of coordinates that occur. */
  function Mod5(k: nat): (r: nat)
    requires k < 10
    ensures r < 5
  {
    if k < 5 then k else k - 5
  }

  /** The first position of a row. */
  function RowOf(i: nat): (r: nat)
    requires i < 25
    ensures r <= i < r + 5 && r <= 20
  {
    if i < 5 then 0 else if i < 10 then 5 else if i < 15 then 10 else if i < 20 then 15 else 20
  }

  function ColumnNo(i: nat): (x: nat)
    requires i < 25
    ensures x < 5
  {
    i - RowOf(i)
  }

  lemma CoordinatesAre(i: nat, k: nat)
    requires i < 25 && k < 10
    ensures RowOf(i) == 5 * (i / 5) && ColumnNo(i) == i % 5 && Mod5(k) == k % 5
  {
  }

  // ---------- the step mappings, section 3.2 of FIPS 202 ----------

  function Column(a: State, x: nat): Lane
    requires x < 5
  {
    Xor(Xor(Xor(Xor(a[x], a[x + 5]), a[x + 10]), a[x + 15]), a[x + 20])
  }

  function Delta(a: State, x: nat): Lane
    requires x < 5
  {
    Xor(Column(a, Mod5(x + 4)), Rot(Column(a, Mod5(x + 1)), 1))
  }

  function Theta(a: State): State {
    seq(25, i requires 0 <= i < 25 => Xor(a[i], Delta(a, ColumnNo(i))))
  }

  /** Position after `t` steps of the walk (x, y) -> (y, 2x + 3y) from (1, 0). */
  function WalkPosition(t: nat): (p: nat)
    ensures p < 25
  {
    if t == 0 then 1
    else
      var p := WalkPosition(t - 1);
      p / 5 + 5 * ((2 * (p % 5) + 3 * (p / 5)) % 5)
  }

  function Triangle(t: nat): nat {
    if t == 0 then 1 else Triangle(t - 1) + t + 1
  }

  /** The rotation of the lane visited at step `t`. */
  function WalkOffset(t: nat): nat {
    Triangle(t) % 64
  }

  /** The oracle's rotation table, by x then y. */
  const ROTATIONS: seq<seq<nat>> := [
    [0, 36, 3, 41, 18],
    [1, 44, 10, 45, 2],
    [62, 6, 43, 15, 61],
    [28, 55, 25, 21, 56],
    [27, 20, 39, 8, 14]
  ]

  function Rotation(x: nat, y: nat): (r: nat)
    requires x < 5 && y < 5
    ensures r < 64
  {
    ROTATIONS[x][y]
  }

  /** The lane that pi moves to position `j`. */
  function PiSource(j: nat): (i: nat)
    requires j < 25
    ensures i < 25
  {
    (j % 5 + 3 * (j / 5)) % 5 + 5 * (j % 5)
  }

  function RhoPi(a: State): State {
    seq(25, j requires 0 <= j < 25 =>
      var i := PiSource(j); Rot(a[i], Rotation(i % 5, i / 5)))
  }

  function ChiLane(a: Lane, b: Lane, c: Lane): Lane {
    Lane(a.bits ^ (!b.bits & c.bits))
  }

  /** Chi at a position of the row that starts at `row`. */
  function ChiFrom(a: State, row: nat, i: nat): Lane
    requires row <= i < row + 5 <= 25
  {
    ChiLane(a[i], a[row + Mod5(i - row + 1)], a[row + Mod5(i - row + 2)])
  }

  function Chi(a: State): State {
    seq(25, i requires 0 <= i < 25 => ChiFrom(a, RowOf(i), i))
  }

  function Iota(a: State, rc: Lane): State {
    a[0 := Xor(a[0], rc)]
  }

  const RC: seq<bv64> := [
    0x0000000000000001, 0x0000000000008082, 0x800000000000808A,
    0x8000000080008000, 0x000000000000808B, 0x0000000080000001,
    0x8000000080008081, 0x8000000000008009, 0x000000000000008A,
    0x0000000000000088, 0x0000000080008009, 0x000000008000000A,
    0x000000008000808B, 0x800000000000008B, 0x8000000000008089,
    0x8000000000008003, 0x8000000000008002, 0x8000000000000080,
    0x000000000000800A, 0x800000008000000A, 0x8000000080008081,
    0x8000000000008080, 0x0000000080000001, 0x8000000080008008
  ]

  function Round(a: State, rc: Lane): State {
    Iota(Chi(RhoPi(Theta(a))), rc)
  }

  function Rounds(a: State, n: nat): State
    requires n <= 24
  {
    if n == 0 then a else Round(Rounds(a, n - 1), Lane(RC[n - 1]))
  }

  function KeccakF(a: State): State {
    Rounds(a, 24)
  }

  // ---------- the kernel's tables ----------

  const ROTATION_CONSTANTS: seq<nat> := [
    1, 3, 6, 10, 15, 21, 28, 36, 45, 55, 2, 14,
    27, 41, 56, 8, 25, 43, 62, 18, 39, 61, 20, 44
  ]

  const PI_LANES: seq<nat> := [
    10, 7, 11, 17, 18, 3, 5, 16, 8, 21, 24, 4,
    15, 23, 19, 13, 12, 2, 20, 14, 22, 9, 6, 1
  ]

  /** At which step the walk writes each lane; lane 0 never. */
  const VISIT: seq<nat> := [
    24, 23, 17, 5, 11, 6, 22, 1, 8, 21, 0, 2, 16,
    15, 19, 12, 7, 3, 4, 14, 18, 9, 20, 13, 10
  ]

  /** The lane carried into step `t`. */
  function Carried(t: nat): (p: nat)
    requires t < 24
    ensures p < 25
  {
    if t == 0 then 1 else PI_LANES[t - 1]
  }

  lemma PiLanesStep(t: nat)
    requires t < 24
    ensures var p := Carried(t); PI_LANES[t] == p / 5 + 5 * ((2 * (p % 5) + 3 * (p / 5)) % 5)
  {
  }

  lemma OffsetsStep(t: nat)
    requires 0 < t < 24
    ensures ROTATION_CONSTANTS[t] == (ROTATION_CONSTANTS[t - 1] + t + 1) % 64
  {
  }

  lemma {:induction false} TriangleClosed(t: nat)
    ensures 2 * Triangle(t) == (t + 1) * (t + 2)
  {
    if t > 0 {
      TriangleClosed(t - 1);
      assert (t + 1) * (t + 2) == t * (t + 1) + 2 * (t + 1);
    }
  }

  /** The kernel's lane order is the walk of section 3.2.2 of FIPS 202. */
  lemma {:induction false} LanesAreTheWalk(t: nat)
    requires t < 24
    ensures WalkPosition(t) == Carried(t)
    ensures PI_LANES[t] == WalkPosition(t + 1)
  {
    if t > 0 {
      LanesAreTheWalk(t - 1);
    }
    PiLanesStep(t);
  }

  lemma ModAdd(a: nat, b: nat)
    ensures (a % 64 + b) % 64 == (a + b) % 64
  {
  }

  lemma OffsetsStart()
    ensures ROTATION_CONSTANTS[0] == WalkOffset(0)
  {
  }

  /** The kernel's rotations are the triangular numbers modulo 64. */
  lemma {:induction false} OffsetsAreTriangular(t: nat)
    requires t < 24
    ensures ROTATION_CONSTANTS[t] == WalkOffset(t) == (t + 1) * (t + 2) / 2 % 64
  {
    hide ROTATION_CONSTANTS;
    TriangleClosed(t);
    if t == 0 {
      OffsetsStart();
    } else {
      OffsetsAreTriangular(t - 1);
      OffsetsStep(t);
      ModAdd(Triangle(t - 1), t + 1);
    }
  }

  lemma TablesInvert(t: nat)
    requires t < 24
    ensures 0 < PI_LANES[t] < 25 && VISIT[PI_LANES[t]] == t
  {
  }

  lemma VisitInverts(j: nat)
    requires 0 < j < 25
    ensures VISIT[j] < 24 && PI_LANES[VISIT[j]] == j
  {
  }

  lemma StepSource(t: nat)
    requires t < 24
    ensures PI_LANES[t] < 25 && PiSource(PI_LANES[t]) == Carried(t)
  {
  }

  lemma StepRotation(t: nat)
    requires t < 24
    ensures ROTATION_CONSTANTS[t] == Rotation(Carried(t) % 5, Carried(t) / 5)
    ensures 0 < ROTATION_CONSTANTS[t] < 64
  {
  }

  // ---------- the kernel, in place ----------

  method Columns(state: array<Lane>) returns (columns: array<Lane>)
    requires state.Length == 25
    ensures fresh(columns) && columns.Length == 5
    ensures forall x :: 0 <= x < 5 ==> columns[x] == Column(state[..], x)
  {
    hide Xor;
    columns := new Lane[5](_ => Lane(0));
    for x := 0 to 5
      invariant forall i :: 0 <= i < x ==> columns[i] == Column(state[..], i)
    {
      columns[x] := Xor(Xor(Xor(Xor(state[x], state[x + 5]), state[x + 10]), state[x + 15]), state[x + 20]);
    }
  }

  /** Xors one value into every lane of column `x`. */
  method XorColumn(state: array<Lane>, x: nat, theta: Lane)
    requires state.Length == 25 && x < 5
    modifies state
    ensures forall i :: 0 <= i < 25 ==>
              state[i] == if ColumnNo(i) == x then Xor(old(state[i]), theta) else old(state[i])
  {
    hide Xor;
    var y := 0;
    while y < 25
      invariant y in {0, 5, 10, 15, 20, 25}
      invariant forall i :: 0 <= i < 25 ==>
                  state[i] == if ColumnNo(i) == x && i < y then Xor(old(state[i]), theta) else old(state[i])
      decreases 25 - y
    {
      state[y + x] := Xor(state[y + x], theta);
      y := y + 5;
    }
  }

  method ThetaInPlace(state: array<Lane>)
    requires state.Length == 25
    modifies state
    ensures state[..] == Theta(old(state[..]))
  {
    hide Column, Rot, Xor, Mod5, RowOf, ColumnNo;
    ghost var a := state[..];
    var columns := Columns(state);
    for x := 0 to 5
      invariant forall i :: 0 <= i < 5 ==> columns[i] == Column(a, i)
      invariant forall i :: 0 <= i < 25 ==>
                  state[i] == if ColumnNo(i) < x then Xor(a[i], Delta(a, ColumnNo(i))) else a[i]
    {
      var theta := Xor(columns[Mod5(x + 4)], Rot(columns[Mod5(x + 1)], 1));
      XorColumn(state, x, theta);
    }
  }

  /** Rho and pi in one pass around the walk, carrying one lane. */
  method RhoPiInPlace(state: array<Lane>)
    requires state.Length == 25
    modifies state
    ensures state[..] == RhoPi(old(state[..]))
  {
    hide Rot, PiSource, Rotation, WalkPosition;
    ghost var a := state[..];
    var carried := state[1];
    for t := 0 to 24
      invariant t < 24 ==> carried == a[Carried(t)]
      invariant forall j :: 0 <= j < 25 ==>
                  state[j] == if VISIT[j] < t then RhoPi(a)[j] else a[j]
    {
      TablesInvert(t);
      StepSource(t);
      StepRotation(t);
      var lane := PI_LANES[t];
      var next := state[lane];
      state[lane] := Rot(carried, ROTATION_CONSTANTS[t]);
      carried := next;
      forall j | 0 <= j < 25 && j != lane
        ensures VISIT[j] < t + 1 <==> VISIT[j] < t
      {
        VisitOnce(j, t);
      }
    }
    forall j | 0 <= j < 25
      ensures state[j] == RhoPi(a)[j]
    {
      if j == 0 {
        LaneZero(a);
      } else {
        VisitInverts(j);
      }
    }
  }

  lemma VisitOnce(j: nat, t: nat)
    requires j < 25 && t < 24 && j != PI_LANES[t]
    ensures VISIT[j] != t
  {
    if j > 0 {
      VisitInverts(j);
    }
  }

  lemma LaneZero(a: State)
    ensures RhoPi(a)[0] == a[0] && VISIT[0] == 24
  {
  }

  method CopyRow(state: array<Lane>, row: nat) returns (columns: array<Lane>)
    requires state.Length == 25 && row <= 20
    ensures fresh(columns) && columns.Length == 5
    ensures forall i :: 0 <= i < 5 ==> columns[i] == state[row + i]
  {
    columns := new Lane[5](_ => Lane(0));
    for x := 0 to 5
      invariant forall i :: 0 <= i < x ==> columns[i] == state[row + i]
    {
      columns[x] := state[row + x];
    }
  }

  /** Chi on one row, from a copy of the row. */
  method ChiRow(state: array<Lane>, row: nat)
    requires state.Length == 25 && row <= 20
    modifies state
    ensures forall i :: row <= i < row + 5 ==> state[i] == ChiFrom(old(state[..]), row, i)
    ensures forall i :: 0 <= i < 25 && !(row <= i < row + 5) ==> state[i] == old(state[i])
  {
    hide ChiFrom, ChiLane, Mod5;
    ghost var a := state[..];
    var columns := CopyRow(state, row);
    for x := 0 to 5
      invariant forall i :: 0 <= i < 5 ==> columns[i] == a[row + i]
      invariant forall i :: row <= i < row + x ==> state[i] == ChiFrom(a, row, i)
      invariant forall i :: 0 <= i < 25 && !(row <= i < row + x) ==> state[i] == a[i]
    {
      ChiFromRow(a, row, x);
      state[row + x] := ChiLane(state[row + x], columns[Mod5(x + 1)], columns[Mod5(x + 2)]);
    }
  }

  lemma ChiFromRow(a: State, row: nat, x: nat)
    requires row <= 20 && x < 5
    ensures ChiFrom(a, row, row + x) == ChiLane(a[row + x], a[row + Mod5(x + 1)], a[row + Mod5(x + 2)])
  {
    hide ChiLane, Mod5;
    assert row + x - row == x;
  }

  lemma ChiFromLocal(a: State, b: State, row: nat, i: nat)
    requires row <= i < row + 5 <= 25
    requires forall j :: row <= j < row + 5 ==> a[j] == b[j]
    ensures ChiFrom(a, row, i) == ChiFrom(b, row, i)
  {
    hide ChiLane;
  }

  lemma ChiAt(a: State, row: nat, i: nat)
    requires row in {0, 5, 10, 15, 20} && row <= i < row + 5
    ensures Chi(a)[i] == ChiFrom(a, row, i)
  {
    hide ChiFrom;
  }

  method ChiInPlace(state: array<Lane>)
    requires state.Length == 25
    modifies state
    ensures state[..] == Chi(old(state[..]))
  {
    hide ChiFrom, Chi;
    ghost var a := state[..];
    var row := 0;
    while row < 25
      invariant row in {0, 5, 10, 15, 20, 25}
      invariant forall i :: 0 <= i < 25 ==> state[i] == if i < row then Chi(a)[i] else a[i]
      decreases 25 - row
    {
      ghost var before := state[..];
      ChiRow(state, row);
      forall i | row <= i < row + 5
        ensures state[i] == Chi(a)[i]
      {
        ChiFromLocal(a, before, row, i);
        ChiAt(a, row, i);
      }
      row := row + 5;
    }
  }

  /** `pd_keccak_f1600`. */
  method KernelKeccak(state: array<Lane>)
    requires state.Length == 25
    modifies state
    ensures state[..] == KeccakF(old(state[..]))
  {
    hide Theta, RhoPi, Chi, Xor;
    for round := 0 to 24
      invariant state[..] == Rounds(old(state[..]), round)
    {
      ThetaInPlace(state);
      RhoPiInPlace(state);
      ChiInPlace(state);
      state[0] := Xor(state[0], Lane(RC[round]));
    }
  }

  // ---------- the oracle, with a second array ----------

  function PiTarget(x: nat, y: nat): (j: nat)
    requires x < 5 && y < 5
    ensures j < 25
  {
    y + 5 * ((2 * x + 3 * y) % 5)
  }

  lemma PiInverse(x: nat, y: nat, j: nat)
    requires x < 5 && y < 5 && j < 25
    ensures PiSource(j) == x + 5 * y <==> j == PiTarget(x, y)
  {
    var u, r := j % 5, j / 5;
    assert j == u + 5 * r && r < 5;
    PiSolve(x, u, r);
    SplitBase5(x, y, (u + 3 * r) % 5, u);
    SplitBase5(y, (2 * x + 3 * y) % 5, u, r);
  }

  lemma PiSolve(x: nat, y: nat, r: nat)
    requires x < 5 && y < 5 && r < 5
    ensures (y + 3 * r) % 5 == x <==> r == (2 * x + 3 * y) % 5
  {
  }

  lemma SplitBase5(a: nat, b: nat, c: nat, d: nat)
    requires a < 5 && c < 5
    ensures a + 5 * b == c + 5 * d <==> a == c && b == d
  {
  }

  /** Writes every rotated lane to its place in `moved`. */
  method MoveLanes(a: array<Lane>) returns (moved: array<Lane>)
    requires a.Length == 25
    ensures fresh(moved) && moved.Length == 25 && moved[..] == RhoPi(a[..])
  {
    hide Rot, PiSource, PiTarget, Rotation;
    moved := new Lane[25](_ => Lane(0));
    for x := 0 to 5
      invariant forall j :: 0 <= j < 25 && Placed(PiSource(j), x, 0) ==> moved[j] == RhoPi(a[..])[j]
    {
      for y := 0 to 5
        invariant forall j :: 0 <= j < 25 && Placed(PiSource(j), x, y) ==> moved[j] == RhoPi(a[..])[j]
      {
        forall j | 0 <= j < 25
          ensures PiSource(j) == x + 5 * y <==> j == PiTarget(x, y)
        {
          PiInverse(x, y, j);
        }
        CoordinatesOf(x, y);
        moved[PiTarget(x, y)] := Rot(a[x + 5 * y], Rotation(x, y));
      }
    }
  }

  /** Lane `i` comes before (x, y) in the oracle's order. */
  predicate Placed(i: nat, x: nat, y: nat) {
    i % 5 < x || (i % 5 == x && i / 5 < y)
  }

  lemma CoordinatesOf(x: nat, y: nat)
    requires x < 5 && y < 5
    ensures (x + 5 * y) % 5 == x && (x + 5 * y) / 5 == y
    ensures forall i: nat :: Placed(i, x, y + 1) && !Placed(i, x, y) ==> i == x + 5 * y
    ensures forall i: nat :: i < 25 && Placed(i, x + 1, 0) ==> Placed(i, x, 5)
  {
  }

  /** Chi from `moved` into `a`, column by column. */
  method ChiFromCopy(a: array<Lane>, moved: array<Lane>)
    requires a.Length == 25 && moved.Length == 25 && a != moved
    modifies a
    ensures a[..] == Chi(moved[..])
  {
    hide ChiFrom, ChiLane, RowOf;
    for x := 0 to 5
      invariant forall j :: 0 <= j < 25 && Placed(j, x, 0) ==> a[j] == ChiFrom(moved[..], RowOf(j), j)
    {
      for y := 0 to 5
        invariant forall j :: 0 <= j < 25 && Placed(j, x, y) ==> a[j] == ChiFrom(moved[..], RowOf(j), j)
      {
        CoordinatesOf(x, y);
        ChiCell(moved[..], x, y);
        a[x + 5 * y] := ChiLane(moved[x + 5 * y], moved[Mod5(x + 1) + 5 * y], moved[Mod5(x + 2) + 5 * y]);
      }
    }
    ChiIs(moved[..], a[..]);
  }

  lemma ChiCell(a: State, x: nat, y: nat)
    requires x < 5 && y < 5
    ensures ChiFrom(a, RowOf(x + 5 * y), x + 5 * y) ==
            ChiLane(a[x + 5 * y], a[Mod5(x + 1) + 5 * y], a[Mod5(x + 2) + 5 * y])
  {
    hide ChiLane, Mod5;
    assert RowOf(x + 5 * y) == 5 * y;
    ChiFromRow(a, 5 * y, x);
  }

  /** `keccak_f1600` of the oracle. */
  method OracleKeccak(a: array<Lane>)
    requires a.Length == 25
    modifies a
    ensures a[..] == KeccakF(old(a[..]))
  {
    hide Theta, RhoPi, Chi, Xor, ChiFrom;
    for round := 0 to 24
      invariant a[..] == Rounds(old(a[..]), round)
    {
      ThetaInPlace(a);
      var moved := MoveLanes(a);
      ChiFromCopy(a, moved);
      a[0] := Xor(a[0], Lane(RC[round]));
    }
  }

  lemma ChiIs(a: State, b: State)
    requires forall j :: 0 <= j < 25 ==> b[j] == ChiFrom(a, RowOf(j), j)
    ensures b == Chi(a)
  {
    hide ChiFrom;
  }
}
