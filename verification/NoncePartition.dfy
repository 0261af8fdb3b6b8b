/** The backend-neutral nonce lanes: `nonce = lane + stride * iteration` below `maxTries`. */
module NoncePartition {
  import opened Ids

  const MAX_U64: int := 0x1_0000_0000_0000_0000 - 1

  type u64 = x: int | 0 <= x <= MAX_U64

  datatype Partition = Partition(lane: u64, stride: u64, maxTries: u64)

  datatype PartitionError = ZeroStride | LaneOutsideStride | LaneOutsideTries | LaneInactive | NonceOverflow

  function Max(a: int, b: int): int {
    if a > b then a else b
  }

  function Min(a: int, b: int): int {
    if a < b then a else b
  }

  function NewPartition(lane: u64, stride: u64, maxTries: u64): Result<Partition, PartitionError> {
    var tries := Max(maxTries, 1);
    if stride == 0 then Err(ZeroStride)
    else if lane >= stride then Err(LaneOutsideStride)
    else if lane >= tries then Err(LaneOutsideTries)
    else Ok(Partition(lane, stride, tries))
  }

  /** The nonce of an iteration, nothing past the end, an error on 64-bit overflow. */
  function NonceAt(p: Partition, iteration: u64): Result<Option<u64>, PartitionError> {
    var offset := p.stride * iteration;
    if offset > MAX_U64 then Err(NonceOverflow)
    else if p.lane + offset > MAX_U64 then Err(NonceOverflow)
    else if p.lane + offset < p.maxTries then Ok(Some(p.lane + offset))
    else Ok(None)
  }

  function LaneCount(maxTries: u64, requested: u64): (n: u64)
    ensures 1 <= n <= Max(maxTries, 1)
  {
    Min(Max(requested, 1), Max(maxTries, 1))
  }

  function LanePartition(maxTries: u64, requested: u64, lane: u64): Result<Partition, PartitionError> {
    var active := LaneCount(maxTries, requested);
    if lane >= active then Err(LaneInactive)
    else NewPartition(lane, active, Max(maxTries, 1))
  }

  /** The nonce of an iteration, without the width limit. */
  function Nonce(lane: nat, lanes: nat, iteration: nat): nat {
    lane + lanes * iteration
  }

  /** The first `n` nonces of a lane. */
  function FirstNonces(lane: nat, lanes: nat, n: nat): (s: seq<nat>)
    ensures |s| == n
    ensures forall i :: 0 <= i < n ==> s[i] == Nonce(lane, lanes, i)
  {
    if n == 0 then [] else FirstNonces(lane, lanes, n - 1) + [Nonce(lane, lanes, n - 1)]
  }

  /** Each nonce belongs to one lane and one iteration. */
  lemma NonceUnique(lanes: nat, l: nat, i: nat, l': nat, i': nat)
    requires l < lanes && l' < lanes && Nonce(l, lanes, i) == Nonce(l', lanes, i')
    ensures l == l' && i == i'
  {
    if i < i' {
      MulStep(lanes, i, i');
    } else if i' < i {
      MulStep(lanes, i', i);
    }
  }

  lemma {:induction false} MulStep(n: nat, i: nat, j: nat)
    requires i < j
    ensures n * i + n <= n * j
  {
    if i + 1 < j {
      MulStep(n, i, j - 1);
    }
    assert n * j == n * (j - 1) + n;
  }

  /** Every nonce is enumerated by the lane of its residue. */
  lemma NonceCovered(lanes: nat, x: nat)
    requires lanes > 0
    ensures x % lanes < lanes && x / lanes >= 0
    ensures x == Nonce(x % lanes, lanes, x / lanes)
  {
  }

  /**
   * On an exhausted lane the iterator reports the end exactly when the next
   * product and sum still fit in 64 bits; otherwise it fails.
   */
  lemma ExhaustedReport(p: Partition, iteration: u64)
    requires Nonce(p.lane, p.stride, iteration) >= p.maxTries
    ensures NonceAt(p, iteration) == Ok(None) <==> Nonce(p.lane, p.stride, iteration) <= MAX_U64
    ensures NonceAt(p, iteration) != Ok(None) ==> NonceAt(p, iteration) == Err(NonceOverflow)
  {
    assert p.lane >= 0;
  }

  /** A 2^64 - 1 search over two lanes ends in an error, not in a clean exhaustion. */
  lemma ExhaustionCanFail()
    ensures LanePartition(MAX_U64, 2, 0) == Ok(Partition(0, 2, MAX_U64))
    ensures LanePartition(MAX_U64, 2, 1) == Ok(Partition(1, 2, MAX_U64))
    ensures Nonce(1, 2, 0x7FFF_FFFF_FFFF_FFFF) >= MAX_U64
    ensures NonceAt(Partition(1, 2, MAX_U64), 0x7FFF_FFFF_FFFF_FFFF) == Ok(None)
    ensures NonceAt(Partition(0, 2, MAX_U64), 0x7FFF_FFFF_FFFF_FFFF) == Ok(Some(MAX_U64 - 1))
    ensures NonceAt(Partition(0, 2, MAX_U64), 0x8000_0000_0000_0000) == Err(NonceOverflow)
  {
  }

  /** An unexhausted lane always yields its next nonce. */
  lemma LiveLaneYields(p: Partition, iteration: u64)
    requires Nonce(p.lane, p.stride, iteration) < p.maxTries
    ensures NonceAt(p, iteration) == Ok(Some(Nonce(p.lane, p.stride, iteration)))
  {
  }

  /** As many lanes as asked for, but at least one and no more than there are tries. */
  lemma LaneCountExact(maxTries: u64, requested: u64)
    ensures 1 <= requested <= maxTries ==> LaneCount(maxTries, requested) == requested
    ensures requested == 0 || maxTries == 0 ==> LaneCount(maxTries, requested) == 1
    ensures requested > maxTries > 0 ==> LaneCount(maxTries, requested) == maxTries
  {
  }

  /** Which partitions are refused, and how. */
  lemma PartitionRefusals(lane: u64, stride: u64, maxTries: u64)
    ensures var r := NewPartition(lane, stride, maxTries);
            && (r == Err(ZeroStride) <==> stride == 0)
            && (r == Err(LaneOutsideStride) <==> 0 < stride <= lane)
            && (r == Err(LaneOutsideTries) <==> lane < stride && lane >= maxTries && lane > 0)
            && (r.Ok? <==> lane < stride && (lane < maxTries || lane == 0))
            && (r.Ok? ==> r.value == Partition(lane, stride, if maxTries == 0 then 1 else maxTries))
  {
  }

  /** A lane beyond the active ones is refused. */
  lemma InactiveRefused(maxTries: u64, requested: u64, lane: u64)
    ensures LanePartition(maxTries, requested, lane) == Err(LaneInactive) <==> lane >= LaneCount(maxTries, requested)
  {
  }

  /** Active lanes always get a partition of the normalized range. */
  lemma LanePartitionOk(maxTries: u64, requested: u64, lane: u64)
    requires lane < LaneCount(maxTries, requested)
    ensures LanePartition(maxTries, requested, lane) ==
            Ok(Partition(lane, LaneCount(maxTries, requested), Max(maxTries, 1)))
  {
  }
}
