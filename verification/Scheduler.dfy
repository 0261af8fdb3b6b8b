/** The accelerator schedule as a value, its transitions, and what each transition keeps. */
module Scheduler {
  import opened Ids
  import opened NoncePartition

  datatype Backend = Cuda | OpenCl

  datatype Device = Device(backend: Backend, index: u64)

  datatype Ticket = Ticket(generation: u64, lane: nat, owner: Device, nonce: u64, epoch: u64)

  datatype Lane = Lane(
    index: nat, owner: Device, partition: Partition, nextIteration: u64,
    inFlight: Option<Ticket>, nextEpoch: u64)

  datatype Schedule = Schedule(
    devices: seq<Device>, unavailable: set<Device>, lanes: seq<Lane>, maxTries: u64, generation: u64)

  datatype ScheduleError =
    | NoDevice | DuplicateDevice | UnknownUnavailable | NoHealthyDevice
    | NoSuchLane | AlreadyInFlight | BadNonce | EpochOverflow | StaleGeneration
    | StaleTicket | IterationOverflow | UnknownDevice | AlreadyUnavailable | NotUnavailable
    | GenerationOverflow | ReconnectOverflow

  // ---------- devices ----------

  /** Derived order: backend first, then index. */
  predicate DeviceLess(a: Device, b: Device) {
    if a.backend != b.backend then a.backend == Cuda else a.index < b.index
  }

  function InsertDevice(d: Device, s: seq<Device>): seq<Device> {
    if s == [] then [d]
    else if DeviceLess(s[0], d) then [s[0]] + InsertDevice(d, s[1..])
    else [d] + s
  }

  function SortDevices(s: seq<Device>): seq<Device> {
    if s == [] then [] else InsertDevice(s[0], SortDevices(s[1..]))
  }

  /** Nondecreasing. */
  ghost predicate Sorted(s: seq<Device>) {
    forall i, j :: 0 <= i < j < |s| ==> !DeviceLess(s[j], s[i])
  }

  /** Strictly increasing. */
  ghost predicate Canonical(s: seq<Device>) {
    forall i, j :: 0 <= i < j < |s| ==> DeviceLess(s[i], s[j])
  }

  lemma {:induction false} InsertMultiset(d: Device, s: seq<Device>)
    ensures multiset(InsertDevice(d, s)) == multiset(s) + multiset{d}
  {
    if s != [] && DeviceLess(s[0], d) {
      InsertMultiset(d, s[1..]);
      assert s == [s[0]] + s[1..];
    }
  }

  lemma {:induction false} InsertMembers(d: Device, s: seq<Device>, x: Device)
    requires x in InsertDevice(d, s)
    ensures x == d || x in s
  {
    if s != [] && DeviceLess(s[0], d) && x != s[0] {
      InsertMembers(d, s[1..], x);
    }
  }

  lemma {:induction false} InsertSorted(d: Device, s: seq<Device>)
    requires Sorted(s)
    ensures Sorted(InsertDevice(d, s))
  {
    if s != [] && DeviceLess(s[0], d) {
      var r := InsertDevice(d, s[1..]);
      InsertSorted(d, s[1..]);
      forall x | x in r
        ensures !DeviceLess(x, s[0])
      {
        InsertMembers(d, s[1..], x);
      }
    }
  }

  lemma {:induction false} SortSorts(s: seq<Device>)
    ensures Sorted(SortDevices(s)) && multiset(SortDevices(s)) == multiset(s)
  {
    if s != [] {
      SortSorts(s[1..]);
      InsertSorted(s[0], SortDevices(s[1..]));
      InsertMultiset(s[0], SortDevices(s[1..]));
      assert s == [s[0]] + s[1..];
    }
  }

  lemma SortedHead(s: seq<Device>, t: seq<Device>)
    requires Sorted(s) && Sorted(t) && multiset(s) == multiset(t) && s != [] && t != []
    ensures s[0] == t[0]
  {
    assert s[0] in multiset(t) && t[0] in multiset(s);
    var i :| 0 <= i < |t| && t[i] == s[0];
    var j :| 0 <= j < |s| && s[j] == t[0];
  }

  lemma SortedTail(s: seq<Device>)
    requires s != [] && Sorted(s)
    ensures Sorted(s[1..])
  {
  }

  lemma SameLength<T>(s: seq<T>, t: seq<T>)
    requires multiset(s) == multiset(t)
    ensures |s| == |t|
  {
    assert |multiset(s)| == |s| && |multiset(t)| == |t|;
  }

  lemma Cancel<T>(x: T, a: multiset<T>, b: multiset<T>)
    requires multiset{x} + a == multiset{x} + b
    ensures a == b
  {
    assert a == (multiset{x} + a) - multiset{x};
    assert b == (multiset{x} + b) - multiset{x};
  }

  lemma MultisetTail<T>(s: seq<T>)
    requires s != []
    ensures multiset(s) == multiset{s[0]} + multiset(s[1..])
  {
    assert s == [s[0]] + s[1..];
  }

  lemma {:induction false} SortedUnique(s: seq<Device>, t: seq<Device>)
    requires Sorted(s) && Sorted(t) && multiset(s) == multiset(t)
    ensures s == t
  {
    SameLength(s, t);
    if s != [] {
      hide Sorted;
      SortedHead(s, t);
      SortedTail(s);
      SortedTail(t);
      MultisetTail(s);
      MultisetTail(t);
      Cancel(s[0], multiset(s[1..]), multiset(t[1..]));
      SortedUnique(s[1..], t[1..]);
      assert s == [s[0]] + s[1..] && t == [t[0]] + t[1..];
    }
  }

  /** Devices not marked unavailable, in order. */
  function Available(devices: seq<Device>, unavailable: set<Device>): (r: seq<Device>)
    ensures forall d :: d in r <==> d in devices && d !in unavailable
    ensures |r| <= |devices|
  {
    if devices == [] then []
    else if devices[0] in unavailable then Available(devices[1..], unavailable)
    else [devices[0]] + Available(devices[1..], unavailable)
  }

  lemma {:induction false} AvailableCanonical(devices: seq<Device>, unavailable: set<Device>)
    requires Canonical(devices)
    ensures Canonical(Available(devices, unavailable))
  {
    if devices != [] {
      AvailableCanonical(devices[1..], unavailable);
      var r := Available(devices[1..], unavailable);
      forall x | x in r
        ensures DeviceLess(devices[0], x)
      {
        var i :| 0 <= i < |devices[1..]| && devices[1..][i] == x;
        assert devices[i + 1] == x;
      }
    }
  }

  ghost function AvailableSet(s: Schedule): set<Device> {
    Elems(s.devices) - s.unavailable
  }

  // ---------- building ----------

  function FreshLane(maxTries: u64, active: u64, i: nat, owner: Device): Lane
    requires i < active <= maxTries
  {
    Lane(i, owner, Partition(i, active, maxTries), 0, None, 0)
  }

  function FreshLanes(maxTries: u64, active: u64, owners: seq<Device>): seq<Lane>
    requires active <= maxTries && active <= |owners|
  {
    seq(active, i requires 0 <= i < active => FreshLane(maxTries, active, i, owners[i]))
  }

  predicate HasDuplicate(sorted: seq<Device>) {
    exists i :: 0 < i < |sorted| && sorted[i - 1] == sorted[i]
  }

  /** `build_with_health`. */
  function Build(devices: seq<Device>, unavailable: set<Device>, maxTries: u64, generation: u64)
    : Result<Schedule, ScheduleError>
    requires |devices| <= MAX_U64
  {
    if devices == [] then Err(NoDevice)
    else
      SortSorts(devices);
      var sorted := SortDevices(devices);
      if HasDuplicate(sorted) then Err(DuplicateDevice)
      else if exists d :: d in unavailable && d !in sorted then Err(UnknownUnavailable)
      else
        var healthy := Available(sorted, unavailable);
        if healthy == [] then Err(NoHealthyDevice)
        else
          var tries := Max(maxTries, 1);
          assert |multiset(sorted)| == |sorted| && |multiset(devices)| == |devices|;
          var active := LaneCount(tries, |healthy|);
          Ok(Schedule(sorted, unavailable, FreshLanes(tries, active, healthy), tries, generation))
  }

  /** Discovery order does not matter. */
  lemma BuildOrderIndependent(a: seq<Device>, b: seq<Device>, unavailable: set<Device>, maxTries: u64, generation: u64)
    requires |a| <= MAX_U64 && multiset(a) == multiset(b)
    ensures |b| <= MAX_U64
    ensures Build(a, unavailable, maxTries, generation) == Build(b, unavailable, maxTries, generation)
  {
    assert |multiset(a)| == |a| && |multiset(b)| == |b|;
    SortSorts(a);
    SortSorts(b);
    SortedUnique(SortDevices(a), SortDevices(b));
  }

  // ---------- dispatch and completion ----------

  datatype Dispatched = Dispatched(schedule: Schedule, result: Result<Option<Ticket>, ScheduleError>)

  function Dispatch(s: Schedule, i: nat): Dispatched {
    if i >= |s.lanes| then Dispatched(s, Err(NoSuchLane))
    else
      var lane := s.lanes[i];
      if lane.inFlight.Some? then Dispatched(s, Err(AlreadyInFlight))
      else
        match NonceAt(lane.partition, lane.nextIteration)
        case Err(_) => Dispatched(s, Err(BadNonce))
        case Ok(None) => Dispatched(s, Ok(None))
        case Ok(Some(nonce)) =>
          if lane.nextEpoch == MAX_U64 then Dispatched(s, Err(EpochOverflow))
          else
            var ticket := Ticket(s.generation, i, lane.owner, nonce, lane.nextEpoch);
            Dispatched(
              s.(lanes := s.lanes[i := lane.(nextEpoch := lane.nextEpoch + 1, inFlight := Some(ticket))]),
              Ok(Some(ticket)))
  }

  function Complete(s: Schedule, t: Ticket): Result<Schedule, ScheduleError> {
    if t.generation != s.generation then Err(StaleGeneration)
    else if t.lane >= |s.lanes| then Err(NoSuchLane)
    else
      var lane := s.lanes[t.lane];
      if lane.inFlight != Some(t) then Err(StaleTicket)
      else if lane.nextIteration == MAX_U64 then Err(IterationOverflow)
      else Ok(s.(lanes := s.lanes[t.lane := lane.(nextIteration := lane.nextIteration + 1, inFlight := None)]))
  }

  // ---------- redistribution ----------

  /** How many lanes a device owns. */
  function Load(lanes: seq<Lane>, d: Device): nat {
    if lanes == [] then 0
    else Load(lanes[..|lanes| - 1], d) + (if lanes[|lanes| - 1].owner == d then 1 else 0)
  }

  ghost predicate IsLeastLoaded(lanes: seq<Lane>, healthy: set<Device>, d: Device) {
    && d in healthy
    && forall x :: x in healthy && x != d ==>
         Load(lanes, d) < Load(lanes, x) || (Load(lanes, d) == Load(lanes, x) && DeviceLess(d, x))
  }

  lemma {:induction false} LeastLoadedExists(lanes: seq<Lane>, healthy: set<Device>)
    requires healthy != {}
    ensures exists d :: IsLeastLoaded(lanes, healthy, d)
    decreases |healthy|
  {
    var c :| c in healthy;
    if healthy == {c} {
      assert IsLeastLoaded(lanes, healthy, c);
    } else {
      LeastLoadedExists(lanes, healthy - {c});
      var d :| IsLeastLoaded(lanes, healthy - {c}, d);
      if Load(lanes, c) < Load(lanes, d) || (Load(lanes, c) == Load(lanes, d) && DeviceLess(c, d)) {
        assert IsLeastLoaded(lanes, healthy, c);
      } else {
        assert IsLeastLoaded(lanes, healthy, d);
      }
    }
  }

  /** The replacement: fewest lanes, then smallest device. */
  ghost function LeastLoaded(lanes: seq<Lane>, healthy: set<Device>): (d: Device)
    requires healthy != {}
    ensures IsLeastLoaded(lanes, healthy, d)
  {
    LeastLoadedExists(lanes, healthy);
    var d :| IsLeastLoaded(lanes, healthy, d);
    d
  }

  lemma LeastLoadedUnique(lanes: seq<Lane>, healthy: set<Device>, d: Device, d': Device)
    requires IsLeastLoaded(lanes, healthy, d) && IsLeastLoaded(lanes, healthy, d')
    ensures d == d'
  {
  }

  /** Moves the failed device's lanes, from lane `i` on, to the least loaded survivor each time. */
  ghost function Rehome(lanes: seq<Lane>, failed: Device, healthy: set<Device>, i: nat): (r: seq<Lane>)
    requires healthy != {} && failed !in healthy && i <= |lanes|
    ensures |r| == |lanes|
    decreases |lanes| - i
  {
    if i == |lanes| then lanes
    else if lanes[i].owner == failed then
      Rehome(lanes[i := lanes[i].(owner := LeastLoaded(lanes, healthy), inFlight := None)], failed, healthy, i + 1)
    else Rehome(lanes, failed, healthy, i + 1)
  }

  ghost function Redistribute(s: Schedule, failed: Device): Result<Schedule, ScheduleError> {
    if failed !in s.devices then Err(UnknownDevice)
    else if failed in s.unavailable then Err(AlreadyUnavailable)
    else
      var healthy := AvailableSet(s) - {failed};
      if healthy == {} then Err(NoHealthyDevice)
      else Ok(s.(unavailable := s.unavailable + {failed}, lanes := Rehome(s.lanes, failed, healthy, 0)))
  }

  function Recover(s: Schedule, d: Device): Result<Schedule, ScheduleError> {
    if d !in s.devices then Err(UnknownDevice)
    else if d !in s.unavailable then Err(NotUnavailable)
    else Ok(s.(unavailable := s.unavailable - {d}))
  }

  function Refresh(s: Schedule, maxTries: u64): Result<Schedule, ScheduleError>
    requires |s.devices| <= MAX_U64
  {
    if s.generation == MAX_U64 then Err(GenerationOverflow)
    else Build(s.devices, s.unavailable, maxTries, s.generation + 1)
  }

  // ---------- the schedule invariant ----------

  /** The ticket in flight on lane `i` carries exactly the lane's next nonce. */
  ghost predicate Current(s: Schedule, i: nat, t: Ticket)
    requires i < |s.lanes|
  {
    var lane := s.lanes[i];
    && t.generation == s.generation && t.lane == i && t.owner == lane.owner
    && t.nonce == Nonce(i, |s.lanes|, lane.nextIteration) < s.maxTries
    && t.epoch + 1 == lane.nextEpoch
  }

  ghost predicate LaneOk(s: Schedule, i: nat)
    requires i < |s.lanes| <= s.maxTries
  {
    var lane := s.lanes[i];
    && lane.index == i
    && lane.partition == Partition(i, |s.lanes|, s.maxTries)
    && lane.owner in s.devices && lane.owner !in s.unavailable
    && (lane.nextIteration > 0 ==> Nonce(i, |s.lanes|, lane.nextIteration - 1) < s.maxTries)
    && (lane.inFlight.Some? ==> Current(s, i, lane.inFlight.value))
  }

  ghost predicate WellFormed(s: Schedule) {
    && Canonical(s.devices) && |s.devices| <= MAX_U64
    && s.unavailable <= Elems(s.devices)
    && 1 <= |s.lanes| <= s.maxTries
    && forall i :: 0 <= i < |s.lanes| ==> LaneOk(s, i)
  }

  /** One untouched lane per available device, in order, as far as there are tries for them. */
  ghost predicate Fresh(s: Schedule) {
    var healthy := Available(s.devices, s.unavailable);
    && 1 <= |healthy| <= MAX_U64
    && |s.lanes| == LaneCount(s.maxTries, |healthy|) <= |healthy|
    && |s.lanes| <= s.maxTries
    && forall i :: 0 <= i < |s.lanes| ==> s.lanes[i] == FreshLane(s.maxTries, |s.lanes|, i, healthy[i])
  }

  lemma CanonicalIsSorted(s: seq<Device>)
    requires Canonical(s)
    ensures Sorted(s) && !HasDuplicate(s)
  {
  }

  lemma SortedIsCanonical(s: seq<Device>)
    requires Sorted(s) && !HasDuplicate(s)
    ensures Canonical(s)
  {
    forall i, j | 0 <= i < j < |s|
      ensures DeviceLess(s[i], s[j])
    {
      var k := i + 1;
      assert s[k - 1] != s[k];
      assert DeviceLess(s[i], s[k]);
      assert k < j ==> !DeviceLess(s[j], s[k]);
    }
  }

  lemma BuildFresh(devices: seq<Device>, unavailable: set<Device>, maxTries: u64, generation: u64)
    requires |devices| <= MAX_U64
    requires Build(devices, unavailable, maxTries, generation).Ok?
    ensures Fresh(Build(devices, unavailable, maxTries, generation).value)
  {
    SortSorts(devices);
    hide SortDevices, Sorted, HasDuplicate, Available;
    var s := Build(devices, unavailable, maxTries, generation).value;
    assert |multiset(s.devices)| == |s.devices| && |multiset(devices)| == |devices|;
  }

  lemma BuildWellFormed(devices: seq<Device>, unavailable: set<Device>, maxTries: u64, generation: u64)
    requires |devices| <= MAX_U64
    requires Build(devices, unavailable, maxTries, generation).Ok?
    ensures WellFormed(Build(devices, unavailable, maxTries, generation).value)
  {
    SortSorts(devices);
    SortedIsCanonical(SortDevices(devices));
    var s := Build(devices, unavailable, maxTries, generation).value;
    assert |multiset(s.devices)| == |s.devices| && |multiset(devices)| == |devices|;
    forall i | 0 <= i < |s.lanes|
      ensures LaneOk(s, i)
    {
      assert s.lanes[i].owner in Available(s.devices, unavailable);
    }
  }

  lemma BuildKeeps(devices: seq<Device>, unavailable: set<Device>, maxTries: u64, generation: u64)
    requires |devices| <= MAX_U64
    requires Build(devices, unavailable, maxTries, generation).Ok?
    ensures var s := Build(devices, unavailable, maxTries, generation).value;
            && WellFormed(s)
            && s.generation == generation && s.unavailable == unavailable
            && s.maxTries == Max(maxTries, 1)
            && s.devices == SortDevices(devices)
            && Fresh(s)
  {
    hide WellFormed, Fresh, SortDevices, HasDuplicate, Available;
    BuildWellFormed(devices, unavailable, maxTries, generation);
    BuildFresh(devices, unavailable, maxTries, generation);
  }

  lemma SetLaneKeeps(s: Schedule, i: nat, lane: Lane)
    requires WellFormed(s) && i < |s.lanes|
    requires LaneOk(s.(lanes := s.lanes[i := lane]), i)
    ensures WellFormed(s.(lanes := s.lanes[i := lane]))
  {
    var s' := s.(lanes := s.lanes[i := lane]);
    forall j | 0 <= j < |s'.lanes|
      ensures LaneOk(s', j)
    {
      assert LaneOk(s, j);
    }
  }

  lemma DispatchKeeps(s: Schedule, i: nat)
    requires WellFormed(s)
    ensures WellFormed(Dispatch(s, i).schedule)
  {
    var d := Dispatch(s, i);
    if d.schedule != s {
      assert LaneOk(s, i);
      SetLaneKeeps(s, i, d.schedule.lanes[i]);
    }
  }

  /**
   * An idle lane past its last nonce reports the end exactly when the next nonce
   * fits 64 bits; otherwise dispatching fails. Either way nothing changes.
   */
  lemma DispatchExhausted(s: Schedule, i: nat)
    requires WellFormed(s) && i < |s.lanes| && s.lanes[i].inFlight.None?
    requires Nonce(i, |s.lanes|, s.lanes[i].nextIteration) >= s.maxTries
    ensures Dispatch(s, i).result == Ok(None) <==> Nonce(i, |s.lanes|, s.lanes[i].nextIteration) <= MAX_U64
    ensures Dispatch(s, i).result != Ok(None) ==> Dispatch(s, i).result == Err(BadNonce)
    ensures Dispatch(s, i).schedule == s
  {
    hide NonceAt;
    assert LaneOk(s, i);
    ExhaustedReport(s.lanes[i].partition, s.lanes[i].nextIteration);
  }

  /** The iteration counter never overflows: it stays at most the current nonce. */
  lemma IterationBelowNonce(s: Schedule, i: nat)
    requires WellFormed(s) && i < |s.lanes| && s.lanes[i].inFlight.Some?
    ensures s.lanes[i].nextIteration < s.maxTries <= MAX_U64
  {
    assert LaneOk(s, i);
    MulAtLeast(|s.lanes|, s.lanes[i].nextIteration);
  }

  lemma MulAtLeast(n: nat, k: nat)
    requires n >= 1
    ensures n * k >= k
  {
    assert n * k == (n - 1) * k + k;
  }

  /** A completion is accepted exactly for the ticket in flight; the overflow error never occurs. */
  lemma CompleteExact(s: Schedule, t: Ticket)
    requires WellFormed(s)
    ensures Complete(s, t).Ok? <==> t.lane < |s.lanes| && s.lanes[t.lane].inFlight == Some(t)
    ensures Complete(s, t) != Err(IterationOverflow)
  {
    if t.lane < |s.lanes| && s.lanes[t.lane].inFlight == Some(t) {
      IterationBelowNonce(s, t.lane);
      assert LaneOk(s, t.lane);
    }
  }

  lemma CompleteKeeps(s: Schedule, t: Ticket)
    requires WellFormed(s) && Complete(s, t).Ok?
    ensures WellFormed(Complete(s, t).value)
  {
    assert LaneOk(s, t.lane);
    SetLaneKeeps(s, t.lane, Complete(s, t).value.lanes[t.lane]);
  }

  /** What redistribution does to each lane. */
  lemma {:induction false} RehomeLane(lanes: seq<Lane>, failed: Device, healthy: set<Device>, i: nat, j: nat)
    requires healthy != {} && failed !in healthy && i <= |lanes| && j < |lanes|
    ensures var r := Rehome(lanes, failed, healthy, i)[j];
            if j >= i && lanes[j].owner == failed then
              r.owner in healthy && r == lanes[j].(owner := r.owner, inFlight := None)
            else r == lanes[j]
    decreases |lanes| - i
  {
    if i < |lanes| {
      if lanes[i].owner == failed {
        var next := lanes[i := lanes[i].(owner := LeastLoaded(lanes, healthy), inFlight := None)];
        RehomeLane(next, failed, healthy, i + 1, j);
      } else {
        RehomeLane(lanes, failed, healthy, i + 1, j);
      }
    }
  }

  lemma RedistributeKeeps(s: Schedule, failed: Device)
    requires WellFormed(s) && Redistribute(s, failed).Ok?
    ensures var s' := Redistribute(s, failed).value;
            WellFormed(s') && |s'.lanes| == |s.lanes| && s'.generation == s.generation
  {
    hide Rehome;
    var healthy := AvailableSet(s) - {failed};
    var s' := Redistribute(s, failed).value;
    forall j | 0 <= j < |s'.lanes|
      ensures LaneOk(s', j)
    {
      assert LaneOk(s, j);
      RehomeLane(s.lanes, failed, healthy, 0, j);
    }
  }

  lemma RecoverKeeps(s: Schedule, d: Device)
    requires WellFormed(s) && Recover(s, d).Ok?
    ensures WellFormed(Recover(s, d).value)
  {
    var s' := Recover(s, d).value;
    forall j | 0 <= j < |s'.lanes|
      ensures LaneOk(s', j)
    {
      assert LaneOk(s, j);
    }
  }

  lemma SortCanonical(s: seq<Device>)
    requires Canonical(s)
    ensures SortDevices(s) == s
  {
    CanonicalIsSorted(s);
    SortSorts(s);
    SortedUnique(SortDevices(s), s);
  }

  /** Refreshing fails only when the generation counter is exhausted. */
  lemma RefreshExact(s: Schedule, maxTries: u64)
    requires WellFormed(s)
    ensures Refresh(s, maxTries).Ok? <==> s.generation < MAX_U64
    ensures Refresh(s, maxTries).Ok? ==>
              var s' := Refresh(s, maxTries).value;
              && WellFormed(s')
              && s'.generation == s.generation + 1
              && s'.devices == s.devices && s'.unavailable == s.unavailable
              && s'.maxTries == Max(maxTries, 1)
              && Fresh(s')
  {
    hide Canonical, Sorted, SortDevices;
    SortCanonical(s.devices);
    CanonicalIsSorted(s.devices);
    if s.generation < MAX_U64 {
      assert LaneOk(s, 0);
      assert s.lanes[0].owner in Available(s.devices, s.unavailable);
      assert forall d :: d in s.unavailable ==> d in Elems(s.devices);
      BuildKeeps(s.devices, s.unavailable, maxTries, s.generation + 1);
    }
  }
}
