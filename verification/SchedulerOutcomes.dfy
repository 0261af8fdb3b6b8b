/** What each call of the scheduler returns and changes, case by case. */
module SchedulerOutcomes {
  import opened Ids
  import opened NoncePartition
  import opened Scheduler
  import opened SchedulerRuns

  // ---------- dispatch ----------

  /** The ticket a dispatch of lane `i` would carry. */
  function NextTicket(s: Schedule, i: nat): Ticket
    requires i < |s.lanes| && Nonce(i, |s.lanes|, s.lanes[i].nextIteration) <= MAX_U64
  {
    Ticket(s.generation, i, s.lanes[i].owner, Nonce(i, |s.lanes|, s.lanes[i].nextIteration), s.lanes[i].nextEpoch)
  }

  /** Dispatch yields a ticket exactly on an idle, unexhausted lane with an epoch left. */
  lemma DispatchExact(s: Schedule, i: nat)
    requires WellFormed(s)
    ensures var r := Dispatch(s, i).result;
            && (r.Ok? && r.value.Some? <==>
                  && i < |s.lanes| && s.lanes[i].inFlight.None?
                  && Nonce(i, |s.lanes|, s.lanes[i].nextIteration) < s.maxTries
                  && s.lanes[i].nextEpoch < MAX_U64)
            && (r == Err(NoSuchLane) <==> i >= |s.lanes|)
            && (r == Err(AlreadyInFlight) <==> i < |s.lanes| && s.lanes[i].inFlight.Some?)
            && (r == Err(EpochOverflow) <==>
                  && i < |s.lanes| && s.lanes[i].inFlight.None?
                  && Nonce(i, |s.lanes|, s.lanes[i].nextIteration) < s.maxTries
                  && s.lanes[i].nextEpoch == MAX_U64)
  {
    hide NonceAt, Nonce;
    if i < |s.lanes| {
      assert LaneOk(s, i);
      var lane := s.lanes[i];
      if Nonce(i, |s.lanes|, lane.nextIteration) < s.maxTries {
        LiveLaneYields(lane.partition, lane.nextIteration);
      } else {
        ExhaustedReport(lane.partition, lane.nextIteration);
      }
    }
  }

  /** A dispatch changes the lane it gives a ticket for, and nothing without one. */
  lemma DispatchChanges(s: Schedule, i: nat)
    requires WellFormed(s)
    ensures var d := Dispatch(s, i);
            if d.result.Ok? && d.result.value.Some? then
              && i < |s.lanes| && Nonce(i, |s.lanes|, s.lanes[i].nextIteration) <= MAX_U64
              && d.result.value.value == NextTicket(s, i)
              && d.schedule.devices == s.devices && d.schedule.unavailable == s.unavailable
              && d.schedule.maxTries == s.maxTries && d.schedule.generation == s.generation
              && |d.schedule.lanes| == |s.lanes|
              && (forall j :: 0 <= j < |s.lanes| && j != i ==> d.schedule.lanes[j] == s.lanes[j])
              && d.schedule.lanes[i].inFlight == Some(NextTicket(s, i))
              && d.schedule.lanes[i].nextEpoch == s.lanes[i].nextEpoch + 1
              && d.schedule.lanes[i].nextIteration == s.lanes[i].nextIteration
              && d.schedule.lanes[i].owner == s.lanes[i].owner
              && d.schedule.lanes[i].partition == s.lanes[i].partition
            else d.schedule == s
  {
    hide NonceAt, Nonce;
    DispatchExact(s, i);
    if i < |s.lanes| {
      assert LaneOk(s, i);
      var lane := s.lanes[i];
      if Nonce(i, |s.lanes|, lane.nextIteration) < s.maxTries {
        LiveLaneYields(lane.partition, lane.nextIteration);
      }
    }
  }

  // ---------- completion ----------

  /** Which completions are refused, and how. */
  lemma CompleteRefusals(s: Schedule, t: Ticket)
    requires WellFormed(s)
    ensures var r := Complete(s, t);
            && (r == Err(StaleGeneration) <==> t.generation != s.generation)
            && (r == Err(NoSuchLane) <==> t.generation == s.generation && t.lane >= |s.lanes|)
            && (r == Err(StaleTicket) <==>
                  t.generation == s.generation && t.lane < |s.lanes| && s.lanes[t.lane].inFlight != Some(t))
  {
    CompleteExact(s, t);
  }

  /** A completion frees its lane and moves it one iteration on; nothing else changes. */
  lemma CompleteChanges(s: Schedule, t: Ticket)
    requires WellFormed(s) && Complete(s, t).Ok?
    ensures var s' := Complete(s, t).value;
            && t.lane < |s.lanes| && |s'.lanes| == |s.lanes|
            && s'.devices == s.devices && s'.unavailable == s.unavailable
            && s'.maxTries == s.maxTries && s'.generation == s.generation
            && (forall j :: 0 <= j < |s.lanes| && j != t.lane ==> s'.lanes[j] == s.lanes[j])
            && s'.lanes[t.lane].inFlight == None
            && s'.lanes[t.lane].nextIteration == s.lanes[t.lane].nextIteration + 1
            && s'.lanes[t.lane].nextEpoch == s.lanes[t.lane].nextEpoch
            && s'.lanes[t.lane].owner == s.lanes[t.lane].owner
            && s'.lanes[t.lane].partition == s.lanes[t.lane].partition
  {
    CompleteExact(s, t);
  }

  // ---------- building ----------

  /** Which inventories are refused, and how. */
  lemma BuildRefusals(devices: seq<Device>, unavailable: set<Device>, maxTries: u64, generation: u64)
    requires |devices| <= MAX_U64
    ensures var r := Build(devices, unavailable, maxTries, generation);
            && (r == Err(NoDevice) <==> devices == [])
            && (r == Err(DuplicateDevice) <==> !Distinct(devices))
            && (r == Err(UnknownUnavailable) <==>
                  devices != [] && Distinct(devices) && !(unavailable <= Elems(devices)))
            && (r == Err(NoHealthyDevice) <==>
                  devices != [] && Distinct(devices) && unavailable == Elems(devices))
            && (r.Ok? <==> Distinct(devices) && unavailable < Elems(devices))
  {
    var sorted := SortDevices(devices);
    SortSorts(devices);
    SameMembers(devices, sorted);
    DuplicateExact(devices);
    AllKnown(sorted, unavailable);
    NoneHealthy(sorted, unavailable);
    EmptyList(devices);
    hide SortDevices, Sorted, HasDuplicate, Distinct, Available, Elems, LaneCount, FreshLanes;
  }

  lemma AllKnown(sorted: seq<Device>, unavailable: set<Device>)
    ensures (exists d :: d in unavailable && d !in sorted) <==> !(unavailable <= Elems(sorted))
  {
  }

  lemma NoneHealthy(sorted: seq<Device>, unavailable: set<Device>)
    ensures Available(sorted, unavailable) == [] <==> Elems(sorted) <= unavailable
  {
    var healthy := Available(sorted, unavailable);
    if healthy != [] {
      assert healthy[0] in sorted && healthy[0] !in unavailable;
    } else {
      assert forall d :: d in sorted && d !in unavailable ==> d in healthy;
    }
  }

  lemma EmptyList(devices: seq<Device>)
    ensures devices == [] <==> Elems(devices) == {}
    ensures devices == [] ==> Distinct(devices)
  {
    if devices != [] {
      assert devices[0] in Elems(devices);
    }
  }

  /** A new schedule gives its lanes to its first available devices, in device order. */
  lemma BuildOwners(
      devices: seq<Device>, unavailable: set<Device>, maxTries: u64, generation: u64, i: nat, j: nat, d: Device)
    requires |devices| <= MAX_U64 && Build(devices, unavailable, maxTries, generation).Ok?
    requires i < j < |Build(devices, unavailable, maxTries, generation).value.lanes| && d in devices
    ensures var lanes := Build(devices, unavailable, maxTries, generation).value.lanes;
            && DeviceLess(lanes[i].owner, lanes[j].owner)
            && (d !in unavailable && DeviceLess(d, lanes[j].owner) ==>
                  exists k :: 0 <= k < j && lanes[k].owner == d)
  {
    BuildKeeps(devices, unavailable, maxTries, generation);
    SortSorts(devices);
    SameMembers(devices, SortDevices(devices));
    assert d in Elems(devices);
    hide Build, SortDevices, Sorted, DeviceLess, WellFormed, Available;
    FreshOwners(Build(devices, unavailable, maxTries, generation).value, i, j, d);
  }

  lemma FreshOwners(s: Schedule, i: nat, j: nat, d: Device)
    requires Canonical(s.devices) && Fresh(s) && i < j < |s.lanes| && d in s.devices
    ensures DeviceLess(s.lanes[i].owner, s.lanes[j].owner)
    ensures d !in s.unavailable && DeviceLess(d, s.lanes[j].owner) ==>
              exists k :: 0 <= k < j && s.lanes[k].owner == d
  {
    var healthy := Available(s.devices, s.unavailable);
    AvailableCanonical(s.devices, s.unavailable);
    hide LaneCount, Available;
    if d !in s.unavailable && DeviceLess(d, healthy[j]) {
      var k :| 0 <= k < |healthy| && healthy[k] == d;
      assert k < j;
      assert s.lanes[k].owner == d;
    }
  }

  lemma SameMembers<T>(a: seq<T>, b: seq<T>)
    requires multiset(a) == multiset(b)
    ensures Elems(a) == Elems(b) && |a| == |b|
  {
    assert forall x :: x in a <==> x in multiset(a);
    assert forall x :: x in b <==> x in multiset(b);
    assert |multiset(a)| == |a| && |multiset(b)| == |b|;
  }

  /** Neighbours in the sorted list are equal exactly when the list repeats a device. */
  lemma DuplicateExact(devices: seq<Device>)
    ensures HasDuplicate(SortDevices(devices)) <==> !Distinct(devices)
  {
    var sorted := SortDevices(devices);
    SortSorts(devices);
    hide Sorted, SortDevices, HasDuplicate, Distinct, Elems;
    SameMembers(devices, sorted);
    SortedDuplicate(sorted);
    DistinctCard(sorted);
    DistinctCard(devices);
  }

  lemma SortedDuplicate(sorted: seq<Device>)
    requires Sorted(sorted)
    ensures HasDuplicate(sorted) <==> !Distinct(sorted)
  {
    if !HasDuplicate(sorted) {
      SortedIsCanonical(sorted);
      CanonicalDistinct(sorted);
    }
  }

  lemma CanonicalDistinct(s: seq<Device>)
    requires Canonical(s)
    ensures Distinct(s)
  {
    forall i, j | 0 <= i < j < |s|
      ensures s[i] != s[j]
    {
      assert DeviceLess(s[i], s[j]);
    }
  }

  /** A schedule lists CUDA devices before OpenCL ones, each by ascending index. */
  lemma DevicesInOrder(s: Schedule, i: nat, j: nat)
    requires WellFormed(s) && i < j < |s.devices|
    ensures s.devices[i].backend == OpenCl ==> s.devices[j].backend == OpenCl
    ensures s.devices[i].backend == s.devices[j].backend ==> s.devices[i].index < s.devices[j].index
  {
    assert DeviceLess(s.devices[i], s.devices[j]);
  }

  // ---------- health ----------

  /** Redistribution succeeds exactly for an available device that is not the last one. */
  lemma RedistributeExact(s: Schedule, d: Device)
    requires WellFormed(s)
    ensures var r := Redistribute(s, d);
            && (r.Ok? <==> d in AvailableSet(s) && AvailableSet(s) != {d})
            && (r == Err(UnknownDevice) <==> d !in s.devices)
            && (r == Err(AlreadyUnavailable) <==> d in s.unavailable)
            && (r == Err(NoHealthyDevice) <==> AvailableSet(s) == {d})
            && (r.Ok? ==>
                  && r.value.unavailable == s.unavailable + {d} && r.value.devices == s.devices
                  && r.value.maxTries == s.maxTries && r.value.generation == s.generation
                  && |r.value.lanes| == |s.lanes|)
  {
    hide Rehome;
  }

  /** Recovery succeeds exactly for an unavailable device and changes only its availability. */
  lemma RecoverExact(s: Schedule, d: Device)
    requires WellFormed(s)
    ensures var r := Recover(s, d);
            && (r.Ok? <==> d in s.unavailable)
            && (r == Err(UnknownDevice) <==> d !in s.devices)
            && (r == Err(NotUnavailable) <==> d in AvailableSet(s))
            && (r.Ok? ==>
                  && AvailableSet(r.value) == AvailableSet(s) + {d}
                  && (forall x :: x != d ==> (x in r.value.unavailable <==> x in s.unavailable))
                  && d !in r.value.unavailable && r.value.devices == s.devices && r.value.lanes == s.lanes
                  && r.value.maxTries == s.maxTries && r.value.generation == s.generation)
  {
  }

  /** Device `a` is listed before `b`. */
  ghost predicate ListedBefore(devices: seq<Device>, a: Device, b: Device) {
    exists i, j :: 0 <= i < j < |devices| && devices[i] == a && devices[j] == b
  }

  lemma OrderListed(s: Schedule, a: Device, b: Device)
    requires WellFormed(s) && a in s.devices && b in s.devices && DeviceLess(a, b)
    ensures ListedBefore(s.devices, a, b)
  {
    var i, j :| 0 <= i < |s.devices| && s.devices[i] == a && 0 <= j < |s.devices| && s.devices[j] == b;
    assert i < j;
  }

  /** The first lane of a failed device goes to the survivor with the fewest lanes, the earliest listed of those. */
  lemma FirstMoved(s: Schedule, d: Device, i: nat, x: Device)
    requires WellFormed(s) && Redistribute(s, d).Ok?
    requires i < |s.lanes| && s.lanes[i].owner == d && forall j :: 0 <= j < i ==> s.lanes[j].owner != d
    requires x in AvailableSet(s) - {d}
    ensures var m := Redistribute(s, d).value.lanes[i].owner;
            && m in AvailableSet(s) - {d}
            && (m == x || Load(s.lanes, m) < Load(s.lanes, x)
                || (Load(s.lanes, m) == Load(s.lanes, x) && ListedBefore(s.devices, m, x)))
  {
    hide Load;
    var healthy := AvailableSet(s) - {d};
    var m := LeastLoaded(s.lanes, healthy);
    RehomeReaches(s.lanes, d, healthy, 0, i);
    var lanes := s.lanes[i := s.lanes[i].(owner := m, inFlight := None)];
    RehomeLane(lanes, d, healthy, i + 1, i);
    if m != x && Load(s.lanes, m) == Load(s.lanes, x) {
      OrderListed(s, m, x);
    }
  }

  lemma {:induction false} RehomeReaches(lanes: seq<Lane>, failed: Device, healthy: set<Device>, from: nat, i: nat)
    requires healthy != {} && failed !in healthy && from <= i < |lanes|
    requires forall j :: from <= j < i ==> lanes[j].owner != failed
    ensures Rehome(lanes, failed, healthy, from) == Rehome(lanes, failed, healthy, i)
    decreases i - from
  {
    if from < i {
      RehomeReaches(lanes, failed, healthy, from + 1, i);
    }
  }

  // ---------- the controller ----------

  /** Only a reconnect that takes effect advances the epoch, by one. */
  lemma ApplyExact(c: Controller, t: Control)
    requires WellFormed(c.schedule)
    ensures var r := Apply(c, t);
            && (t.Reconnect? ==>
                  && (r.Ok? <==> c.reconnectEpoch < MAX_U64 && c.schedule.generation < MAX_U64)
                  && (r == Err(ReconnectOverflow) <==> c.reconnectEpoch == MAX_U64)
                  && (r.Ok? ==> r.value.reconnectEpoch == c.reconnectEpoch + 1))
            && (!t.Reconnect? && r.Ok? ==> r.value.reconnectEpoch == c.reconnectEpoch)
            && (t.JobRefresh? ==> (r.Ok? <==> c.schedule.generation < MAX_U64))
            && (t.DeviceFailure? ==> (r.Ok? <==> Redistribute(c.schedule, t.device).Ok?))
            && (t.DeviceRecovery? ==> (r.Ok? <==> t.device in c.schedule.unavailable))
  {
    hide Redistribute, Build;
    match t
    case DeviceFailure(d) =>
    case DeviceRecovery(d) => RecoverExact(c.schedule, d);
    case JobRefresh(m) => RefreshExact(c.schedule, m);
    case Reconnect(m) => RefreshExact(c.schedule, m);
  }

  // ---------- tickets over a step ----------

  ghost predicate InFlight(s: Schedule, t: Ticket) {
    t.lane < |s.lanes| && s.lanes[t.lane].inFlight == Some(t)
  }

  /** The steps that end a ticket in flight. */
  ghost predicate Ends(w: World, step: Step, t: Ticket)
    requires |Sched(w).devices| <= MAX_U64
  {
    || step == CompleteStep(t)
    || (step.ControlStep? && Apply(w.controller, step.control).Ok? &&
        (step.control == DeviceFailure(t.owner) || step.control.JobRefresh? || step.control.Reconnect?))
  }

  /** A ticket in flight stays in flight, on its lane, through every other step. */
  lemma TicketsSurvive(w: World, step: Step, t: Ticket)
    requires WellFormed(Sched(w)) && InFlight(Sched(w), t)
    ensures InFlight(Sched(Next(w, step)), t) <==> !Ends(w, step, t)
  {
    hide Rehome, Build;
    var s := Sched(w);
    assert LaneOk(s, t.lane);
    match step
    case DispatchStep(i) => DispatchChanges(s, i);
    case CompleteStep(u) =>
      CompleteExact(s, u);
    case ControlStep(DeviceFailure(d)) =>
      if Redistribute(s, d).Ok? {
        RehomeLane(s.lanes, d, AvailableSet(s) - {d}, 0, t.lane);
      }
    case ControlStep(DeviceRecovery(d)) =>
    case ControlStep(JobRefresh(m)) => if Apply(w.controller, step.control).Ok? { FreshHasNone(w, step, t); }
    case ControlStep(Reconnect(m)) => if Apply(w.controller, step.control).Ok? { FreshHasNone(w, step, t); }
  }

  lemma FreshHasNone(w: World, step: Step, t: Ticket)
    requires WellFormed(Sched(w)) && step.ControlStep? && (step.control.JobRefresh? || step.control.Reconnect?)
    requires Apply(w.controller, step.control).Ok?
    ensures !InFlight(Sched(Next(w, step)), t)
  {
    hide Build;
    RefreshExact(Sched(w), step.control.maxTries);
  }
}
