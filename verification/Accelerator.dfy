/** The mutable accelerator schedule and reconnect controller, proved against their value models. */
module Accelerator {
  import opened Ids
  import opened NoncePartition
  import opened Scheduler
  import opened SchedulerRuns

  /** The device with the fewest lanes, ties broken by device order. */
  method LeastCount(counts: map<Device, nat>) returns (d: Device)
    requires counts != map[]
    ensures d in counts
    ensures forall x :: x in counts && x != d ==>
              counts[d] < counts[x] || (counts[d] == counts[x] && DeviceLess(d, x))
  {
    assert counts.Keys != {};
    d :| d in counts.Keys;
    var rest := counts.Keys - {d};
    while rest != {}
      invariant d in counts && rest <= counts.Keys
      invariant forall x :: x in counts && x !in rest && x != d ==>
                  counts[d] < counts[x] || (counts[d] == counts[x] && DeviceLess(d, x))
      decreases |rest|
    {
      var c :| c in rest;
      if counts[c] < counts[d] || (counts[c] == counts[d] && DeviceLess(c, d)) {
        d := c;
      }
      rest := rest - {c};
    }
  }

  /** Counts the lanes each healthy device owns. */
  method CountLanes(lanes: seq<Lane>, healthy: seq<Device>) returns (counts: map<Device, nat>)
    ensures counts.Keys == Elems(healthy)
    ensures forall d :: d in counts ==> counts[d] == Load(lanes, d)
  {
    counts := map d | d in healthy :: 0;
    assert counts.Keys == Elems(healthy);
    for i := 0 to |lanes|
      invariant counts.Keys == Elems(healthy)
      invariant forall d :: d in counts ==> counts[d] == Load(lanes[..i], d)
    {
      assert lanes[..i + 1][..i] == lanes[..i];
      if lanes[i].owner in counts {
        counts := counts[lanes[i].owner := counts[lanes[i].owner] + 1];
      }
    }
    assert lanes[..|lanes|] == lanes;
  }

  /** Reassigns the failed device's lanes one after the other. */
  method ReassignLanes(lanes0: seq<Lane>, failed: Device, healthy: seq<Device>) returns (lanes: seq<Lane>)
    requires healthy != [] && failed !in healthy
    ensures Elems(healthy) != {} && failed !in Elems(healthy)
    ensures lanes == Rehome(lanes0, failed, Elems(healthy), 0)
  {
    assert healthy[0] in Elems(healthy);
    lanes := lanes0;
    var counts := CountLanes(lanes, healthy);
    for i := 0 to |lanes0|
      invariant |lanes| == |lanes0|
      invariant Rehome(lanes, failed, Elems(healthy), i) == Rehome(lanes0, failed, Elems(healthy), 0)
      invariant counts.Keys == Elems(healthy)
      invariant forall d :: d in counts ==> counts[d] == Load(lanes, d)
    {
      if lanes[i].owner == failed {
        var replacement := LeastCount(counts);
        LeastLoadedUnique(lanes, Elems(healthy), replacement, LeastLoaded(lanes, Elems(healthy)));
        var lane := lanes[i].(owner := replacement, inFlight := None);
        forall d | d in counts
          ensures Load(lanes[i := lane], d) == Load(lanes, d) + (if d == replacement then 1 else 0)
        {
          LoadUpdate(lanes, i, lane, d);
        }
        lanes := lanes[i := lane];
        counts := counts[replacement := counts[replacement] + 1];
      }
    }
  }

  class AcceleratorSchedule {
    var devices: seq<Device>
    var unavailable: set<Device>
    var lanes: seq<Lane>
    var maxTries: u64
    var generation: u64

    function View(): Schedule
      reads this
    {
      Schedule(devices, unavailable, lanes, maxTries, generation)
    }

    constructor (devices: seq<Device>, unavailable: set<Device>, lanes: seq<Lane>, maxTries: u64, generation: u64)
      ensures View() == Schedule(devices, unavailable, lanes, maxTries, generation)
    {
      this.devices := devices;
      this.unavailable := unavailable;
      this.lanes := lanes;
      this.maxTries := maxTries;
      this.generation := generation;
    }

    /** Builds a canonical schedule over the healthy devices. */
    static method BuildWithHealth(discovered: seq<Device>, unavailable: set<Device>, tries: u64, generation: u64)
      returns (r: Result<AcceleratorSchedule, ScheduleError>)
      requires |discovered| <= MAX_U64
      ensures r.Ok? ==> fresh(r.value) && Build(discovered, unavailable, tries, generation) == Ok(r.value.View())
      ensures r.Err? ==> Build(discovered, unavailable, tries, generation) == Err(r.error)
    {
      hide Sorted, SortDevices;
      if discovered == [] { return Err(NoDevice); }
      SortSorts(discovered);
      var sorted := SortDevices(discovered);
      assert |multiset(sorted)| == |sorted| && |multiset(discovered)| == |discovered|;
      if exists i :: 0 < i < |sorted| && sorted[i - 1] == sorted[i] { return Err(DuplicateDevice); }
      if exists d :: d in unavailable && d !in sorted { return Err(UnknownUnavailable); }
      var healthy := Available(sorted, unavailable);
      if healthy == [] { return Err(NoHealthyDevice); }
      var maxTries := Max(tries, 1);
      var active := LaneCount(maxTries, |healthy|);
      var lanes: seq<Lane> := [];
      for i := 0 to active
        invariant |lanes| == i
        invariant forall j :: 0 <= j < i ==> lanes[j] == FreshLane(maxTries, active, j, healthy[j])
      {
        LanePartitionOk(maxTries, active, i);
        var partition := LanePartition(maxTries, active, i);
        lanes := lanes + [Lane(i, healthy[i], partition.value, 0, None, 0)];
      }
      assert lanes == FreshLanes(maxTries, active, healthy);
      var s := new AcceleratorSchedule(sorted, unavailable, lanes, maxTries, generation);
      return Ok(s);
    }

    method DispatchLane(i: nat) returns (r: Result<Option<Ticket>, ScheduleError>)
      modifies this`lanes
      ensures Dispatched(View(), r) == Dispatch(old(View()), i)
    {
      if i >= |lanes| { return Err(NoSuchLane); }
      if lanes[i].inFlight.Some? { return Err(AlreadyInFlight); }
      var nonce := NonceAt(lanes[i].partition, lanes[i].nextIteration);
      if nonce.Err? { return Err(BadNonce); }
      if nonce.value.None? { return Ok(None); }
      var epoch := lanes[i].nextEpoch;
      if epoch == MAX_U64 { return Err(EpochOverflow); }
      var ticket := Ticket(generation, i, lanes[i].owner, nonce.value.value, epoch);
      lanes := lanes[i := lanes[i].(nextEpoch := epoch + 1)];
      lanes := lanes[i := lanes[i].(inFlight := Some(ticket))];
      assert lanes == old(lanes)[i := old(lanes)[i].(nextEpoch := epoch + 1, inFlight := Some(ticket))];
      return Ok(Some(ticket));
    }

    method CompleteLane(t: Ticket) returns (r: Result<(), ScheduleError>)
      modifies this`lanes
      ensures r.Ok? ==> Complete(old(View()), t) == Ok(View())
      ensures r.Err? ==> Complete(old(View()), t) == Err(r.error) && View() == old(View())
    {
      if t.generation != generation { return Err(StaleGeneration); }
      if t.lane >= |lanes| { return Err(NoSuchLane); }
      if lanes[t.lane].inFlight != Some(t) { return Err(StaleTicket); }
      if lanes[t.lane].nextIteration == MAX_U64 { return Err(IterationOverflow); }
      lanes := lanes[t.lane := lanes[t.lane].(nextIteration := lanes[t.lane].nextIteration + 1)];
      lanes := lanes[t.lane := lanes[t.lane].(inFlight := None)];
      assert lanes == old(lanes)[t.lane :=
        old(lanes)[t.lane].(nextIteration := old(lanes)[t.lane].nextIteration + 1, inFlight := None)];
      return Ok(());
    }

    /** Leaves this schedule alone and returns the redistributed one. */
    method RedistributeFailedDevice(failed: Device) returns (r: Result<AcceleratorSchedule, ScheduleError>)
      ensures r.Ok? ==> fresh(r.value) && Redistribute(View(), failed) == Ok(r.value.View())
      ensures r.Err? ==> Redistribute(View(), failed) == Err(r.error)
    {
      if failed !in devices { return Err(UnknownDevice); }
      if failed in unavailable { return Err(AlreadyUnavailable); }
      var healthy := Available(devices, unavailable + {failed});
      assert Elems(healthy) == AvailableSet(View()) - {failed};
      if healthy == [] { return Err(NoHealthyDevice); }
      var moved := ReassignLanes(lanes, failed, healthy);
      var s := new AcceleratorSchedule(devices, unavailable + {failed}, moved, maxTries, generation);
      return Ok(s);
    }

    method RecoverDevice(device: Device) returns (r: Result<AcceleratorSchedule, ScheduleError>)
      ensures r.Ok? ==> fresh(r.value) && Recover(View(), device) == Ok(r.value.View())
      ensures r.Err? ==> Recover(View(), device) == Err(r.error)
    {
      if device !in devices { return Err(UnknownDevice); }
      if device !in unavailable { return Err(NotUnavailable); }
      var s := new AcceleratorSchedule(devices, unavailable - {device}, lanes, maxTries, generation);
      return Ok(s);
    }

    method RefreshJob(tries: u64) returns (r: Result<AcceleratorSchedule, ScheduleError>)
      requires |devices| <= MAX_U64
      ensures r.Ok? ==> fresh(r.value) && Refresh(View(), tries) == Ok(r.value.View())
      ensures r.Err? ==> Refresh(View(), tries) == Err(r.error)
    {
      if generation == MAX_U64 { return Err(GenerationOverflow); }
      r := BuildWithHealth(devices, unavailable, tries, generation + 1);
    }
  }

  class ReconnectController {
    var schedule: AcceleratorSchedule
    var reconnectEpoch: u64

    function View(): Controller
      reads this, schedule
    {
      Controller(schedule.View(), reconnectEpoch)
    }

    constructor (schedule: AcceleratorSchedule, reconnectEpoch: u64)
      ensures this.schedule == schedule && this.reconnectEpoch == reconnectEpoch
    {
      this.schedule := schedule;
      this.reconnectEpoch := reconnectEpoch;
    }

    /** A fresh controller starts every run the theorems speak about. */
    static method BuildController(devices: seq<Device>, tries: u64)
      returns (r: Result<ReconnectController, ScheduleError>)
      requires |devices| <= MAX_U64
      ensures r.Ok? ==> fresh(r.value) && fresh(r.value.schedule) && Start(World(r.value.View(), []))
      ensures r.Ok? ==> Build(devices, {}, tries, 0) == Ok(r.value.schedule.View()) && r.value.reconnectEpoch == 0
      ensures r.Err? ==> Build(devices, {}, tries, 0) == Err(r.error)
    {
      var s := AcceleratorSchedule.BuildWithHealth(devices, {}, tries, 0);
      if s.Err? { return Err(s.error); }
      var c := new ReconnectController(s.value, 0);
      assert Build(devices, {}, tries, 0) == Ok(Sched(World(c.View(), [])));
      return Ok(c);
    }

    method DispatchLane(i: nat, ghost log: seq<Event>) returns (r: Result<Option<Ticket>, ScheduleError>)
      requires |schedule.devices| <= MAX_U64
      modifies schedule`lanes
      ensures View() == Next(World(old(View()), log), DispatchStep(i)).controller
      ensures Dispatched(schedule.View(), r) == Dispatch(old(schedule.View()), i)
    {
      r := schedule.DispatchLane(i);
    }

    method CompleteLane(t: Ticket, ghost log: seq<Event>) returns (r: Result<(), ScheduleError>)
      requires |schedule.devices| <= MAX_U64
      modifies schedule`lanes
      ensures View() == Next(World(old(View()), log), CompleteStep(t)).controller
      ensures r.Ok? <==> Complete(old(schedule.View()), t).Ok?
    {
      r := schedule.CompleteLane(t);
    }

    /** Returns the next controller; this one is unchanged either way. */
    method ApplyControl(t: Control) returns (r: Result<ReconnectController, ScheduleError>)
      requires |schedule.devices| <= MAX_U64
      ensures r.Ok? ==>
                fresh(r.value) && fresh(r.value.schedule) && Apply(View(), t) == Ok(r.value.View())
      ensures r.Err? ==> Apply(View(), t) == Err(r.error)
    {
      var epoch := reconnectEpoch;
      var next: Result<AcceleratorSchedule, ScheduleError>;
      match t {
        case DeviceFailure(d) => next := schedule.RedistributeFailedDevice(d);
        case DeviceRecovery(d) => next := schedule.RecoverDevice(d);
        case JobRefresh(m) => next := schedule.RefreshJob(m);
        case Reconnect(m) =>
          if reconnectEpoch == MAX_U64 { return Err(ReconnectOverflow); }
          epoch := reconnectEpoch + 1;
          next := schedule.RefreshJob(m);
      }
      if next.Err? { return Err(next.error); }
      var c := new ReconnectController(next.value, epoch);
      return Ok(c);
    }
  }
}
