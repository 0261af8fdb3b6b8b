/** Whole runs of the reconnect controller: coverage, stale tickets and balance. */
module SchedulerRuns {
  import opened Ids
  import opened NoncePartition
  import opened Scheduler

  // ---------- the controller ----------

  datatype Control =
    | DeviceFailure(device: Device)
    | DeviceRecovery(device: Device)
    | JobRefresh(maxTries: u64)
    | Reconnect(maxTries: u64)

  datatype Controller = Controller(schedule: Schedule, reconnectEpoch: u64)

  /** `apply`: a failed transition leaves the caller's controller as it was. */
  ghost function Apply(c: Controller, t: Control): Result<Controller, ScheduleError>
    requires |c.schedule.devices| <= MAX_U64
  {
    match t
    case DeviceFailure(d) => Rewrap(Redistribute(c.schedule, d), c.reconnectEpoch)
    case DeviceRecovery(d) => Rewrap(Recover(c.schedule, d), c.reconnectEpoch)
    case JobRefresh(m) => Rewrap(Refresh(c.schedule, m), c.reconnectEpoch)
    case Reconnect(m) =>
      if c.reconnectEpoch == MAX_U64 then Err(ReconnectOverflow)
      else Rewrap(Refresh(c.schedule, m), c.reconnectEpoch + 1)
  }

  function Rewrap(s: Result<Schedule, ScheduleError>, epoch: u64): Result<Controller, ScheduleError> {
    match s
    case Ok(schedule) => Ok(Controller(schedule, epoch))
    case Err(e) => Err(e)
  }

  // ---------- runs ----------

  datatype Step = DispatchStep(lane: nat) | CompleteStep(ticket: Ticket) | ControlStep(control: Control)

  datatype Event = Issued(ticket: Ticket) | Accepted(ticket: Ticket)

  /** The controller and everything it has issued and accepted, in order. */
  datatype World = World(controller: Controller, log: seq<Event>)

  function Sched(w: World): Schedule {
    w.controller.schedule
  }

  function WithSchedule(w: World, s: Schedule, log: seq<Event>): World {
    World(w.controller.(schedule := s), log)
  }

  /** Rejected steps change nothing. */
  ghost function Next(w: World, step: Step): World
    requires |Sched(w).devices| <= MAX_U64
  {
    match step
    case DispatchStep(i) =>
      var d := Dispatch(Sched(w), i);
      WithSchedule(w, d.schedule,
                   if d.result.Ok? && d.result.value.Some? then w.log + [Issued(d.result.value.value)] else w.log)
    case CompleteStep(t) =>
      (match Complete(Sched(w), t)
       case Ok(s) => WithSchedule(w, s, w.log + [Accepted(t)])
       case Err(_) => w)
    case ControlStep(c) =>
      (match Apply(w.controller, c)
       case Ok(controller) => World(controller, w.log)
       case Err(_) => w)
  }

  lemma NextKeeps(w: World, step: Step)
    requires WellFormed(Sched(w))
    ensures WellFormed(Sched(Next(w, step)))
  {
    var s := Sched(w);
    match step
    case DispatchStep(i) => DispatchKeeps(s, i);
    case CompleteStep(t) => if Complete(s, t).Ok? { CompleteKeeps(s, t); }
    case ControlStep(DeviceFailure(d)) => if Redistribute(s, d).Ok? { RedistributeKeeps(s, d); }
    case ControlStep(DeviceRecovery(d)) => if Recover(s, d).Ok? { RecoverKeeps(s, d); }
    case ControlStep(JobRefresh(m)) => RefreshExact(s, m);
    case ControlStep(Reconnect(m)) => RefreshExact(s, m);
  }

  ghost function Run(w: World, steps: seq<Step>): (v: World)
    requires WellFormed(Sched(w))
    ensures WellFormed(Sched(v))
    decreases |steps|
  {
    if steps == [] then w
    else
      NextKeeps(w, steps[0]);
      Run(Next(w, steps[0]), steps[1..])
  }

  // ---------- the log invariant ----------

  /** Accepted nonces of one lane of one generation, in order. */
  function AcceptedNonces(log: seq<Event>, generation: u64, lane: nat): seq<nat> {
    if log == [] then []
    else
      var e := log[|log| - 1];
      AcceptedNonces(log[..|log| - 1], generation, lane) +
      (if e.Accepted? && e.ticket.generation == generation && e.ticket.lane == lane then [e.ticket.nonce] else [])
  }

  /** A logged ticket was issued under an epoch the lane has moved past. */
  ghost predicate Past(s: Schedule, t: Ticket) {
    || t.generation < s.generation
    || (t.generation == s.generation && t.lane < |s.lanes| && t.epoch < s.lanes[t.lane].nextEpoch)
  }

  ghost predicate SameKey(t: Ticket, t': Ticket) {
    t.generation == t'.generation && t.lane == t'.lane && t.epoch == t'.epoch
  }

  ghost predicate IssuedOnce(log: seq<Event>) {
    forall i, j :: 0 <= i < j < |log| && log[i].Issued? && log[j].Issued? ==>
      !SameKey(log[i].ticket, log[j].ticket)
  }

  ghost predicate AcceptedOnce(log: seq<Event>) {
    forall i, j :: 0 <= i < j < |log| && log[i].Accepted? && log[j].Accepted? ==>
      !(log[i].ticket.generation == log[j].ticket.generation && log[i].ticket.nonce == log[j].ticket.nonce)
  }

  ghost predicate InFlightIssued(s: Schedule, log: seq<Event>) {
    forall i :: 0 <= i < |s.lanes| && s.lanes[i].inFlight.Some? ==>
      Issued(s.lanes[i].inFlight.value) in log && Accepted(s.lanes[i].inFlight.value) !in log
  }

  ghost predicate Progress(s: Schedule, log: seq<Event>) {
    forall i :: 0 <= i < |s.lanes| ==>
      AcceptedNonces(log, s.generation, i) == FirstNonces(i, |s.lanes|, s.lanes[i].nextIteration)
  }

  ghost predicate LogOk(s: Schedule, log: seq<Event>) {
    && (forall e :: e in log ==> Past(s, e.ticket))
    && (forall e :: e in log && e.Accepted? ==> Issued(e.ticket) in log)
    && IssuedOnce(log)
    && AcceptedOnce(log)
    && InFlightIssued(s, log)
    && Progress(s, log)
  }

  ghost predicate Inv(w: World) {
    WellFormed(Sched(w)) && LogOk(Sched(w), w.log)
  }

  // ---------- every step keeps the invariant ----------

  lemma AcceptedNoncesSnoc(log: seq<Event>, e: Event, generation: u64, lane: nat)
    ensures AcceptedNonces(log + [e], generation, lane) ==
            AcceptedNonces(log, generation, lane) +
            (if e.Accepted? && e.ticket.generation == generation && e.ticket.lane == lane then [e.ticket.nonce] else [])
  {
    assert (log + [e])[..|log|] == log;
  }

  lemma {:induction false} AcceptedInNonces(log: seq<Event>, t: Ticket)
    requires Accepted(t) in log
    ensures t.nonce in AcceptedNonces(log, t.generation, t.lane)
  {
    if log[|log| - 1] != Accepted(t) {
      AcceptedInNonces(log[..|log| - 1], t);
    }
  }

  lemma {:induction false} NoncesAccepted(log: seq<Event>, generation: u64, lane: nat, x: nat) returns (t: Ticket)
    requires x in AcceptedNonces(log, generation, lane)
    ensures Accepted(t) in log && t.generation == generation && t.lane == lane && t.nonce == x
  {
    var e := log[|log| - 1];
    if e.Accepted? && e.ticket.generation == generation && e.ticket.lane == lane && e.ticket.nonce == x {
      t := e.ticket;
    } else {
      t := NoncesAccepted(log[..|log| - 1], generation, lane, x);
    }
  }

  lemma {:induction false} NoneAccepted(log: seq<Event>, generation: u64, lane: nat)
    requires forall e :: e in log ==> e.ticket.generation < generation
    ensures AcceptedNonces(log, generation, lane) == []
  {
    if log != [] {
      assert log[|log| - 1] in log;
      NoneAccepted(log[..|log| - 1], generation, lane);
    }
  }

  lemma DispatchLog(s: Schedule, log: seq<Event>, i: nat)
    requires WellFormed(s) && LogOk(s, log)
    requires var d := Dispatch(s, i); d.result.Ok? && d.result.value.Some?
    ensures var d := Dispatch(s, i); LogOk(d.schedule, log + [Issued(d.result.value.value)])
  {
    hide Progress, NonceAt, Canonical;
    var d := Dispatch(s, i);
    var t, s' := d.result.value.value, d.schedule;
    var log' := log + [Issued(t)];
    assert LaneOk(s, i);
    forall e | e in log'
      ensures Past(s', e.ticket)
    {
      assert e in log ==> Past(s, e.ticket);
    }
    forall e | e in log && e.Issued?
      ensures !SameKey(e.ticket, t)
    {
      assert Past(s, e.ticket);
    }
    assert IssuedOnce(log');
    forall e | e in log && e.Accepted?
      ensures e.ticket != t
    {
      assert Past(s, e.ticket);
    }
    IssuedKeepsProgress(s, s', log, t);
  }

  lemma IssuedKeepsProgress(s: Schedule, s': Schedule, log: seq<Event>, t: Ticket)
    requires Progress(s, log) && s'.generation == s.generation && |s'.lanes| == |s.lanes|
    requires forall j :: 0 <= j < |s.lanes| ==> s'.lanes[j].nextIteration == s.lanes[j].nextIteration
    ensures Progress(s', log + [Issued(t)])
  {
    forall j | 0 <= j < |s'.lanes|
      ensures AcceptedNonces(log + [Issued(t)], s'.generation, j)
              == FirstNonces(j, |s'.lanes|, s'.lanes[j].nextIteration)
    {
      AcceptedNoncesSnoc(log, Issued(t), s.generation, j);
      assert AcceptedNonces(log, s.generation, j) + [] == AcceptedNonces(log, s.generation, j);
    }
  }

  /** The nonce in flight has not been accepted in this generation. */
  lemma NonceFresh(s: Schedule, log: seq<Event>, t: Ticket, e: Event)
    requires WellFormed(s) && LogOk(s, log)
    requires t.lane < |s.lanes| && s.lanes[t.lane].inFlight == Some(t)
    requires e in log && e.Accepted? && e.ticket.generation == s.generation
    ensures e.ticket.nonce != t.nonce
  {
    assert LaneOk(s, t.lane);
    assert Past(s, e.ticket);
    var l := e.ticket.lane;
    AcceptedInNonces(log, e.ticket);
    assert AcceptedNonces(log, s.generation, l) == FirstNonces(l, |s.lanes|, s.lanes[l].nextIteration);
    var k :| 0 <= k < s.lanes[l].nextIteration && Nonce(l, |s.lanes|, k) == e.ticket.nonce;
    if e.ticket.nonce == t.nonce {
      NonceUnique(|s.lanes|, l, k, t.lane, s.lanes[t.lane].nextIteration);
    }
  }

  lemma CompleteLog(s: Schedule, log: seq<Event>, t: Ticket)
    requires WellFormed(s) && LogOk(s, log) && Complete(s, t).Ok?
    ensures LogOk(Complete(s, t).value, log + [Accepted(t)])
  {
    hide Progress, Canonical;
    var s', log' := Complete(s, t).value, log + [Accepted(t)];
    assert LaneOk(s, t.lane);
    forall e | e in log'
      ensures Past(s', e.ticket)
    {
      assert e in log ==> Past(s, e.ticket);
    }
    forall e | e in log && e.Accepted?
      ensures !(e.ticket.generation == t.generation && e.ticket.nonce == t.nonce)
    {
      if e.ticket.generation == t.generation {
        NonceFresh(s, log, t, e);
      }
    }
    assert AcceptedOnce(log');
    forall j | 0 <= j < |s'.lanes| && s'.lanes[j].inFlight.Some?
      ensures s'.lanes[j].inFlight.value != t
    {
      assert LaneOk(s, j);
    }
    assert InFlightIssued(s', log');
    AcceptedKeepsProgress(s, log, t);
  }

  lemma AcceptedKeepsProgress(s: Schedule, log: seq<Event>, t: Ticket)
    requires WellFormed(s) && Progress(s, log) && Complete(s, t).Ok?
    ensures Progress(Complete(s, t).value, log + [Accepted(t)])
  {
    var s', log' := Complete(s, t).value, log + [Accepted(t)];
    assert LaneOk(s, t.lane);
    forall j | 0 <= j < |s'.lanes|
      ensures AcceptedNonces(log', s'.generation, j) == FirstNonces(j, |s'.lanes|, s'.lanes[j].nextIteration)
    {
      AcceptedNoncesSnoc(log, Accepted(t), s.generation, j);
      assert AcceptedNonces(log, s.generation, j) + [] == AcceptedNonces(log, s.generation, j);
    }
  }

  lemma RedistributeLog(s: Schedule, log: seq<Event>, d: Device)
    requires WellFormed(s) && LogOk(s, log) && Redistribute(s, d).Ok?
    ensures LogOk(Redistribute(s, d).value, log)
  {
    hide Rehome;
    var s' := Redistribute(s, d).value;
    RedistributeKeeps(s, d);
    forall j | 0 <= j < |s.lanes|
      ensures s'.lanes[j].nextEpoch == s.lanes[j].nextEpoch
      ensures s'.lanes[j].nextIteration == s.lanes[j].nextIteration
      ensures s'.lanes[j].inFlight.Some? ==> s'.lanes[j].inFlight == s.lanes[j].inFlight
    {
      RehomeLane(s.lanes, d, AvailableSet(s) - {d}, 0, j);
    }
    forall e | e in log
      ensures Past(s', e.ticket)
    {
      assert Past(s, e.ticket);
    }
  }

  lemma RefreshLog(s: Schedule, log: seq<Event>, m: u64)
    requires WellFormed(s) && LogOk(s, log) && Refresh(s, m).Ok?
    ensures LogOk(Refresh(s, m).value, log)
  {
    hide Refresh;
    var s' := Refresh(s, m).value;
    RefreshExact(s, m);
    RefreshGeneration(s, m);
    forall e | e in log
      ensures e.ticket.generation < s'.generation
    {
      assert Past(s, e.ticket);
    }
    forall j | 0 <= j < |s'.lanes|
      ensures AcceptedNonces(log, s'.generation, j) == FirstNonces(j, |s'.lanes|, s'.lanes[j].nextIteration)
    {
      NoneAccepted(log, s'.generation, j);
    }
  }

  lemma RefreshGeneration(s: Schedule, m: u64)
    requires WellFormed(s) && Refresh(s, m).Ok?
    ensures Refresh(s, m).value.generation == s.generation + 1
  {
    RefreshExact(s, m);
  }

  /** Every step of the controller keeps the invariant. */
  lemma NextInv(w: World, step: Step)
    requires Inv(w)
    ensures Inv(Next(w, step))
  {
    hide WellFormed, LogOk, Redistribute, Refresh, Dispatch, Complete;
    WellFormedDevices(w);
    NextKeeps(w, step);
    var s := Sched(w);
    match step
    case DispatchStep(i) =>
      var d := Dispatch(s, i);
      if d.result.Ok? && d.result.value.Some? {
        DispatchLog(s, w.log, i);
      } else {
        DispatchNothing(s, i);
      }
    case CompleteStep(t) => if Complete(s, t).Ok? { CompleteLog(s, w.log, t); }
    case ControlStep(DeviceFailure(d)) => if Redistribute(s, d).Ok? { RedistributeLog(s, w.log, d); }
    case ControlStep(DeviceRecovery(d)) => if Recover(s, d).Ok? { RecoverLog(s, w.log, d); }
    case ControlStep(JobRefresh(m)) => if Refresh(s, m).Ok? { RefreshLog(s, w.log, m); }
    case ControlStep(Reconnect(m)) => if Refresh(s, m).Ok? { RefreshLog(s, w.log, m); }
  }

  lemma WellFormedDevices(w: World)
    requires WellFormed(Sched(w))
    ensures |Sched(w).devices| <= MAX_U64
  {
  }

  lemma DispatchNothing(s: Schedule, i: nat)
    requires var d := Dispatch(s, i); !(d.result.Ok? && d.result.value.Some?)
    ensures Dispatch(s, i).schedule == s
  {
  }

  lemma RecoverLog(s: Schedule, log: seq<Event>, d: Device)
    requires LogOk(s, log) && Recover(s, d).Ok?
    ensures LogOk(Recover(s, d).value, log)
  {
    var s' := Recover(s, d).value;
    forall e | e in log
      ensures Past(s', e.ticket)
    {
      assert Past(s, e.ticket);
    }
  }

  // ---------- runs ----------

  /** A controller just built, with an empty log. */
  ghost predicate Start(w: World) {
    exists devices: seq<Device>, maxTries: u64 ::
      && |devices| <= MAX_U64
      && Build(devices, {}, maxTries, 0) == Ok(Sched(w))
      && w.controller.reconnectEpoch == 0 && w.log == []
  }

  lemma StartInv(w: World)
    requires Start(w)
    ensures Inv(w)
  {
    var devices: seq<Device>, maxTries: u64 :|
      |devices| <= MAX_U64 && Build(devices, {}, maxTries, 0) == Ok(Sched(w));
    BuildKeeps(devices, {}, maxTries, 0);
  }

  lemma {:induction false} RunInv(w: World, steps: seq<Step>)
    requires Inv(w)
    ensures Inv(Run(w, steps))
    decreases |steps|
  {
    hide Inv, Next;
    InvWellFormed(w);
    if steps != [] {
      NextInv(w, steps[0]);
      RunInv(Next(w, steps[0]), steps[1..]);
    }
  }

  lemma InvWellFormed(w: World)
    requires Inv(w)
    ensures WellFormed(Sched(w)) && LogOk(Sched(w), w.log)
  {
  }

  /**
   * Over any run, the completions accepted on a lane in the current generation are
   * exactly the first `nextIteration` nonces of its partition, in order, and each
   * owner is a known, available device.
   */
  lemma RunProgress(w: World, steps: seq<Step>, i: nat)
    requires Inv(w) && i < |Sched(Run(w, steps)).lanes|
    ensures var v := Run(w, steps);
            var lane := Sched(v).lanes[i];
            && AcceptedNonces(v.log, Sched(v).generation, i)
               == FirstNonces(i, |Sched(v).lanes|, lane.nextIteration)
            && lane.owner in Sched(v).devices && lane.owner !in Sched(v).unavailable
  {
    hide Run;
    RunInv(w, steps);
    assert LaneOk(Sched(Run(w, steps)), i);
  }

  ghost predicate AllExhausted(s: Schedule) {
    forall i :: 0 <= i < |s.lanes| ==> Nonce(i, |s.lanes|, s.lanes[i].nextIteration) >= s.maxTries
  }

  /** Some accepted event of this generation carries nonce `x`. */
  ghost predicate AcceptedIn(log: seq<Event>, generation: u64, x: int) {
    exists i :: 0 <= i < |log| && log[i].Accepted? && log[i].ticket.generation == generation && log[i].ticket.nonce == x
  }

  /**
   * Exactly-once coverage: in any run no nonce is accepted twice in a generation, no
   * accepted nonce is out of range, and once every lane is exhausted all nonces
   * below `maxTries` have been accepted.
   */
  lemma ExactCoverage(w: World, steps: seq<Step>)
    requires Inv(w)
    ensures var v := Run(w, steps);
            && AcceptedOnce(v.log)
            && (forall x :: AcceptedIn(v.log, Sched(v).generation, x) ==> 0 <= x < Sched(v).maxTries)
            && (AllExhausted(Sched(v)) ==>
                  forall x :: 0 <= x < Sched(v).maxTries ==> AcceptedIn(v.log, Sched(v).generation, x))
  {
    hide Run;
    RunInv(w, steps);
    var v := Run(w, steps);
    forall x | AcceptedIn(v.log, Sched(v).generation, x)
      ensures 0 <= x < Sched(v).maxTries
    {
      var i :| 0 <= i < |v.log| && v.log[i].Accepted?
               && v.log[i].ticket.generation == Sched(v).generation && v.log[i].ticket.nonce == x;
      AcceptedInRange(Sched(v), v.log, v.log[i].ticket);
    }
    if AllExhausted(Sched(v)) {
      forall x | 0 <= x < Sched(v).maxTries
        ensures AcceptedIn(v.log, Sched(v).generation, x)
      {
        ExhaustedCovers(Sched(v), v.log, x);
      }
    }
  }

  lemma NonceGrows(lane: nat, lanes: nat, i: nat, j: nat)
    requires i <= j
    ensures Nonce(lane, lanes, i) <= Nonce(lane, lanes, j)
  {
    if i < j {
      MulStep(lanes, i, j);
    }
  }

  lemma AcceptedInRange(s: Schedule, log: seq<Event>, t: Ticket)
    requires WellFormed(s) && LogOk(s, log) && Accepted(t) in log && t.generation == s.generation
    ensures t.nonce < s.maxTries
  {
    assert Past(s, Accepted(t).ticket);
    assert LaneOk(s, t.lane);
    AcceptedInNonces(log, t);
    var n := s.lanes[t.lane].nextIteration;
    assert AcceptedNonces(log, s.generation, t.lane) == FirstNonces(t.lane, |s.lanes|, n);
    var k :| 0 <= k < n && Nonce(t.lane, |s.lanes|, k) == t.nonce;
    NonceGrows(t.lane, |s.lanes|, k, n - 1);
  }

  lemma ExhaustedCovers(s: Schedule, log: seq<Event>, x: nat)
    requires WellFormed(s) && LogOk(s, log) && AllExhausted(s) && x < s.maxTries
    ensures AcceptedIn(log, s.generation, x)
  {
    var n := |s.lanes|;
    var l, k := x % n, x / n;
    NonceCovered(n, x);
    var done := s.lanes[l].nextIteration;
    assert Nonce(l, n, done) >= s.maxTries;
    if done <= k {
      NonceGrows(l, n, done, k);
      assert false;
    }
    assert AcceptedNonces(log, s.generation, l) == FirstNonces(l, n, done);
    assert FirstNonces(l, n, done)[k] == x;
    var t := NoncesAccepted(log, s.generation, l, x);
    var i :| 0 <= i < |log| && log[i] == Accepted(t);
  }

  // ---------- stale tickets ----------

  /** An issued ticket that is no longer in flight. */
  ghost predicate Dead(s: Schedule, t: Ticket) {
    Past(s, t) && (t.generation == s.generation ==> s.lanes[t.lane].inFlight != Some(t))
  }

  lemma DeadRejected(s: Schedule, t: Ticket)
    requires Dead(s, t)
    ensures Complete(s, t).Err?
  {
  }

  lemma DeadAfterDispatch(s: Schedule, i: nat, t: Ticket)
    requires WellFormed(s) && Dead(s, t)
    ensures Dead(Dispatch(s, i).schedule, t)
  {
  }

  lemma DeadAfterComplete(s: Schedule, t': Ticket, t: Ticket)
    requires WellFormed(s) && Dead(s, t) && Complete(s, t').Ok?
    ensures Dead(Complete(s, t').value, t)
  {
  }

  lemma DeadAfterRedistribute(s: Schedule, d: Device, t: Ticket)
    requires WellFormed(s) && Dead(s, t) && Redistribute(s, d).Ok?
    ensures Dead(Redistribute(s, d).value, t)
  {
    hide Rehome;
    RedistributeKeeps(s, d);
    if t.generation == s.generation {
      RehomeLane(s.lanes, d, AvailableSet(s) - {d}, 0, t.lane);
    }
  }

  /** A dead ticket stays dead, and its completion is not accepted by the step. */
  lemma DeadStays(w: World, step: Step, t: Ticket)
    requires WellFormed(Sched(w)) && Dead(Sched(w), t)
    ensures Dead(Sched(Next(w, step)), t)
    ensures w.log <= Next(w, step).log
    ensures forall i :: |w.log| <= i < |Next(w, step).log| ==> Next(w, step).log[i] != Accepted(t)
  {
    hide WellFormed, Redistribute, Refresh, Dispatch;
    WellFormedDevices(w);
    var s := Sched(w);
    match step
    case DispatchStep(i) => DeadAfterDispatch(s, i, t);
    case CompleteStep(t') =>
      DeadRejected(s, t);
      if Complete(s, t').Ok? { DeadAfterComplete(s, t', t); }
    case ControlStep(DeviceFailure(d)) => if Redistribute(s, d).Ok? { DeadAfterRedistribute(s, d, t); }
    case ControlStep(DeviceRecovery(d)) =>
    case ControlStep(JobRefresh(m)) => if Refresh(s, m).Ok? { RefreshGeneration(s, m); }
    case ControlStep(Reconnect(m)) => if Refresh(s, m).Ok? { RefreshGeneration(s, m); }
  }

  /** No later state of any run accepts a dead ticket. */
  lemma {:induction false} DeadForever(w: World, steps: seq<Step>, t: Ticket)
    requires WellFormed(Sched(w)) && Dead(Sched(w), t)
    ensures Dead(Sched(Run(w, steps)), t)
    ensures Complete(Sched(Run(w, steps)), t).Err?
    ensures w.log <= Run(w, steps).log
    ensures forall i :: |w.log| <= i < |Run(w, steps).log| ==> Run(w, steps).log[i] != Accepted(t)
    decreases |steps|
  {
    hide Next, WellFormed, Dead, Complete;
    WellFormedDevices(w);
    if steps == [] {
      DeadRejected(Sched(w), t);
    } else {
      var v := Next(w, steps[0]);
      NextKeeps(w, steps[0]);
      DeadStays(w, steps[0], t);
      DeadForever(v, steps[1..], t);
      var r := Run(v, steps[1..]);
      forall i | |w.log| <= i < |r.log|
        ensures r.log[i] != Accepted(t)
      {
        if i < |v.log| {
          assert r.log[i] == v.log[i];
        }
      }
    }
  }

  /** Every issued ticket is in flight or dead. */
  lemma IssuedInFlightOrDead(w: World, t: Ticket)
    requires Inv(w) && Issued(t) in w.log
    ensures Dead(Sched(w), t) || (t.lane < |Sched(w).lanes| && Sched(w).lanes[t.lane].inFlight == Some(t))
  {
    assert Past(Sched(w), Issued(t).ticket);
  }

  /**
   * A ticket is gone for good once it is completed, once its owner is redistributed,
   * or once the job is refreshed or reconnected.
   */
  lemma TicketsDie(w: World, t: Ticket, step: Step)
    requires Inv(w) && Issued(t) in w.log
    requires
      || (step == CompleteStep(t) && Complete(Sched(w), t).Ok?)
      || (step == ControlStep(DeviceFailure(t.owner)) && Redistribute(Sched(w), t.owner).Ok?)
      || (exists m :: step == ControlStep(JobRefresh(m)) && Refresh(Sched(w), m).Ok?)
      || (exists m :: step == ControlStep(Reconnect(m)) && Refresh(Sched(w), m).Ok?
                      && w.controller.reconnectEpoch < MAX_U64)
    ensures Dead(Sched(Next(w, step)), t)
  {
    hide Rehome, Refresh;
    var s := Sched(w);
    assert Past(s, Issued(t).ticket);
    if step == ControlStep(DeviceFailure(t.owner)) && t.generation == s.generation {
      RedistributeKeeps(s, t.owner);
      assert LaneOk(s, t.lane);
      RehomeLane(s.lanes, t.owner, AvailableSet(s) - {t.owner}, 0, t.lane);
    }
    if step.ControlStep? && (step.control.JobRefresh? || step.control.Reconnect?) {
      RefreshGeneration(s, step.control.maxTries);
    }
  }

  /** (generation, lane, epoch) is never issued twice in a run. */
  lemma NeverIssuedTwice(w: World, steps: seq<Step>)
    requires Inv(w)
    ensures IssuedOnce(Run(w, steps).log)
  {
    hide Run;
    RunInv(w, steps);
  }

  /** Redistribution replays the interrupted nonce on another device under a new epoch. */
  lemma ReplaysInterrupted(s: Schedule, t: Ticket)
    requires WellFormed(s) && t.lane < |s.lanes| && s.lanes[t.lane].inFlight == Some(t)
    requires Redistribute(s, t.owner).Ok? && s.lanes[t.lane].nextEpoch < MAX_U64
    ensures var d := Dispatch(Redistribute(s, t.owner).value, t.lane);
            && d.result.Ok? && d.result.value.Some?
            && var t' := d.result.value.value;
            t'.nonce == t.nonce && t'.owner != t.owner && t'.epoch == t.epoch + 1
  {
    hide Rehome;
    assert LaneOk(s, t.lane);
    RedistributeKeeps(s, t.owner);
    RehomeLane(s.lanes, t.owner, AvailableSet(s) - {t.owner}, 0, t.lane);
    var lane := Redistribute(s, t.owner).value.lanes[t.lane];
    LiveLaneYields(lane.partition, lane.nextIteration);
  }

  // ---------- balance ----------

  /** Loads of any two devices of a set differ by at most `gap`. */
  ghost predicate Balanced(lanes: seq<Lane>, ds: set<Device>, gap: nat) {
    forall x, y :: x in ds && y in ds ==> Load(lanes, x) <= Load(lanes, y) + gap
  }

  lemma {:induction false} LoadUpdate(lanes: seq<Lane>, i: nat, lane: Lane, d: Device)
    requires i < |lanes|
    ensures Load(lanes[i := lane], d) ==
            Load(lanes, d) - (if lanes[i].owner == d then 1 else 0) + (if lane.owner == d then 1 else 0)
  {
    var n := |lanes| - 1;
    var r := lanes[i := lane];
    if i < n {
      LoadUpdate(lanes[..n], i, lane, d);
      assert r[..n] == lanes[..n][i := lane];
    } else {
      assert r[..n] == lanes[..n];
    }
  }

  /** Redistribution never widens the gap among survivors beyond one. */
  lemma {:induction false} RehomeBalanced(
      lanes: seq<Lane>, failed: Device, healthy: set<Device>, i: nat, gap: nat)
    requires healthy != {} && failed !in healthy && i <= |lanes|
    requires gap >= 1 && Balanced(lanes, healthy, gap)
    ensures Balanced(Rehome(lanes, failed, healthy, i), healthy, gap)
    decreases |lanes| - i
  {
    if i < |lanes| {
      if lanes[i].owner == failed {
        var m := LeastLoaded(lanes, healthy);
        var lane := lanes[i].(owner := m, inFlight := None);
        forall x, y | x in healthy && y in healthy
          ensures Load(lanes[i := lane], x) <= Load(lanes[i := lane], y) + gap
        {
          LoadUpdate(lanes, i, lane, x);
          LoadUpdate(lanes, i, lane, y);
        }
        RehomeBalanced(lanes[i := lane], failed, healthy, i + 1, gap);
      } else {
        RehomeBalanced(lanes, failed, healthy, i + 1, gap);
      }
    }
  }

  lemma RedistributeBalanced(s: Schedule, d: Device, gap: nat)
    requires Redistribute(s, d).Ok? && Balanced(s.lanes, AvailableSet(s) - {d}, gap)
    ensures Balanced(Redistribute(s, d).value.lanes, AvailableSet(Redistribute(s, d).value), if gap > 1 then gap else 1)
  {
    hide Rehome, Load;
    RehomeBalanced(s.lanes, d, AvailableSet(s) - {d}, 0, if gap > 1 then gap else 1);
    assert AvailableSet(Redistribute(s, d).value) == AvailableSet(s) - {d};
  }

  lemma {:induction false} LoadSameOwners(a: seq<Lane>, b: seq<Lane>, d: Device)
    requires |a| == |b| && forall i :: 0 <= i < |a| ==> a[i].owner == b[i].owner
    ensures Load(a, d) == Load(b, d)
  {
    if a != [] {
      LoadSameOwners(a[..|a| - 1], b[..|b| - 1], d);
    }
  }

  /** A device that owns at most one lane has load at most one. */
  lemma {:induction false} LoadDistinct(lanes: seq<Lane>, d: Device)
    requires forall i, j :: 0 <= i < j < |lanes| ==> lanes[i].owner != lanes[j].owner
    ensures Load(lanes, d) <= 1
    ensures Load(lanes, d) == 1 ==> exists i :: 0 <= i < |lanes| && lanes[i].owner == d
  {
    if lanes != [] {
      LoadDistinct(lanes[..|lanes| - 1], d);
    }
  }

  lemma BuildBalanced(devices: seq<Device>, unavailable: set<Device>, maxTries: u64, generation: u64)
    requires |devices| <= MAX_U64
    requires Build(devices, unavailable, maxTries, generation).Ok?
    ensures var s := Build(devices, unavailable, maxTries, generation).value;
            Balanced(s.lanes, AvailableSet(s), 1)
  {
    var s := Build(devices, unavailable, maxTries, generation).value;
    BuildKeeps(devices, unavailable, maxTries, generation);
    var healthy := Available(s.devices, unavailable);
    AvailableCanonical(s.devices, unavailable);
    forall i, j | 0 <= i < j < |s.lanes|
      ensures s.lanes[i].owner != s.lanes[j].owner
    {
      assert s.lanes[i].owner == healthy[i] && s.lanes[j].owner == healthy[j];
      assert DeviceLess(healthy[i], healthy[j]);
    }
    forall x
      ensures Load(s.lanes, x) <= 1
    {
      LoadDistinct(s.lanes, x);
    }
  }

  ghost predicate InBalance(w: World) {
    Balanced(Sched(w).lanes, AvailableSet(Sched(w)), 1)
  }

  lemma SameOwnersBalanced(s: Schedule, s': Schedule)
    requires Balanced(s.lanes, AvailableSet(s), 1) && AvailableSet(s') == AvailableSet(s)
    requires |s.lanes| == |s'.lanes| && forall i :: 0 <= i < |s.lanes| ==> s.lanes[i].owner == s'.lanes[i].owner
    ensures Balanced(s'.lanes, AvailableSet(s'), 1)
  {
    forall x
      ensures Load(s.lanes, x) == Load(s'.lanes, x)
    {
      LoadSameOwners(s.lanes, s'.lanes, x);
    }
  }

  lemma NextInBalance(w: World, step: Step)
    requires WellFormed(Sched(w)) && InBalance(w)
    requires !(step.ControlStep? && step.control.DeviceRecovery?)
    ensures InBalance(Next(w, step))
  {
    hide Redistribute, Rehome, Build, Load;
    var s := Sched(w);
    match step
    case DispatchStep(i) => SameOwnersBalanced(s, Dispatch(s, i).schedule);
    case CompleteStep(t) => if Complete(s, t).Ok? { SameOwnersBalanced(s, Complete(s, t).value); }
    case ControlStep(DeviceFailure(d)) => if Redistribute(s, d).Ok? { RedistributeBalanced(s, d, 1); }
    case ControlStep(JobRefresh(m)) => RefreshBalanced(s, m);
    case ControlStep(Reconnect(m)) => RefreshBalanced(s, m);
  }

  lemma RefreshBalanced(s: Schedule, m: u64)
    requires WellFormed(s)
    ensures Refresh(s, m).Ok? ==> Balanced(Refresh(s, m).value.lanes, AvailableSet(Refresh(s, m).value), 1)
  {
    if Refresh(s, m).Ok? {
      BuildBalanced(s.devices, s.unavailable, m, s.generation + 1);
    }
  }

  /** Without a recovery, loads never differ by more than one, whatever fails. */
  lemma {:induction false} RunInBalance(w: World, steps: seq<Step>)
    requires WellFormed(Sched(w)) && InBalance(w)
    requires forall c :: c in steps ==> !(c.ControlStep? && c.control.DeviceRecovery?)
    ensures InBalance(Run(w, steps))
    decreases |steps|
  {
    hide Next, InBalance, WellFormed;
    WellFormedDevices(w);
    if steps != [] {
      assert steps[0] in steps;
      NextInBalance(w, steps[0]);
      NextKeeps(w, steps[0]);
      RunInBalance(Next(w, steps[0]), steps[1..]);
    }
  }

  /** A recovery that took effect since the last restart that did, given one pending at `w` or not. */
  ghost predicate Recovered(w: World, steps: seq<Step>, pending: bool)
    requires WellFormed(Sched(w))
    decreases |steps|
  {
    if steps == [] then pending
    else
      NextKeeps(w, steps[0]);
      Recovered(Next(w, steps[0]), steps[1..], RecoveredBy(w, steps[0], pending))
  }

  ghost predicate RecoveredBy(w: World, step: Step, pending: bool)
    requires |Sched(w).devices| <= MAX_U64
  {
    if !step.ControlStep? || Apply(w.controller, step.control).Err? then pending
    else step.control.DeviceRecovery? || (pending && step.control.DeviceFailure?)
  }

  /** One step keeps loads balanced unless a recovery took effect. */
  lemma StepInBalance(w: World, step: Step, pending: bool)
    requires WellFormed(Sched(w)) && (!pending ==> InBalance(w))
    ensures !RecoveredBy(w, step, pending) ==> InBalance(Next(w, step))
  {
    hide InBalance, Redistribute, Build;
    if !RecoveredBy(w, step, pending) {
      if pending {
        RestartBalances(w, step.control);
      } else if step.ControlStep? && step.control.DeviceRecovery? {
        assert Next(w, step) == w;
      } else {
        NextInBalance(w, step);
      }
    }
  }

  /** A restart that takes effect balances any well-formed schedule. */
  lemma RestartBalances(w: World, c: Control)
    requires WellFormed(Sched(w)) && (c.JobRefresh? || c.Reconnect?) && Apply(w.controller, c).Ok?
    ensures InBalance(Next(w, ControlStep(c)))
  {
    hide Build;
    RefreshBalanced(Sched(w), c.maxTries);
  }

  lemma {:induction false} GenerationInBalance(w: World, steps: seq<Step>, pending: bool)
    requires WellFormed(Sched(w)) && (!pending ==> InBalance(w))
    ensures !Recovered(w, steps, pending) ==> InBalance(Run(w, steps))
    decreases |steps|
  {
    hide Next, InBalance, WellFormed, RecoveredBy;
    WellFormedDevices(w);
    if steps != [] {
      NextKeeps(w, steps[0]);
      StepInBalance(w, steps[0], pending);
      GenerationInBalance(Next(w, steps[0]), steps[1..], RecoveredBy(w, steps[0], pending));
    }
  }

  /**
   * In every run from a fresh controller, loads are within one of each other
   * unless a recovery has taken effect in the current generation.
   */
  lemma StartRunInBalance(w: World, steps: seq<Step>)
    requires Start(w)
    ensures Inv(w) && (!Recovered(w, steps, false) ==> InBalance(Run(w, steps)))
  {
    StartInv(w);
    var devices: seq<Device>, maxTries: u64 :|
      |devices| <= MAX_U64 && Build(devices, {}, maxTries, 0) == Ok(Sched(w));
    BuildBalanced(devices, {}, maxTries, 0);
    GenerationInBalance(w, steps, false);
  }

  lemma {:induction false} RunConcat(w: World, a: seq<Step>, b: seq<Step>)
    requires WellFormed(Sched(w))
    ensures Run(w, a + b) == Run(Run(w, a), b)
    decreases |a|
  {
    hide Next, WellFormed;
    WellFormedDevices(w);
    if a == [] {
      assert a + b == b;
    } else {
      NextKeeps(w, a[0]);
      assert (a + b)[1..] == a[1..] + b;
      RunConcat(Next(w, a[0]), a[1..], b);
    }
  }

  /** Whatever happened before a restart, loads stay within one of each other after it until a recovery. */
  lemma RestartInBalance(w: World, before: seq<Step>, c: Control, after: seq<Step>)
    requires WellFormed(Sched(w)) && (c.JobRefresh? || c.Reconnect?)
    requires Apply(Run(w, before).controller, c).Ok?
    requires forall x :: x in after ==> !(x.ControlStep? && x.control.DeviceRecovery?)
    ensures InBalance(Run(w, before + ([ControlStep(c)] + after)))
  {
    hide Next, InBalance, WellFormed, Apply;
    var v, restart := Run(w, before), ControlStep(c);
    RunConcat(w, before, [restart] + after);
    WellFormedDevices(v);
    NextKeeps(v, restart);
    RestartBalances(v, c);
    assert ([restart] + after)[1..] == after;
    RunInBalance(Next(v, restart), after);
  }

  /** A recovery moves no lanes: it leaves loads balanced exactly when no available device owns two lanes. */
  lemma RecoveryBalance(s: Schedule, d: Device)
    requires WellFormed(s) && Recover(s, d).Ok?
    ensures Balanced(Recover(s, d).value.lanes, AvailableSet(Recover(s, d).value), 1)
            <==> forall x :: x in AvailableSet(s) ==> Load(s.lanes, x) <= 1
  {
    UnavailableOwnsNothing(s, d);
    hide Load;
    assert AvailableSet(Recover(s, d).value) == AvailableSet(s) + {d};
  }

  /** Unavailable devices own nothing. */
  lemma UnavailableOwnsNothing(s: Schedule, d: Device)
    requires WellFormed(s) && d in s.unavailable
    ensures Load(s.lanes, d) == 0
  {
    forall i | 0 <= i < |s.lanes|
      ensures s.lanes[i].owner != d
    {
      assert LaneOk(s, i);
    }
    NoLanes(s.lanes, d);
  }

  lemma {:induction false} NoLanes(lanes: seq<Lane>, d: Device)
    requires forall i :: 0 <= i < |lanes| ==> lanes[i].owner != d
    ensures Load(lanes, d) == 0
  {
    if lanes != [] {
      NoLanes(lanes[..|lanes| - 1], d);
    }
  }

  // ---------- a recovery that unbalances ----------

  const FIRST := Device(Cuda, 0)
  const SECOND := Device(Cuda, 1)

  /** Two devices, two lanes. */
  function TwoLanes(owner: Device): seq<Lane> {
    [Lane(0, owner, Partition(0, 2, 2), 0, None, 0), Lane(1, SECOND, Partition(1, 2, 2), 0, None, 0)]
  }

  function TwoDevices(unavailable: set<Device>, owner: Device): World {
    World(Controller(Schedule([FIRST, SECOND], unavailable, TwoLanes(owner), 2, 0), 0), [])
  }

  lemma TwoDevicesStart()
    ensures Build([FIRST, SECOND], {}, 2, 0) == Ok(Sched(TwoDevices({}, FIRST)))
    ensures Start(TwoDevices({}, FIRST))
  {
    var devices := [FIRST, SECOND];
    assert devices[1..] == [SECOND] && [SECOND][1..] == [];
    assert SortDevices([SECOND]) == [SECOND];
    assert SortDevices(devices) == devices;
    assert Available(devices, {}) == devices;
    assert FreshLanes(2, 2, devices) == TwoLanes(FIRST);
    assert Build(devices, {}, 2, 0) == Ok(Sched(TwoDevices({}, FIRST)));
  }

  lemma FirstFails()
    ensures Next(TwoDevices({}, FIRST), ControlStep(DeviceFailure(FIRST))) == TwoDevices({FIRST}, SECOND)
  {
    var lanes := TwoLanes(FIRST);
    var s := Sched(TwoDevices({}, FIRST));
    assert AvailableSet(s) - {FIRST} == {SECOND};
    var moved := lanes[0 := lanes[0].(owner := SECOND, inFlight := None)];
    assert LeastLoaded(lanes, {SECOND}) == SECOND;
    assert Rehome(lanes, FIRST, {SECOND}, 0) == Rehome(moved, FIRST, {SECOND}, 1);
    assert Rehome(moved, FIRST, {SECOND}, 1) == Rehome(moved, FIRST, {SECOND}, 2) == moved;
    assert moved == TwoLanes(SECOND);
  }

  lemma FirstRecovers()
    ensures Next(TwoDevices({FIRST}, SECOND), ControlStep(DeviceRecovery(FIRST))) == TwoDevices({}, SECOND)
  {
    assert {FIRST} - {FIRST} == {};
  }

  lemma TwoAgainstNone()
    ensures !InBalance(TwoDevices({}, SECOND))
  {
    var lanes := TwoLanes(SECOND);
    assert lanes[..1] == [lanes[0]] && [lanes[0]][..0] == [];
    assert Load([lanes[0]], SECOND) == 1 && Load([lanes[0]], FIRST) == 0;
    assert Load(lanes, SECOND) == 2 && Load(lanes, FIRST) == 0;
    var available := AvailableSet(Sched(TwoDevices({}, SECOND)));
    assert FIRST in available && SECOND in available;
  }

  /** Two devices, one failure, one recovery: the second device is left with both lanes. */
  lemma RecoveryUnbalances()
    ensures var steps := [ControlStep(DeviceFailure(FIRST)), ControlStep(DeviceRecovery(FIRST))];
            var w := TwoDevices({}, FIRST);
            && Start(w) && WellFormed(Sched(w))
            && Run(w, steps) == TwoDevices({}, SECOND)
            && !InBalance(Run(w, steps))
  {
    hide TwoDevices, InBalance, Next, Start, Inv, WellFormed;
    var w, v := TwoDevices({}, FIRST), TwoDevices({FIRST}, SECOND);
    var fail, recover := ControlStep(DeviceFailure(FIRST)), ControlStep(DeviceRecovery(FIRST));
    TwoDevicesStart();
    StartInv(w);
    InvWellFormed(w);
    WellFormedDevices(w);
    NextKeeps(w, fail);
    FirstFails();
    WellFormedDevices(v);
    NextKeeps(v, recover);
    FirstRecovers();
    assert [fail, recover][1..] == [recover] && [recover][1..] == [];
    assert Run(v, [recover]) == Run(TwoDevices({}, SECOND), []);
    TwoAgainstNone();
  }
}
