/** The loop that turns wakeups into dispatcher pumps, one at a time.

    `Step` is what one uninterrupted piece of the loop's code does: a call from
    outside, a promise settling, or a queued continuation. A wakeup that the
    dispatcher makes from inside `pump()` is simply the next event, because the
    active pump is installed before the dispatcher is called. */
module DispatchLoop {
  import opened Options

  datatype Phase = Stopped | Starting | Running | Stopping | Failed
  datatype FailurePhase = AtStartup | AtWakeup | AtInterval | AtDrain
  datatype Failure = Failure(phase: FailurePhase, error: int)

  /** `start`'s promise chain: nothing yet, the dispatcher's recovery, or the initial pump. */
  datatype Startup = NotStarted | Recovering | AwaitingPump(pump: nat) | StartupReady | StartupOver

  /** `stop`'s promise: the dispatcher drains, the pump queue empties, the result is recorded. */
  datatype Shutdown = NoStop | Draining | AwaitingQueue | QueueEmpty | Settled

  /** The operation in `#activePump`: its number, why it was asked for, and
      whether its promise has settled while `#finishPump` is still queued. */
  datatype Pump = Pump(number: nat, phase: FailurePhase, settled: bool)

  /** The loop's fields and its ledger: pumps started, and for every accepted
      request how many pumps had been started before it. */
  datatype State = State(
    phase: Phase, failure: Option<Failure>, accepting: bool, active: Option<Pump>,
    pendingWake: bool, pendingPhase: Option<FailurePhase>, startup: Startup, shutdown: Shutdown,
    drained: bool, started: nat, accepted: seq<nat>)

  datatype Event =
    | CallStart
    | Request(phase: FailurePhase)
    | CallStop
    | RecoveryResolved
    | RecoveryRejected(error: int)
    | PumpResolved
    | PumpRejected(error: int)
    | FinishPump
    | ContinueStartup
    | DrainResolved(drained: bool)
    | DrainRejected(error: int)
    | QueueObservedEmpty
    | RecordDrain
    | ForgetStop

  const INITIAL := State(Stopped, None, false, None, false, None, NotStarted, NoStop, false, 0, [])

  predicate Open(phase: Phase) {
    phase == Starting || phase == Running
  }

  function FailClosed(s: State, failure: Failure): State {
    if s.failure.Some? then s
    else s.(failure := Some(failure), accepting := false, pendingWake := false,
            pendingPhase := None, phase := Failed)
  }

  function SchedulePump(s: State, phase: FailurePhase, allowStopping: bool): State {
    if !allowStopping && !Open(s.phase) then s
    else if s.active.Some? then
      s.(pendingWake := true, pendingPhase := if s.pendingPhase.Some? then s.pendingPhase else Some(phase))
    else s.(active := Some(Pump(s.started + 1, phase, false)), started := s.started + 1)
  }

  function BeginStart(recovers: bool, s: State): State {
    if s.phase != Stopped || s.drained then s
    else
      var s := s.(accepting := true, phase := Starting);
      if recovers then s.(startup := Recovering)
      else
        var s := SchedulePump(s, AtStartup, false);
        s.(startup := AwaitingPump(s.started))
  }

  function HandleRequest(s: State, phase: FailurePhase): State {
    if !s.accepting || !Open(s.phase) then s
    else SchedulePump(s.(accepted := s.accepted + [s.started]), phase, false)
  }

  function BeginStop(s: State): State {
    if s.shutdown != NoStop || s.drained then s
    else s.(accepting := false, phase := if s.phase == Failed then Failed else Stopping, shutdown := Draining)
  }

  /** `#finishPump` of the active operation. */
  function Finish(s: State): State {
    var idle := s.(active := None);
    if !s.pendingWake then idle
    else
      var phase := if s.pendingPhase.Some? then s.pendingPhase.value else AtWakeup;
      var idle := idle.(pendingWake := false, pendingPhase := None);
      if Open(s.phase) || s.phase == Stopping then SchedulePump(idle, phase, s.phase == Stopping) else idle
  }

  function Continue(recovers: bool, s: State): State {
    var s := s.(startup := StartupOver);
    if s.phase != Starting then s
    else
      var s := s.(phase := Running);
      if recovers then SchedulePump(s, AtWakeup, false) else s
  }

  function SettlePump(s: State, failed: Option<int>): State
    requires s.active.Some?
  {
    var pump := s.active.value;
    var s := if failed.Some? then FailClosed(s, Failure(pump.phase, failed.value)) else s;
    s.(active := Some(pump.(settled := true)),
       startup := if s.startup == AwaitingPump(pump.number)
                  then (if failed.Some? then StartupOver else StartupReady) else s.startup)
  }

  predicate Enabled(s: State, e: Event) {
    match e
    case RecoveryResolved => s.startup == Recovering
    case RecoveryRejected(_) => s.startup == Recovering
    case PumpResolved => s.active.Some? && !s.active.value.settled
    case PumpRejected(_) => s.active.Some? && !s.active.value.settled
    case FinishPump => s.active.Some? && s.active.value.settled
    case ContinueStartup => s.startup == StartupReady
    case DrainResolved(_) => s.shutdown == Draining
    case DrainRejected(_) => s.shutdown == Draining
    case QueueObservedEmpty => s.shutdown == AwaitingQueue && s.active.None? && !s.pendingWake
    case RecordDrain => s.shutdown == QueueEmpty
    case ForgetStop => s.shutdown == Settled
    case Request(phase) => phase == AtWakeup || phase == AtInterval
    case _ => true
  }

  /** `recovers` says whether the dispatcher offers a recovery scan. */
  function Step(recovers: bool, s: State, e: Event): State
    requires Enabled(s, e)
  {
    match e
    case CallStart => BeginStart(recovers, s)
    case Request(phase) => HandleRequest(s, phase)
    case CallStop => BeginStop(s)
    case RecoveryResolved => s.(startup := StartupReady)
    case RecoveryRejected(error) => FailClosed(s, Failure(AtStartup, error)).(startup := StartupOver)
    case PumpResolved => SettlePump(s, None)
    case PumpRejected(error) => SettlePump(s, Some(error))
    case FinishPump => Finish(s)
    case ContinueStartup => Continue(recovers, s)
    case DrainResolved(drained) => s.(shutdown := if drained then AwaitingQueue else Settled)
    case DrainRejected(error) => FailClosed(s, Failure(AtDrain, error)).(shutdown := Settled)
    case QueueObservedEmpty => s.(shutdown := QueueEmpty)
    case RecordDrain =>
      s.(phase := if s.phase == Stopping then Stopped else s.phase, drained := true, shutdown := Settled)
    case ForgetStop => s.(shutdown := NoStop)
  }

  // ------------------------------------------------------------- the object

  /** The loop object; `pumpCalls` and `requests` record what it did. */
  class ProductionRunDispatchLoop {
    const recovers: bool
    var phase: Phase
    var failure: Option<Failure>
    var accepting: bool
    var active: Option<Pump>
    var pendingWake: bool
    var pendingPhase: Option<FailurePhase>
    var startup: Startup
    var shutdown: Shutdown
    var drained: bool
    var pumpCalls: nat
    ghost var requests: seq<nat>

    ghost function View(): State
      reads this
    {
      State(phase, failure, accepting, active, pendingWake, pendingPhase, startup, shutdown,
            drained, pumpCalls, requests)
    }

    constructor (recovers: bool)
      ensures this.recovers == recovers && View() == INITIAL
    {
      this.recovers := recovers;
      phase, failure, accepting, active := Stopped, None, false, None;
      pendingWake, pendingPhase := false, None;
      startup, shutdown, drained := NotStarted, NoStop, false;
      pumpCalls, requests := 0, [];
    }

    method FailAt(at: FailurePhase, error: int)
      modifies this
      ensures View() == FailClosed(old(View()), Failure(at, error))
    {
      if failure.Some? { return; }
      failure := Some(Failure(at, error));
      accepting := false;
      pendingWake := false;
      pendingPhase := None;
      phase := Failed;
    }

    method RequestPump(why: FailurePhase, allowStopping: bool)
      modifies this
      ensures View() == SchedulePump(old(View()), why, allowStopping)
    {
      if !allowStopping && phase != Starting && phase != Running { return; }
      if active.Some? {
        pendingWake := true;
        if pendingPhase.None? { pendingPhase := Some(why); }
        return;
      }
      pumpCalls := pumpCalls + 1;
      active := Some(Pump(pumpCalls, why, false));
    }

    method Start()
      modifies this
      ensures View() == Step(recovers, old(View()), CallStart)
    {
      if phase != Stopped || drained { return; }
      accepting := true;
      phase := Starting;
      if recovers {
        startup := Recovering;
      } else {
        RequestPump(AtStartup, false);
        startup := AwaitingPump(pumpCalls);
      }
    }

    method RequestWakeup(why: FailurePhase) returns (accepts: bool)
      requires why == AtWakeup || why == AtInterval
      modifies this
      ensures View() == Step(recovers, old(View()), Request(why))
      ensures accepts <==> requests == old(requests) + [old(pumpCalls)]
      ensures !accepts ==> View() == old(View())
    {
      if !accepting || (phase != Starting && phase != Running) {
        return false;
      }
      requests := requests + [pumpCalls];
      RequestPump(why, false);
      return true;
    }

    method Stop()
      modifies this
      ensures View() == Step(recovers, old(View()), CallStop)
    {
      if shutdown != NoStop || drained { return; }
      accepting := false;
      if phase != Failed { phase := Stopping; }
      shutdown := Draining;
    }

    method SettlePump(error: Option<int>)
      requires active.Some? && !active.value.settled
      modifies this
      ensures View() == Step(recovers, old(View()), if error.Some? then PumpRejected(error.value) else PumpResolved)
    {
      var pump := active.value;
      if error.Some? { FailAt(pump.phase, error.value); }
      active := Some(pump.(settled := true));
      if startup == AwaitingPump(pump.number) {
        startup := if error.Some? then StartupOver else StartupReady;
      }
    }

    method FinishPump()
      requires Enabled(View(), Event.FinishPump)
      modifies this
      ensures View() == Step(recovers, old(View()), Event.FinishPump)
    {
      active := None;
      if !pendingWake { return; }
      var why := if pendingPhase.Some? then pendingPhase.value else AtWakeup;
      pendingWake := false;
      pendingPhase := None;
      if phase == Starting || phase == Running || phase == Stopping {
        RequestPump(why, phase == Stopping);
      }
    }

    method SettleRecovery(error: Option<int>)
      requires startup == Recovering
      modifies this
      ensures View() == Step(recovers, old(View()),
                          if error.Some? then RecoveryRejected(error.value) else RecoveryResolved)
    {
      if error.Some? {
        FailAt(AtStartup, error.value);
        startup := StartupOver;
      } else {
        startup := StartupReady;
      }
    }

    method ContinueStartup()
      requires startup == StartupReady
      modifies this
      ensures View() == Step(recovers, old(View()), Event.ContinueStartup)
    {
      startup := StartupOver;
      if phase != Starting { return; }
      phase := Running;
      if recovers { RequestPump(AtWakeup, false); }
    }

    method SettleDrain(result: Option<bool>, error: int)
      requires shutdown == Draining
      modifies this
      ensures View() == Step(recovers, old(View()),
                          if result.Some? then DrainResolved(result.value) else DrainRejected(error))
    {
      if result.None? {
        FailAt(AtDrain, error);
        shutdown := Settled;
      } else {
        shutdown := if result.value then AwaitingQueue else Settled;
      }
    }

    /** The body of `#waitForPumpQueue`, and the code after it. */
    method ContinueStop()
      requires shutdown == AwaitingQueue || shutdown == QueueEmpty
      modifies this
      ensures old(shutdown) == QueueEmpty ==> View() == Step(recovers, old(View()), RecordDrain)
      ensures old(shutdown) == AwaitingQueue ==>
                View() == if Enabled(old(View()), QueueObservedEmpty)
                          then Step(recovers, old(View()), QueueObservedEmpty) else old(View())
    {
      if shutdown == QueueEmpty {
        if phase == Stopping { phase := Stopped; }
        drained := true;
        shutdown := Settled;
      } else if active.None? && !pendingWake {
        shutdown := QueueEmpty;
      }
    }

    method ForgetStop()
      requires shutdown == Settled
      modifies this
      ensures View() == Step(recovers, old(View()), Event.ForgetStop)
    {
      shutdown := NoStop;
    }
  }
}
