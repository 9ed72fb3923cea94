/** What every run of the dispatch loop keeps. */
module DispatchLoopSafety {
  import opened Options
  import opened DispatchLoop

  predicate Runs(recovers: bool, s: State, es: seq<Event>)
    decreases |es|
  {
    es == [] || (Enabled(s, es[0]) && Runs(recovers, Step(recovers, s, es[0]), es[1..]))
  }

  function After(recovers: bool, s: State, es: seq<Event>): State
    requires Runs(recovers, s, es)
    decreases |es|
  {
    if es == [] then s else After(recovers, Step(recovers, s, es[0]), es[1..])
  }

  // ------------------------------------------------------------- invariant

  /** A pump started after this request, or is retained behind the active one. */
  predicate Served(s: State, request: nat) {
    request < s.started || (request == s.started && s.pendingWake && s.active.Some?)
  }

  /** While recovery runs, pumps are exactly what requests caused; while the
      initial pump runs, it is the only one. */
  predicate ScanOk(s: State) {
    && (s.startup == Recovering ==> (s.started > 0 <==> s.accepted != []))
    && (s.startup.AwaitingPump? ==> s.started == 1 == s.startup.pump && s.active.Some? && !s.active.value.settled)
  }

  ghost predicate Inv(recovers: bool, s: State) {
    && (s.phase == Failed <==> s.failure.Some?)
    && (s.accepting ==> Open(s.phase))
    && (s.pendingWake ==> s.active.Some? && s.phase != Failed)
    && (s.active.Some? ==> s.active.value.number == s.started > 0)
    && (Open(s.phase) ==> s.accepting && s.shutdown == NoStop && !s.drained)
    && (s.phase == Stopped ==> s.startup == NotStarted || s.drained)
    && (s.phase == Stopped && !s.drained ==> s.active.None? && s.shutdown == NoStop && s.started == 0)
    && (s.startup == NotStarted ==> s.phase != Starting && s.phase != Running && s.started == 0 && s.accepted == [])
    && (recovers ==> !s.startup.AwaitingPump?)
    && (!recovers ==> s.startup != Recovering)
    && (s.phase == Running ==> s.startup == StartupOver)
    && (s.phase == Starting ==> s.startup == Recovering || s.startup.AwaitingPump? || s.startup == StartupReady)
    && (s.shutdown == QueueEmpty || s.drained ==> s.active.None? && !s.pendingWake && !Open(s.phase))
    && (s.phase != Failed ==> forall i :: 0 <= i < |s.accepted| ==> Served(s, s.accepted[i]))
    && ScanOk(s)
    && s.started + (if s.pendingWake then 1 else 0) + (if StillToCome(recovers, s) then 1 else 0) <= |s.accepted| + 1
  }

  /** The unrequested pump has not been started yet. */
  predicate StillToCome(recovers: bool, s: State) {
    if recovers then s.startup == NotStarted || s.startup == Recovering || s.startup == StartupReady
    else s.startup == NotStarted
  }

  lemma StepKeepsInv(recovers: bool, s: State, e: Event)
    requires Inv(recovers, s) && Enabled(s, e)
    ensures Inv(recovers, Step(recovers, s, e))
  {
    match e
    case CallStart => CallKeepsInv(recovers, s, e);
    case Request(_) => CallKeepsInv(recovers, s, e);
    case CallStop => CallKeepsInv(recovers, s, e);
    case PumpResolved => SettlementKeepsInv(recovers, s, e);
    case PumpRejected(_) => SettlementKeepsInv(recovers, s, e);
    case FinishPump => FinishKeepsInv(recovers, s);
    case RecoveryResolved => StartupKeepsInv(recovers, s, e);
    case RecoveryRejected(_) => StartupKeepsInv(recovers, s, e);
    case ContinueStartup => StartupKeepsInv(recovers, s, e);
    case DrainResolved(_) => ShutdownKeepsInv(recovers, s, e);
    case DrainRejected(_) => ShutdownKeepsInv(recovers, s, e);
    case QueueObservedEmpty => ShutdownKeepsInv(recovers, s, e);
    case RecordDrain => ShutdownKeepsInv(recovers, s, e);
    case ForgetStop => ShutdownKeepsInv(recovers, s, e);
  }

  lemma CallKeepsInv(recovers: bool, s: State, e: Event)
    requires Inv(recovers, s) && Enabled(s, e) && (e.CallStart? || e.Request? || e.CallStop?)
    ensures Inv(recovers, Step(recovers, s, e))
  {
  }

  lemma SettlementKeepsInv(recovers: bool, s: State, e: Event)
    requires Inv(recovers, s) && Enabled(s, e) && (e.PumpResolved? || e.PumpRejected?)
    ensures Inv(recovers, Step(recovers, s, e))
  {
  }

  lemma FinishKeepsInv(recovers: bool, s: State)
    requires Inv(recovers, s) && Enabled(s, FinishPump)
    ensures Inv(recovers, Step(recovers, s, FinishPump))
  {
  }

  lemma StartupKeepsInv(recovers: bool, s: State, e: Event)
    requires Inv(recovers, s) && Enabled(s, e) && (e.RecoveryResolved? || e.RecoveryRejected? || e.ContinueStartup?)
    ensures Inv(recovers, Step(recovers, s, e))
  {
  }

  lemma ShutdownKeepsInv(recovers: bool, s: State, e: Event)
    requires Inv(recovers, s) && Enabled(s, e)
    requires e.DrainResolved? || e.DrainRejected? || e.QueueObservedEmpty? || e.RecordDrain? || e.ForgetStop?
    ensures Inv(recovers, Step(recovers, s, e))
  {
  }

  lemma {:induction false} RunKeepsInv(recovers: bool, s: State, es: seq<Event>)
    requires Inv(recovers, s) && Runs(recovers, s, es)
    ensures Inv(recovers, After(recovers, s, es))
    decreases |es|
  {
    if es != [] {
      StepKeepsInv(recovers, s, es[0]);
      RunKeepsInv(recovers, Step(recovers, s, es[0]), es[1..]);
    }
  }

  // --------------------------------------------------------------- theorems

  function Settles(e: Event): nat {
    if e.PumpResolved? || e.PumpRejected? then 1 else 0
  }

  /** Pump calls that settled during a run. */
  function Settlements(es: seq<Event>): nat {
    if es == [] then 0 else Settles(es[0]) + Settlements(es[1..])
  }

  /** Pump calls the loop is waiting for. */
  function InFlight(s: State): nat {
    if s.active.Some? && !s.active.value.settled then 1 else 0
  }

  lemma FlightsBalanceInStep(recovers: bool, s: State, e: Event)
    requires Inv(recovers, s) && Enabled(s, e)
    ensures s.started + InFlight(Step(recovers, s, e)) + Settles(e) == Step(recovers, s, e).started + InFlight(s)
  {
  }

  lemma {:induction false} FlightsBalance(recovers: bool, s: State, es: seq<Event>)
    requires Inv(recovers, s) && Runs(recovers, s, es)
    ensures s.started + InFlight(After(recovers, s, es)) + Settlements(es)
            == After(recovers, s, es).started + InFlight(s)
    decreases |es|
  {
    if es != [] {
      StepKeepsInv(recovers, s, es[0]);
      FlightsBalanceInStep(recovers, s, es[0]);
      FlightsBalance(recovers, Step(recovers, s, es[0]), es[1..]);
    }
  }

  /** Single flight: at every moment at most one pump call has not settled. */
  lemma SingleFlight(recovers: bool, es: seq<Event>)
    requires Runs(recovers, INITIAL, es)
    ensures 0 <= After(recovers, INITIAL, es).started - Settlements(es) <= 1
  {
    FlightsBalance(recovers, INITIAL, es);
  }

  /** No lost wakeup: once no pump is active, every accepted request was
      followed by a pump that started after it, unless the loop failed; and
      pumps never outnumber the accepted requests by more than one. */
  lemma EveryRequestIsServed(recovers: bool, es: seq<Event>)
    requires Runs(recovers, INITIAL, es)
    ensures var t := After(recovers, INITIAL, es);
      && t.started <= |t.accepted| + 1
      && (t.phase != Failed && t.active.None? ==>
            forall i :: 0 <= i < |t.accepted| ==> t.accepted[i] < t.started)
  {
    RunKeepsInv(recovers, INITIAL, es);
  }

  /** A retained wakeup needs nothing but the end of the active pump: if that
      pump does not fail, a pump that began after the request is the next thing. */
  lemma RetainedWakeupStartsNext(recovers: bool, es: seq<Event>)
    requires Runs(recovers, INITIAL, es)
    requires After(recovers, INITIAL, es).pendingWake
    requires After(recovers, INITIAL, es).active.Some? && !After(recovers, INITIAL, es).active.value.settled
    ensures var s := After(recovers, INITIAL, es);
      var t := Step(recovers, Step(recovers, s, PumpResolved), FinishPump);
      && t.started == s.started + 1 && t.active.Some? && !t.pendingWake
      && (forall i :: 0 <= i < |s.accepted| ==> s.accepted[i] < t.started)
  {
    RunKeepsInv(recovers, INITIAL, es);
  }

  /** Fail closed: the first failure stands, nothing is accepted, nothing starts. */
  lemma {:induction false} FailureIsFinal(recovers: bool, s: State, es: seq<Event>)
    requires Inv(recovers, s) && s.phase == Failed && Runs(recovers, s, es)
    ensures var t := After(recovers, s, es);
      t.phase == Failed && t.failure == s.failure && t.started == s.started && t.accepted == s.accepted
    decreases |es|
  {
    if es != [] {
      StepKeepsInv(recovers, s, es[0]);
      FailureIsFinal(recovers, Step(recovers, s, es[0]), es[1..]);
    }
  }

  /** A drained stop is final: no pump is active or retained, and none ever starts again. */
  lemma {:induction false} DrainedStopIsFinal(recovers: bool, s: State, es: seq<Event>)
    requires Inv(recovers, s) && s.drained && Runs(recovers, s, es)
    ensures var t := After(recovers, s, es);
      && t.drained && t.active.None? && !t.pendingWake && !Open(t.phase)
      && t.started == s.started && t.accepted == s.accepted
    decreases |es|
  {
    if es != [] {
      StepKeepsInv(recovers, s, es[0]);
      DrainedStopIsFinal(recovers, Step(recovers, s, es[0]), es[1..]);
    }
  }

  // ------------------------------------------- does the startup scan come first?

  /** No pump but the startup scan itself has started while that scan runs. */
  predicate ScanComesFirst(s: State) {
    && (s.startup == Recovering ==> s.started == 0)
    && (s.startup.AwaitingPump? ==> s.started == 1)
  }

  /** With a recovering dispatcher, a wakeup during the recovery pumps at once. */
  lemma PumpOvertakesRecovery()
    ensures var es := [CallStart, Request(AtWakeup)];
      Runs(true, INITIAL, es) && !ScanComesFirst(After(true, INITIAL, es))
  {
    var es := [CallStart, Request(AtWakeup)];
    var s := Step(true, INITIAL, es[0]);
    var rest := es[1..];
    assert rest == [Request(AtWakeup)] && rest[1..] == [];
    assert Runs(true, Step(true, s, rest[0]), rest[1..]);
    assert Runs(true, s, rest) && After(true, s, rest) == Step(true, s, rest[0]);
  }

  /** Whether a wakeup waits for the startup scan depends on the dispatcher: it
      does exactly when the scan is the initial pump and not a recovery. */
  lemma ScanComesFirstWithoutRecovery(recovers: bool)
    ensures (forall es :: Runs(recovers, INITIAL, es) ==> ScanComesFirst(After(recovers, INITIAL, es))) <==> !recovers
  {
    if recovers {
      PumpOvertakesRecovery();
      var es := [CallStart, Request(AtWakeup)];
      assert Runs(recovers, INITIAL, es) && !ScanComesFirst(After(recovers, INITIAL, es));
    } else {
      forall es | Runs(false, INITIAL, es)
        ensures ScanComesFirst(After(false, INITIAL, es))
      {
        RunKeepsInv(false, INITIAL, es);
      }
    }
  }

  /** During a recovery, pumps have started exactly if a request was accepted. */
  lemma PumpsDuringRecovery(es: seq<Event>)
    requires Runs(true, INITIAL, es) && After(true, INITIAL, es).startup == Recovering
    ensures After(true, INITIAL, es).started > 0 <==> After(true, INITIAL, es).accepted != []
  {
    RunKeepsInv(true, INITIAL, es);
  }

  // ------------------------------------------------------ the object's own runs

  /** One event, performed by the object. */
  method Perform(loop: ProductionRunDispatchLoop, e: Event)
    requires Enabled(loop.View(), e)
    modifies loop
    ensures loop.View() == Step(loop.recovers, old(loop.View()), e)
  {
    match e
    case CallStart => loop.Start();
    case Request(phase) => var accepted := loop.RequestWakeup(phase);
    case CallStop => loop.Stop();
    case RecoveryResolved => loop.SettleRecovery(None);
    case RecoveryRejected(error) => loop.SettleRecovery(Some(error));
    case PumpResolved => loop.SettlePump(None);
    case PumpRejected(error) => loop.SettlePump(Some(error));
    case FinishPump => loop.FinishPump();
    case ContinueStartup => loop.ContinueStartup();
    case DrainResolved(drained) => loop.SettleDrain(Some(drained), 0);
    case DrainRejected(error) => loop.SettleDrain(None, error);
    case QueueObservedEmpty => loop.ContinueStop();
    case RecordDrain => loop.ContinueStop();
    case ForgetStop => loop.ForgetStop();
  }

  /** The object performs every run as the model does, so it ends in a state of
      which all of the above holds. */
  method PerformRun(loop: ProductionRunDispatchLoop, es: seq<Event>)
    requires Inv(loop.recovers, loop.View()) && Runs(loop.recovers, loop.View(), es)
    modifies loop
    ensures loop.View() == After(loop.recovers, old(loop.View()), es)
    ensures Inv(loop.recovers, loop.View())
    decreases |es|
  {
    if es != [] {
      StepKeepsInv(loop.recovers, loop.View(), es[0]);
      Perform(loop, es[0]);
      PerformRun(loop, es[1..]);
    }
  }
}
