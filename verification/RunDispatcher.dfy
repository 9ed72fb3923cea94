/** The dispatcher's pump. The replies of its ports are arbitrary; time passes,
    and the lease is renewed, wherever the pump waits. */
module RunDispatcher {
  import opened Options
  import opened RunDispatch

  /** The renewal of one claimed lease, behind `startLeaseRenewal`. */
  class LeaseRenewal {
    const initial: Lease
    var current: Lease
    var failed: bool
    var stopped: bool
    var interruption: Interruption

    ghost predicate Valid()
      reads this
    {
      && SameLeaseIdentity(current, initial)
      && (failed <==> interruption != NoInterruption)
    }

    constructor (lease: Lease)
      ensures Valid() && initial == lease && current == lease && !failed && !stopped
    {
      initial, current, failed, stopped, interruption := lease, lease, false, false, NoInterruption;
    }

    /** One tick of the interval, from its guard to the end of its promise. */
    method Tick(authorityActive: bool, renewed: Option<Lease>, interrupts: bool)
      requires Valid()
      modifies this`current, this`failed, this`interruption
      ensures Valid()
      ensures old(stopped) || old(failed) ==> current == old(current) && failed == old(failed)
                                              && interruption == old(interruption)
      ensures current == old(current) || renewed == Some(current)
      ensures !old(stopped) && !old(failed) ==>
                (failed <==> !(authorityActive && renewed.Some? && renewed.value.releasedAt.None?
                               && SameLeaseIdentity(renewed.value, old(current))))
    {
      if stopped || failed { return; }
      if !authorityActive || renewed.None? || renewed.value.releasedAt.Some?
         || !SameLeaseIdentity(renewed.value, current)
      {
        failed := true;
        interruption := if interrupts then Interrupted else InterruptRejected;
        return;
      }
      current := renewed.value;
    }

    /** Any number of ticks, while something else is awaited. */
    method Elapse()
      requires Valid()
      modifies this`current, this`failed, this`interruption
      ensures Valid()
      ensures old(stopped) || old(failed) ==>
                current == old(current) && failed == old(failed) && interruption == old(interruption)
    {
      var ticks: nat := *;
      while ticks > 0
        invariant Valid()
        invariant old(stopped) || old(failed) ==>
                    current == old(current) && failed == old(failed) && interruption == old(interruption)
      {
        var active: bool, renewed: Option<Lease>, interrupts: bool := *, *, *;
        Tick(active, renewed, interrupts);
        ticks := ticks - 1;
      }
    }

    /** No tick begins any more. A tick that was running has ended by now, and
        the interruption that a failed one asked for is awaited: this throws what
        the interruption throws. */
    method Stop() returns (ok: bool)
      requires Valid()
      modifies this`stopped
      ensures Valid() && stopped
      ensures ok <==> interruption != InterruptRejected
    {
      stopped := true;
      ok := interruption != InterruptRejected;
    }
  }

  datatype Input = Input(ownerId: string, agentId: string, runId: string, lease: Lease)

  /** `bindInput`: the factory's input is for the candidate and under the claim. */
  predicate Bound(input: Input, candidate: Candidate, lease: Lease) {
    && input.ownerId == candidate.ownerId && input.agentId == candidate.agentId && input.runId == candidate.runId
    && input.lease.scope == lease.scope && input.lease.executionLeaseId == lease.executionLeaseId
    && input.lease.revision == lease.revision
  }

  datatype Execution = Returned(status: Status) | LeaseInterrupted | UnknownResult | Broke

  /** How the code inside `try` ends. */
  datatype Attempt = Counted(settled: bool) | Raised(reconciliationAttempted: bool)

  /** How one candidate ends; a throw may come from a rejected interruption. */
  datatype Verdict = Conflicted | SettledRun | UnknownRun | Threw(interruptRejected: bool)

  datatype PumpResult =
    | Pumped(reconciled: nat, claimed: nat, settled: nat, unknown: nat, conflicts: nat)
    | Failure(interruptRejected: bool)

  class ProductionRunDispatcher {
    var accepting: bool
    /** The authority accepts whenever asked, and every reconcile completes. */
    const steady: bool
    /** The calls of the current pump. */
    ghost var calls: seq<PortCall>

    constructor (steady: bool)
      ensures accepting && this.steady == steady && calls == []
    {
      accepting, this.steady, calls := true, steady, [];
    }

    ghost predicate Legal()
      reads this
    {
      Track(calls).Some?
    }

    ghost function Now(): Tally
      reads this
      requires Legal()
    {
      Track(calls).value
    }

    method StopAccepting()
      modifies this`accepting
      ensures !accepting
    {
      accepting := false;
    }

    /** The dispatcher may be told to stop at any moment; the authority decides for itself. */
    method IsAccepting() returns (r: bool)
      modifies this`accepting
      ensures accepting ==> old(accepting)
      ensures r ==> accepting
      ensures steady && accepting ==> r
    {
      if * { StopAccepting(); }
      var authority: bool := *;
      return accepting && (authority || steady);
    }

    ghost method Record(call: PortCall)
      requires Legal() && Follow(Now(), call).Some?
      modifies this`calls
      ensures Legal() && Now() == Follow(old(Now()), call).value && calls == old(calls) + [call]
    {
      TrackNext(calls, call);
      calls := calls + [call];
    }

    // ------------------------------------------------ one claimed Run, in parts

    /** The pump holds this Run under the lease of this renewal, and what the
        record says of its interruption is what became of the renewal. */
    ghost predicate Tied(candidate: Candidate, renewal: LeaseRenewal)
      reads this, renewal
    {
      && Legal() && renewal.Valid()
      && !Now().phase.Idle? && Now().phase.candidate == candidate && Now().phase.lease == renewal.initial
      && Now().interruption == renewal.interruption
    }

    /** The Run can still be reconciled. */
    ghost predicate Holds(candidate: Candidate, renewal: LeaseRenewal)
      reads this, renewal
    {
      Tied(candidate, renewal) && (Now().phase.Held? || Now().phase.Settled?)
    }

    /** Wait for something else, while the lease is renewed; a renewal that fails
        asks for the interruption of the execution. */
    method Await(candidate: Candidate, renewal: LeaseRenewal)
      requires Holds(candidate, renewal)
      modifies this`calls, renewal`current, renewal`failed, renewal`interruption
      ensures Holds(candidate, renewal)
      ensures Now() == old(Now()).(interruption := renewal.interruption) && old(calls) <= calls
      ensures old(renewal.stopped) ==> renewal.interruption == old(renewal.interruption)
      ensures old(renewal.failed) ==> renewal.failed && renewal.interruption == old(renewal.interruption)
    {
      var before := renewal.failed;
      renewal.Elapse();
      if renewal.failed && !before {
        Record(Interrupt(renewal.initial, renewal.interruption.InterruptRejected?));
      }
    }

    /** `renewal.stop()`: it waits too, and throws what the interruption throws. */
    method StopRenewal(candidate: Candidate, renewal: LeaseRenewal) returns (ok: bool)
      requires Tied(candidate, renewal) && (Holds(candidate, renewal) || renewal.stopped)
      modifies this`calls, renewal
      ensures Tied(candidate, renewal) && renewal.stopped && old(calls) <= calls
      ensures Now() == old(Now()).(interruption := renewal.interruption)
      ensures old(renewal.stopped) ==>
                renewal.interruption == old(renewal.interruption) && renewal.failed == old(renewal.failed)
      ensures ok <==> renewal.interruption != InterruptRejected
    {
      if !renewal.stopped { Await(candidate, renewal); }
      ok := renewal.Stop();
    }

    method ReconcileUnknown(candidate: Candidate, lease: Lease) returns (ok: bool)
      requires Legal() && Follow(Now(), Reconcile(candidate, lease, true)).Some?
      modifies this`calls
      ensures Legal() && Now() == Follow(old(Now()), Reconcile(candidate, lease, ok)).value
      ensures calls == old(calls) + [Reconcile(candidate, lease, ok)]
    {
      ok := *;
      Record(Reconcile(candidate, lease, ok));
    }

    method ReleaseBestEffort(lease: Lease) returns (ok: bool)
      requires Legal() && Follow(Now(), Release(lease, Done)).Some?
      modifies this`calls
      ensures Legal() && old(calls) <= calls
      ensures ok ==> Now() == Follow(old(Now()), Release(lease, Done)).value
      ensures !ok ==> Now() == Follow(old(Now()), Release(lease, Broken)).value
    {
      var reply: Reply := *;
      Record(Release(lease, reply));
      ok := !reply.Broken?;
    }

    /** Reconcile as unknown, then release; each may throw. */
    method ReconcileAndRelease(candidate: Candidate, renewal: LeaseRenewal) returns (ok: bool)
      requires Holds(candidate, renewal) && renewal.stopped
      modifies this`calls
      ensures Legal() && old(calls) <= calls
      ensures ok ==> Now() == old(Now()).(phase := Idle, unknown := old(Now()).unknown + 1)
      ensures !ok ==> Now() == old(Now()).(phase := Adrift(candidate, renewal.initial))
    {
      ok := ReconcileUnknown(candidate, renewal.current);
      if !ok { return; }
      ok := ReleaseBestEffort(renewal.current);
    }

    /** The ways the code inside `try` may leave the pump: counted, with a failed
        reconcile or release, or with the Run still in hand. */
    ghost predicate Ends(before: Tally, a: Attempt, candidate: Candidate, renewal: LeaseRenewal)
      reads this, renewal
    {
      && Legal() && renewal.Valid() && Now().interruption == renewal.interruption
      && (a != Raised(false) ==> renewal.stopped && renewal.interruption != InterruptRejected)
      && var after := Now().(interruption := before.interruption);
      match a
      case Counted(true) => after == before.(phase := Idle, settled := before.settled + 1)
      case Counted(false) => after == before.(phase := Idle, unknown := before.unknown + 1)
      case Raised(true) => after == before.(phase := Adrift(candidate, renewal.initial))
      case Raised(false) =>
        || after == before.(phase := Held(candidate, renewal.initial))
        || after == before.(phase := Settled(candidate, renewal.initial))
    }

    /** `reconcileLeaseFailure` */
    method ReconcileLeaseFailure(candidate: Candidate, renewal: LeaseRenewal) returns (a: Attempt)
      requires Holds(candidate, renewal)
      modifies this`calls, renewal
      ensures Ends(old(Now()), a, candidate, renewal) && old(calls) <= calls
      ensures a != Counted(true) && renewal.stopped
      ensures a == Raised(false) <==> renewal.interruption == InterruptRejected
      ensures old(renewal.stopped) ==> renewal.interruption == old(renewal.interruption)
    {
      var stopped := StopRenewal(candidate, renewal);
      if !stopped { return Raised(false); }
      var ok := ReconcileAndRelease(candidate, renewal);
      return if ok then Counted(false) else Raised(true);
    }

    /** The body of the `try`, up to the execution of the Run. */
    method Prepare(candidate: Candidate, renewal: LeaseRenewal) returns (go: bool, a: Attempt)
      requires Holds(candidate, renewal) && Now().phase.Held? && !renewal.stopped
      modifies this`accepting, this`calls, renewal
      ensures accepting ==> old(accepting)
      ensures old(calls) <= calls
      ensures go ==> Holds(candidate, renewal) && !renewal.stopped
                     && Now() == old(Now()).(interruption := renewal.interruption)
      ensures !go ==> Ends(old(Now()), a, candidate, renewal) && a != Counted(true)
    {
      Await(candidate, renewal);
      var input: Option<Input> := *;
      if !input.Some? { return false, Raised(false); }
      var open := IsAccepting();
      if !open || renewal.failed {
        a := ReconcileLeaseFailure(candidate, renewal);
        return false, a;
      }
      if !Bound(input.value, candidate, renewal.initial) { return false, Raised(false); }
      return true, Raised(false);
    }

    /** The body of the `try`, from the execution on. A Run counts as settled only
        if its execution returned a settling status. */
    method ExecuteRun(candidate: Candidate, renewal: LeaseRenewal, execution: Execution) returns (a: Attempt)
      requires Holds(candidate, renewal) && Now().phase.Held? && !renewal.stopped
      modifies this`calls, renewal
      ensures Ends(old(Now()), a, candidate, renewal) && old(calls) <= calls
      ensures a == Counted(true) ==> execution.Returned? && Settles(execution.status) && !renewal.failed
      ensures execution.Returned? && Settles(execution.status) && renewal.stopped && !renewal.failed ==>
                a == Counted(true) || a == Raised(false)
      ensures execution.UnknownResult? && renewal.stopped && !renewal.failed ==> a != Raised(false)
    {
      Await(candidate, renewal);
      if execution.Returned? { Record(Return(renewal.initial, execution.status)); }
      var stopped := StopRenewal(candidate, renewal);
      if !stopped { return Raised(false); }
      if renewal.failed || execution.LeaseInterrupted? {
        a := ReconcileLeaseFailure(candidate, renewal);
        return;
      }
      if execution.UnknownResult? || execution == Returned(ReconcilingExternalResult) {
        var ok := ReconcileAndRelease(candidate, renewal);
        return if ok then Counted(false) else Raised(true);
      }
      if execution.Broke? || !Settles(execution.status) { return Raised(false); }
      var ok := ReleaseBestEffort(renewal.current);
      return if ok then Counted(true) else Raised(false);
    }

    /** The outer `catch`: unless it was attempted, the reconcile is attempted now.
        It is skipped exactly if the interruption was rejected. */
    method Recover(candidate: Candidate, renewal: LeaseRenewal, reconciliationAttempted: bool) returns (v: Verdict)
      requires reconciliationAttempted ==>
                 Tied(candidate, renewal) && Now().phase.Adrift? && renewal.stopped
                 && renewal.interruption != InterruptRejected
      requires !reconciliationAttempted ==> Holds(candidate, renewal)
      modifies this`calls, renewal
      ensures Legal() && Now().interruption == renewal.interruption && old(calls) <= calls
      ensures v == UnknownRun || v.Threw?
      ensures v == Threw(true) <==> renewal.interruption == InterruptRejected
      ensures v == Threw(true) ==> !reconciliationAttempted
      ensures var before := old(Now()).(interruption := renewal.interruption);
        var gone := before.(phase := Idle, unknown := before.unknown + 1);
        var adrift := before.(phase := Adrift(candidate, renewal.initial));
        if v == Threw(true) then Now() == before
        else if v == UnknownRun then Now() == gone
        else Now() == adrift || (Now() == gone && !reconciliationAttempted)
    {
      var stopped := StopRenewal(candidate, renewal);
      if !stopped { return Threw(true); }
      if reconciliationAttempted { return Threw(false); }
      if renewal.failed {
        var a := ReconcileLeaseFailure(candidate, renewal);
        return if a.Counted? then UnknownRun else Threw(false);
      }
      var ok := ReconcileAndRelease(candidate, renewal);
      return Threw(false);
    }

    // ------------------------------------------------------------- candidates

    /** What became of a candidate, read from the record. A claimed Run leaves the
        pump settled; or known to be unknown; or adrift after an attempted
        reconcile; or, if its interruption was rejected, untouched. */
    ghost predicate Served(before: Tally, v: Verdict)
      reads this
    {
      && Legal()
      && var claimed := before.(claimed := before.claimed + 1, interruption := Now().interruption);
      match v
      case Conflicted => Now() == before.(conflicts := before.conflicts + 1)
      case SettledRun => Now() == claimed.(settled := before.settled + 1) && Now().interruption != InterruptRejected
      case UnknownRun => Now() == claimed.(unknown := before.unknown + 1) && Now().interruption != InterruptRejected
      case Threw(true) =>
        && (Now().phase.Held? || Now().phase.Settled?) && Now() == claimed.(phase := Now().phase)
        && Now().interruption == InterruptRejected
      case Threw(false) =>
        || Now() == before
        || (Now().interruption != InterruptRejected
            && (|| Now() == claimed.(unknown := before.unknown + 1)
                || (Now().phase.Adrift? && Now() == claimed.(phase := Now().phase))))
    }

    /** One candidate. A Run that was claimed is left without a reconcile attempt
        exactly when the record shows that interrupting it was rejected. */
    method Serve(candidate: Candidate) returns (v: Verdict)
      requires Legal() && Now().phase.Idle? && Now().interruption != InterruptRejected
      modifies this
      ensures Served(old(Now()), v) && old(calls) <= calls
      ensures v == Threw(true) <==> exists k: nat :: RejectedAt(calls, k)
      ensures accepting ==> old(accepting)
    {
      var claim: Option<Lease>, conflict: bool := *, *;
      if !claim.Some? {
        if conflict {
          Record(LoseClaim(candidate));
          v := Conflicted;
        } else {
          v := Threw(false);
        }
        RejectionIsRecorded(calls);
        return;
      }
      Record(Claim(candidate, claim.value));
      v := ServeClaimed(candidate, claim.value);
      RejectionIsRecorded(calls);
    }

    method ServeClaimed(candidate: Candidate, lease: Lease) returns (v: Verdict)
      requires Legal() && Now().phase == Held(candidate, lease) && Now().interruption.NoInterruption?
      requires Now().claimed > 0
      modifies this
      ensures v != Conflicted && old(calls) <= calls
      ensures Served(old(Now()).(phase := Idle, claimed := old(Now()).claimed - 1), v)
      ensures v == Threw(false) ==> Now().claimed == old(Now()).claimed
      ensures accepting ==> old(accepting)
    {
      var renewal := new LeaseRenewal(lease);
      var go, a := Prepare(candidate, renewal);
      if go {
        var execution: Execution := *;
        a := ExecuteRun(candidate, renewal, execution);
      }
      match a
      case Counted(settled) => v := if settled then SettledRun else UnknownRun;
      case Raised(attempted) => v := Recover(candidate, renewal, attempted);
    }

    /** `recover`: leftovers are reconciled in their order, without a lease, while
        the dispatcher accepts. */
    method RecoverLeftovers(leftovers: seq<Candidate>) returns (ok: bool, reconciled: nat)
      requires Legal() && Now().phase.Idle?
      modifies this
      ensures Legal() && Now() == old(Now())
      ensures accepting ==> old(accepting)
      ensures reconciled <= |leftovers| && calls == old(calls) + Reconciles(leftovers[..reconciled])
      ensures steady && accepting ==> ok && reconciled == |leftovers|
      ensures !old(accepting) ==> ok && reconciled == 0
    {
      reconciled := 0;
      var open := IsAccepting();
      if !open { return true, 0; }
      for i := 0 to |leftovers|
        invariant Legal() && Now() == old(Now())
        invariant accepting ==> old(accepting)
        invariant reconciled == i && calls == old(calls) + Reconciles(leftovers[..i])
      {
        open := IsAccepting();
        if !open { return true, reconciled; }
        var done: bool := *;
        if !done && !steady { return false, reconciled; }
        Record(ReconcileLeftover(leftovers[i]));
        assert leftovers[..i + 1][..i] == leftovers[..i];
        reconciled := reconciled + 1;
      }
      return true, reconciled;
    }

    /** One pump over the candidates that the store lists. Its record begins with
        the leftovers it reconciled; its counters are those of its calls; and it
        leaves a claimed Run untouched exactly if its interruption was rejected. */
    method Pump(leftovers: seq<Candidate>, candidates: seq<Candidate>) returns (r: PumpResult)
      modifies this
      ensures Legal()
      ensures accepting ==> old(accepting)
      ensures r.Pumped? ==>
                && Now() == Tally(Idle, Now().interruption, r.claimed, r.settled, r.unknown, r.conflicts)
                && r.claimed == r.settled + r.unknown
                && r.claimed + r.conflicts <= |candidates|
                && r.reconciled <= |leftovers| && Reconciles(leftovers[..r.reconciled]) <= calls
      ensures r == Failure(true) <==> exists k: nat :: RejectedAt(calls, k)
      ensures r == Failure(true) ==> Now().phase.Held? || Now().phase.Settled?
      ensures r == Failure(false) ==> Now().phase.Idle? || Now().phase.Adrift?
      ensures !old(accepting) ==> r == Pumped(0, 0, 0, 0, 0)
    {
      calls := [];
      r := PumpInternal(leftovers, candidates);
      RejectionIsRecorded(calls);
    }

    method PumpInternal(leftovers: seq<Candidate>, candidates: seq<Candidate>) returns (r: PumpResult)
      requires calls == []
      modifies this
      ensures Legal()
      ensures accepting ==> old(accepting)
      ensures r.Pumped? ==>
                && Now() == Tally(Idle, Now().interruption, r.claimed, r.settled, r.unknown, r.conflicts)
                && r.claimed == r.settled + r.unknown
                && r.claimed + r.conflicts <= |candidates|
                && r.reconciled <= |leftovers| && Reconciles(leftovers[..r.reconciled]) <= calls
      ensures r == Failure(true) <==> Now().interruption == InterruptRejected
      ensures r == Failure(true) ==> Now().phase.Held? || Now().phase.Settled?
      ensures r == Failure(false) ==> Now().phase.Idle? || Now().phase.Adrift?
      ensures !old(accepting) ==> r == Pumped(0, 0, 0, 0, 0)
    {
      var open := IsAccepting();
      if !open { return Pumped(0, 0, 0, 0, 0); }
      var active: bool := *;
      if !active { return Failure(false); }
      var ok, reconciled := RecoverLeftovers(leftovers);
      if !ok { return Failure(false); }
      assert calls == Reconciles(leftovers[..reconciled]);
      var claimed, settled, unknown, conflicts := 0, 0, 0, 0;
      for i := 0 to |candidates|
        invariant Legal() && Now() == Tally(Idle, Now().interruption, claimed, settled, unknown, conflicts)
        invariant Now().interruption != InterruptRejected
        invariant accepting ==> old(accepting)
        invariant claimed + conflicts == i && Reconciles(leftovers[..reconciled]) <= calls
      {
        open := IsAccepting();
        if !open { break; }
        var v := Serve(candidates[i]);
        match v
        case Conflicted => conflicts := conflicts + 1;
        case SettledRun => claimed, settled := claimed + 1, settled + 1;
        case UnknownRun => claimed, unknown := claimed + 1, unknown + 1;
        case Threw(rejected) => return Failure(rejected);
      }
      ClaimsBalance(calls);
      return Pumped(reconciled, claimed, settled, unknown, conflicts);
    }
  }

  /** The calls for these leftovers. */
  function Reconciles(leftovers: seq<Candidate>): seq<PortCall> {
    if leftovers == [] then []
    else Reconciles(leftovers[..|leftovers| - 1]) + [ReconcileLeftover(leftovers[|leftovers| - 1])]
  }
}
