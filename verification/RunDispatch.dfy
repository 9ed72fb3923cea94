/** The protocol of one dispatcher pump: what its calls to the dispatch store,
    the coordinator and the reconciler may look like, read from the record of
    these calls. */
module RunDispatch {
  import opened Options

  /** Everything about a lease that a renewal must not change, apart from what
      the lease names itself. */
  datatype Scope = Scope(
    ownerId: string, agentId: string, authorityLeaseId: string, deploymentId: string,
    authorityEpoch: nat, fencingToken: nat, consumerId: string)

  datatype Lease = Lease(
    scope: Scope, runId: string, executionLeaseId: string, revision: nat, expiresAt: nat, releasedAt: Option<nat>)

  datatype Candidate = Candidate(ownerId: string, agentId: string, runId: string, runRevision: nat, leaseRevision: nat)

  predicate SameLeaseIdentity(a: Lease, b: Lease) {
    a.scope == b.scope && a.runId == b.runId && a.executionLeaseId == b.executionLeaseId && a.revision == b.revision
  }

  datatype Status = Completed | Failed | Cancelled | AwaitingApproval | ReconcilingExternalResult | Unfinished

  /** The Run is over, or waits for somebody outside the dispatcher. */
  predicate Settles(status: Status) {
    status == Completed || status == Failed || status == Cancelled || status == AwaitingApproval
  }

  datatype Reply = Done | Declined | Broken

  /** The calls of one pump, in order, with what came of them. */
  datatype PortCall =
    | ReconcileLeftover(candidate: Candidate)
    | LoseClaim(candidate: Candidate)
    | Claim(candidate: Candidate, lease: Lease)
    | Return(lease: Lease, status: Status)
    | Interrupt(lease: Lease, rejected: bool)
    | Reconcile(candidate: Candidate, lease: Lease, completed: bool)
    | Release(lease: Lease, reply: Reply)

  /** The Run a pump holds: claimed, settled by the coordinator, reconciled, or
      left behind after a reconcile or release that failed. */
  datatype Phase =
    | Idle
    | Held(candidate: Candidate, lease: Lease)
    | Settled(candidate: Candidate, lease: Lease)
    | Known(candidate: Candidate, lease: Lease)
    | Adrift(candidate: Candidate, lease: Lease)

  /** Whether the execution of the last claimed Run was interrupted because its
      lease could not be renewed, and what came of that. */
  datatype Interruption = NoInterruption | Interrupted | InterruptRejected

  datatype Tally = Tally(
    phase: Phase, interruption: Interruption, claimed: nat, settled: nat, unknown: nat, conflicts: nat)

  const FRESH := Tally(Idle, NoInterruption, 0, 0, 0, 0)

  /** The call is made for the Run and under the lease that the pump holds. */
  predicate Mine(p: Phase, lease: Lease) {
    !p.Idle? && SameLeaseIdentity(lease, p.lease)
  }

  /** The protocol: one Run at a time; a release needs a settled or reconciled
      Run; a Run is not given up, except adrift, without either. */
  function Follow(t: Tally, call: PortCall): Option<Tally> {
    match call
    case ReconcileLeftover(_) => if t.phase.Idle? then Some(t) else None
    case LoseClaim(_) => if t.phase.Idle? then Some(t.(conflicts := t.conflicts + 1)) else None
    case Claim(candidate, lease) =>
      if t.phase.Idle?
      then Some(t.(phase := Held(candidate, lease), interruption := NoInterruption, claimed := t.claimed + 1))
      else None
    case Return(lease, status) =>
      if t.phase.Held? && Mine(t.phase, lease)
      then Some(t.(phase := if Settles(status) then Settled(t.phase.candidate, t.phase.lease) else t.phase))
      else None
    case Interrupt(lease, rejected) =>
      if Mine(t.phase, lease) && t.interruption.NoInterruption?
      then Some(t.(interruption := if rejected then InterruptRejected else Interrupted))
      else None
    case Reconcile(candidate, lease, completed) =>
      if (t.phase.Held? || t.phase.Settled?) && Mine(t.phase, lease) && candidate == t.phase.candidate
      then Some(t.(phase := if completed then Known(candidate, t.phase.lease) else Adrift(candidate, t.phase.lease)))
      else None
    case Release(lease, reply) =>
      if !(t.phase.Settled? || t.phase.Known?) || !Mine(t.phase, lease) then None
      else if reply.Broken? then Some(if t.phase.Known? then t.(phase := Adrift(t.phase.candidate, t.phase.lease)) else t)
      else if t.phase.Settled? then Some(t.(phase := Idle, settled := t.settled + 1))
      else Some(t.(phase := Idle, unknown := t.unknown + 1))
  }

  /** Where a record of calls leaves the pump; nothing, if it breaks the protocol. */
  function Track(calls: seq<PortCall>): Option<Tally> {
    if calls == [] then Some(FRESH)
    else
      var before := Track(calls[..|calls| - 1]);
      if before.None? then None else Follow(before.value, calls[|calls| - 1])
  }

  lemma TrackNext(calls: seq<PortCall>, call: PortCall)
    requires Track(calls).Some?
    ensures Track(calls + [call]) == Follow(Track(calls).value, call)
  {
    assert (calls + [call])[..|calls|] == calls;
  }

  /** Nothing claimed is forgotten: every claim ended settled or unknown, but for the one still held. */
  lemma {:induction false} ClaimsBalance(calls: seq<PortCall>)
    requires Track(calls).Some?
    ensures var t := Track(calls).value;
      t.claimed == t.settled + t.unknown + if t.phase.Idle? then 0 else 1
  {
    if calls != [] {
      ClaimsBalance(calls[..|calls| - 1]);
    }
  }

  /** The interruption of the Run that was claimed last was rejected. */
  predicate RejectedAt(calls: seq<PortCall>, k: nat) {
    && k < |calls| && calls[k].Interrupt? && calls[k].rejected
    && (forall j :: k < j < |calls| ==> !calls[j].Claim?)
  }

  lemma {:induction false} RejectionIsRecorded(calls: seq<PortCall>)
    requires Track(calls).Some?
    ensures Track(calls).value.interruption == InterruptRejected <==> exists k: nat :: RejectedAt(calls, k)
  {
    if calls != [] {
      var last := |calls| - 1;
      var shorter := calls[..last];
      RejectionIsRecorded(shorter);
      if k: nat :| RejectedAt(shorter, k) && !calls[last].Claim? {
        assert RejectedAt(calls, k);
      }
      if k: nat :| RejectedAt(calls, k) && k < last {
        assert RejectedAt(shorter, k);
      }
      if calls[last].Interrupt? && calls[last].rejected {
        assert RejectedAt(calls, last);
      }
    }
  }

  function Stranded(calls: seq<PortCall>, candidate: Candidate, lease: Lease): seq<PortCall> {
    calls + [Claim(candidate, lease)] + [Interrupt(lease, true)]
  }

  /** A claim whose interruption is rejected leaves a legal record that ends with
      the Run in hand, whatever the pump did before. */
  lemma RejectionStrandsTheRun(calls: seq<PortCall>, candidate: Candidate, lease: Lease)
    requires Track(calls).Some? && Track(calls).value.phase.Idle?
    ensures Track(Stranded(calls, candidate, lease)).Some?
    ensures Track(Stranded(calls, candidate, lease)).value.phase == Held(candidate, lease)
  {
    var claimed := calls + [Claim(candidate, lease)];
    TrackNext(calls, Claim(candidate, lease));
    var held := Track(claimed);
    assert held == Follow(Track(calls).value, Claim(candidate, lease));
    TrackNext(claimed, Interrupt(lease, true));
    assert Track(Stranded(calls, candidate, lease)) == Follow(held.value, Interrupt(lease, true));
  }

  /** That record shows the rejection, and no reconcile since the claim. */
  lemma StrandedShowsTheRejection(calls: seq<PortCall>, candidate: Candidate, lease: Lease)
    ensures var longer := Stranded(calls, candidate, lease);
      && RejectedAt(longer, |calls| + 1)
      && ClaimedAt(longer, |calls|, |longer|, lease)
      && forall k :: |calls| <= k < |longer| ==> !longer[k].Reconcile?
  {
  }

  /** A Run that was left adrift had a reconcile attempted since its claim. */
  lemma {:induction false} AdriftWasTried(calls: seq<PortCall>) returns (i: nat, j: nat)
    requires Track(calls).Some? && (Track(calls).value.phase.Adrift? || Track(calls).value.phase.Known?)
    ensures ClaimedAt(calls, i, |calls|, Track(calls).value.phase.lease)
    ensures i < j < |calls| && calls[j].Reconcile? && SameLeaseIdentity(calls[j].lease, calls[i].lease)
  {
    var last := |calls| - 1;
    i := HeldWasClaimed(calls);
    if calls[last].Reconcile? {
      j := last;
    } else {
      i, j := AdriftWasTried(calls[..last]);
    }
  }

  /** A claimed Run in hand was claimed by an earlier call, the last of its kind. */
  predicate ClaimedAt(calls: seq<PortCall>, i: nat, end: nat, lease: Lease) {
    && i < end <= |calls|
    && calls[i].Claim? && SameLeaseIdentity(lease, calls[i].lease)
    && (forall j :: i < j < end ==> !calls[j].Claim?)
  }

  lemma {:induction false} HeldWasClaimed(calls: seq<PortCall>) returns (i: nat)
    requires Track(calls).Some? && !Track(calls).value.phase.Idle?
    ensures ClaimedAt(calls, i, |calls|, Track(calls).value.phase.lease)
    ensures calls[i].candidate == Track(calls).value.phase.candidate
  {
    var last := |calls| - 1;
    if calls[last].Claim? {
      i := last;
    } else {
      i := HeldWasClaimed(calls[..last]);
    }
  }

  /** Something that entitles to a release: the coordinator settled the Run, or
      its reconcile completed. */
  predicate Entitles(call: PortCall, lease: Lease) {
    || (call.Return? && Settles(call.status) && SameLeaseIdentity(call.lease, lease))
    || (call.Reconcile? && call.completed && SameLeaseIdentity(call.lease, lease))
  }

  lemma {:induction false} EntitledBefore(calls: seq<PortCall>) returns (i: nat, j: nat)
    requires Track(calls).Some? && (Track(calls).value.phase.Settled? || Track(calls).value.phase.Known?)
    ensures ClaimedAt(calls, i, |calls|, Track(calls).value.phase.lease)
    ensures i < j < |calls| && Entitles(calls[j], calls[i].lease)
  {
    var last := |calls| - 1;
    var before := Track(calls[..last]).value;
    i := HeldWasClaimed(calls);
    if Entitles(calls[last], calls[i].lease) {
      j := last;
    } else {
      i, j := EntitledBefore(calls[..last]);
    }
  }

  /** Whenever a lease is released, it is one the pump claimed, with the same
      identifier and revision, and since that claim the Run settled or its
      reconcile completed. */
  lemma ReleaseIsEarned(calls: seq<PortCall>, k: nat) returns (i: nat, j: nat)
    requires Track(calls).Some? && k < |calls| && calls[k].Release?
    ensures ClaimedAt(calls, i, k, calls[k].lease)
    ensures i < j < k && Entitles(calls[j], calls[k].lease)
  {
    PrefixesFollow(calls, k + 1);
    var upTo := calls[..k + 1];
    assert upTo[..k] == calls[..k] && upTo[k] == calls[k];
    i, j := EntitledBefore(calls[..k]);
  }

  lemma {:induction false} PrefixesFollow(calls: seq<PortCall>, k: nat)
    requires Track(calls).Some? && k <= |calls|
    ensures Track(calls[..k]).Some?
  {
    if k < |calls| {
      var shorter := calls[..|calls| - 1];
      PrefixesFollow(shorter, k);
      assert shorter[..k] == calls[..k];
    } else {
      assert calls[..k] == calls;
    }
  }

  /** A reconcile that is asked for under a lease is asked for the claimed
      candidate, with the identifier and revision of its claim. */
  lemma ReconcileUsesTheClaim(calls: seq<PortCall>, k: nat) returns (i: nat)
    requires Track(calls).Some? && k < |calls| && calls[k].Reconcile?
    ensures ClaimedAt(calls, i, k, calls[k].lease) && calls[i].candidate == calls[k].candidate
  {
    PrefixesFollow(calls, k + 1);
    var upTo := calls[..k + 1];
    assert upTo[..k] == calls[..k] && upTo[k] == calls[k];
    i := HeldWasClaimed(calls[..k]);
  }
}
