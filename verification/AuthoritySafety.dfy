/** What every run of the authority lifecycle keeps, and what it does not. */
module AuthoritySafety {
  import opened Options
  import opened AuthorityLifecycle

  /** Stops in flight, counted as suspended operations. */
  function StopsInFlight(s: State): set<nat> {
    set id | id in s.frames && s.frames[id].StopFrame?
  }

  /** How a caller may overlap its operations: how many stops at a time, and
      whether it may begin a start while one of them is in flight. */
  datatype Policy = Policy(stops: nat, startsDuringStop: bool)

  /** A start that the phase accepts finds no stop in flight. */
  predicate Separated(s: State, e: Event) {
    e.CallStart? && (s.phase == Stopped || s.phase == Lost) ==> StopsInFlight(s) == {}
  }

  predicate Permitted(config: Config, policy: Policy, s: State, e: Event) {
    && Enabled(config, s, e)
    && (e.CallStop? ==> |StopsInFlight(s)| < policy.stops)
    && (!policy.startsDuringStop ==> Separated(s, e))
  }

  /** Either precaution is enough. */
  predicate Careful(policy: Policy) {
    policy.stops <= 1 || !policy.startsDuringStop
  }

  /** `es` is a run of such a caller from `s`. */
  predicate Runs(config: Config, policy: Policy, s: State, es: seq<Event>)
    decreases |es|
  {
    es == [] || (Permitted(config, policy, s, es[0]) && Runs(config, policy, Step(config, s, es[0]), es[1..]))
  }

  function After(config: Config, policy: Policy, s: State, es: seq<Event>): State
    requires Runs(config, policy, s, es)
    decreases |es|
  {
    if es == [] then s else After(config, policy, Step(config, s, es[0]), es[1..])
  }

  // ------------------------------------------------------------- invariant

  /** The claimed record a suspended `start` still answers for. */
  function HeldBy(frame: Frame): Option<LeaseRecord> {
    match frame
    case StartFrame(_, ReadingClaimed(record)) => Some(record)
    case StartFrame(_, AssertingClaim(record, _, _)) => Some(record)
    case StartFrame(_, WritingMirror(record, _, _)) => Some(record)
    case _ => None
  }

  predicate InScope(config: Config, record: LeaseRecord) {
    record.lease.ownerId == config.ownerId && record.lease.agentId == config.agentId
  }

  /** An authority that was derived from this record for this deployment. */
  predicate Agrees(config: Config, record: LeaseRecord, authority: Authority) {
    && InScope(config, record)
    && authority.deploymentId == config.deploymentId
    && authority.fencingToken == record.fencingToken
  }

  /** A lease the service claimed and has neither given back nor lost. */
  predicate Unsettled(s: State, record: LeaseRecord) {
    && record.lease.id in s.claimed
    && record.lease.id !in s.released
    && record.lease.id !in s.lost
  }

  predicate StartPointOk(config: Config, point: StartPoint) {
    match point
    case ReadingClaimed(record) => InScope(config, record)
    case AssertingClaim(record, _, authority) => Agrees(config, record, authority)
    case WritingMirror(record, _, authority) => Agrees(config, record, authority)
    case _ => true
  }

  predicate RenewPointOk(config: Config, captured: LeaseRecord, point: RenewPoint) {
    match point
    case RenewReadingDeployment(renewed) => SameIdentity(renewed, captured)
    case RenewAsserting(renewed, _, authority) =>
      SameIdentity(renewed, captured) && Agrees(config, renewed, authority)
    case RenewWritingMirror(renewed, _, authority) =>
      SameIdentity(renewed, captured) && Agrees(config, renewed, authority)
    case _ => true
  }

  /** While the generation a frame captured is still current, so is what it captured. */
  predicate FrameOk(config: Config, s: State, frame: Frame) {
    match frame
    case StartFrame(generation, point) =>
      && generation <= s.generation
      && (generation == s.generation ==> s.phase == Starting)
      && StartPointOk(config, point)
      && (HeldBy(frame).Some? ==> Unsettled(s, HeldBy(frame).value))
    case RenewFrame(generation, captured, point) =>
      && generation <= s.generation
      && (generation == s.generation ==> ActiveIn(s, generation, captured))
      && RenewPointOk(config, captured, point)
    case CheckFrame(generation, captured, _) =>
      && generation <= s.generation
      && (generation == s.generation ==> ActiveIn(s, generation, captured))
    case StopFrame(wasLost, AwaitingRenewal(_)) =>
      (s.phase == Draining || s.phase == Stopped) && (wasLost ==> HeldLease(s) <= s.lost)
    case StopFrame(_, ReleasingHeld(_)) =>
      (s.phase == Draining || s.phase == Stopped) && s.record.None? && s.authority.None?
  }

  predicate PhaseOk(config: Config, s: State) {
    match s.phase
    case Stopped => s.record.None? && s.authority.None?
    case Active =>
      && s.record.Some? && s.authority.Some?
      && Agrees(config, s.record.value, s.authority.value)
      && Unsettled(s, s.record.value)
    case Starting => HeldLease(s) <= s.lost
    case Lost => s.record.Some? && HeldLease(s) <= s.lost
    case Draining => true
  }

  predicate HeldSomewhere(s: State, lease: string) {
    exists id :: id in s.frames && HeldBy(s.frames[id]).Some? && HeldBy(s.frames[id]).value.lease.id == lease
  }

  /** Every lease ever claimed was given back or lost, or an operation or the object holds it. */
  predicate Accounted(s: State, lease: string) {
    || lease in s.released
    || lease in s.lost
    || (s.phase != Stopped && lease in HeldLease(s))
    || HeldSomewhere(s, lease)
  }

  ghost predicate Inv(config: Config, s: State) {
    && PhaseOk(config, s)
    && HeldLease(s) + s.released + s.lost <= s.claimed
    && (forall id :: id in s.frames ==> id < s.nextFrame && FrameOk(config, s, s.frames[id]))
    && (forall i, j :: i in s.frames && j in s.frames && i != j ==> Separate(s.frames[i], s.frames[j]))
    && (forall id :: id in s.frames && HeldBy(s.frames[id]).Some? ==>
          HeldBy(s.frames[id]).value.lease.id !in HeldLease(s))
    && (forall lease :: lease in s.claimed ==> Accounted(s, lease))
  }

  /** Two operations never share a lease or a starting generation. */
  predicate Separate(left: Frame, right: Frame) {
    && (HeldBy(left).Some? && HeldBy(right).Some? ==>
          HeldBy(left).value.lease.id != HeldBy(right).value.lease.id)
    && (left.StartFrame? && right.StartFrame? ==> left.generation != right.generation)
  }

  /** A step that touches one frame: what must be shown about that frame alone,
      about the others, and about the leases that may change hands. */
  ghost predicate TouchesOnly(s: State, t: State, id: nat) {
    && (forall j :: j != id ==> (j in s.frames <==> j in t.frames))
    && (forall j :: j != id && j in s.frames ==> t.frames[j] == s.frames[j])
    && s.nextFrame <= t.nextFrame
    && s.released <= t.released && s.lost <= t.lost
  }

  lemma TouchingOneKeepsInv(config: Config, s: State, t: State, id: nat)
    requires Inv(config, s) && TouchesOnly(s, t, id)
    requires PhaseOk(config, t)
    requires HeldLease(t) + t.released + t.lost <= t.claimed
    requires forall j :: j in s.frames && j != id ==> FrameOk(config, t, s.frames[j])
    requires forall j :: j in s.frames && j != id && HeldBy(s.frames[j]).Some? ==>
               HeldBy(s.frames[j]).value.lease.id !in HeldLease(t)
    requires id in t.frames ==>
      && id < t.nextFrame
      && FrameOk(config, t, t.frames[id])
      && (HeldBy(t.frames[id]).Some? ==> HeldBy(t.frames[id]).value.lease.id !in HeldLease(t))
      && forall j :: j in s.frames && j != id ==> Separate(s.frames[j], t.frames[id])
    requires forall lease :: lease in t.claimed && lease !in s.claimed ==> Accounted(t, lease)
    requires s.phase != Stopped ==> forall lease :: lease in HeldLease(s) ==> Accounted(t, lease)
    requires id in s.frames && HeldBy(s.frames[id]).Some? ==> Accounted(t, HeldBy(s.frames[id]).value.lease.id)
    ensures Inv(config, t)
  {
    forall lease | lease in t.claimed
      ensures Accounted(t, lease)
    {
      if lease in s.claimed && HeldSomewhere(s, lease) {
        var j :| j in s.frames && HeldBy(s.frames[j]).Some? && HeldBy(s.frames[j]).value.lease.id == lease;
        if j != id {
          assert j in t.frames;
        }
      }
    }
  }

  lemma StepKeepsInv(config: Config, s: State, e: Event)
    requires Inv(config, s) && Enabled(config, s, e)
    requires Separated(s, e)
    ensures Inv(config, Step(config, s, e))
  {
    match e
    case CallStart => BeginStartKeepsInv(config, s);
    case CallRenew => BeginObserverKeepsInv(config, s, e);
    case CallAssertActive => BeginObserverKeepsInv(config, s, e);
    case CallStop => BeginStopKeepsInv(config, s);
    case ForgetRenewal(_) => ForgetKeepsInv(config, s, e);
    case Resume(id, reply) => ResumeKeepsInv(config, s, id, reply);
  }

  lemma ResumeKeepsInv(config: Config, s: State, id: nat, reply: Reply)
    requires Inv(config, s) && Enabled(config, s, Resume(id, reply))
    ensures Inv(config, Step(config, s, Resume(id, reply)))
  {
    match s.frames[id]
    case StartFrame(_, _) => ResumeStartKeepsInv(config, s, id, reply);
    case RenewFrame(_, _, _) => ResumeRenewKeepsInv(config, s, id, reply);
    case CheckFrame(_, _, _) => ResumeCheckKeepsInv(config, s, id, reply);
    case StopFrame(_, _) => ResumeStopKeepsInv(config, s, id, reply);
  }

  lemma BeginStartKeepsInv(config: Config, s: State)
    requires Inv(config, s) && Separated(s, CallStart)
    ensures Inv(config, BeginStart(s))
  {
    if s.phase == Stopped || s.phase == Lost { NoStopInFlight(s); }
    TouchingOneKeepsInv(config, s, BeginStart(s), s.nextFrame);
  }

  lemma BeginObserverKeepsInv(config: Config, s: State, e: Event)
    requires Inv(config, s) && Enabled(config, s, e) && (e.CallRenew? || e.CallAssertActive?)
    ensures Inv(config, Step(config, s, e))
  {
    TouchingOneKeepsInv(config, s, Step(config, s, e), s.nextFrame);
  }

  lemma ForgetKeepsInv(config: Config, s: State, e: Event)
    requires Inv(config, s) && Enabled(config, s, e) && e.ForgetRenewal?
    ensures Inv(config, Step(config, s, e))
  {
    TouchingOneKeepsInv(config, s, Step(config, s, e), s.nextFrame);
  }

  lemma BeginStopKeepsInv(config: Config, s: State)
    requires Inv(config, s)
    ensures Inv(config, BeginStop(s))
  {
    TouchingOneKeepsInv(config, s, BeginStop(s), s.nextFrame);
  }

  lemma NoStopInFlight(s: State)
    requires StopsInFlight(s) == {}
    ensures forall j :: j in s.frames ==> !s.frames[j].StopFrame?
  {
    forall j | j in s.frames
      ensures !s.frames[j].StopFrame?
    {
      assert j !in StopsInFlight(s);
    }
  }

  lemma ResumeStopKeepsInv(config: Config, s: State, id: nat, reply: Reply)
    requires Inv(config, s) && Enabled(config, s, Resume(id, reply)) && s.frames[id].StopFrame?
    ensures Inv(config, Step(config, s, Resume(id, reply)))
  {
    assert FrameOk(config, s, s.frames[id]);
    if s.frames[id].stop.ReleasingHeld? {
      ReleasedStopKeepsInv(config, s, id);
    } else {
      TakingStopKeepsInv(config, s, id);
    }
  }

  lemma ReleasedStopKeepsInv(config: Config, s: State, id: nat)
    requires Inv(config, s) && id in s.frames && s.frames[id].StopFrame? && s.frames[id].stop.ReleasingHeld?
    ensures Inv(config, s.Finish(id).(phase := Stopped))
  {
    assert FrameOk(config, s, s.frames[id]);
    TouchingOneKeepsInv(config, s, s.Finish(id).(phase := Stopped), id);
  }

  lemma TakingStopKeepsInv(config: Config, s: State, id: nat)
    requires Inv(config, s) && id in s.frames && s.frames[id].StopFrame? && s.frames[id].stop.AwaitingRenewal?
    ensures Inv(config, TakeRecord(s, id, s.frames[id].wasLost))
  {
    assert FrameOk(config, s, s.frames[id]);
    TouchingOneKeepsInv(config, s, TakeRecord(s, id, s.frames[id].wasLost), id);
  }

  // The pieces the other segments are made of, one lemma each.

  lemma EndFailedStartKeepsInv(config: Config, s: State, id: nat)
    requires Inv(config, s) && id in s.frames && s.frames[id].StartFrame? && HeldBy(s.frames[id]).None?
    ensures Inv(config, EndFailedStart(s, id, s.frames[id].generation))
  {
    TouchingOneKeepsInv(config, s, EndFailedStart(s, id, s.frames[id].generation), id);
  }

  /** A start frame moves on while it holds the same claim, or none. */
  lemma MoveStartKeepsInv(config: Config, s: State, id: nat, point: StartPoint)
    requires Inv(config, s) && id in s.frames && s.frames[id].StartFrame?
    requires StartPointOk(config, point)
    requires HeldBy(StartFrame(0, point)) == HeldBy(s.frames[id])
    ensures Inv(config, s.Suspend(id, StartFrame(s.frames[id].generation, point)))
  {
    var t := s.Suspend(id, StartFrame(s.frames[id].generation, point));
    assert HeldBy(t.frames[id]) == HeldBy(s.frames[id]);
    assert HeldBy(s.frames[id]).Some? ==> HeldSomewhere(t, HeldBy(s.frames[id]).value.lease.id);
    TouchingOneKeepsInv(config, s, t, id);
  }

  lemma AbandonClaimKeepsInv(config: Config, s: State, id: nat)
    requires Inv(config, s) && id in s.frames && s.frames[id].StartFrame? && HeldBy(s.frames[id]).Some?
    ensures Inv(config, AbandonClaim(s, id, s.frames[id].generation, HeldBy(s.frames[id]).value))
  {
    var t := AbandonClaim(s, id, s.frames[id].generation, HeldBy(s.frames[id]).value);
    forall j | j in s.frames && j != id
      ensures FrameOk(config, t, s.frames[j])
    {
      assert Separate(s.frames[j], s.frames[id]);
    }
    TouchingOneKeepsInv(config, s, t, id);
  }

  /** A settled claim: the fresh lease is held by its own start, or given back at once. */
  lemma ClaimKeepsInv(config: Config, s: State, id: nat, reply: Reply)
    requires Inv(config, s) && Enabled(config, s, Resume(id, reply))
    requires s.frames[id].StartFrame? && s.frames[id].start.Claiming? && reply.Claimed?
    ensures Inv(config, Step(config, s, Resume(id, reply)))
  {
    FreshLeaseIsUnknown(config, s, reply.record.lease.id);
    if StartingIn(s, s.frames[id].generation) {
      CurrentClaimKeepsInv(config, s, id, reply.record);
    } else {
      LateClaimKeepsInv(config, s, id, reply.record);
    }
  }

  lemma CurrentClaimKeepsInv(config: Config, s: State, id: nat, record: LeaseRecord)
    requires Inv(config, s) && id in s.frames && s.frames[id].StartFrame? && s.frames[id].start.Claiming?
    requires Fits(config, s, s.frames[id], Claimed(record)) && StartingIn(s, s.frames[id].generation)
    requires forall j :: j in s.frames && HeldBy(s.frames[j]).Some? ==> HeldBy(s.frames[j]).value.lease.id != record.lease.id
    ensures Inv(config, s.(claimed := s.claimed + {record.lease.id})
                         .Suspend(id, StartFrame(s.frames[id].generation, ReadingClaimed(record))))
  {
    var t := s.(claimed := s.claimed + {record.lease.id})
              .Suspend(id, StartFrame(s.frames[id].generation, ReadingClaimed(record)));
    assert Accounted(t, record.lease.id) by {
      assert id in t.frames && HeldBy(t.frames[id]) == Some(record);
    }
    TouchingOneKeepsInv(config, s, t, id);
  }

  lemma LateClaimKeepsInv(config: Config, s: State, id: nat, record: LeaseRecord)
    requires Inv(config, s) && id in s.frames && s.frames[id].StartFrame? && s.frames[id].start.Claiming?
    requires Fits(config, s, s.frames[id], Claimed(record))
    requires forall j :: j in s.frames && HeldBy(s.frames[j]).Some? ==> HeldBy(s.frames[j]).value.lease.id != record.lease.id
    ensures Inv(config, AbandonClaim(s.(claimed := s.claimed + {record.lease.id}), id, s.frames[id].generation, record))
  {
    var t := AbandonClaim(s.(claimed := s.claimed + {record.lease.id}), id, s.frames[id].generation, record);
    TouchingOneKeepsInv(config, s, t, id);
  }

  /** A lease that was never claimed is in nobody's hands. */
  lemma FreshLeaseIsUnknown(config: Config, s: State, lease: string)
    requires Inv(config, s) && lease !in s.claimed
    ensures s.phase == Active ==> lease !in HeldLease(s)
    ensures forall id :: id in s.frames && HeldBy(s.frames[id]).Some? ==> HeldBy(s.frames[id]).value.lease.id != lease
  {
    forall id | id in s.frames && HeldBy(s.frames[id]).Some?
      ensures HeldBy(s.frames[id]).value.lease.id != lease
    {
      assert FrameOk(config, s, s.frames[id]);
    }
  }

  lemma ActivateKeepsInv(config: Config, s: State, id: nat, authority: Authority)
    requires Inv(config, s) && id in s.frames && HeldBy(s.frames[id]).Some?
    requires StartingIn(s, s.frames[id].generation)
    requires Agrees(config, HeldBy(s.frames[id]).value, authority)
    ensures Inv(config, Activate(s, id, HeldBy(s.frames[id]).value, authority))
  {
    var t := Activate(s, id, HeldBy(s.frames[id]).value, authority);
    forall j | j in s.frames && j != id
      ensures FrameOk(config, t, s.frames[j])
    {
      assert Separate(s.frames[j], s.frames[id]);
    }
    TouchingOneKeepsInv(config, s, t, id);
  }

  lemma ResumeStartKeepsInv(config: Config, s: State, id: nat, reply: Reply)
    requires Inv(config, s) && Enabled(config, s, Resume(id, reply)) && s.frames[id].StartFrame?
    ensures Inv(config, Step(config, s, Resume(id, reply)))
  {
    if HeldBy(s.frames[id]).Some? {
      ResumeHolderKeepsInv(config, s, id, reply);
    } else if s.frames[id].start.Claiming? && reply.Claimed? {
      ClaimKeepsInv(config, s, id, reply);
    } else {
      ResumeEarlyStartKeepsInv(config, s, id, reply);
    }
  }

  /** A start that holds a claim moves on, gives it back or activates. */
  lemma ResumeHolderKeepsInv(config: Config, s: State, id: nat, reply: Reply)
    requires Inv(config, s) && Enabled(config, s, Resume(id, reply)) && HeldBy(s.frames[id]).Some?
    ensures Inv(config, Step(config, s, Resume(id, reply)))
  {
    var t := Step(config, s, Resume(id, reply));
    if s.released != t.released {
      AbandonClaimKeepsInv(config, s, id);
    } else {
      match s.frames[id].start
      case ReadingClaimed(_) => MoveStartKeepsInv(config, s, id, t.frames[id].start);
      case AssertingClaim(_, _, authority) =>
        if config.hasMirror { MoveStartKeepsInv(config, s, id, t.frames[id].start); }
        else { ActivateKeepsInv(config, s, id, authority); }
      case WritingMirror(_, _, authority) => ActivateKeepsInv(config, s, id, authority);
    }
  }

  /** A start that holds none moves on or fails. */
  lemma ResumeEarlyStartKeepsInv(config: Config, s: State, id: nat, reply: Reply)
    requires Inv(config, s) && Enabled(config, s, Resume(id, reply))
    requires s.frames[id].StartFrame? && HeldBy(s.frames[id]).None?
    requires s.frames[id].start.Claiming? ==> !reply.Claimed?
    ensures Inv(config, Step(config, s, Resume(id, reply)))
  {
    var t := Step(config, s, Resume(id, reply));
    if id in t.frames {
      MoveStartKeepsInv(config, s, id, t.frames[id].start);
    } else {
      EndFailedStartKeepsInv(config, s, id);
    }
  }

  /** A renewal or a check ends without changing who holds what. */
  lemma FinishObserverKeepsInv(config: Config, s: State, id: nat)
    requires Inv(config, s) && id in s.frames && (s.frames[id].RenewFrame? || s.frames[id].CheckFrame?)
    ensures Inv(config, s.Finish(id))
  {
    TouchingOneKeepsInv(config, s, s.Finish(id), id);
  }

  lemma MarkLostKeepsInv(config: Config, s: State)
    requires Inv(config, s)
    ensures Inv(config, MarkLost(s))
  {
    if s.phase == Active {
      TouchingOneKeepsInv(config, s, MarkLost(s), s.nextFrame);
    }
  }

  /** A renewal or a check moves on to its next call. */
  lemma MoveObserverKeepsInv(config: Config, s: State, id: nat, frame: Frame)
    requires Inv(config, s) && id in s.frames && HeldBy(s.frames[id]).None?
    requires frame.RenewFrame? || frame.CheckFrame?
    requires FrameOk(config, s, frame)
    ensures Inv(config, s.Suspend(id, frame))
  {
    TouchingOneKeepsInv(config, s, s.Suspend(id, frame), id);
  }

  lemma CommitRenewalKeepsInv(config: Config, s: State, id: nat, renewed: LeaseRecord, authority: Authority)
    requires Inv(config, s) && id in s.frames && s.frames[id].RenewFrame?
    requires s.phase == Active && SameIdentity(s.record.value, renewed) && Agrees(config, renewed, authority)
    ensures Inv(config, CommitRenewal(s, id, renewed, authority))
  {
    TouchingOneKeepsInv(config, s, CommitRenewal(s, id, renewed, authority), id);
  }

  lemma ResumeRenewKeepsInv(config: Config, s: State, id: nat, reply: Reply)
    requires Inv(config, s) && Enabled(config, s, Resume(id, reply)) && s.frames[id].RenewFrame?
    ensures Inv(config, Step(config, s, Resume(id, reply)))
  {
    var RenewFrame(generation, captured, point) := s.frames[id];
    if reply.Threw? || !ActiveIn(s, generation, captured) {
      FailRenewalKeepsInv(config, s, id);
      return;
    }
    var t := ResumeRenew(config, s, id, generation, captured, point, reply);
    if t == FailRenewal(s, id, generation, captured) {
      FailRenewalKeepsInv(config, s, id);
      return;
    }
    match point
    case RenewReadingCurrent => MoveObserverKeepsInv(config, s, id, RenewFrame(generation, captured, Renewing));
    case Renewing =>
      MoveObserverKeepsInv(config, s, id, RenewFrame(generation, captured, RenewReadingDeployment(reply.renewed)));
    case RenewReadingDeployment(renewed) => MoveObserverKeepsInv(config, s, id, t.frames[id]);
    case RenewAsserting(renewed, deployment, authority) =>
      if config.hasMirror {
        MoveObserverKeepsInv(config, s, id, t.frames[id]);
      } else {
        CommitRenewalKeepsInv(config, s, id, renewed, authority);
      }
    case RenewWritingMirror(renewed, _, authority) => CommitRenewalKeepsInv(config, s, id, renewed, authority);
  }

  lemma FailRenewalKeepsInv(config: Config, s: State, id: nat)
    requires Inv(config, s) && id in s.frames && s.frames[id].RenewFrame?
    ensures Inv(config, FailRenewal(s, id, s.frames[id].generation, s.frames[id].captured))
  {
    FinishObserverKeepsInv(config, s, id);
    MarkLostKeepsInv(config, s.Finish(id));
  }

  lemma ResumeCheckKeepsInv(config: Config, s: State, id: nat, reply: Reply)
    requires Inv(config, s) && Enabled(config, s, Resume(id, reply)) && s.frames[id].CheckFrame?
    ensures Inv(config, Step(config, s, Resume(id, reply)))
  {
    var t := Step(config, s, Resume(id, reply));
    if id in t.frames {
      MoveObserverKeepsInv(config, s, id, t.frames[id]);
    } else {
      FinishObserverKeepsInv(config, s, id);
      MarkLostKeepsInv(config, s.Finish(id));
    }
  }

  // ------------------------------------------------------------- over runs

  /** A start or a stop that the phase announces is really in flight. */
  predicate Driven(s: State) {
    && (s.phase == Starting ==> exists id :: id in s.frames && IsStartOf(s.frames[id], s.generation))
    && (s.phase == Draining ==> exists id :: id in s.frames && s.frames[id].StopFrame?)
  }

  predicate IsStartOf(frame: Frame, generation: nat) {
    frame.StartFrame? && frame.generation == generation
  }

  /** A step leaves every frame but the one it resumes as it was. */
  lemma OtherFramesStay(config: Config, s: State, e: Event, id: nat)
    requires id in s.frames && id < s.nextFrame && Enabled(config, s, e)
    requires e.Resume? ==> e.id != id
    ensures id in Step(config, s, e).frames && Step(config, s, e).frames[id] == s.frames[id]
  {
    if e.Resume? {
      ResumeLeavesOthers(config, s, e.id, e.reply, id);
    }
  }

  lemma ResumeLeavesOthers(config: Config, s: State, id: nat, reply: Reply, other: nat)
    requires Enabled(config, s, Resume(id, reply)) && other in s.frames && other != id
    ensures var t := Step(config, s, Resume(id, reply)); other in t.frames && t.frames[other] == s.frames[other]
  {
    match s.frames[id]
    case StartFrame(_, _) =>
    case RenewFrame(_, _, _) =>
    case CheckFrame(_, _, _) =>
    case StopFrame(_, _) =>
  }

  /** A current start that goes on stays in flight; one that ends takes the phase with it. */
  lemma CurrentStartStays(config: Config, s: State, id: nat, reply: Reply)
    requires Enabled(config, s, Resume(id, reply)) && IsStartOf(s.frames[id], s.generation)
    ensures var t := Step(config, s, Resume(id, reply));
      t.phase == Starting ==> id in t.frames && IsStartOf(t.frames[id], t.generation)
  {
  }

  lemma StepKeepsDriven(config: Config, s: State, e: Event)
    requires Inv(config, s) && Driven(s) && Enabled(config, s, e)
    ensures Driven(Step(config, s, e))
  {
    if s.phase == Starting && !e.CallStop? {
      StartingKeepsDriven(config, s, e);
    } else if s.phase == Draining && !e.CallStop? {
      DrainingKeepsDriven(config, s, e);
    } else if e.CallStart? || e.CallStop? {
      var t := Step(config, s, e);
      assert s.nextFrame in t.frames ==> IsStartOf(t.frames[s.nextFrame], t.generation) || t.frames[s.nextFrame].StopFrame?;
    }
  }

  lemma StartingKeepsDriven(config: Config, s: State, e: Event)
    requires Inv(config, s) && Driven(s) && Enabled(config, s, e) && s.phase == Starting && !e.CallStop?
    ensures Driven(Step(config, s, e))
  {
    var id :| id in s.frames && IsStartOf(s.frames[id], s.generation);
    if e.Resume? && e.id == id {
      CurrentStartStays(config, s, id, e.reply);
    } else {
      OtherFramesStay(config, s, e, id);
      StartingStepStaysDriven(config, s, e, id);
    }
  }

  lemma DrainingKeepsDriven(config: Config, s: State, e: Event)
    requires Inv(config, s) && Driven(s) && Enabled(config, s, e) && s.phase == Draining && !e.CallStop?
    ensures Driven(Step(config, s, e))
  {
    var id :| id in s.frames && s.frames[id].StopFrame?;
    if e.Resume? && e.id == id {
      assert id in Step(config, s, e).frames ==> Step(config, s, e).frames[id].StopFrame?;
    } else {
      OtherFramesStay(config, s, e, id);
      DrainingStepStaysDriven(config, s, e, id);
    }
  }

  lemma StartingStepStaysDriven(config: Config, s: State, e: Event, id: nat)
    requires Inv(config, s) && Enabled(config, s, e) && s.phase == Starting && !e.CallStop?
    requires id in s.frames && IsStartOf(s.frames[id], s.generation) && (e.Resume? ==> e.id != id)
    ensures Step(config, s, e).phase == Starting && Step(config, s, e).generation == s.generation
  {
    if e.Resume? {
      assert Separate(s.frames[e.id], s.frames[id]);
      assert FrameOk(config, s, s.frames[e.id]);
    }
  }

  lemma DrainingStepStaysDriven(config: Config, s: State, e: Event, id: nat)
    requires Inv(config, s) && Enabled(config, s, e) && s.phase == Draining && !e.CallStop?
    requires id in s.frames && s.frames[id].StopFrame? && (e.Resume? ==> e.id != id)
    ensures Step(config, s, e).phase == Draining || Step(config, s, e).phase == Stopped
  {
    if e.Resume? {
      assert Separate(s.frames[e.id], s.frames[id]);
      assert FrameOk(config, s, s.frames[e.id]);
    }
  }

  lemma SeparatedStepKeepsInv(config: Config, s: State, e: Event)
    requires Inv(config, s) && Driven(s) && Enabled(config, s, e) && Separated(s, e)
    ensures Inv(config, Step(config, s, e)) && Driven(Step(config, s, e))
  {
    StepKeepsInv(config, s, e);
    StepKeepsDriven(config, s, e);
  }

  /** A stop in flight is the only one, and the lifecycle is draining. */
  predicate LoneStop(s: State) {
    && |StopsInFlight(s)| <= 1
    && (StopsInFlight(s) != {} ==> s.phase == Draining)
  }

  /** What a careful caller's runs keep. */
  ghost predicate RunInv(config: Config, policy: Policy, s: State) {
    Inv(config, s) && Driven(s) && (policy.stops <= 1 ==> LoneStop(s))
  }

  lemma NoneOrAll(s: State, id: nat)
    requires |StopsInFlight(s)| <= 1 && id in s.frames && s.frames[id].StopFrame?
    ensures StopsInFlight(s) == {id}
  {
    assert id in StopsInFlight(s);
    assert |StopsInFlight(s) - {id}| == 0;
  }

  lemma AtMostOne(ids: set<nat>, id: nat)
    requires ids <= {id}
    ensures |ids| <= 1
  {
    if ids != {} {
      assert ids == {id};
    }
  }

  /** While the only stop is in flight, nothing else leaves the draining phase. */
  lemma LoneStopStays(config: Config, s: State, e: Event)
    requires Inv(config, s) && LoneStop(s) && Enabled(config, s, e)
    requires e.CallStop? ==> StopsInFlight(s) == {}
    ensures LoneStop(Step(config, s, e))
  {
    var t := Step(config, s, e);
    if e.Resume? {
      assert FrameOk(config, s, s.frames[e.id]);
      if s.frames[e.id].StopFrame? {
        NoneOrAll(s, e.id);
        AtMostOne(StopsInFlight(t), e.id);
      } else {
        ResumeKeepsStops(config, s, e.id, e.reply);
      }
    } else if e.CallStop? {
      AtMostOne(StopsInFlight(t), s.nextFrame);
    } else {
      assert StopsInFlight(t) == StopsInFlight(s);
    }
  }

  lemma ResumeKeepsStops(config: Config, s: State, id: nat, reply: Reply)
    requires Enabled(config, s, Resume(id, reply)) && !s.frames[id].StopFrame?
    requires FrameOk(config, s, s.frames[id])
    ensures var t := Step(config, s, Resume(id, reply));
      && StopsInFlight(t) == StopsInFlight(s)
      && (s.phase == Draining ==> t.phase == Draining)
  {
    match s.frames[id]
    case StartFrame(_, _) =>
    case RenewFrame(_, _, _) =>
    case CheckFrame(_, _, _) =>
  }

  lemma PermittedStepKeepsInv(config: Config, policy: Policy, s: State, e: Event)
    requires Careful(policy) && RunInv(config, policy, s) && Permitted(config, policy, s, e)
    ensures RunInv(config, policy, Step(config, s, e))
  {
    SeparatedStepKeepsInv(config, s, e);
    if policy.stops <= 1 {
      assert |StopsInFlight(s)| == 0 ==> StopsInFlight(s) == {};
      LoneStopStays(config, s, e);
    }
  }

  lemma {:induction false} RunKeepsInv(config: Config, policy: Policy, s: State, es: seq<Event>)
    requires Careful(policy) && RunInv(config, policy, s) && Runs(config, policy, s, es)
    ensures RunInv(config, policy, After(config, policy, s, es))
    decreases |es|
  {
    if es != [] {
      PermittedStepKeepsInv(config, policy, s, es[0]);
      RunKeepsInv(config, policy, Step(config, s, es[0]), es[1..]);
    }
  }

  /** Lease accounting. Careful callers leave no lease behind: once
      nothing is in flight the lifecycle is stopped, active or lost, and every
      lease it ever claimed was given back or lost, but for the one it exposes. */
  ghost predicate LeavesNoLeaseBehind(s: State) {
    s.frames == map[] ==>
      && (s.phase == Stopped || s.phase == Active || s.phase == Lost)
      && s.claimed <= s.released + s.lost + (if s.phase == Active then HeldLease(s) else {})
  }

  lemma AtRestEveryLeaseIsSettled(config: Config, policy: Policy, es: seq<Event>)
    requires Careful(policy) && Runs(config, policy, INITIAL, es)
    ensures LeavesNoLeaseBehind(After(config, policy, INITIAL, es))
  {
    RunKeepsInv(config, policy, INITIAL, es);
    var t := After(config, policy, INITIAL, es);
    forall lease | lease in t.claimed && t.frames == map[]
      ensures lease in t.released + t.lost + (if t.phase == Active then HeldLease(t) else {})
    {
      assert Accounted(t, lease);
    }
  }

  /** What callers see while active: the lease was claimed and neither given
      back nor lost, and the two exposed values belong together. */
  lemma ActiveAuthorityIsHeld(config: Config, policy: Policy, es: seq<Event>)
    requires Careful(policy) && Runs(config, policy, INITIAL, es)
    ensures var t := After(config, policy, INITIAL, es);
      t.phase == Active ==>
        && t.record.Some? && t.authority.Some?
        && Agrees(config, t.record.value, t.authority.value)
        && Unsettled(t, t.record.value)
  {
    RunKeepsInv(config, policy, INITIAL, es);
  }

  /** `t` still exposes what `s` exposes. */
  predicate SameActivation(s: State, t: State) {
    && s.phase == Active && t.phase == Active
    && s.record.Some? && t.record.Some? && SameIdentity(s.record.value, t.record.value)
    && s.authority.Some? && t.authority.Some?
    && s.authority.value.fencingToken == t.authority.value.fencingToken
    && s.authority.value.deploymentId == t.authority.value.deploymentId
  }

  lemma ActivationEndsWithItsGeneration(config: Config, s: State, e: Event)
    requires Inv(config, s) && s.phase == Active && Enabled(config, s, e)
    ensures var t := Step(config, s, e);
      s.generation < t.generation || (s.generation == t.generation && SameActivation(s, t))
  {
    if e.Resume? {
      assert FrameOk(config, s, s.frames[e.id]);
      ResumedActivation(config, s, e.id, e.reply);
    }
  }

  lemma ResumedActivation(config: Config, s: State, id: nat, reply: Reply)
    requires PhaseOk(config, s) && s.phase == Active && Enabled(config, s, Resume(id, reply))
    requires FrameOk(config, s, s.frames[id])
    ensures var t := Step(config, s, Resume(id, reply));
      s.generation < t.generation || (s.generation == t.generation && SameActivation(s, t))
  {
    match s.frames[id]
    case StartFrame(generation, _) => SupersededOperationsAreInert(config, s, id, reply);
    case RenewFrame(_, _, _) =>
    case CheckFrame(_, _, _) =>
    case StopFrame(_, _) =>
  }

  /** One activation exposes one fence: as long as the generation stands, the
      lifecycle stays active with the same lease and the same fencing token. */
  lemma {:induction false} FenceIsStable(config: Config, policy: Policy, s: State, es: seq<Event>)
    requires Careful(policy) && RunInv(config, policy, s) && s.phase == Active && Runs(config, policy, s, es)
    ensures var t := After(config, policy, s, es);
      s.generation < t.generation || (s.generation == t.generation && SameActivation(s, t))
    decreases |es|
  {
    if es != [] {
      var u := Step(config, s, es[0]);
      PermittedStepKeepsInv(config, policy, s, es[0]);
      ActivationEndsWithItsGeneration(config, s, es[0]);
      if u.generation == s.generation {
        FenceIsStable(config, policy, u, es[1..]);
      } else {
        GenerationGrows(config, policy, u, es[1..]);
      }
    }
  }

  lemma {:induction false} GenerationGrows(config: Config, policy: Policy, s: State, es: seq<Event>)
    requires Runs(config, policy, s, es)
    ensures s.generation <= After(config, policy, s, es).generation
    decreases |es|
  {
    if es != [] {
      GenerationGrows(config, policy, Step(config, s, es[0]), es[1..]);
    }
  }

  /** Whatever the interleaving, an operation whose generation has passed
      changes neither the phase, the record, the authority nor the generation. */
  lemma SupersededOperationsAreInert(config: Config, s: State, id: nat, reply: Reply)
    requires Enabled(config, s, Resume(id, reply))
    requires !s.frames[id].StopFrame? && s.frames[id].generation != s.generation
    ensures var t := Step(config, s, Resume(id, reply));
      && t.phase == s.phase && t.record == s.record && t.authority == s.authority
      && t.generation == s.generation && t.lost == s.lost
  {
  }

  /** A start superseded after its claim tries to give its own lease back before
      it ends, and that lease is never what the lifecycle exposes. */
  ghost predicate GivingBack(config: Config, s: State, id: nat, record: LeaseRecord) {
    && record.lease.id in s.claimed
    && record.lease.id !in HeldLease(s)
    && (|| record.lease.id in s.released
        || (id in s.frames && HeldBy(s.frames[id]) == Some(record) && s.frames[id].generation < s.generation))
  }

  lemma {:induction false} SupersededStartGivesItsLeaseBack(
    config: Config, policy: Policy, s: State, es: seq<Event>, id: nat, record: LeaseRecord)
    requires Careful(policy) && RunInv(config, policy, s) && Runs(config, policy, s, es)
    requires GivingBack(config, s, id, record)
    ensures var t := After(config, policy, s, es);
      && (id !in t.frames ==> record.lease.id in t.released)
      && (t.record.Some? ==> t.record.value.lease.id != record.lease.id)
    decreases |es|
  {
    if es != [] {
      var u := Step(config, s, es[0]);
      PermittedStepKeepsInv(config, policy, s, es[0]);
      GivingBackContinues(config, s, es[0], id, record);
      SupersededStartGivesItsLeaseBack(config, policy, u, es[1..], id, record);
    }
  }

  lemma GivingBackContinues(config: Config, s: State, e: Event, id: nat, record: LeaseRecord)
    requires Inv(config, s) && Enabled(config, s, e)
    requires GivingBack(config, s, id, record)
    ensures GivingBack(config, Step(config, s, e), id, record)
  {
    var t := Step(config, s, e);
    NewlyExposedLeases(config, s, e);
    if record.lease.id !in s.released && e.Resume? {
      if e.id == id {
        SupersededHolderMovesOrReleases(config, s, id, e.reply);
      } else {
        OtherFramesStay(config, s, e, id);
        assert Separate(s.frames[e.id], s.frames[id]);
      }
    }
  }

  /** A lease becomes exposed only by the current start that holds it. */
  lemma NewlyExposedLeases(config: Config, s: State, e: Event)
    requires Inv(config, s) && Enabled(config, s, e)
    ensures var t := Step(config, s, e);
      && s.claimed <= t.claimed && s.released <= t.released && s.generation <= t.generation
      && (|| HeldLease(t) <= HeldLease(s)
          || (&& e.Resume? && IsStartOf(s.frames[e.id], s.generation) && HeldBy(s.frames[e.id]).Some?
              && HeldLease(t) == {HeldBy(s.frames[e.id]).value.lease.id}))
  {
    if e.Resume? {
      assert FrameOk(config, s, s.frames[e.id]);
      if s.frames[e.id].StartFrame? {
        StartExposesItsLease(config, s, e.id, e.reply);
      } else {
        OthersExposeNothing(config, s, e.id, e.reply);
      }
    }
  }

  lemma StartExposesItsLease(config: Config, s: State, id: nat, reply: Reply)
    requires Enabled(config, s, Resume(id, reply)) && s.frames[id].StartFrame?
    requires FrameOk(config, s, s.frames[id])
    ensures var t := Step(config, s, Resume(id, reply));
      && s.claimed <= t.claimed && s.released <= t.released && s.generation <= t.generation
      && (|| HeldLease(t) <= HeldLease(s)
          || (&& IsStartOf(s.frames[id], s.generation) && HeldBy(s.frames[id]).Some?
              && HeldLease(t) == {HeldBy(s.frames[id]).value.lease.id}))
  {
    match s.frames[id].start
    case ReadingPersisted =>
    case ReadingMirror(_) =>
    case Claiming =>
    case ReadingClaimed(_) =>
    case AssertingClaim(_, _, _) =>
    case WritingMirror(_, _, _) =>
    case ReleasingClaim(_) =>
  }

  lemma OthersExposeNothing(config: Config, s: State, id: nat, reply: Reply)
    requires Enabled(config, s, Resume(id, reply)) && !s.frames[id].StartFrame?
    requires FrameOk(config, s, s.frames[id])
    ensures var t := Step(config, s, Resume(id, reply));
      && s.claimed <= t.claimed && s.released <= t.released && s.generation <= t.generation
      && HeldLease(t) <= HeldLease(s)
  {
    match s.frames[id]
    case RenewFrame(_, _, _) => RenewalExposesNothing(config, s, id, reply);
    case CheckFrame(_, _, _) =>
    case StopFrame(_, _) =>
  }

  lemma RenewalExposesNothing(config: Config, s: State, id: nat, reply: Reply)
    requires Enabled(config, s, Resume(id, reply)) && s.frames[id].RenewFrame?
    requires FrameOk(config, s, s.frames[id])
    ensures var t := Step(config, s, Resume(id, reply));
      && s.claimed <= t.claimed && s.released <= t.released && s.generation <= t.generation
      && HeldLease(t) <= HeldLease(s)
  {
    match s.frames[id].renew
    case RenewReadingCurrent =>
    case Renewing =>
    case RenewReadingDeployment(_) =>
    case RenewAsserting(_, _, _) =>
    case RenewWritingMirror(_, _, _) =>
  }

  lemma SupersededHolderMovesOrReleases(config: Config, s: State, id: nat, reply: Reply)
    requires Enabled(config, s, Resume(id, reply))
    requires s.frames[id].StartFrame? && HeldBy(s.frames[id]).Some? && s.frames[id].generation < s.generation
    ensures var t := Step(config, s, Resume(id, reply));
      && t.generation == s.generation
      && (|| HeldBy(s.frames[id]).value.lease.id in t.released
          || (id in t.frames && t.frames[id].StartFrame? && HeldBy(t.frames[id]) == HeldBy(s.frames[id])
              && t.frames[id].generation == s.frames[id].generation))
  {
  }

  // ------------------------------------------------ overlapping stops are not safe

  const SCOPE := Config("owner", "agent", "deployment", false)

  function Persisted(fence: int): Deployment {
    Deployment("deployment", "owner", "agent", fence, ActiveDeployment, 1, fence, None)
  }

  function ClaimOf(id: string, fence: int): LeaseRecord {
    LeaseRecord(Lease(id, "owner", "agent", "holder"), fence, 0)
  }

  /** Start to the point of activation: four replies to the frame `id`. */
  function Activation(id: nat, lease: string, fence: int): seq<Event> {
    [CallStart,
     Resume(id, Found(Some(Persisted(fence - 1)))),
     Resume(id, Claimed(ClaimOf(lease, fence))),
     Resume(id, Found(Some(Persisted(fence)))),
     Resume(id, Done)]
  }

  /** A second stop ends while the first still waits for its release; a new
      start activates in between, and the first stop's end buries it. */
  function OverlappingStops(): seq<Event> {
    Activation(0, "first", 2) + [CallStop, CallStop] + Activation(3, "second", 3) + [Resume(1, Done)]
  }

  lemma {:induction false} RunsCompose(config: Config, policy: Policy, s: State, es: seq<Event>, fs: seq<Event>)
    requires Runs(config, policy, s, es) && Runs(config, policy, After(config, policy, s, es), fs)
    ensures Runs(config, policy, s, es + fs)
    ensures After(config, policy, s, es + fs) == After(config, policy, After(config, policy, s, es), fs)
    decreases |es|
  {
    if es == [] {
      assert es + fs == fs;
    } else {
      assert (es + fs)[1..] == es[1..] + fs;
      RunsCompose(config, policy, Step(config, s, es[0]), es[1..], fs);
    }
  }

  lemma OneStepRuns(config: Config, policy: Policy, s: State, e: Event)
    requires Permitted(config, policy, s, e)
    ensures Runs(config, policy, s, [e]) && After(config, policy, s, [e]) == Step(config, s, e)
  {
    assert Runs(config, policy, Step(config, s, e), [e][1..]);
  }

  /** Two runs in a row, with the state in between and the one at the end. */
  lemma Chain(policy: Policy, s: State, es: seq<Event>, t: State, fs: seq<Event>, u: State)
    requires Runs(SCOPE, policy, s, es) && After(SCOPE, policy, s, es) == t
    requires Runs(SCOPE, policy, t, fs) && After(SCOPE, policy, t, fs) == u
    ensures Runs(SCOPE, policy, s, es + fs) && After(SCOPE, policy, s, es + fs) == u
  {
    RunsCompose(SCOPE, policy, s, es, fs);
  }

  /** The start waits for the reply to its claim, or to the read after it. */
  function StartAt(s: State, point: StartPoint, claimed: set<string>): State {
    s.(phase := Starting, generation := s.generation + 1, nextFrame := s.nextFrame + 1,
       frames := s.frames[s.nextFrame := StartFrame(s.generation + 1, point)], claimed := claimed)
  }

  lemma ActivationBegins(policy: Policy, s: State, fence: int)
    requires policy.startsDuringStop && s.phase == Stopped && 2 <= fence <= 9
    ensures var es := [CallStart, Resume(s.nextFrame, Found(Some(Persisted(fence - 1))))];
      Runs(SCOPE, policy, s, es) && After(SCOPE, policy, s, es) == StartAt(s, Claiming, s.claimed)
  {
    var first, second := CallStart, Resume(s.nextFrame, Found(Some(Persisted(fence - 1))));
    var t, u := StartAt(s, ReadingPersisted, s.claimed), StartAt(s, Claiming, s.claimed);
    assert Step(SCOPE, s, first) == t && Step(SCOPE, t, second) == u;
    OneStepRuns(SCOPE, policy, s, first);
    OneStepRuns(SCOPE, policy, t, second);
    Chain(policy, s, [first], t, [second], u);
    assert [first] + [second] == [first, second];
  }

  lemma ActivationClaims(policy: Policy, s: State, lease: string, fence: int)
    requires 2 <= fence <= 9 && lease !in s.claimed
    ensures var id, record := s.nextFrame, ClaimOf(lease, fence);
      var es := [Resume(id, Claimed(record)), Resume(id, Found(Some(Persisted(fence))))];
      var t := StartAt(s, Claiming, s.claimed);
      && Runs(SCOPE, policy, t, es)
      && After(SCOPE, policy, t, es) ==
           StartAt(s, AssertingClaim(record, Persisted(fence), Authority("deployment", 1, fence)), s.claimed + {lease})
  {
    var id, record := s.nextFrame, ClaimOf(lease, fence);
    var first, second := Resume(id, Claimed(record)), Resume(id, Found(Some(Persisted(fence))));
    var t, u := StartAt(s, Claiming, s.claimed), StartAt(s, ReadingClaimed(record), s.claimed + {lease});
    var v := StartAt(s, AssertingClaim(record, Persisted(fence), Authority("deployment", 1, fence)), s.claimed + {lease});
    assert Step(SCOPE, t, first) == u && Step(SCOPE, u, second) == v;
    OneStepRuns(SCOPE, policy, t, first);
    OneStepRuns(SCOPE, policy, u, second);
    Chain(policy, t, [first], u, [second], v);
    assert [first] + [second] == [first, second];
  }

  lemma ActivationEnds(policy: Policy, s: State, lease: string, fence: int)
    requires s.nextFrame !in s.frames
    ensures var record, authority := ClaimOf(lease, fence), Authority("deployment", 1, fence);
      var t := StartAt(s, AssertingClaim(record, Persisted(fence), authority), s.claimed + {lease});
      var es := [Resume(s.nextFrame, Done)];
      Runs(SCOPE, policy, t, es) && After(SCOPE, policy, t, es) == Activated(s, lease, fence)
  {
    var t := StartAt(s, AssertingClaim(ClaimOf(lease, fence), Persisted(fence), Authority("deployment", 1, fence)),
                     s.claimed + {lease});
    OneStepRuns(SCOPE, policy, t, Resume(s.nextFrame, Done));
    assert Step(SCOPE, t, Resume(s.nextFrame, Done)).frames == s.frames;
  }

  function Activated(s: State, lease: string, fence: int): State {
    s.(phase := Active, generation := s.generation + 1, nextFrame := s.nextFrame + 1,
       record := Some(ClaimOf(lease, fence)), authority := Some(Authority("deployment", 1, fence)),
       claimed := s.claimed + {lease})
  }

  /** Undisturbed, a start of a stopped lifecycle activates its fresh claim. */
  lemma ActivationRuns(policy: Policy, s: State, lease: string, fence: int)
    requires policy.startsDuringStop
    requires s.phase == Stopped && s.nextFrame !in s.frames && lease !in s.claimed && 2 <= fence <= 9
    ensures Runs(SCOPE, policy, s, Activation(s.nextFrame, lease, fence))
    ensures After(SCOPE, policy, s, Activation(s.nextFrame, lease, fence)) == Activated(s, lease, fence)
  {
    var id, record := s.nextFrame, ClaimOf(lease, fence);
    var begins := [CallStart, Resume(id, Found(Some(Persisted(fence - 1))))];
    var claims := [Resume(id, Claimed(record)), Resume(id, Found(Some(Persisted(fence))))];
    var ends := [Resume(id, Done)];
    var authority := Authority("deployment", 1, fence);
    var t := StartAt(s, Claiming, s.claimed);
    var u := StartAt(s, AssertingClaim(ClaimOf(lease, fence), Persisted(fence), authority), s.claimed + {lease});
    ActivationBegins(policy, s, fence);
    ActivationClaims(policy, s, lease, fence);
    ActivationEnds(policy, s, lease, fence);
    Chain(policy, s, begins, t, claims, u);
    Chain(policy, s, begins + claims, u, ends, Activated(s, lease, fence));
    assert Activation(id, lease, fence) == begins + claims + ends;
  }

  /** The first stop releases the lease; the second finds nothing to release and
      ends at once, leaving the first in flight in a stopped lifecycle. */
  lemma TwoStopsRun(policy: Policy, s: State, record: LeaseRecord)
    requires !Careful(policy) && s.phase == Active && s.record == Some(record)
    requires s.frames == map[] && s.renewal.None?
    ensures Runs(SCOPE, policy, s, [CallStop, CallStop])
    ensures After(SCOPE, policy, s, [CallStop, CallStop]) ==
              s.(phase := Stopped, record := None, authority := None, generation := s.generation + 2,
                 frames := map[s.nextFrame := StopFrame(false, ReleasingHeld(record))],
                 nextFrame := s.nextFrame + 2, released := s.released + {record.lease.id})
  {
    assert StopsInFlight(s) == {};
    var t := Step(SCOPE, s, CallStop);
    assert StopsInFlight(t) == {s.nextFrame};
    OneStepRuns(SCOPE, policy, s, CallStop);
    OneStepRuns(SCOPE, policy, t, CallStop);
    RunsCompose(SCOPE, policy, s, [CallStop], [CallStop]);
    assert [CallStop] + [CallStop] == [CallStop, CallStop];
    assert Step(SCOPE, t, CallStop).frames == t.frames;
  }

  /** What the two stops leave of the first activation. */
  predicate StopPending(s: State) {
    && s.phase == Stopped && s.nextFrame == 3 && s.claimed == {"first"} && s.released == {"first"} && s.lost == {}
    && s.frames == map[1 := StopFrame(false, ReleasingHeld(ClaimOf("first", 2)))]
  }

  lemma FirstActivation(policy: Policy) returns (s: State)
    requires policy.startsDuringStop
    ensures Runs(SCOPE, policy, INITIAL, Activation(0, "first", 2))
    ensures s == After(SCOPE, policy, INITIAL, Activation(0, "first", 2))
    ensures s.phase == Active && s.record == Some(ClaimOf("first", 2)) && s.frames == map[] && s.renewal.None?
    ensures s.nextFrame == 1 && s.claimed == {"first"} && s.released == {} && s.lost == {}
  {
    ActivationRuns(policy, INITIAL, "first", 2);
    s := After(SCOPE, policy, INITIAL, Activation(0, "first", 2));
  }

  lemma TwoStopsLeaveOnePending(policy: Policy, s: State)
    requires !Careful(policy)
    requires s.phase == Active && s.record == Some(ClaimOf("first", 2)) && s.frames == map[] && s.renewal.None?
    requires s.nextFrame == 1 && s.claimed == {"first"} && s.released == {} && s.lost == {}
    ensures Runs(SCOPE, policy, s, [CallStop, CallStop])
    ensures StopPending(After(SCOPE, policy, s, [CallStop, CallStop]))
  {
    TwoStopsRun(policy, s, ClaimOf("first", 2));
  }

  lemma StopsLeaveOnePending(policy: Policy) returns (u: State)
    requires !Careful(policy)
    ensures Runs(SCOPE, policy, INITIAL, Activation(0, "first", 2) + [CallStop, CallStop])
    ensures u == After(SCOPE, policy, INITIAL, Activation(0, "first", 2) + [CallStop, CallStop])
    ensures StopPending(u)
  {
    var s := FirstActivation(policy);
    TwoStopsLeaveOnePending(policy, s);
    u := After(SCOPE, policy, s, [CallStop, CallStop]);
    Chain(policy, INITIAL, Activation(0, "first", 2), s, [CallStop, CallStop], u);
  }

  lemma SecondActivation(policy: Policy, s: State) returns (t: State)
    requires policy.startsDuringStop && StopPending(s)
    ensures Runs(SCOPE, policy, s, Activation(3, "second", 3))
    ensures t == After(SCOPE, policy, s, Activation(3, "second", 3))
    ensures t.frames == s.frames && "second" in t.claimed && t.released == {"first"} && t.lost == {}
  {
    ActivationRuns(policy, s, "second", 3);
    t := After(SCOPE, policy, s, Activation(3, "second", 3));
  }

  lemma PendingStopBuriesTheNext(policy: Policy, s: State) returns (u: State)
    requires policy.startsDuringStop && StopPending(s)
    ensures Runs(SCOPE, policy, s, Activation(3, "second", 3) + [Resume(1, Done)])
    ensures u == After(SCOPE, policy, s, Activation(3, "second", 3) + [Resume(1, Done)])
    ensures !LeavesNoLeaseBehind(u)
  {
    var t := SecondActivation(policy, s);
    OneStepRuns(SCOPE, policy, t, Resume(1, Done));
    u := Step(SCOPE, t, Resume(1, Done));
    Chain(policy, s, Activation(3, "second", 3), t, [Resume(1, Done)], u);
    BuriedLease(t);
  }

  lemma OverlappingStopsOrphanALease(policy: Policy)
    requires !Careful(policy)
    ensures Runs(SCOPE, policy, INITIAL, OverlappingStops())
    ensures !LeavesNoLeaseBehind(After(SCOPE, policy, INITIAL, OverlappingStops()))
  {
    var s := StopsLeaveOnePending(policy);
    var u := PendingStopBuriesTheNext(policy, s);
    var before, after := Activation(0, "first", 2) + [CallStop, CallStop], Activation(3, "second", 3) + [Resume(1, Done)];
    Chain(policy, INITIAL, before, s, after, u);
    assert OverlappingStops() == before + after;
  }

  /** The first stop's end, whatever happened since, declares the lifecycle stopped. */
  lemma BuriedLease(s: State)
    requires s.frames == map[1 := StopFrame(false, ReleasingHeld(ClaimOf("first", 2)))]
    requires "second" in s.claimed && s.released == {"first"} && s.lost == {}
    ensures !LeavesNoLeaseBehind(Step(SCOPE, s, Resume(1, Done)))
  {
    var t := Step(SCOPE, s, Resume(1, Done));
    assert t.frames == map[] && "second" in t.claimed && "second" !in t.released + t.lost;
  }

  /** Lease accounting holds for exactly the callers that take one of the two
      precautions: no overlapping stops, or no start while a stop is in flight. */
  lemma AccountingNeedsCare(policy: Policy)
    ensures (forall config, es :: Runs(config, policy, INITIAL, es) ==>
               LeavesNoLeaseBehind(After(config, policy, INITIAL, es))) <==> Careful(policy)
  {
    if Careful(policy) {
      forall config, es | Runs(config, policy, INITIAL, es)
        ensures LeavesNoLeaseBehind(After(config, policy, INITIAL, es))
      {
        AtRestEveryLeaseIsSettled(config, policy, es);
      }
    } else {
      OverlappingStopsOrphanALease(policy);
    }
  }

  // ------------------------------------------------------ the object's own runs

  /** One event, performed by the object. */
  method Perform(service: ProductionAuthorityLifecycle, e: Event)
    requires Enabled(service.config, service.View(), e)
    modifies service
    ensures service.View() == Step(service.config, old(service.View()), e)
  {
    match e
    case CallStart => service.Start();
    case CallRenew => service.Renew();
    case CallAssertActive => service.AssertActive();
    case CallStop => service.Stop();
    case ForgetRenewal(operation) => service.ForgetRenewal(operation);
    case Resume(id, reply) => service.Resume(id, reply);
  }

  /** The object performs every run of a careful caller as the model does, so it
      ends in a state of which all of the above holds. */
  method PerformRun(service: ProductionAuthorityLifecycle, policy: Policy, es: seq<Event>)
    requires Careful(policy) && RunInv(service.config, policy, service.View())
    requires Runs(service.config, policy, service.View(), es)
    modifies service
    ensures service.View() == After(service.config, policy, old(service.View()), es)
    ensures RunInv(service.config, policy, service.View())
    decreases |es|
  {
    if es != [] {
      PermittedStepKeepsInv(service.config, policy, service.View(), es[0]);
      Perform(service, es[0]);
      PerformRun(service, policy, es[1..]);
    }
  }
}
