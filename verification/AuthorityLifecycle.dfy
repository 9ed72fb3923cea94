/** The authority lease lifecycle of the agent service.

    Every asynchronous operation of the service runs in segments separated by
    its `await`s. A `Frame` is one suspended operation: its captured locals and
    the call it is waiting for. `Step` is what one segment does; the class
    below performs the same segments by updating its fields. */
module AuthorityLifecycle {
  import opened Options

  const MAX_SAFE_INTEGER := 0x1F_FFFF_FFFF_FFFF

  datatype DeploymentStatus = InactiveReady | ActiveDeployment | RetiredPendingTransfer | Retired

  datatype Deployment = Deployment(
    id: string, ownerId: string, agentId: string, revision: int, status: DeploymentStatus,
    authorityEpoch: int, fencingToken: int, transferId: Option<string>)

  datatype Lease = Lease(id: string, ownerId: string, agentId: string, holderId: string)
  datatype LeaseRecord = LeaseRecord(lease: Lease, fencingToken: int, expiresAt: int)
  datatype Authority = Authority(deploymentId: string, authorityEpoch: int, fencingToken: int)

  datatype Config = Config(ownerId: string, agentId: string, deploymentId: string, hasMirror: bool)

  datatype Phase = Stopped | Starting | Active | Draining | Lost

  /** What a suspended `start` is waiting for. */
  datatype StartPoint =
    | ReadingPersisted
    | ReadingMirror(persisted: Deployment)
    | Claiming
    | ReadingClaimed(record: LeaseRecord)
    | AssertingClaim(record: LeaseRecord, deployment: Deployment, authority: Authority)
    | WritingMirror(record: LeaseRecord, deployment: Deployment, authority: Authority)
    | ReleasingClaim(record: LeaseRecord)

  datatype RenewPoint =
    | RenewReadingCurrent
    | Renewing
    | RenewReadingDeployment(renewed: LeaseRecord)
    | RenewAsserting(renewed: LeaseRecord, deployment: Deployment, authority: Authority)
    | RenewWritingMirror(renewed: LeaseRecord, deployment: Deployment, authority: Authority)

  datatype CheckPoint =
    | CheckReadingCurrent
    | CheckReadingDeployment(current: LeaseRecord)
    | CheckAsserting(authority: Authority)

  datatype StopPoint = AwaitingRenewal(operation: nat) | ReleasingHeld(record: LeaseRecord)

  datatype Frame =
    | StartFrame(generation: nat, start: StartPoint)
    | RenewFrame(generation: nat, captured: LeaseRecord, renew: RenewPoint)
    | CheckFrame(generation: nat, captured: LeaseRecord, check: CheckPoint)
    | StopFrame(wasLost: bool, stop: StopPoint)

  /** How an awaited call settles. `Threw` is a rejection of any kind. */
  datatype Reply =
    | Threw
    | Found(deployment: Option<Deployment>)
    | MirrorIs(mirror: Deployment)
    | Claimed(record: LeaseRecord)
    | CurrentIs(current: Option<LeaseRecord>)
    | Renewed(renewed: LeaseRecord)
    | Done

  /** The fields of the lifecycle object, its suspended operations, and the
      ledger of leases it claimed, tried to release, and declared lost. */
  datatype State = State(
    phase: Phase, record: Option<LeaseRecord>, authority: Option<Authority>, generation: nat,
    renewal: Option<nat>, frames: map<nat, Frame>, nextFrame: nat,
    claimed: set<string>, released: set<string>, lost: set<string>)
  {
    function Suspend(id: nat, frame: Frame): State { this.(frames := frames[id := frame]) }
    function Finish(id: nat): State { this.(frames := frames - {id}) }
  }

  datatype Event =
    | CallStart
    | CallRenew
    | CallAssertActive
    | CallStop
    | Resume(id: nat, reply: Reply)
    | ForgetRenewal(operation: nat)

  const INITIAL := State(Stopped, None, None, 0, None, map[], 0, {}, {}, {})

  // ---------------------------------------------------------------- guards

  predicate PositiveFence(value: int) {
    1 <= value <= MAX_SAFE_INTEGER
  }

  predicate SameDeploymentScope(deployment: Deployment, config: Config) {
    && deployment.id == config.deploymentId
    && deployment.ownerId == config.ownerId
    && deployment.agentId == config.agentId
  }

  predicate IsActiveDeployment(found: Option<Deployment>, config: Config) {
    && found.Some?
    && SameDeploymentScope(found.value, config)
    && found.value.status == ActiveDeployment
    && PositiveFence(found.value.authorityEpoch)
    && PositiveFence(found.value.fencingToken)
  }

  predicate MirrorAccepted(mirror: Deployment, persisted: Deployment, config: Config) {
    var recoverableClaimGap := mirror.fencingToken < persisted.fencingToken;
    !(|| !SameDeploymentScope(mirror, config)
      || mirror.status != persisted.status
      || mirror.authorityEpoch != persisted.authorityEpoch
      || mirror.transferId != persisted.transferId
      || mirror.revision > persisted.revision
      || (!recoverableClaimGap && mirror.revision != persisted.revision)
      || mirror.fencingToken > persisted.fencingToken)
  }

  function AuthorityFrom(deployment: Deployment, record: LeaseRecord): Option<Authority> {
    if record.lease.ownerId != deployment.ownerId || record.lease.agentId != deployment.agentId then None
    else if record.fencingToken != deployment.fencingToken then None
    else Some(Authority(deployment.id, deployment.authorityEpoch, record.fencingToken))
  }

  predicate SameIdentity(left: LeaseRecord, right: LeaseRecord) {
    left.lease == right.lease && left.fencingToken == right.fencingToken
  }

  /** `assertStartingGeneration` passes. */
  predicate StartingIn(s: State, generation: nat) {
    s.phase == Starting && s.generation == generation
  }

  /** `assertActiveGeneration` passes. */
  predicate ActiveIn(s: State, generation: nat, captured: LeaseRecord) {
    && s.phase == Active && s.generation == generation
    && s.record.Some? && SameIdentity(s.record.value, captured)
  }

  // -------------------------------------------------------------- segments

  /** The tail of `start`'s error path, once any claimed lease was given back. */
  function EndFailedStart(s: State, id: nat, generation: nat): State {
    if generation == s.generation
    then s.Finish(id).(phase := Stopped, record := None, authority := None)
    else s.Finish(id)
  }

  /** The head of `start`'s error path when a lease was already claimed. */
  function AbandonClaim(s: State, id: nat, generation: nat, record: LeaseRecord): State {
    s.Suspend(id, StartFrame(generation, ReleasingClaim(record)))
     .(released := s.released + {record.lease.id})
  }

  function Activate(s: State, id: nat, record: LeaseRecord, authority: Authority): State {
    s.Finish(id).(phase := Active, record := Some(record), authority := Some(authority))
  }

  function ResumeStart(config: Config, s: State, id: nat, generation: nat, point: StartPoint, reply: Reply): State {
    match point
    case ReadingPersisted =>
      if !reply.Found? || !IsActiveDeployment(reply.deployment, config) then EndFailedStart(s, id, generation)
      else if config.hasMirror then s.Suspend(id, StartFrame(generation, ReadingMirror(reply.deployment.value)))
      else if StartingIn(s, generation) then s.Suspend(id, StartFrame(generation, Claiming))
      else EndFailedStart(s, id, generation)
    case ReadingMirror(persisted) =>
      if reply.MirrorIs? && MirrorAccepted(reply.mirror, persisted, config) && StartingIn(s, generation)
      then s.Suspend(id, StartFrame(generation, Claiming))
      else EndFailedStart(s, id, generation)
    case Claiming =>
      if !reply.Claimed? then EndFailedStart(s, id, generation)
      else
        var s := s.(claimed := s.claimed + {reply.record.lease.id});
        if StartingIn(s, generation) then s.Suspend(id, StartFrame(generation, ReadingClaimed(reply.record)))
        else AbandonClaim(s, id, generation, reply.record)
    case ReadingClaimed(record) =>
      if reply.Found? && IsActiveDeployment(reply.deployment, config)
         && AuthorityFrom(reply.deployment.value, record).Some?
      then
        var deployment := reply.deployment.value;
        s.Suspend(id, StartFrame(generation,
          AssertingClaim(record, deployment, AuthorityFrom(deployment, record).value)))
      else AbandonClaim(s, id, generation, record)
    case AssertingClaim(record, deployment, authority) =>
      if !reply.Done? || !StartingIn(s, generation) then AbandonClaim(s, id, generation, record)
      else if config.hasMirror
      then s.Suspend(id, StartFrame(generation, WritingMirror(record, deployment, authority)))
      else Activate(s, id, record, authority)
    case WritingMirror(record, deployment, authority) =>
      if reply.Done? && StartingIn(s, generation) then Activate(s, id, record, authority)
      else AbandonClaim(s, id, generation, record)
    case ReleasingClaim(record) => EndFailedStart(s, id, generation)
  }

  /** The identity of the lease the service holds, as a set of at most one. */
  function HeldLease(s: State): set<string> {
    if s.record.Some? then {s.record.value.lease.id} else {}
  }

  function MarkLost(s: State): State {
    if s.phase != Active then s
    else s.(generation := s.generation + 1, phase := Lost, lost := s.lost + HeldLease(s))
  }

  function FailRenewal(s: State, id: nat, generation: nat, captured: LeaseRecord): State {
    if generation != s.generation || s.phase != Active || s.record != Some(captured) then s.Finish(id)
    else MarkLost(s.Finish(id))
  }

  function CommitRenewal(s: State, id: nat, renewed: LeaseRecord, authority: Authority): State {
    s.Finish(id).(record := Some(renewed), authority := Some(authority))
  }

  function ResumeRenew(config: Config, s: State, id: nat, generation: nat, captured: LeaseRecord,
                       point: RenewPoint, reply: Reply): State
  {
    if reply.Threw? || !ActiveIn(s, generation, captured) then FailRenewal(s, id, generation, captured)
    else
      match point
      case RenewReadingCurrent =>
        if reply.CurrentIs? && reply.current.Some? && reply.current.value.lease.id == captured.lease.id
        then s.Suspend(id, RenewFrame(generation, captured, Renewing))
        else FailRenewal(s, id, generation, captured)
      case Renewing =>
        if reply.Renewed? && SameIdentity(reply.renewed, captured)
        then s.Suspend(id, RenewFrame(generation, captured, RenewReadingDeployment(reply.renewed)))
        else FailRenewal(s, id, generation, captured)
      case RenewReadingDeployment(renewed) =>
        if reply.Found? && IsActiveDeployment(reply.deployment, config)
           && AuthorityFrom(reply.deployment.value, renewed).Some?
        then
          var deployment := reply.deployment.value;
          s.Suspend(id, RenewFrame(generation, captured,
            RenewAsserting(renewed, deployment, AuthorityFrom(deployment, renewed).value)))
        else FailRenewal(s, id, generation, captured)
      case RenewAsserting(renewed, deployment, authority) =>
        if config.hasMirror
        then s.Suspend(id, RenewFrame(generation, captured, RenewWritingMirror(renewed, deployment, authority)))
        else CommitRenewal(s, id, renewed, authority)
      case RenewWritingMirror(renewed, deployment, authority) => CommitRenewal(s, id, renewed, authority)
  }

  function FailCheck(s: State, id: nat, generation: nat): State {
    if generation != s.generation || s.phase != Active then s.Finish(id) else MarkLost(s.Finish(id))
  }

  function ResumeCheck(config: Config, s: State, id: nat, generation: nat, captured: LeaseRecord,
                       point: CheckPoint, reply: Reply): State
  {
    if reply.Threw? || !ActiveIn(s, generation, captured) then FailCheck(s, id, generation)
    else
      match point
      case CheckReadingCurrent =>
        if reply.CurrentIs? && reply.current.Some?
           && reply.current.value.lease.id == captured.lease.id
           && reply.current.value.lease.holderId == captured.lease.holderId
           && reply.current.value.fencingToken == captured.fencingToken
        then s.Suspend(id, CheckFrame(generation, captured, CheckReadingDeployment(reply.current.value)))
        else FailCheck(s, id, generation)
      case CheckReadingDeployment(current) =>
        if reply.Found? && IsActiveDeployment(reply.deployment, config)
           && AuthorityFrom(reply.deployment.value, current).Some?
        then s.Suspend(id, CheckFrame(generation, captured,
               CheckAsserting(AuthorityFrom(reply.deployment.value, current).value)))
        else FailCheck(s, id, generation)
      case CheckAsserting(_) => s.Finish(id)
  }

  /** `stop` takes the record and, unless it was lost, asks for its release. */
  function TakeRecord(s: State, id: nat, wasLost: bool): State {
    var taken := s.(record := None, authority := None);
    if s.record.Some? && !wasLost
    then taken.Suspend(id, StopFrame(wasLost, ReleasingHeld(s.record.value)))
              .(released := s.released + {s.record.value.lease.id})
    else taken.Finish(id).(phase := Stopped)
  }

  function ResumeStop(s: State, id: nat, wasLost: bool, point: StopPoint): State {
    match point
    case AwaitingRenewal(_) => TakeRecord(s, id, wasLost)
    case ReleasingHeld(_) => s.Finish(id).(phase := Stopped)
  }

  function Begin(s: State, frame: Frame): State {
    s.Suspend(s.nextFrame, frame).(nextFrame := s.nextFrame + 1)
  }

  function BeginStart(s: State): State {
    if s.phase == Active || s.phase == Starting || s.phase == Draining then s
    else
      var s := s.(phase := Starting, generation := s.generation + 1);
      Begin(s, StartFrame(s.generation, ReadingPersisted))
  }

  function BeginRenew(s: State): State {
    if s.renewal.Some? then s
    else
      var s := s.(renewal := Some(s.nextFrame));
      if s.phase != Active || s.record.None? || s.authority.None?
      then s.(nextFrame := s.nextFrame + 1)  // rejected at once, but still the renewal in flight
      else Begin(s, RenewFrame(s.generation, s.record.value, RenewReadingCurrent))
  }

  function BeginAssertActive(s: State): State {
    if s.phase != Active || s.record.None? || s.authority.None? then s
    else Begin(s, CheckFrame(s.generation, s.record.value, CheckReadingCurrent))
  }

  function BeginStop(s: State): State {
    if s.phase == Stopped then s
    else
      var wasLost := s.phase == Lost;
      var s := s.(generation := s.generation + 1, phase := Draining);
      if s.renewal.Some? then Begin(s, StopFrame(wasLost, AwaitingRenewal(s.renewal.value)))
      else TakeRecord(s.(nextFrame := s.nextFrame + 1), s.nextFrame, wasLost)
  }

  /** Which replies can settle the call a frame waits for. A claim answers with
      a lease of this service under an identity that was never used before. */
  predicate Fits(config: Config, s: State, frame: Frame, reply: Reply) {
    match frame
    case StartFrame(_, Claiming) =>
      reply.Threw? || (reply.Claimed?
                       && reply.record.lease.ownerId == config.ownerId
                       && reply.record.lease.agentId == config.agentId
                       && reply.record.lease.id !in s.claimed)
    case StopFrame(_, AwaitingRenewal(operation)) => operation !in s.frames
    case _ => true
  }

  predicate Enabled(config: Config, s: State, e: Event) {
    match e
    case Resume(id, reply) => id in s.frames && Fits(config, s, s.frames[id], reply)
    case ForgetRenewal(operation) => operation !in s.frames && s.renewal == Some(operation)
    case _ => true
  }

  function Step(config: Config, s: State, e: Event): State
    requires Enabled(config, s, e)
  {
    match e
    case CallStart => BeginStart(s)
    case CallRenew => BeginRenew(s)
    case CallAssertActive => BeginAssertActive(s)
    case CallStop => BeginStop(s)
    case ForgetRenewal(_) => s.(renewal := None)
    case Resume(id, reply) =>
      match s.frames[id]
      case StartFrame(generation, point) => ResumeStart(config, s, id, generation, point, reply)
      case RenewFrame(generation, captured, point) => ResumeRenew(config, s, id, generation, captured, point, reply)
      case CheckFrame(generation, captured, point) => ResumeCheck(config, s, id, generation, captured, point, reply)
      case StopFrame(wasLost, point) => ResumeStop(s, id, wasLost, point)
  }

  // ------------------------------------------------------------- the object

  /** The lifecycle object. Each method is one segment of an operation; what it
      does to the fields is what `Step` says. The ledger is specification only. */
  class ProductionAuthorityLifecycle {
    const config: Config
    var phase: Phase
    var record: Option<LeaseRecord>
    var authority: Option<Authority>
    var generation: nat
    var renewal: Option<nat>
    var frames: map<nat, Frame>
    var nextFrame: nat
    ghost var claimed: set<string>
    ghost var released: set<string>
    ghost var lost: set<string>

    ghost function View(): State
      reads this
    {
      State(phase, record, authority, generation, renewal, frames, nextFrame, claimed, released, lost)
    }

    constructor (config: Config)
      ensures this.config == config && View() == INITIAL
    {
      this.config := config;
      phase, record, authority, generation := Stopped, None, None, 0;
      renewal, frames, nextFrame := None, map[], 0;
      claimed, released, lost := {}, {}, {};
    }

    method Suspend(frame: Frame)
      modifies this`frames, this`nextFrame
      ensures frames == old(frames)[old(nextFrame) := frame] && nextFrame == old(nextFrame) + 1
    {
      frames := frames[nextFrame := frame];
      nextFrame := nextFrame + 1;
    }

    method Start()
      modifies this
      ensures View() == Step(config, old(View()), CallStart)
    {
      if phase == Active || phase == Starting || phase == Draining { return; }
      phase := Starting;
      generation := generation + 1;
      Suspend(StartFrame(generation, ReadingPersisted));
    }

    method Renew()
      modifies this
      ensures View() == Step(config, old(View()), CallRenew)
    {
      if renewal.Some? { return; }
      renewal := Some(nextFrame);
      if phase != Active || record.None? || authority.None? {
        nextFrame := nextFrame + 1;
        return;
      }
      Suspend(RenewFrame(generation, record.value, RenewReadingCurrent));
    }

    method AssertActive()
      modifies this
      ensures View() == Step(config, old(View()), CallAssertActive)
    {
      if phase != Active || record.None? || authority.None? { return; }
      Suspend(CheckFrame(generation, record.value, CheckReadingCurrent));
    }

    method Stop()
      modifies this
      ensures View() == Step(config, old(View()), CallStop)
    {
      if phase == Stopped { return; }
      var wasLost := phase == Lost;
      generation := generation + 1;
      phase := Draining;
      var id := nextFrame;
      if renewal.Some? {
        Suspend(StopFrame(wasLost, AwaitingRenewal(renewal.value)));
      } else {
        nextFrame := nextFrame + 1;
        ReleaseHeld(id, wasLost);
      }
    }

    method ReleaseHeld(id: nat, wasLost: bool)
      modifies this
      ensures View() == TakeRecord(old(View()), id, wasLost)
    {
      var taken := record;
      record := None;
      authority := None;
      if taken.Some? && !wasLost {
        released := released + {taken.value.lease.id};
        frames := frames[id := StopFrame(wasLost, ReleasingHeld(taken.value))];
      } else {
        frames := frames - {id};
        phase := Stopped;
      }
    }

    method ForgetRenewal(operation: nat)
      requires Enabled(config, View(), Event.ForgetRenewal(operation))
      modifies this
      ensures View() == Step(config, old(View()), Event.ForgetRenewal(operation))
    {
      renewal := None;
    }

    method Resume(id: nat, reply: Reply)
      requires Enabled(config, View(), Event.Resume(id, reply))
      modifies this
      ensures View() == Step(config, old(View()), Event.Resume(id, reply))
    {
      match frames[id]
      case StartFrame(g, point) => ContinueStart(id, g, point, reply);
      case RenewFrame(g, captured, point) => ContinueRenew(id, g, captured, point, reply);
      case CheckFrame(g, captured, point) => ContinueCheck(id, g, captured, point, reply);
      case StopFrame(wasLost, point) =>
        if point.AwaitingRenewal? {
          ReleaseHeld(id, wasLost);
        } else {
          frames := frames - {id};
          phase := Stopped;
        }
    }

    method FailStart(id: nat, g: nat, claim: Option<LeaseRecord>)
      modifies this
      ensures View() == if claim.Some? then AbandonClaim(old(View()), id, g, claim.value)
                        else EndFailedStart(old(View()), id, g)
    {
      if claim.Some? {
        released := released + {claim.value.lease.id};
        frames := frames[id := StartFrame(g, ReleasingClaim(claim.value))];
        return;
      }
      frames := frames - {id};
      if g == generation {
        phase, record, authority := Stopped, None, None;
      }
    }

    method ContinueStart(id: nat, g: nat, point: StartPoint, reply: Reply)
      modifies this
      ensures View() == ResumeStart(config, old(View()), id, g, point, reply)
    {
      var superseded := phase != Starting || generation != g;
      match point
      case ReadingPersisted =>
        if !reply.Found? || !IsActiveDeployment(reply.deployment, config) {
          FailStart(id, g, None);
        } else if config.hasMirror {
          frames := frames[id := StartFrame(g, ReadingMirror(reply.deployment.value))];
        } else if superseded {
          FailStart(id, g, None);
        } else {
          frames := frames[id := StartFrame(g, Claiming)];
        }
      case ReadingMirror(persisted) =>
        if !reply.MirrorIs? || !MirrorAccepted(reply.mirror, persisted, config) || superseded {
          FailStart(id, g, None);
        } else {
          frames := frames[id := StartFrame(g, Claiming)];
        }
      case Claiming =>
        if !reply.Claimed? { FailStart(id, g, None); return; }
        claimed := claimed + {reply.record.lease.id};
        if superseded { FailStart(id, g, Some(reply.record)); return; }
        frames := frames[id := StartFrame(g, ReadingClaimed(reply.record))];
      case ReadingClaimed(r) =>
        if !reply.Found? || !IsActiveDeployment(reply.deployment, config) {
          FailStart(id, g, Some(r));
          return;
        }
        var issued := AuthorityFrom(reply.deployment.value, r);
        if issued.None? { FailStart(id, g, Some(r)); return; }
        frames := frames[id := StartFrame(g, AssertingClaim(r, reply.deployment.value, issued.value))];
      case AssertingClaim(r, deployment, issued) =>
        if !reply.Done? || superseded { FailStart(id, g, Some(r)); return; }
        if config.hasMirror {
          frames := frames[id := StartFrame(g, WritingMirror(r, deployment, issued))];
        } else {
          frames := frames - {id};
          record, authority, phase := Some(r), Some(issued), Active;
        }
      case WritingMirror(r, deployment, issued) =>
        if !reply.Done? || superseded { FailStart(id, g, Some(r)); return; }
        frames := frames - {id};
        record, authority, phase := Some(r), Some(issued), Active;
      case ReleasingClaim(r) => FailStart(id, g, None);
    }

    method LoseAuthority()
      modifies this
      ensures View() == MarkLost(old(View()))
    {
      if phase != Active { return; }
      generation := generation + 1;
      phase := Lost;
      if record.Some? { lost := lost + {record.value.lease.id}; }
    }

    predicate HoldsActive(g: nat, captured: LeaseRecord)
      reads this
    {
      phase == Active && generation == g && record.Some? && SameIdentity(record.value, captured)
    }

    method RejectRenewal(id: nat, g: nat, captured: LeaseRecord)
      modifies this
      ensures View() == FailRenewal(old(View()), id, g, captured)
    {
      frames := frames - {id};
      if g != generation || phase != Active || record != Some(captured) { return; }
      LoseAuthority();
    }

    method ContinueRenew(id: nat, g: nat, captured: LeaseRecord, point: RenewPoint, reply: Reply)
      modifies this
      ensures View() == ResumeRenew(config, old(View()), id, g, captured, point, reply)
    {
      if reply.Threw? || !HoldsActive(g, captured) { RejectRenewal(id, g, captured); return; }
      match point
      case RenewReadingCurrent =>
        if !reply.CurrentIs? || reply.current.None? || reply.current.value.lease.id != captured.lease.id {
          RejectRenewal(id, g, captured);
        } else {
          frames := frames[id := RenewFrame(g, captured, Renewing)];
        }
      case Renewing =>
        if !reply.Renewed? || !SameIdentity(reply.renewed, captured) {
          RejectRenewal(id, g, captured);
        } else {
          frames := frames[id := RenewFrame(g, captured, RenewReadingDeployment(reply.renewed))];
        }
      case RenewReadingDeployment(renewed) =>
        if !reply.Found? || !IsActiveDeployment(reply.deployment, config)
           || AuthorityFrom(reply.deployment.value, renewed).None?
        {
          RejectRenewal(id, g, captured);
        } else {
          var issued := AuthorityFrom(reply.deployment.value, renewed).value;
          frames := frames[id := RenewFrame(g, captured,
            RenewAsserting(renewed, reply.deployment.value, issued))];
        }
      case RenewAsserting(renewed, deployment, issued) =>
        if config.hasMirror {
          frames := frames[id := RenewFrame(g, captured, RenewWritingMirror(renewed, deployment, issued))];
        } else {
          frames := frames - {id};
          record, authority := Some(renewed), Some(issued);
        }
      case RenewWritingMirror(renewed, deployment, issued) =>
        frames := frames - {id};
        record, authority := Some(renewed), Some(issued);
    }

    method RejectCheck(id: nat, g: nat)
      modifies this
      ensures View() == FailCheck(old(View()), id, g)
    {
      frames := frames - {id};
      if g != generation || phase != Active { return; }
      LoseAuthority();
    }

    method ContinueCheck(id: nat, g: nat, captured: LeaseRecord, point: CheckPoint, reply: Reply)
      modifies this
      ensures View() == ResumeCheck(config, old(View()), id, g, captured, point, reply)
    {
      if reply.Threw? || !HoldsActive(g, captured) { RejectCheck(id, g); return; }
      match point
      case CheckReadingCurrent =>
        if !reply.CurrentIs? || reply.current.None?
           || reply.current.value.lease.id != captured.lease.id
           || reply.current.value.lease.holderId != captured.lease.holderId
           || reply.current.value.fencingToken != captured.fencingToken
        {
          RejectCheck(id, g);
        } else {
          frames := frames[id := CheckFrame(g, captured, CheckReadingDeployment(reply.current.value))];
        }
      case CheckReadingDeployment(current) =>
        if !reply.Found? || !IsActiveDeployment(reply.deployment, config)
           || AuthorityFrom(reply.deployment.value, current).None?
        {
          RejectCheck(id, g);
        } else {
          frames := frames[id := CheckFrame(g, captured,
            CheckAsserting(AuthorityFrom(reply.deployment.value, current).value))];
        }
      case CheckAsserting(_) => frames := frames - {id};
    }
  }
}
