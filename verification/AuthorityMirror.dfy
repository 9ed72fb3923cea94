/** The authority lifecycle together with what it leaves on disk: the persisted
    deployment, the mirror, and calls that were carried out but whose reply the
    service has not seen, or never sees because it crashed. */
module AuthorityMirror {
  import opened Options
  import opened AuthorityLifecycle
  import opened AuthoritySafety

  /** `history` is every value the persisted deployment ever had, oldest first. */
  datatype Disk = Disk(persisted: Deployment, mirror: Deployment, history: seq<Deployment>)

  datatype System = System(service: State, disk: Disk, replies: map<nat, Reply>)

  datatype SystemEvent =
    | Call(call: Event)
    | Perform(id: nat, reply: Reply, disk: Disk)
    | Deliver(delivered: nat)
    | ClaimElsewhere(now: Disk)
    | Crash

  // ----------------------------------------------------------------- ports

  predicate ReadsDeployment(frame: Frame) {
    match frame
    case StartFrame(_, point) => point.ReadingPersisted? || point.ReadingClaimed?
    case RenewFrame(_, _, point) => point.RenewReadingDeployment?
    case CheckFrame(_, _, point) => point.CheckReadingDeployment?
    case StopFrame(_, _) => false
  }

  function ToWrite(frame: Frame): Option<Deployment> {
    match frame
    case StartFrame(_, WritingMirror(_, deployment, _)) => Some(deployment)
    case RenewFrame(_, _, RenewWritingMirror(_, deployment, _)) => Some(deployment)
    case _ => None
  }

  /** A claim, by this service or another, strictly raises the persisted fence,
      never lowers the revision, and is the only change to the deployment. */
  predicate Claims(before: Disk, after: Disk) {
    && before.persisted.fencingToken < after.persisted.fencingToken
    && before.persisted.revision <= after.persisted.revision
    && after.persisted == before.persisted.(
         fencingToken := after.persisted.fencingToken, revision := after.persisted.revision)
    && after == before.(persisted := after.persisted, history := before.history + [after.persisted])
  }

  /** What carrying out a frame's pending call may answer and do to the disk. */
  predicate Performs(before: Disk, frame: Frame, reply: Reply, after: Disk) {
    if ReadsDeployment(frame) then
      after == before && (reply.Threw? || reply == Found(Some(before.persisted)))
    else if frame.StartFrame? && frame.start.ReadingMirror? then
      after == before && (reply.Threw? || reply == MirrorIs(before.mirror))
    else if frame.StartFrame? && frame.start.Claiming? then
      // A claim that rejects may or may not have raised the fence.
      || (reply.Threw? && (after == before || Claims(before, after)))
      || (reply.Claimed? && Claims(before, after) && reply.record.fencingToken == after.persisted.fencingToken)
    else if ToWrite(frame).Some? then
      // A write that rejects may or may not have replaced the file.
      || (reply.Threw? && after == before)
      || ((reply.Threw? || reply.Done?) && after == before.(mirror := ToWrite(frame).value))
    else after == before
  }

  predicate SystemEnabled(config: Config, x: System, e: SystemEvent) {
    match e
    case Call(call) =>
      !call.Resume? && Enabled(config, x.service, call)
    case Perform(id, reply, disk) =>
      id in x.service.frames && id !in x.replies && Performs(x.disk, x.service.frames[id], reply, disk)
    case Deliver(id) =>
      id in x.replies && Enabled(config, x.service, Resume(id, x.replies[id]))
    case ClaimElsewhere(now) => Claims(x.disk, now)
    case Crash => true
  }

  function SystemStep(config: Config, x: System, e: SystemEvent): System
    requires SystemEnabled(config, x, e)
  {
    match e
    case Call(call) => x.(service := Step(config, x.service, call))
    case Perform(id, reply, disk) => x.(disk := disk, replies := x.replies[id := reply])
    case Deliver(id) =>
      x.(service := Step(config, x.service, Resume(id, x.replies[id])), replies := x.replies - {id})
    case ClaimElsewhere(now) => x.(disk := now)
    case Crash => x.(service := INITIAL, replies := map[])
  }

  predicate SystemRuns(config: Config, x: System, es: seq<SystemEvent>)
    decreases |es|
  {
    es == [] || (SystemEnabled(config, x, es[0]) && SystemRuns(config, SystemStep(config, x, es[0]), es[1..]))
  }

  function SystemAfter(config: Config, x: System, es: seq<SystemEvent>): System
    requires SystemRuns(config, x, es)
    decreases |es|
  {
    if es == [] then x else SystemAfter(config, SystemStep(config, x, es[0]), es[1..])
  }

  /** A freshly installed service: the mirror is the persisted deployment. */
  predicate Installed(config: Config, x: System) {
    && x.service == INITIAL && x.replies == map[]
    && x.disk.mirror == x.disk.persisted && x.disk.history == [x.disk.persisted]
    && SameDeploymentScope(x.disk.persisted, config)
  }

  // ------------------------------------------------------------- invariant

  /** A suspended renewal carries on with the lease it captured. */
  predicate SameLease(frame: Frame) {
    match frame
    case RenewFrame(_, captured, RenewReadingDeployment(renewed)) => SameIdentity(renewed, captured)
    case RenewFrame(_, captured, RenewAsserting(renewed, _, _)) => SameIdentity(renewed, captured)
    case RenewFrame(_, captured, RenewWritingMirror(renewed, _, _)) => SameIdentity(renewed, captured)
    case _ => true
  }

  /** A start of the current generation has not ended, though a stop that began
      before it may have declared the lifecycle stopped meanwhile. */
  predicate Pending(s: State) {
    s.phase == Starting || s.phase == Stopped
  }

  predicate FrameFine(s: State, id: nat)
    requires id in s.frames
  {
    && id < s.nextFrame && SameLease(s.frames[id])
    && (s.frames[id].StartFrame? ==> s.frames[id].generation <= s.generation)
    && (IsStartOf(s.frames[id], s.generation) ==> Pending(s))
  }

  predicate DifferentStarts(left: Frame, right: Frame) {
    left.StartFrame? && right.StartFrame? ==> left.generation != right.generation
  }

  /** What the mirror needs of the service, whatever its callers overlap. */
  ghost predicate ServiceInv(s: State) {
    && (forall id :: id in s.frames ==> FrameFine(s, id))
    && (forall i, j :: i in s.frames && j in s.frames && i != j ==> DifferentStarts(s.frames[i], s.frames[j]))
  }

  /** Equal in everything a claim leaves alone. */
  predicate SameAuthority(left: Deployment, right: Deployment) {
    left == right.(fencingToken := left.fencingToken, revision := left.revision)
  }

  predicate HistoryOk(config: Config, disk: Disk) {
    && |disk.history| > 0 && disk.history[|disk.history| - 1] == disk.persisted
    && SameDeploymentScope(disk.persisted, config)
    && (forall i :: 0 <= i < |disk.history| ==> SameAuthority(disk.history[i], disk.persisted))
    && (forall i, j :: 0 <= i < j < |disk.history| ==>
          && disk.history[i].fencingToken < disk.history[j].fencingToken
          && disk.history[i].revision <= disk.history[j].revision)
    && disk.mirror in disk.history
  }

  /** Deployments a frame carries were persisted once, and one it may write has its record's fence. */
  predicate CarriesHistory(disk: Disk, frame: Frame) {
    match frame
    case StartFrame(_, ReadingMirror(persisted)) => persisted in disk.history
    case StartFrame(_, AssertingClaim(record, deployment, _)) =>
      deployment in disk.history && deployment.fencingToken == record.fencingToken
    case StartFrame(_, WritingMirror(record, deployment, _)) =>
      deployment in disk.history && deployment.fencingToken == record.fencingToken
    case RenewFrame(_, _, RenewAsserting(renewed, deployment, _)) =>
      deployment in disk.history && deployment.fencingToken == renewed.fencingToken
    case RenewFrame(_, _, RenewWritingMirror(renewed, deployment, _)) =>
      deployment in disk.history && deployment.fencingToken == renewed.fencingToken
    case _ => true
  }

  /** The fence of the only deployment this frame could still write. */
  function WriteFence(frame: Frame): Option<int> {
    if HeldBy(frame).Some? then Some(HeldBy(frame).value.fencingToken)
    else if frame.RenewFrame? then Some(frame.captured.fencingToken)
    else None
  }

  /** Nothing that is or may be written to the mirror exceeds this fence. */
  predicate WritesUpTo(x: System, fence: int) {
    && x.disk.mirror.fencingToken <= fence
    && (forall id :: id in x.service.frames && WriteFence(x.service.frames[id]).Some? ==>
          WriteFence(x.service.frames[id]).value <= fence)
  }

  predicate ReplyOk(x: System, id: nat)
    requires id in x.service.frames && id in x.replies
  {
    var frame, reply := x.service.frames[id], x.replies[id];
    && (ReadsDeployment(frame) && reply.Found? ==> reply.deployment.Some? && reply.deployment.value in x.disk.history)
    && (reply.Claimed? && frame.StartFrame? && frame.start.Claiming? ==>
          reply.record.fencingToken <= x.disk.persisted.fencingToken)
  }

  /** The start of the current generation has read nothing older than any mirror it can meet. */
  predicate CurrentStartOk(x: System, id: nat)
    requires id in x.service.frames
  {
    IsStartOf(x.service.frames[id], x.service.generation) ==>
      match x.service.frames[id].start
      case ReadingPersisted =>
        id in x.replies && x.replies[id].Found? && x.replies[id].deployment.Some? ==>
          WritesUpTo(x, x.replies[id].deployment.value.fencingToken)
      case ReadingMirror(persisted) =>
        && WritesUpTo(x, persisted.fencingToken)
        && (id in x.replies && x.replies[id].MirrorIs? ==>
              x.replies[id].mirror in x.disk.history
              && x.replies[id].mirror.fencingToken <= persisted.fencingToken)
      case _ => true
  }

  ghost predicate SystemInv(config: Config, x: System) {
    && ServiceInv(x.service)
    && HistoryOk(config, x.disk)
    && (x.service.record.Some? ==> x.service.record.value.fencingToken <= x.disk.persisted.fencingToken)
    && WritesUpTo(x, x.disk.persisted.fencingToken)
    && (forall id :: id in x.service.frames ==> CarriesHistory(x.disk, x.service.frames[id]) && CurrentStartOk(x, id))
    && (forall id :: id in x.replies ==> id in x.service.frames && ReplyOk(x, id))
  }

  /** Two past values are ordered by their fence. */
  lemma HistoryIsOrdered(config: Config, disk: Disk, left: Deployment, right: Deployment)
    requires HistoryOk(config, disk) && left in disk.history && right in disk.history
    requires left.fencingToken <= right.fencingToken
    ensures left.revision <= right.revision && (left.fencingToken == right.fencingToken ==> left == right)
    ensures SameAuthority(left, right) && SameDeploymentScope(left, config)
    ensures left.fencingToken <= disk.persisted.fencingToken
  {
    var i :| 0 <= i < |disk.history| && disk.history[i] == left;
    var j :| 0 <= j < |disk.history| && disk.history[j] == right;
    assert i < j || i == j || j < i;
    assert i < |disk.history| - 1 || i == |disk.history| - 1;
  }

  lemma {:induction false} SystemRunKeepsInv(config: Config, x: System, es: seq<SystemEvent>)
    requires SystemInv(config, x) && SystemRuns(config, x, es)
    ensures SystemInv(config, SystemAfter(config, x, es))
    decreases |es|
  {
    if es != [] {
      SystemStepKeepsInv(config, x, es[0]);
      SystemRunKeepsInv(config, SystemStep(config, x, es[0]), es[1..]);
    }
  }

  lemma SystemStepKeepsInv(config: Config, x: System, e: SystemEvent)
    requires SystemInv(config, x) && SystemEnabled(config, x, e)
    ensures SystemInv(config, SystemStep(config, x, e))
  {
    match e
    case Call(call) => CallKeepsInv(config, x, call);
    case Perform(id, reply, disk) => PerformKeepsInv(config, x, id, reply, disk);
    case Deliver(id) => DeliverKeepsInv(config, x, id);
    case ClaimElsewhere(now) => ClaimElsewhereKeepsInv(config, x, now);
    case Crash =>
  }

  /** A resumed frame that stays suspended keeps its kind and what it captured,
      and comes to hold a lease only by the claim of the current start. */
  lemma ResumedFrame(config: Config, s: State, id: nat, reply: Reply)
    requires Enabled(config, s, Resume(id, reply)) && id in Step(config, s, Resume(id, reply)).frames
    ensures var before, after := s.frames[id], Step(config, s, Resume(id, reply)).frames[id];
      && (before.StartFrame? ==> after.StartFrame? && after.generation == before.generation)
      && (before.RenewFrame? ==> after.RenewFrame? && after.captured == before.captured)
      && (before.CheckFrame? ==> after.CheckFrame?)
      && (before.StopFrame? ==> after.StopFrame?)
      && (HeldBy(after).Some? && HeldBy(after) != HeldBy(before) ==>
            IsStartOf(before, s.generation) && before.start.Claiming? && reply == Claimed(HeldBy(after).value))
  {
  }

  /** A frame that was not there begins a fresh operation. */
  lemma NewFrame(config: Config, s: State, e: Event, id: nat)
    requires Enabled(config, s, e) && id in Step(config, s, e).frames && id !in s.frames
    ensures var frame := Step(config, s, e).frames[id];
      && (frame.StartFrame? ==> frame.start.ReadingPersisted?)
      && (frame.RenewFrame? ==>
            s.phase == Active && s.record == Some(frame.captured) && frame.renew.RenewReadingCurrent?)
  {
  }

  lemma ResumedRenewal(config: Config, s: State, id: nat, reply: Reply)
    requires Enabled(config, s, Resume(id, reply)) && SameLease(s.frames[id])
    requires id in Step(config, s, Resume(id, reply)).frames
    ensures SameLease(Step(config, s, Resume(id, reply)).frames[id])
  {
    match s.frames[id]
    case StartFrame(_, _) =>
    case RenewFrame(_, _, _) =>
    case CheckFrame(_, _, _) =>
    case StopFrame(_, _) =>
  }

  lemma NewFrameIsFine(config: Config, s: State, e: Event, id: nat)
    requires Enabled(config, s, e) && id in Step(config, s, e).frames && id !in s.frames
    ensures var t := Step(config, s, e);
      && FrameFine(t, id)
      && (t.frames[id].StartFrame? ==> s.generation < t.frames[id].generation)
  {
    match e
    case CallStart =>
    case CallRenew =>
    case CallAssertActive =>
    case CallStop =>
    case Resume(other, reply) => ResumeAddsNothing(config, s, other, reply);
  }

  lemma ResumeAddsNothing(config: Config, s: State, id: nat, reply: Reply)
    requires Enabled(config, s, Resume(id, reply))
    ensures Step(config, s, Resume(id, reply)).frames.Keys <= s.frames.Keys
  {
    match s.frames[id]
    case StartFrame(_, _) =>
    case RenewFrame(_, _, _) =>
    case CheckFrame(_, _, _) =>
    case StopFrame(_, _) =>
  }

  /** As long as the generation stands, a pending start stays pending; it ends by
      its own activation. */
  lemma PendingStays(config: Config, s: State, e: Event)
    requires Enabled(config, s, e) && Pending(s)
    ensures var t := Step(config, s, e);
      && s.generation <= t.generation && s.nextFrame <= t.nextFrame
      && (t.generation == s.generation ==>
            Pending(t) || (e.Resume? && IsStartOf(s.frames[e.id], s.generation) && e.id !in t.frames))
  {
  }

  lemma CountersGrow(config: Config, s: State, e: Event)
    requires Enabled(config, s, e)
    ensures s.generation <= Step(config, s, e).generation && s.nextFrame <= Step(config, s, e).nextFrame
  {
  }

  lemma FrameStaysFine(config: Config, s: State, e: Event, id: nat)
    requires ServiceInv(s) && Enabled(config, s, e) && id in Step(config, s, e).frames
    ensures FrameFine(Step(config, s, e), id)
  {
    var t := Step(config, s, e);
    CountersGrow(config, s, e);
    if id !in s.frames {
      NewFrameIsFine(config, s, e, id);
    } else {
      assert FrameFine(s, id);
      if e.Resume? && e.id == id {
        ResumedFrame(config, s, id, e.reply);
        ResumedRenewal(config, s, id, e.reply);
      } else {
        OtherFramesStay(config, s, e, id);
      }
      if Pending(s) {
        PendingStays(config, s, e);
        if e.Resume? && e.id != id {
          assert DifferentStarts(s.frames[e.id], s.frames[id]);
        }
      }
    }
  }

  lemma ServiceStepKeepsInv(config: Config, s: State, e: Event)
    requires ServiceInv(s) && Enabled(config, s, e)
    ensures ServiceInv(Step(config, s, e))
  {
    var t := Step(config, s, e);
    forall id | id in t.frames
      ensures FrameFine(t, id)
    {
      FrameStaysFine(config, s, e, id);
    }
    forall i, j | i in t.frames && j in t.frames && i != j
      ensures DifferentStarts(t.frames[i], t.frames[j])
    {
      StartsStayDifferent(config, s, e, i, j);
    }
  }

  /** A start of the next state is new, or was there under the same generation. */
  lemma StartComesFrom(config: Config, s: State, e: Event, id: nat)
    requires ServiceInv(s) && Enabled(config, s, e) && id in Step(config, s, e).frames
    requires Step(config, s, e).frames[id].StartFrame?
    ensures var frame := Step(config, s, e).frames[id];
      if id in s.frames then s.frames[id].StartFrame? && s.frames[id].generation == frame.generation <= s.generation
      else s.generation < frame.generation && id == s.nextFrame && frame.start.ReadingPersisted?
  {
    if id !in s.frames {
      NewFrame(config, s, e, id);
      NewFrameIsFine(config, s, e, id);
      NewFrameIsNext(config, s, e, id);
    } else {
      assert FrameFine(s, id);
      if e.Resume? && e.id == id {
        ResumedFrame(config, s, id, e.reply);
      } else {
        OtherFramesStay(config, s, e, id);
      }
    }
  }

  lemma NewFrameIsNext(config: Config, s: State, e: Event, id: nat)
    requires Enabled(config, s, e) && id in Step(config, s, e).frames && id !in s.frames
    ensures id == s.nextFrame
  {
    if e.Resume? {
      ResumeAddsNothing(config, s, e.id, e.reply);
    }
  }

  lemma StartsStayDifferent(config: Config, s: State, e: Event, i: nat, j: nat)
    requires ServiceInv(s) && Enabled(config, s, e) && i != j
    requires i in Step(config, s, e).frames && j in Step(config, s, e).frames
    ensures DifferentStarts(Step(config, s, e).frames[i], Step(config, s, e).frames[j])
  {
    var t := Step(config, s, e);
    if t.frames[i].StartFrame? && t.frames[j].StartFrame? {
      StartComesFrom(config, s, e, i);
      StartComesFrom(config, s, e, j);
      if i in s.frames && j in s.frames {
        assert DifferentStarts(s.frames[i], s.frames[j]);
      }
    }
  }

  /** Where the fences that may be written come from: an earlier frame, the
      exposed record when a renewal begins, or the claim of the current start. */
  lemma WriteFencesMove(config: Config, s: State, e: Event, id: nat)
    requires ServiceInv(s) && Enabled(config, s, e)
    requires id in Step(config, s, e).frames && WriteFence(Step(config, s, e).frames[id]).Some?
    ensures var fence := WriteFence(Step(config, s, e).frames[id]);
      || (id in s.frames && WriteFence(s.frames[id]) == fence)
      || (s.phase == Active && s.record.Some? && fence == Some(s.record.value.fencingToken))
      || (&& e.Resume? && e.id == id && IsStartOf(s.frames[id], s.generation) && s.frames[id].start.Claiming?
          && e.reply.Claimed? && fence == Some(e.reply.record.fencingToken))
  {
    if id !in s.frames {
      NewFrame(config, s, e, id);
    } else if e.Resume? && e.id == id {
      ResumedFrame(config, s, id, e.reply);
    } else {
      OtherFramesStay(config, s, e, id);
    }
  }

  lemma RecordFenceMoves(config: Config, s: State, e: Event)
    requires ServiceInv(s) && Enabled(config, s, e) && Step(config, s, e).record.Some?
    ensures var fence := Step(config, s, e).record.value.fencingToken;
      || (s.record.Some? && fence == s.record.value.fencingToken)
      || (e.Resume? && HeldBy(s.frames[e.id]).Some? && fence == HeldBy(s.frames[e.id]).value.fencingToken)
  {
    if e.Resume? {
      assert FrameFine(s, e.id);
    }
  }

  /** A service step, with the claims it may deliver below the persisted fence. */
  lemma ServiceStepKeepsFences(config: Config, x: System, e: Event, y: System)
    requires SystemInv(config, x) && Enabled(config, x.service, e)
    requires y.disk == x.disk && y.service == Step(config, x.service, e)
    requires e.Resume? ==> e.id in x.replies && x.replies[e.id] == e.reply
    ensures WritesUpTo(y, y.disk.persisted.fencingToken)
    ensures y.service.record.Some? ==> y.service.record.value.fencingToken <= y.disk.persisted.fencingToken
  {
    forall id | id in y.service.frames && WriteFence(y.service.frames[id]).Some?
      ensures WriteFence(y.service.frames[id]).value <= y.disk.persisted.fencingToken
    {
      WriteFencesMove(config, x.service, e, id);
      assert e.Resume? ==> ReplyOk(x, e.id);
    }
    if y.service.record.Some? {
      RecordFenceMoves(config, x.service, e);
    }
  }

  lemma CarriedDeploymentsMove(config: Config, x: System, e: Event, id: nat)
    requires SystemInv(config, x) && Enabled(config, x.service, e)
    requires e.Resume? ==> e.id in x.replies && x.replies[e.id] == e.reply
    requires id in Step(config, x.service, e).frames
    ensures CarriesHistory(x.disk, Step(config, x.service, e).frames[id])
  {
    if id !in x.service.frames {
      NewFrame(config, x.service, e, id);
    } else {
      assert CarriesHistory(x.disk, x.service.frames[id]);
      if e.Resume? && e.id == id {
        assert ReplyOk(x, id);
        ResumedDeployment(config, x.service, id, e.reply);
      } else {
        OtherFramesStay(config, x.service, e, id);
      }
    }
  }

  /** A frame carries the deployment it carried, or the one it just read. */
  lemma ResumedDeployment(config: Config, s: State, id: nat, reply: Reply)
    requires Enabled(config, s, Resume(id, reply)) && id in Step(config, s, Resume(id, reply)).frames
    ensures var before, after := s.frames[id], Step(config, s, Resume(id, reply)).frames[id];
      forall disk: Disk ::
        CarriesHistory(disk, before)
        && (ReadsDeployment(before) && reply.Found? && reply.deployment.Some? ==> reply.deployment.value in disk.history)
        ==> CarriesHistory(disk, after)
  {
    match s.frames[id]
    case StartFrame(_, _) =>
    case RenewFrame(_, _, _) =>
    case CheckFrame(_, _, _) =>
    case StopFrame(_, _) =>
  }

  /** What a current start has read still bounds every write when the step
      neither begins a renewal nor delivers the claim of that start. */
  lemma BoundOutlivesStep(config: Config, x: System, e: Event, y: System, fence: int)
    requires SystemInv(config, x) && Enabled(config, x.service, e)
    requires y.disk == x.disk && y.service == Step(config, x.service, e)
    requires Pending(x.service) && WritesUpTo(x, fence)
    requires e.Resume? && IsStartOf(x.service.frames[e.id], x.service.generation) ==>
               !x.service.frames[e.id].start.Claiming?
    ensures WritesUpTo(y, fence)
  {
    forall id | id in y.service.frames && WriteFence(y.service.frames[id]).Some?
      ensures WriteFence(y.service.frames[id]).value <= fence
    {
      WriteFencesMove(config, x.service, e, id);
    }
  }

  lemma CallKeepsInv(config: Config, x: System, call: Event)
    requires SystemInv(config, x) && SystemEnabled(config, x, Call(call))
    ensures SystemInv(config, SystemStep(config, x, Call(call)))
  {
    var y := SystemStep(config, x, Call(call));
    ServiceStepKeepsInv(config, x.service, call);
    ServiceStepKeepsFences(config, x, call, y);
    forall id | id in y.service.frames
      ensures CarriesHistory(y.disk, y.service.frames[id]) && CurrentStartOk(y, id)
    {
      CarriedDeploymentsMove(config, x, call, id);
      CallKeepsCurrent(config, x, call, id);
    }
    forall id | id in y.replies
      ensures id in y.service.frames && ReplyOk(y, id)
    {
      OtherFramesStay(config, x.service, call, id);
      assert ReplyOk(x, id);
    }
  }

  lemma CallKeepsCurrent(config: Config, x: System, call: Event, id: nat)
    requires SystemInv(config, x) && SystemEnabled(config, x, Call(call))
    requires id in SystemStep(config, x, Call(call)).service.frames
    ensures CurrentStartOk(SystemStep(config, x, Call(call)), id)
  {
    var y := SystemStep(config, x, Call(call));
    if IsStartOf(y.service.frames[id], y.service.generation) {
      StartComesFrom(config, x.service, call, id);
      if id in x.service.frames {
        CountersGrow(config, x.service, call);
        assert FrameFine(x.service, id);
        PendingCallsAreQuiet(config, x.service, call);
        assert CurrentStartOk(x, id);
      } else {
        assert id !in x.replies;
      }
    }
  }

  /** A call that leaves a pending start current begins nothing. */
  lemma PendingCallsAreQuiet(config: Config, s: State, call: Event)
    requires Enabled(config, s, call) && !call.Resume? && Step(config, s, call).generation == s.generation
    ensures Pending(s) ==> Step(config, s, call).frames == s.frames
  {
  }

  lemma PerformKeepsInv(config: Config, x: System, id: nat, reply: Reply, disk: Disk)
    requires SystemInv(config, x) && SystemEnabled(config, x, Perform(id, reply, disk))
    ensures SystemInv(config, SystemStep(config, x, Perform(id, reply, disk)))
  {
    var y := SystemStep(config, x, Perform(id, reply, disk));
    DiskStaysOrdered(config, x, id, reply, disk);
    forall j | j in y.service.frames
      ensures CarriesHistory(y.disk, y.service.frames[j]) && CurrentStartOk(y, j)
    {
      PerformKeepsFrame(config, x, id, reply, disk, j);
    }
    forall j | j in y.replies
      ensures j in y.service.frames && ReplyOk(y, j)
    {
      PerformKeepsReply(config, x, id, reply, disk, j);
    }
  }

  lemma PerformKeepsFrame(config: Config, x: System, id: nat, reply: Reply, disk: Disk, j: nat)
    requires SystemInv(config, x) && SystemEnabled(config, x, Perform(id, reply, disk)) && j in x.service.frames
    ensures var y := SystemStep(config, x, Perform(id, reply, disk));
      CarriesHistory(y.disk, y.service.frames[j]) && CurrentStartOk(y, j)
  {
    DiskStaysOrdered(config, x, id, reply, disk);
    assert CarriesHistory(x.disk, x.service.frames[j]) && CurrentStartOk(x, j);
  }

  lemma PerformKeepsReply(config: Config, x: System, id: nat, reply: Reply, disk: Disk, j: nat)
    requires SystemInv(config, x) && SystemEnabled(config, x, Perform(id, reply, disk))
    requires j in SystemStep(config, x, Perform(id, reply, disk)).replies
    ensures j in x.service.frames && ReplyOk(SystemStep(config, x, Perform(id, reply, disk)), j)
  {
    DiskStaysOrdered(config, x, id, reply, disk);
    if j != id {
      assert ReplyOk(x, j);
    }
  }

  /** Past values stay past values, in order, and no bound on writes is lost. */
  lemma DiskStaysOrdered(config: Config, x: System, id: nat, reply: Reply, disk: Disk)
    requires SystemInv(config, x) && SystemEnabled(config, x, Perform(id, reply, disk))
    ensures HistoryOk(config, disk)
    ensures forall d :: d in x.disk.history ==> d in disk.history
    ensures x.disk.persisted.fencingToken <= disk.persisted.fencingToken
    ensures forall fence :: WritesUpTo(x, fence) ==>
              WritesUpTo(SystemStep(config, x, Perform(id, reply, disk)), fence)
  {
    assert FrameFine(x.service, id) && CarriesHistory(x.disk, x.service.frames[id]);
    HistoryGrows(config, x, id, reply, disk);
    BoundsOutlivePerform(config, x, id, reply, disk);
  }

  lemma HistoryGrows(config: Config, x: System, id: nat, reply: Reply, disk: Disk)
    requires HistoryOk(config, x.disk) && SystemEnabled(config, x, Perform(id, reply, disk))
    requires CarriesHistory(x.disk, x.service.frames[id])
    ensures HistoryOk(config, disk)
    ensures forall d :: d in x.disk.history ==> d in disk.history
    ensures x.disk.persisted.fencingToken <= disk.persisted.fencingToken
  {
  }

  lemma BoundsOutlivePerform(config: Config, x: System, id: nat, reply: Reply, disk: Disk)
    requires SystemEnabled(config, x, Perform(id, reply, disk))
    requires SameLease(x.service.frames[id]) && CarriesHistory(x.disk, x.service.frames[id])
    ensures forall fence :: WritesUpTo(x, fence) ==>
              WritesUpTo(SystemStep(config, x, Perform(id, reply, disk)), fence)
  {
    var frame := x.service.frames[id];
    if ToWrite(frame).Some? {
      assert WriteFence(frame) == Some(ToWrite(frame).value.fencingToken);
    }
  }

  /** Another service's claim only adds a later value to the history. */
  lemma ClaimElsewhereKeepsInv(config: Config, x: System, now: Disk)
    requires SystemInv(config, x) && SystemEnabled(config, x, ClaimElsewhere(now))
    ensures SystemInv(config, SystemStep(config, x, ClaimElsewhere(now)))
  {
    assert HistoryOk(config, now);
    forall id | id in x.service.frames
      ensures CarriesHistory(now, x.service.frames[id]) && CurrentStartOk(x.(disk := now), id)
    {
      assert CarriesHistory(x.disk, x.service.frames[id]) && CurrentStartOk(x, id);
    }
    assert forall id :: id in x.replies ==> ReplyOk(x, id);
  }

  lemma DeliverKeepsInv(config: Config, x: System, id: nat)
    requires SystemInv(config, x) && SystemEnabled(config, x, Deliver(id))
    ensures SystemInv(config, SystemStep(config, x, Deliver(id)))
  {
    var y := SystemStep(config, x, Deliver(id));
    var e := Resume(id, x.replies[id]);
    ServiceStepKeepsInv(config, x.service, e);
    ServiceStepKeepsFences(config, x, e, y);
    forall j | j in y.service.frames
      ensures CarriesHistory(y.disk, y.service.frames[j]) && CurrentStartOk(y, j)
    {
      CarriedDeploymentsMove(config, x, e, j);
      DeliveryKeepsCurrent(config, x, id, j);
    }
    forall j | j in y.replies
      ensures j in y.service.frames && ReplyOk(y, j)
    {
      OtherFramesStay(config, x.service, e, j);
      assert ReplyOk(x, j);
    }
  }

  lemma DeliveryKeepsCurrent(config: Config, x: System, id: nat, j: nat)
    requires SystemInv(config, x) && SystemEnabled(config, x, Deliver(id))
    requires var y := SystemStep(config, x, Deliver(id)); j in y.service.frames
    ensures CurrentStartOk(SystemStep(config, x, Deliver(id)), j)
  {
    var y := SystemStep(config, x, Deliver(id));
    if j == id {
      if IsStartOf(y.service.frames[j], y.service.generation) { CurrentDelivery(config, x, id); }
    } else {
      OtherDeliveryKeepsCurrent(config, x, id, j);
    }
  }

  lemma OtherDeliveryKeepsCurrent(config: Config, x: System, id: nat, j: nat)
    requires SystemInv(config, x) && SystemEnabled(config, x, Deliver(id)) && j != id
    requires var y := SystemStep(config, x, Deliver(id)); j in y.service.frames
    ensures CurrentStartOk(SystemStep(config, x, Deliver(id)), j)
  {
    var y := SystemStep(config, x, Deliver(id));
    if IsStartOf(y.service.frames[j], y.service.generation) {
      DeliveryBeginsNothing(config, x.service, Resume(id, x.replies[id]), j);
      OtherFramesStay(config, x.service, Resume(id, x.replies[id]), j);
      OtherDelivery(config, x, id, j);
    }
  }

  lemma DeliveryBeginsNothing(config: Config, s: State, e: Event, id: nat)
    requires Enabled(config, s, e) && e.Resume? && id in Step(config, s, e).frames && id != e.id
    ensures id in s.frames
  {
  }

  /** Delivering to the current start itself: the value just read becomes the bound. */
  lemma CurrentDelivery(config: Config, x: System, id: nat)
    requires SystemInv(config, x) && SystemEnabled(config, x, Deliver(id))
    requires var y := SystemStep(config, x, Deliver(id));
      id in y.service.frames && IsStartOf(y.service.frames[id], y.service.generation)
    ensures CurrentStartOk(SystemStep(config, x, Deliver(id)), id)
  {
    var y := SystemStep(config, x, Deliver(id));
    var e := Resume(id, x.replies[id]);
    StartComesFrom(config, x.service, e, id);
    CountersGrow(config, x.service, e);
    assert FrameFine(x.service, id) && CurrentStartOk(x, id);
    if y.service.frames[id].start.ReadingMirror? {
      StartReadsMirrorNext(config, x.service, id, e.reply);
      BoundOutlivesStep(config, x, e, y, y.service.frames[id].start.persisted.fencingToken);
    }
  }

  lemma StartReadsMirrorNext(config: Config, s: State, id: nat, reply: Reply)
    requires Enabled(config, s, Resume(id, reply)) && s.frames[id].StartFrame?
    requires var t := Step(config, s, Resume(id, reply));
      id in t.frames && t.frames[id].StartFrame? && t.frames[id].start.ReadingMirror?
    ensures s.frames[id].start.ReadingPersisted?
    ensures reply == Found(Some(Step(config, s, Resume(id, reply)).frames[id].start.persisted))
    ensures Step(config, s, Resume(id, reply)).generation == s.generation
  {
  }

  /** Delivering to another operation while this start is current. */
  lemma OtherDelivery(config: Config, x: System, id: nat, j: nat)
    requires SystemInv(config, x) && SystemEnabled(config, x, Deliver(id)) && j != id
    requires var y := SystemStep(config, x, Deliver(id));
      && j in x.service.frames && j in y.service.frames
      && y.service.frames[j] == x.service.frames[j] && IsStartOf(y.service.frames[j], y.service.generation)
    ensures CurrentStartOk(SystemStep(config, x, Deliver(id)), j)
  {
    var y := SystemStep(config, x, Deliver(id));
    var e := Resume(id, x.replies[id]);
    CountersGrow(config, x.service, e);
    assert FrameFine(x.service, j) && CurrentStartOk(x, j);
    assert DifferentStarts(x.service.frames[id], x.service.frames[j]);
    match x.service.frames[j].start
    case ReadingMirror(persisted) => BoundOutlivesStep(config, x, e, y, persisted.fencingToken);
    case ReadingPersisted =>
      if j in y.replies && y.replies[j].Found? && y.replies[j].deployment.Some? {
        BoundOutlivesStep(config, x, e, y, y.replies[j].deployment.value.fencingToken);
      }
    case _ =>
  }

  /** However often the service crashed, and whatever stale operations of this
      process are still writing, the mirror a current start reads is accepted. */
  lemma MirrorIsAlwaysRecoverable(config: Config, x: System, es: seq<SystemEvent>, id: nat)
    requires Installed(config, x) && SystemRuns(config, x, es)
    ensures var y := SystemAfter(config, x, es);
      && y.disk.mirror in y.disk.history
      && (id in y.replies && id in y.service.frames
          && IsStartOf(y.service.frames[id], y.service.generation)
          && y.service.frames[id].start.ReadingMirror? && y.replies[id].MirrorIs? ==>
            MirrorAccepted(y.replies[id].mirror, y.service.frames[id].start.persisted, config))
  {
    SystemRunKeepsInv(config, x, es);
    var y := SystemAfter(config, x, es);
    if id in y.replies && id in y.service.frames && IsStartOf(y.service.frames[id], y.service.generation)
       && y.service.frames[id].start.ReadingMirror? && y.replies[id].MirrorIs?
    {
      assert CurrentStartOk(y, id);
      HistoryIsOrdered(config, y.disk, y.replies[id].mirror, y.service.frames[id].start.persisted);
    }
  }

  // ------------------------------------------------------ an uncontested start

  /** Only the replies and deliveries of operations already in flight. */
  predicate Undisturbed(es: seq<SystemEvent>) {
    forall i :: 0 <= i < |es| ==> es[i].Perform? || es[i].Deliver?
  }

  /** `id` is the only operation, and everything it has read is still what is persisted. */
  predicate Alone(x: System, id: nat) {
    && x.service.frames.Keys <= {id} && x.replies.Keys <= {id}
    && (if id in x.service.frames
        then x.service.phase == Starting && IsStartOf(x.service.frames[id], x.service.generation) && UpToDate(x, id)
        else x.service.phase == Active ==> Published(x))
  }

  predicate UpToDate(x: System, id: nat)
    requires id in x.service.frames && x.service.frames[id].StartFrame?
  {
    match x.service.frames[id].start
    case Claiming =>
      id in x.replies && x.replies[id].Claimed? ==> x.replies[id].record.fencingToken == x.disk.persisted.fencingToken
    case ReadingClaimed(record) =>
      && record.fencingToken == x.disk.persisted.fencingToken
      && (id in x.replies && x.replies[id].Found? ==> x.replies[id].deployment == Some(x.disk.persisted))
    case AssertingClaim(record, deployment, _) =>
      record.fencingToken == x.disk.persisted.fencingToken && deployment == x.disk.persisted
    case WritingMirror(record, deployment, _) =>
      && record.fencingToken == x.disk.persisted.fencingToken && deployment == x.disk.persisted
      && (id in x.replies && x.replies[id].Done? ==> x.disk.mirror == x.disk.persisted)
    case _ => true
  }

  predicate Published(x: System) {
    && x.disk.mirror == x.disk.persisted
    && x.service.record.Some? && x.service.record.value.fencingToken == x.disk.persisted.fencingToken
  }

  lemma AloneStep(config: Config, x: System, e: SystemEvent, id: nat)
    requires config.hasMirror && SystemEnabled(config, x, e) && Alone(x, id) && (e.Perform? || e.Deliver?)
    requires forall j :: j in x.replies ==> j in x.service.frames
    ensures Alone(SystemStep(config, x, e), id)
    ensures forall j :: j in SystemStep(config, x, e).replies ==> j in SystemStep(config, x, e).service.frames
  {
    var y := SystemStep(config, x, e);
    if e.Perform? {
      assert e.id == id;
    } else {
      assert e.delivered == id;
      AloneDelivery(config, x, id);
    }
  }

  lemma AloneDelivery(config: Config, x: System, id: nat)
    requires config.hasMirror && SystemEnabled(config, x, Deliver(id)) && Alone(x, id) && id in x.service.frames
    ensures Alone(SystemStep(config, x, Deliver(id)), id)
  {
    match x.service.frames[id].start
    case ReadingPersisted =>
    case ReadingMirror(_) =>
    case Claiming =>
    case ReadingClaimed(_) =>
    case AssertingClaim(_, _, _) =>
    case WritingMirror(_, _, _) =>
    case ReleasingClaim(_) =>
  }

  lemma {:induction false} AloneRun(config: Config, x: System, es: seq<SystemEvent>, id: nat)
    requires config.hasMirror && SystemRuns(config, x, es) && Undisturbed(es) && Alone(x, id)
    requires forall j :: j in x.replies ==> j in x.service.frames
    ensures Alone(SystemAfter(config, x, es), id)
    decreases |es|
  {
    if es != [] {
      AloneStep(config, x, es[0], id);
      AloneRun(config, SystemStep(config, x, es[0]), es[1..], id);
    }
  }

  /** A start that nothing disturbs, if it becomes active, leaves the mirror equal
      to the persisted deployment, at the fence of the lease it exposes. */
  lemma UncontestedStartPublishesTheFence(config: Config, x: System, es: seq<SystemEvent>)
    requires config.hasMirror && x.service.frames == map[] && x.replies == map[]
    requires x.service.phase == Stopped || x.service.phase == Lost
    requires SystemRuns(config, x, [Call(CallStart)] + es) && Undisturbed(es)
    ensures var y := SystemAfter(config, x, [Call(CallStart)] + es);
      y.service.phase == Active ==> Published(y)
  {
    var y := SystemStep(config, x, Call(CallStart));
    var id := x.service.nextFrame;
    assert ([Call(CallStart)] + es)[1..] == es;
    AloneRun(config, y, es, id);
    var z := SystemAfter(config, y, es);
    if id in z.service.frames {
      assert z.service.phase == Starting;
    }
  }
}
