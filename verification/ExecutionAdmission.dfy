/** Admission of a Worker's child request against its parent's binding, while
    the binding registry and the peer session change on their own. */
module ExecutionAdmission {
  import opened Options

  datatype Peer = Peer(
    serviceInstanceId: string, serviceBootId: string, workerInstanceId: string, workerBootId: string,
    deploymentId: string, authorityEpoch: nat, fencingToken: nat)

  datatype Scope = Scope(
    deploymentId: string, authorityEpoch: nat, fencingToken: nat,
    ownerId: Option<string>, agentId: Option<string>, runId: Option<string>, workerRunId: Option<string>)

  datatype Ceiling = Ceiling(wallTimeMs: nat, cpuTimeMs: nat, memoryBytes: nat, outputBytes: nat, progressEvents: nat)

  /** Data classifications by rank, from public to restricted. */
  datatype Classification = Public | Private | Sensitive | Restricted

  datatype Binding = Binding(
    parentMessageId: string, parentCorrelationId: string, revision: nat, digest: string, scope: Scope,
    authority: Peer, classification: Classification, ceiling: Ceiling, deadlineAt: nat,
    handleRefs: seq<string>, contextRefs: seq<string>)

  datatype Request = Request(
    peer: Peer, causationId: string, messageId: string, parentId: Option<string>, correlationId: string, scope: Scope,
    classification: Classification, ceiling: Ceiling, handleRef: string, contextRefs: seq<string>, deadlineAt: nat)

  function Rank(c: Classification): nat {
    match c case Public => 0 case Private => 1 case Sensitive => 2 case Restricted => 3
  }

  predicate Complete(s: Scope) {
    s.ownerId.Some? && s.agentId.Some? && s.runId.Some? && s.workerRunId.Some?
  }

  /** Neither side is symmetric: the right one must be complete. */
  predicate SameCompleteScope(left: Scope, right: Scope) {
    Complete(right) && left == right
  }

  predicate SameParentBinding(left: Binding, right: Binding) {
    && left.parentMessageId == right.parentMessageId && left.parentCorrelationId == right.parentCorrelationId
    && left.revision == right.revision && left.digest == right.digest
    && SameCompleteScope(left.scope, right.scope) && left.authority == right.authority
    && left.classification == right.classification && left.ceiling == right.ceiling
    && left.deadlineAt == right.deadlineAt
    && left.handleRefs == right.handleRefs && left.contextRefs == right.contextRefs
  }

  predicate CeilingWithin(child: Ceiling, parent: Ceiling) {
    && child.wallTimeMs <= parent.wallTimeMs && child.cpuTimeMs <= parent.cpuTimeMs
    && child.memoryBytes <= parent.memoryBytes && child.outputBytes <= parent.outputBytes
    && child.progressEvents <= parent.progressEvents
  }

  predicate ValidPeer(p: Peer) {
    && p.serviceInstanceId != "" && p.serviceBootId != "" && p.workerInstanceId != "" && p.workerBootId != ""
    && p.deploymentId != "" && p.authorityEpoch >= 1 && p.fencingToken >= 1
  }

  predicate ValidCeiling(c: Ceiling) {
    c.wallTimeMs >= 1 && c.cpuTimeMs >= 1 && c.memoryBytes >= 1 && c.outputBytes >= 1 && c.progressEvents >= 1
  }

  predicate Named(s: Option<string>) {
    s.Some? && s.value != ""
  }

  predicate ValidBinding(b: Binding) {
    && b.parentMessageId != "" && b.parentCorrelationId != "" && b.digest != "" && b.revision >= 1
    && b.scope.deploymentId != "" && Named(b.scope.ownerId) && Named(b.scope.agentId)
    && Named(b.scope.runId) && Named(b.scope.workerRunId)
    && ValidPeer(b.authority)
    && b.scope.deploymentId == b.authority.deploymentId && b.scope.authorityEpoch == b.authority.authorityEpoch
    && b.scope.fencingToken == b.authority.fencingToken
    && ValidCeiling(b.ceiling) && "" !in b.handleRefs && "" !in b.contextRefs
  }

  /** `#assertRequestFitsParent` */
  predicate Fits(request: Request, parent: Binding, peer: Peer) {
    && request.peer == peer && parent.authority == peer
    && SameCompleteScope(parent.scope, request.scope)
    && request.parentId == Some(parent.parentMessageId) && request.correlationId == parent.parentCorrelationId
    && request.causationId == request.messageId
    && Rank(request.classification) <= Rank(parent.classification)
    && CeilingWithin(request.ceiling, parent.ceiling)
    && request.handleRef in parent.handleRefs
    && (forall ref <- request.contextRefs :: ref in parent.contextRefs)
    && request.deadlineAt <= parent.deadlineAt
  }

  datatype Error =
    | RequestInvalid | ParentNotFound | ParentLookupFailed | ParentBindingMismatch | ParentBindingChangedBefore
    | PeerLookupFailed | PeerBindingChangedBefore | AdmissionFailed

  datatype Reason = ParentChangedAfter | PeerChangedAfter | RevalidationFailed

  datatype Reply =
    | Consumed
    | Replayed
    | Unknown(reason: Reason)
    | Threw(error: Error)

  datatype Result<+T> = Ok(value: T) | Err(error: Error)

  /** What the registry held for one parent, change by change. A binding is only
      ever followed by one of a higher revision, also after it was absent. */
  ghost predicate Rising(history: seq<Option<Binding>>) {
    forall i, j :: 0 <= i < j < |history| && history[i].Some? && history[j].Some? ==>
      history[i].value.revision < history[j].value.revision
  }

  /** What the handler asks of others, in order: a look at the registry and the
      change it saw, a look at the peer session, a call of the admission service
      and the change that was current then. */
  datatype Asked =
    | LookAt(change: nat)
    | PeerIs(peer: Peer)
    | AdmitAt(change: nat)

  class AdmissionHandler {
    /** Everything the registry has held for the parent; the last is current. */
    var history: seq<Option<Binding>>
    ghost var asked: seq<Asked>

    constructor ()
      ensures Valid() && history == [None] && asked == []
    {
      history, asked := [None], [];
    }

    ghost predicate Valid()
      reads this
    {
      history != [] && Rising(history)
    }

    /** The registry changes any number of times. */
    method Yield()
      requires Valid()
      modifies this`history
      ensures Valid() && old(history) <= history
    {
    }

    /** The registry's answer: the binding that is current, or a failed lookup. */
    method Lookup() returns (ok: bool, binding: Option<Binding>)
      requires Valid()
      modifies this`history, this`asked
      ensures Valid() && old(history) <= history
      ensures asked == old(asked) + [LookAt(|history| - 1)]
      ensures ok ==> binding == history[|history| - 1]
      ensures binding.Some? ==> ok
    {
      Yield();
      asked := asked + [LookAt(|history| - 1)];
      ok := *;
      binding := if ok then history[|history| - 1] else None;
    }

    /** The session's peer, if it can be read and is valid. */
    method ReadPeer() returns (peer: Option<Peer>)
      modifies this`asked
      ensures peer.Some? ==> ValidPeer(peer.value) && asked == old(asked) + [PeerIs(peer.value)]
      ensures peer.None? ==> asked == old(asked)
    {
      peer := *;
      if peer.Some? && !ValidPeer(peer.value) { peer := None; }
      if peer.Some? { asked := asked + [PeerIs(peer.value)]; }
    }

    /** Call the admission service; the registry may change before and after. */
    method CallAdmission() returns (admitted: bool, receiptMatches: bool, replayed: bool, ghost at: nat)
      requires Valid()
      modifies this`history, this`asked
      ensures Valid() && old(history) <= history
      ensures |old(history)| - 1 <= at < |history| && asked == old(asked) + [AdmitAt(at)]
    {
      Yield();
      at := |history| - 1;
      asked := asked + [AdmitAt(at)];
      Yield();
      admitted, receiptMatches, replayed := *, *, *;
    }

    method LookupBefore() returns (r: Result<Option<Binding>>)
      requires Valid()
      modifies this`history, this`asked
      ensures Valid() && old(history) <= history
      ensures asked == old(asked) + [LookAt(|history| - 1)]
      ensures r.Ok? ==> r.value == history[|history| - 1] && (r.value.Some? ==> ValidBinding(r.value.value))
      ensures r.Err? ==> r.error == ParentLookupFailed || r.error == ParentBindingMismatch
    {
      var ok, binding := Lookup();
      if !ok { return Err(ParentLookupFailed); }
      if binding.Some? && !ValidBinding(binding.value) { return Err(ParentBindingMismatch); }
      return Ok(binding);
    }

    /** The two looks at parent and peer before the admission: both looks saw the
        same change, both peers are the same, and the request fits them. */
    method Check(request: Request) returns (r: Result<(Binding, Peer)>, ghost seen: nat)
      requires Valid()
      modifies this`history, this`asked
      ensures Valid() && old(history) <= history
      ensures r.Ok? ==>
                && |old(history)| - 1 <= seen < |history| && history[seen] == Some(r.value.0)
                && Fits(request, r.value.0, r.value.1)
                && asked == old(asked) + [LookAt(seen), PeerIs(r.value.1), LookAt(seen), PeerIs(r.value.1)]
      ensures r.Ok? ==> NoAdmission(old(asked), asked)
      ensures r.Err? ==> r.error != AdmissionFailed && NoAdmission(old(asked), asked)
    {
      seen := 0;
      var first := LookupBefore();
      if first.Err? { return Err(first.error), seen; }
      if !first.value.Some? { return Err(ParentNotFound), seen; }
      var parent := first.value.value;
      seen := |history| - 1;
      var firstPeer := ReadPeer();
      if !firstPeer.Some? { return Err(PeerLookupFailed), seen; }
      if !Fits(request, parent, firstPeer.value) { return Err(ParentBindingMismatch), seen; }
      var second := LookupBefore();
      if second.Err? { return Err(second.error), seen; }
      if !second.value.Some? { return Err(ParentBindingChangedBefore), seen; }
      if !SameParentBinding(parent, second.value.value) { return Err(ParentBindingChangedBefore), seen; }
      SameMeansUnchanged(history, seen, |history| - 1);
      var peer := ReadPeer();
      if !peer.Some? { return Err(PeerLookupFailed), seen; }
      if firstPeer.value != peer.value { return Err(PeerBindingChangedBefore), seen; }
      if !Fits(request, parent, peer.value) { return Err(ParentBindingMismatch), seen; }
      return Ok((parent, peer.value)), seen;
    }

    /** The looks after the admission. No objection means that they saw the same
        change and the same peer as the looks before it. */
    method Recheck(request: Request, parent: Binding, peer: Peer, ghost seen: nat) returns (objection: Option<Reason>)
      requires Valid() && seen < |history| && history[seen] == Some(parent)
      modifies this`history, this`asked
      ensures Valid() && old(history) <= history
      ensures objection.None? ==>
                && seen == |history| - 1
                && asked == old(asked) + [LookAt(seen), PeerIs(peer)]
                && Fits(request, parent, peer)
      ensures NoAdmission(old(asked), asked)
    {
      var ok, post := Lookup();
      if !post.Some? { return Some(ParentChangedAfter); }
      if !ValidBinding(post.value) { return Some(ParentChangedAfter); }
      var postPeer := ReadPeer();
      if !postPeer.Some? { return Some(RevalidationFailed); }
      if !SameParentBinding(parent, post.value) { return Some(ParentChangedAfter); }
      if peer != postPeer.value { return Some(PeerChangedAfter); }
      if !Fits(request, post.value, postPeer.value) { return Some(ParentChangedAfter); }
      SameMeansUnchanged(history, seen, |history| - 1);
      return None;
    }

    /** The admission of a checked request, and the looks behind it. */
    method AdmitChecked(request: Request, parent: Binding, peer: Peer, ghost change: nat) returns (r: Reply)
      requires Valid() && change < |history| && history[change] == Some(parent)
      modifies this`history, this`asked
      ensures r.Threw? ==> r.error == AdmissionFailed
      ensures Valid() && old(history) <= history
      ensures r.Consumed? || r.Replayed? ==>
                && change == |history| - 1 && Fits(request, parent, peer)
                && asked == old(asked) + [AdmitAt(change), LookAt(change), PeerIs(peer)]
      ensures OneAdmission(old(asked), asked)
    {
      var admitted, receiptMatches, replayed, at := CallAdmission();
      ghost var called := asked;
      OnceThenNone(old(asked), at, called);
      if !admitted || !receiptMatches { return Threw(AdmissionFailed); }
      var objection := Recheck(request, parent, peer, change);
      OnceThenNone(old(asked), at, asked);
      if objection.Some? { return Unknown(objection.value); }
      return if replayed then Replayed else Consumed;
    }

    /** An admission is reported as consumed or replayed only if the three looks
        at the parent, two before the admission and one after it, and the
        admission itself all met the same change of the registry: the parent was
        the same at every instant in between. The three looks at the peer agree,
        and the request fits both. Every error but `AdmissionFailed` means that
        the admission service was not called, every other answer that it was
        called once. */
    method Admit(request: Request) returns (r: Reply, ghost change: nat, ghost peer: Option<Peer>)
      requires Valid()
      modifies this
      ensures Valid() && old(history) <= history
      ensures r.Consumed? || r.Replayed? ==>
                && |old(history)| - 1 <= change == |history| - 1
                && history[change].Some? && peer.Some? && Fits(request, history[change].value, peer.value)
                && asked == old(asked) + AllAgree(change, peer.value)
      ensures r.Threw? && r.error != AdmissionFailed ==> NoAdmission(old(asked), asked)
      ensures !r.Threw? || r.error == AdmissionFailed ==> OneAdmission(old(asked), asked)
    {
      change, peer := 0, None;
      if request.parentId.None? || request.causationId != request.messageId {
        return Threw(RequestInvalid), change, peer;
      }
      var checked;
      checked, change := Check(request);
      if checked.Err? { return Threw(checked.error), change, peer; }
      peer := Some(checked.value.1);
      ghost var before := asked;
      r := AdmitChecked(request, checked.value.0, checked.value.1, change);
      NoneThenOnce(old(asked), before, asked);
    }
  }

  lemma OnceThenNone(before: seq<Asked>, at: nat, after: seq<Asked>)
    requires NoAdmission(before + [AdmitAt(at)], after)
    ensures OneAdmission(before, after)
  {
    assert after[|before|] == (before + [AdmitAt(at)])[|before|];
    assert OnlyAdmission(|before|, after, |before|);
  }

  lemma NoneThenOnce(before: seq<Asked>, middle: seq<Asked>, after: seq<Asked>)
    requires NoAdmission(before, middle) && OneAdmission(middle, after)
    ensures OneAdmission(before, after)
  {
    var i :| OnlyAdmission(|middle|, after, i);
    forall k | |before| <= k < |after| && k != i
      ensures !after[k].AdmitAt?
    {
      if k < |middle| {
        assert after[k] == middle[k];
      }
    }
    assert OnlyAdmission(|before|, after, i);
  }

  /** What is asked on the way to a consumed or replayed admission. */
  function AllAgree(change: nat, peer: Peer): seq<Asked> {
    [LookAt(change), PeerIs(peer), LookAt(change), PeerIs(peer), AdmitAt(change), LookAt(change), PeerIs(peer)]
  }

  predicate NoAdmission(before: seq<Asked>, after: seq<Asked>) {
    before <= after && forall k :: |before| <= k < |after| ==> !after[k].AdmitAt?
  }

  predicate OnlyAdmission(start: nat, after: seq<Asked>, i: nat) {
    && start <= i < |after| && after[i].AdmitAt?
    && forall k :: start <= k < |after| && k != i ==> !after[k].AdmitAt?
  }

  ghost predicate OneAdmission(before: seq<Asked>, after: seq<Asked>) {
    before <= after && exists i :: OnlyAdmission(|before|, after, i)
  }

  /** Equal bindings are the same change: with rising revisions, nothing that was
      replaced ever comes back. */
  lemma SameMeansUnchanged(history: seq<Option<Binding>>, i: nat, j: nat)
    requires Rising(history) && i < |history| && j < |history|
    requires history[i].Some? && history[j].Some?
    requires SameParentBinding(history[i].value, history[j].value)
    ensures i == j
  {
  }

  /** Without rising revisions the comparison proves nothing: a binding may go
      away and come back between two looks. */
  lemma RevisionsAreNeeded(b: Binding)
    requires ValidBinding(b)
    ensures var history := [Some(b), None, Some(b)];
      !Rising(history) && SameParentBinding(history[0].value, history[2].value) && history[1] != history[0]
  {
    var history := [Some(b), None, Some(b)];
    assert history[0].value.revision == history[2].value.revision;
  }
}
