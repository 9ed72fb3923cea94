/** Nested sandbox admissions: a plan prepared under a parent plan, at any
    depth. Scopes are kept by digest, so a plan's binding stands for its scope. */
module SandboxAdmissions {
  import opened Options

  type Ref = string
  type Time = nat
  type Domain = string

  datatype Operation = Read | Create | Update | Move | Trash | Restore | PermanentDelete
  datatype Ceiling = Ceiling(wallTimeMs: nat, cpuTimeMs: nat, memoryBytes: nat, outputBytes: nat, progressEvents: nat)
  datatype Version = V1 | V2

  datatype DirectoryGrant = DirectoryGrant(
    ref: Ref, revision: nat, root: Ref, authorizationRef: Ref, operations: seq<Operation>)

  datatype Scope = Scope(
    toolCallId: Ref, parentToolCallId: Option<Ref>, parentRequestId: Ref, hostId: Ref, handleRef: Ref, inputRef: Ref,
    operation: Ref, authorizationRef: Ref, modelRef: Ref, profileRef: Ref,
    grant: DirectoryGrant, networkAuthorizationRef: Option<Ref>, expiresAt: Time)

  datatype Plan = Plan(
    version: Version, invocationId: Ref, toolCallId: Ref, hostId: Ref, handleRef: Ref, inputRef: Ref, operation: Ref,
    authorizationRef: Ref, modelRef: Ref, profileRef: Ref, requestedAt: Time, originalDeadline: Time, deadline: Time,
    ceiling: Ceiling, scope: Scope)

  /** The host's live directory grant, which may shrink, expire or be revoked. */
  datatype HostGrant = HostGrant(
    hostId: Ref, id: Ref, revision: nat, root: Ref, authorizationRef: Ref, operations: set<Operation>,
    expiresAt: Time, revoked: bool)

  datatype Network = NoNetwork | GrantTargets

  /** What a capability's deployment entry says of one operation. */
  datatype Descriptor = Descriptor(operation: Ref, directoryOperations: seq<Operation>, network: Network)

  /** Everything outside that a resolution reads at one moment. The network
      targets of a grant are part of its approved intent and never change; a
      grant may stop being live, and parents and hosts may become unavailable. */
  datatype World = World(
    now: Time, hostId: Ref, hostGrants: map<Ref, HostGrant>, liveGrants: set<Ref>, maximumDomains: set<Domain>,
    descriptors: map<Ref, Descriptor>, hostVerified: bool, parentAvailable: bool)

  type Targets = map<Ref, set<Domain>>

  datatype Error =
    | ParentUnavailable | HandleUnavailable | ChildScopeExceeded | ScopeUnavailable | HostUnavailable
    | OperationScopeChanged | PlanInvalid

  datatype Result<+T> = Ok(value: T) | Err(error: Error)

  predicate Distinct(operations: seq<Operation>) {
    forall i, j :: 0 <= i < j < |operations| ==> operations[i] != operations[j]
  }

  predicate Within(a: seq<Operation>, b: seq<Operation>) {
    forall operation <- a :: operation in b
  }

  predicate CeilingWithin(a: Ceiling, b: Ceiling) {
    && a.wallTimeMs <= b.wallTimeMs && a.cpuTimeMs <= b.cpuTimeMs && a.memoryBytes <= b.memoryBytes
    && a.outputBytes <= b.outputBytes && a.progressEvents <= b.progressEvents
  }

  // ---------------------------------------------------------------- resolve

  /** The scope is the one the plan was made for. */
  predicate ScopeMatches(plan: Plan) {
    var scope := plan.scope;
    && scope.toolCallId == plan.toolCallId && scope.hostId == plan.hostId && scope.handleRef == plan.handleRef
    && scope.inputRef == plan.inputRef && scope.operation == plan.operation
    && scope.authorizationRef == plan.authorizationRef && scope.modelRef == plan.modelRef
    && scope.profileRef == plan.profileRef && scope.parentToolCallId != Some(scope.toolCallId)
  }

  /** The host's grant still covers the scope, for as long as the plan may run. */
  predicate GrantCovers(world: World, plan: Plan) {
    var grant := plan.scope.grant;
    && grant.ref in world.hostGrants
    && var current := world.hostGrants[grant.ref];
    && plan.scope.hostId == world.hostId == current.hostId && current.id == grant.ref
    && current.revision == grant.revision && current.root == grant.root
    && current.authorizationRef == grant.authorizationRef && !current.revoked
    && world.now < current.expiresAt && plan.deadline <= current.expiresAt
    && grant.operations != [] && Distinct(grant.operations)
    && forall operation <- grant.operations :: operation in current.operations
  }

  predicate InWindow(world: World, plan: Plan) {
    world.now < plan.scope.expiresAt && world.now < plan.deadline <= plan.scope.expiresAt
  }

  /** The domains of a scope: those of the grant it names, which must be the plan's own. */
  function DomainsOf(targets: Targets, world: World, plan: Plan): Result<set<Domain>> {
    match plan.scope.networkAuthorizationRef
    case None => Ok({})
    case Some(ref) =>
      if ref != plan.authorizationRef || ref !in world.liveGrants || ref !in targets then Err(ScopeUnavailable)
      else if targets[ref] == {} || !(targets[ref] <= world.maximumDomains) then Err(ScopeUnavailable)
      else Ok(targets[ref])
  }

  /** A version 2 plan has exactly the directory operations its descriptor names. */
  predicate DescriptorAgrees(world: World, plan: Plan) {
    && plan.operation in world.descriptors
    && var descriptor := world.descriptors[plan.operation];
    && Within(descriptor.directoryOperations, plan.scope.grant.operations)
    && Within(plan.scope.grant.operations, descriptor.directoryOperations)
    && (descriptor.network.NoNetwork? ==> plan.scope.networkAuthorizationRef.None?)
  }

  function Resolve(targets: Targets, world: World, plan: Plan): Result<set<Domain>> {
    if !(plan.requestedAt < plan.deadline <= plan.originalDeadline) then Err(PlanInvalid)
    else if !world.hostVerified then Err(HostUnavailable)
    else if plan.version.V2? && !DescriptorAgrees(world, plan) then Err(OperationScopeChanged)
    else if !ScopeMatches(plan) || !GrantCovers(world, plan) || !InWindow(world, plan) || !world.parentAvailable
    then Err(ScopeUnavailable)
    else DomainsOf(targets, world, plan)
  }

  // ---------------------------------------------------------------- prepare

  datatype Input = Input(
    invocationId: Ref, receiptRef: Ref, handleRef: Ref, inputRef: Ref, operation: Ref, requestedAt: Time,
    deadline: Time, ceiling: Ceiling)

  datatype Handle = Handle(ref: Ref, authorizationRef: Ref, expiresAt: Time)

  datatype Entry = Entry(hostId: Ref, profileRef: Ref, descriptors: map<Ref, Descriptor>)

  function Min(a: nat, b: nat): nat {
    if a <= b then a else b
  }

  function ChildDeadline(prior: Plan, input: Input, handle: Handle): Time {
    Min(Min(input.deadline, handle.expiresAt), prior.deadline)
  }

  function ChildPlan(prior: Plan, input: Input, handle: Handle, profileRef: Ref, scope: Scope): Plan {
    prior.(invocationId := input.invocationId, toolCallId := scope.toolCallId, handleRef := handle.ref,
           inputRef := input.inputRef, operation := input.operation, authorizationRef := handle.authorizationRef,
           profileRef := profileRef, requestedAt := input.requestedAt,
           deadline := ChildDeadline(prior, input, handle), ceiling := input.ceiling, scope := scope)
  }

  function ChildScope(prior: Plan, request: Ref, input: Input, handle: Handle): Scope {
    prior.scope.(toolCallId := input.invocationId, parentToolCallId := Some(prior.toolCallId),
                 parentRequestId := request, handleRef := handle.ref, inputRef := input.inputRef,
                 operation := input.operation, authorizationRef := handle.authorizationRef,
                 expiresAt := ChildDeadline(prior, input, handle))
  }

  function ScopeV2(prior: Plan, request: Ref, input: Input, handle: Handle, descriptor: Descriptor): Scope {
    ChildScope(prior, request, input, handle).(
      networkAuthorizationRef := if descriptor.network.GrantTargets? then Some(handle.authorizationRef) else None,
      grant := prior.scope.grant.(operations := descriptor.directoryOperations))
  }

  function ScopeV1(prior: Plan, request: Ref, input: Input, handle: Handle, profileRef: Ref): Scope {
    ChildScope(prior, request, input, handle).(
      networkAuthorizationRef := if prior.scope.networkAuthorizationRef.None? then None else Some(handle.authorizationRef),
      profileRef := profileRef)
  }

  /** The child's domains are compared with the parent's as both resolve now. */
  function Bounded(targets: Targets, world: World, plan: Plan, inherited: set<Domain>): Result<Plan> {
    match Resolve(targets, world, plan)
    case Err(error) => Err(error)
    case Ok(domains) => if domains <= inherited then Ok(plan) else Err(ChildScopeExceeded)
  }

  /** `before` is the world as the parent is resolved, `after` as the child is. */
  function PrepareV2(targets: Targets, before: World, after: World, prior: Plan, request: Ref, input: Input,
                     handle: Option<Handle>, entry: Entry): Result<Plan>
  {
    if input.operation !in entry.descriptors || !before.parentAvailable then Err(ParentUnavailable)
    else
      var descriptor := entry.descriptors[input.operation];
      match Resolve(targets, before, prior)
      case Err(error) => Err(error)
      case Ok(inherited) =>
        if handle.None? then Err(HandleUnavailable)
        else if entry.hostId != prior.hostId || entry.profileRef != prior.profileRef
                || !Within(descriptor.directoryOperations, prior.scope.grant.operations)
                || !CeilingWithin(input.ceiling, prior.ceiling)
        then Err(ChildScopeExceeded)
        else
          var scope := ScopeV2(prior, request, input, handle.value, descriptor);
          Bounded(targets, after, ChildPlan(prior, input, handle.value, entry.profileRef, scope), inherited)
  }

  function PrepareV1(targets: Targets, before: World, after: World, prior: Plan, request: Ref, input: Input,
                     handle: Option<Handle>, entry: Entry): Result<Plan>
  {
    if !before.parentAvailable then Err(ParentUnavailable)
    else
      match Resolve(targets, before, prior)
      case Err(error) => Err(error)
      case Ok(inherited) =>
        if handle.None? then Err(HandleUnavailable)
        else if entry.hostId != prior.hostId || !CeilingWithin(input.ceiling, prior.ceiling)
        then Err(ChildScopeExceeded)
        else
          var scope := ScopeV1(prior, request, input, handle.value, entry.profileRef);
          Bounded(targets, after, ChildPlan(prior, input, handle.value, entry.profileRef, scope), inherited)
  }

  function Prepare(targets: Targets, before: World, after: World, prior: Plan, request: Ref, input: Input,
                   handle: Option<Handle>, entry: Entry): Result<Plan>
  {
    if prior.version.V2? then PrepareV2(targets, before, after, prior, request, input, handle, entry)
    else PrepareV1(targets, before, after, prior, request, input, handle, entry)
  }

  // ------------------------------------------------------------ attenuation

  /** The domains a plan has whenever it resolves. */
  function Domains(targets: Targets, plan: Plan): set<Domain> {
    match plan.scope.networkAuthorizationRef
    case None => {}
    case Some(ref) => if ref in targets then targets[ref] else {}
  }

  lemma ResolvedDomains(targets: Targets, world: World, plan: Plan)
    requires Resolve(targets, world, plan).Ok?
    ensures Resolve(targets, world, plan).value == Domains(targets, plan)
  {
  }

  /** The authority of one plan lies within that of another. */
  predicate Attenuates(targets: Targets, child: Plan, parent: Plan) {
    && child.deadline <= parent.deadline && child.originalDeadline == parent.originalDeadline
    && CeilingWithin(child.ceiling, parent.ceiling)
    && Within(child.scope.grant.operations, parent.scope.grant.operations)
    && child.scope.grant.root == parent.scope.grant.root && child.scope.grant.ref == parent.scope.grant.ref
    && Domains(targets, child) <= Domains(targets, parent)
    && child.hostId == parent.hostId && child.scope.hostId == parent.scope.hostId
  }

  lemma ChildAttenuates(targets: Targets, before: World, after: World, prior: Plan, request: Ref, input: Input,
                        handle: Option<Handle>, entry: Entry)
    requires Prepare(targets, before, after, prior, request, input, handle, entry).Ok?
    ensures Attenuates(targets, Prepare(targets, before, after, prior, request, input, handle, entry).value, prior)
  {
    ResolvedDomains(targets, before, prior);
    ResolvedDomains(targets, after, Prepare(targets, before, after, prior, request, input, handle, entry).value);
  }

  /** An admission is refused for exceeding its parent exactly if what was asked
      for does: no request within the parent's authority is turned away as too wide. */
  lemma ExceedsIffTooWide(targets: Targets, before: World, after: World, prior: Plan, request: Ref, input: Input,
                          handle: Handle, entry: Entry)
    requires prior.version.V2? && Resolve(targets, before, prior).Ok?
    requires input.operation in entry.descriptors
    requires var descriptor := entry.descriptors[input.operation];
      Resolve(targets, after, ChildPlan(prior, input, handle, entry.profileRef,
                                        ScopeV2(prior, request, input, handle, descriptor))).Ok?
    ensures var descriptor := entry.descriptors[input.operation];
      Prepare(targets, before, after, prior, request, input, Some(handle), entry) == Err(ChildScopeExceeded) <==>
      || entry.hostId != prior.hostId || entry.profileRef != prior.profileRef
      || !Within(descriptor.directoryOperations, prior.scope.grant.operations)
      || !CeilingWithin(input.ceiling, prior.ceiling)
      || (descriptor.network.GrantTargets? && !(targets[handle.authorizationRef] <= Domains(targets, prior)))
  {
    ResolvedDomains(targets, before, prior);
  }

  // ---------------------------------------------------------- the whole tree

  /** An admitted plan, and the admission it was prepared under. */
  datatype Admission = Admission(plan: Plan, parent: Option<nat>)

  /** Admissions in the order they were made; none is changed or removed. */
  type Journal = seq<Admission>

  datatype Event =
    | AdmitRoot(world: World, plan: Plan)
    | AdmitChild(before: World, after: World, parent: nat, request: Ref, input: Input, handle: Option<Handle>,
                 entry: Entry)

  /** Refused admissions leave no trace. */
  function Admit(targets: Targets, journal: Journal, e: Event): Journal {
    match e
    case AdmitRoot(world, plan) =>
      if Resolve(targets, world, plan).Ok? then journal + [Admission(plan, None)] else journal
    case AdmitChild(before, after, parent, request, input, handle, entry) =>
      if parent >= |journal| then journal
      else
        match Prepare(targets, before, after, journal[parent].plan, request, input, handle, entry)
        case Err(_) => journal
        case Ok(plan) => journal + [Admission(plan, Some(parent))]
  }

  function AdmitAll(targets: Targets, es: seq<Event>): Journal {
    if es == [] then [] else Admit(targets, AdmitAll(targets, es[..|es| - 1]), es[|es| - 1])
  }

  ghost predicate Nested(targets: Targets, journal: Journal) {
    forall i :: 0 <= i < |journal| && journal[i].parent.Some? ==>
      journal[i].parent.value < i && Attenuates(targets, journal[i].plan, journal[journal[i].parent.value].plan)
  }

  lemma {:induction false} AdmissionsNest(targets: Targets, es: seq<Event>)
    ensures Nested(targets, AdmitAll(targets, es))
  {
    if es != [] {
      var before := AdmitAll(targets, es[..|es| - 1]);
      var e := es[|es| - 1];
      AdmissionsNest(targets, es[..|es| - 1]);
      if e.AdmitChild? && e.parent < |before|
         && Prepare(targets, e.before, e.after, before[e.parent].plan, e.request, e.input, e.handle, e.entry).Ok?
      {
        ChildAttenuates(targets, e.before, e.after, before[e.parent].plan, e.request, e.input, e.handle, e.entry);
      }
    }
  }

  /** One admission lies somewhere above the other. */
  predicate IsAncestor(journal: Journal, a: nat, i: nat)
    decreases i
  {
    && i < |journal| && journal[i].parent.Some? && journal[i].parent.value < i
    && (journal[i].parent.value == a || IsAncestor(journal, a, journal[i].parent.value))
  }

  lemma AttenuatesThrough(targets: Targets, a: Plan, b: Plan, c: Plan)
    requires Attenuates(targets, a, b) && Attenuates(targets, b, c)
    ensures Attenuates(targets, a, c)
  {
  }

  lemma {:induction false} NestedAtEveryDepth(targets: Targets, journal: Journal, a: nat, i: nat)
    requires Nested(targets, journal) && IsAncestor(journal, a, i)
    ensures a < i && Attenuates(targets, journal[i].plan, journal[a].plan)
    decreases i
  {
    var p := journal[i].parent.value;
    if p != a {
      NestedAtEveryDepth(targets, journal, a, p);
      AttenuatesThrough(targets, journal[i].plan, journal[p].plan, journal[a].plan);
    }
  }

  /** Whatever is requested, granted, revoked or redeployed in between, an
      admission at any depth has no more time, resources, operations or domains
      than any admission above it, and runs on the same host. */
  lemma AuthorityOnlyShrinks(targets: Targets, es: seq<Event>, a: nat, i: nat)
    requires IsAncestor(AdmitAll(targets, es), a, i)
    ensures a < i && Attenuates(targets, AdmitAll(targets, es)[i].plan, AdmitAll(targets, es)[a].plan)
  {
    AdmissionsNest(targets, es);
    NestedAtEveryDepth(targets, AdmitAll(targets, es), a, i);
  }

  /** Once admitted, a plan resolves only while the host's live grant covers its
      operations and its whole run, so revoking or narrowing that grant stops
      every descendant too. */
  lemma DescendantsNeedTheLiveGrant(targets: Targets, es: seq<Event>, a: nat, i: nat, world: World)
    requires IsAncestor(AdmitAll(targets, es), a, i)
    requires Resolve(targets, world, AdmitAll(targets, es)[i].plan).Ok?
    ensures a < |AdmitAll(targets, es)|
    ensures var top := AdmitAll(targets, es)[a].plan; var plan := AdmitAll(targets, es)[i].plan;
      && top.scope.grant.ref in world.hostGrants
      && !world.hostGrants[top.scope.grant.ref].revoked
      && world.now < plan.deadline <= world.hostGrants[top.scope.grant.ref].expiresAt
      && forall operation <- plan.scope.grant.operations :: operation in world.hostGrants[top.scope.grant.ref].operations
  {
    AuthorityOnlyShrinks(targets, es, a, i);
  }
}
