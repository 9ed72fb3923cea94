/** What the processes of a deployment share about one tool call, and what any
    of them may do to it. Calls are numbered: a call is one run of the execution
    body, in whatever process, before or after whatever crash. A crash is a call
    that does nothing more. */
module ToolExecution {
  import opened Options

  datatype Authority = Authority(deploymentId: string, authorityEpoch: nat, fencingToken: nat)
  datatype Lease = Lease(authority: Authority, executionLeaseId: string, revision: nat, expiresAt: nat)
  datatype Context = Context(threadId: string, modelRef: string, lease: Lease, continuationRef: Option<string>)

  /** An invocation; its run and tool call identifiers are the ones of this call,
      and `request` stands for its other fields. */
  datatype Invocation = Invocation(context: Option<Context>, request: string)

  /** An execution identity is the invocation without what a takeover or a resume
      may change. Digests of distinct identities are taken to be distinct. */
  datatype IdentityContext = IdentityContext(threadId: string, modelRef: string, authority: Authority)
  datatype Identity = Identity(context: Option<IdentityContext>, request: string)

  function ExecutionIdentity(invocation: Invocation): Identity {
    match invocation.context
    case None => Identity(None, invocation.request)
    case Some(c) => Identity(Some(IdentityContext(c.threadId, c.modelRef, c.lease.authority)), invocation.request)
  }

  /** An invocation with a renewed lease and another continuation, under the same authority. */
  function Resumed(invocation: Invocation, lease: Lease, continuationRef: Option<string>): Invocation {
    if invocation.context.None? then invocation
    else invocation.(context := Some(invocation.context.value.(
                       lease := lease.(authority := invocation.context.value.lease.authority),
                       continuationRef := continuationRef)))
  }

  /** Two invocations are the same execution exactly if one is the other resumed:
      lease and continuation do not matter, deployment, epoch, fence and request do. */
  lemma SameExecutionIffResumed(a: Invocation, b: Invocation)
    ensures ExecutionIdentity(a) == ExecutionIdentity(b)
       <==> exists lease, continuationRef :: b == Resumed(a, lease, continuationRef)
  {
    if ExecutionIdentity(a) == ExecutionIdentity(b) {
      if a.context.Some? {
        assert b == Resumed(a, b.context.value.lease, b.context.value.continuationRef);
      } else {
        assert b == Resumed(a, Lease(Authority("", 0, 0), "", 0, 0), None);
      }
    }
  }

  datatype Kind = Succeeded | Failed | ResultUnknown
  datatype Content = Unconfirmed | Cancelled | NotConfirmed | Output(text: string)
  datatype Outcome = Outcome(
    kind: Kind, resultRef: Option<string>, errorCode: Option<string>, externalActionId: Option<string>,
    content: Content)

  const UNKNOWN := Outcome(ResultUnknown, None, Some("WORKER_RESULT_RECONCILIATION_REQUIRED"), None, Unconfirmed)

  /** The intent record: what is executed, and the request with its time stamps. */
  datatype Intent = Intent(identity: Identity, requestedAt: nat, deadlineAt: nat)

  type Call = nat

  /** The durable records of the tool call, with who put the intent there and
      which calls handed the request to the Worker, in order. */
  datatype Shared = Shared(
    intent: Option<Intent>, author: Option<Call>, result: Option<Outcome>, dispatches: seq<Call>)

  const NOTHING := Shared(None, None, None, [])

  datatype Action =
    | CommitIntent(call: Call, intent: Intent)
    | Dispatch(call: Call)
    | CommitResult(call: Call, outcome: Outcome)

  /** What the execution body lets a call do: propose its intent at any time;
      dispatch and record only as the author of the intent, dispatch only once
      and record only what is not recorded yet. */
  predicate Allowed(s: Shared, a: Action) {
    match a
    case CommitIntent(_, _) => true
    case Dispatch(call) => s.author == Some(call) && call !in s.dispatches && s.result.None?
    case CommitResult(call, _) => s.author == Some(call)
  }

  /** Put-if-absent for both records. */
  function Do(s: Shared, a: Action): Shared {
    match a
    case CommitIntent(call, intent) =>
      if s.intent.None? then s.(intent := Some(intent), author := Some(call)) else s
    case Dispatch(call) => s.(dispatches := s.dispatches + [call])
    case CommitResult(_, outcome) => if s.result.None? then s.(result := Some(outcome)) else s
  }

  predicate Inv(s: Shared) {
    && (s.intent.Some? <==> s.author.Some?)
    && (s.result.Some? ==> s.intent.Some?)
    && (s.dispatches == [] || (s.author.Some? && s.dispatches == [s.author.value]))
  }

  predicate Runs(s: Shared, actions: seq<Action>)
    decreases |actions|
  {
    actions == [] || (Allowed(s, actions[0]) && Runs(Do(s, actions[0]), actions[1..]))
  }

  function After(s: Shared, actions: seq<Action>): Shared
    requires Runs(s, actions)
    decreases |actions|
  {
    if actions == [] then s else After(Do(s, actions[0]), actions[1..])
  }

  /** The records only ever appear; neither is replaced or removed. */
  predicate Extends(s: Shared, t: Shared) {
    && (s.intent.Some? ==> t.intent == s.intent && t.author == s.author)
    && (s.result.Some? ==> t.result == s.result)
    && s.dispatches <= t.dispatches
  }

  lemma {:induction false} RunsKeepInv(s: Shared, actions: seq<Action>)
    requires Inv(s) && Runs(s, actions)
    ensures Inv(After(s, actions)) && Extends(s, After(s, actions))
    decreases |actions|
  {
    if actions != [] {
      RunsKeepInv(Do(s, actions[0]), actions[1..]);
    }
  }

  lemma {:induction false} RunsExtend(s: Shared, actions: seq<Action>, a: Action)
    requires Runs(s, actions) && Allowed(After(s, actions), a)
    ensures Runs(s, actions + [a]) && After(s, actions + [a]) == Do(After(s, actions), a)
    decreases |actions|
  {
    if actions == [] {
      assert [] + [a] == [a] && [a][1..] == [];
    } else {
      RunsExtend(Do(s, actions[0]), actions[1..], a);
      assert (actions + [a])[1..] == actions[1..] + [a];
    }
  }

  function Dispatchers(actions: seq<Action>): seq<Call> {
    if actions == [] then []
    else (if actions[0].Dispatch? then [actions[0].call] else []) + Dispatchers(actions[1..])
  }

  lemma {:induction false} DispatchesAreLogged(s: Shared, actions: seq<Action>)
    requires Runs(s, actions)
    ensures After(s, actions).dispatches == s.dispatches + Dispatchers(actions)
    decreases |actions|
  {
    if actions != [] {
      DispatchesAreLogged(Do(s, actions[0]), actions[1..]);
    }
  }

  /** At most once: over any history of concurrent calls, replays and restarts,
      the request is handed to the Worker at most once, by the one call whose
      intent commit was not a replay. */
  lemma AtMostOnce(actions: seq<Action>)
    requires Runs(NOTHING, actions)
    ensures |Dispatchers(actions)| <= 1
    ensures Dispatchers(actions) != [] ==> After(NOTHING, actions).author == Some(Dispatchers(actions)[0])
  {
    RunsKeepInv(NOTHING, actions);
    DispatchesAreLogged(NOTHING, actions);
    assert After(NOTHING, actions).dispatches == Dispatchers(actions);
  }

  /** What a call may assume of the others: whatever they do, its own authorship
      and its own dispatch are its own, and only an author adds a result. */
  predicate Rely(me: Call, s: Shared, t: Shared) {
    && Inv(t)
    && Extends(s, t)
    && (t.author == Some(me) <==> s.author == Some(me))
    && (s.author == Some(me) ==> t == s)
    && (me in t.dispatches ==> me in s.dispatches)
  }

  /** That is what any run of actions by the other calls comes to. */
  lemma {:induction false} OthersMeetRely(me: Call, s: Shared, actions: seq<Action>)
    requires Inv(s) && Runs(s, actions) && forall a <- actions :: a.call != me
    ensures Rely(me, s, After(s, actions))
    decreases |actions|
  {
    if actions != [] {
      assert actions[0].call != me;
      OthersMeetRely(me, Do(s, actions[0]), actions[1..]);
    }
  }
}
