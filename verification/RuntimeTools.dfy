/** The execution body of a runtime tool call, one process's view of it: other
    calls act on the shared records between any two of its accesses. */
module RuntimeTools {
  import opened Options
  import opened ToolExecution

  datatype Refusal = NotAuthorized | Conflict | PortFailed

  datatype Reply = Returned(outcome: Outcome) | Refused(refusal: Refusal)

  datatype Commit = Inserted | Replayed | Rejected

  datatype WorkerResult = WorkerResult(
    kind: Kind, outputRef: Option<string>, errorCode: Option<string>, externalActionId: Option<string>)

  /** One event of the Worker's stream, as far as this request is concerned. */
  datatype WorkerEvent = Unrelated | WorkCancelled(reason: string) | WorkResult(result: WorkerResult)

  /** The operation in the map of calls in flight. */
  datatype Active = Active(attempt: Invocation, call: Call)

  datatype Admission = Starts | Joins(call: Call) | Denied

  class ProductionRuntimeTools {
    var shared: Shared
    var inFlight: Option<Active>
    /** The calls whose execution body is running in this process. */
    ghost var running: set<Call>
    /** Everything any call has done to the records so far. */
    ghost var history: seq<Action>

    /** The records are what a permitted history made of them. */
    ghost predicate Consistent()
      reads this
    {
      Inv(shared) && Runs(NOTHING, history) && shared == After(NOTHING, history)
    }

    constructor ()
      ensures Consistent() && shared == NOTHING && inFlight == None && OneBody()
    {
      shared, inFlight, history, running := NOTHING, None, [], {};
    }

    /** Only the call in flight can be running. */
    ghost predicate OneBody()
      reads this
    {
      running <= if inFlight.Some? then {inFlight.value.call} else {}
    }

    /** The actions of other calls, in this process or another; `OthersMeetRely`. */
    method Yield(me: Call)
      requires Consistent()
      modifies this`shared, this`history
      ensures Consistent() && Rely(me, old(shared), shared)
    {
    }

    /** Any check that only reads: the handle, the authority, the Run, the receipt. */
    method Check(me: Call) returns (ok: bool)
      requires Consistent()
      modifies this`shared, this`history
      ensures Consistent() && Rely(me, old(shared), shared)
    {
      Yield(me);
      ok := *;
    }

    method LookupIntent(me: Call) returns (intent: Option<Intent>)
      requires Consistent()
      modifies this`shared, this`history
      ensures Consistent() && Rely(me, old(shared), shared) && intent == shared.intent
    {
      Yield(me);
      return shared.intent;
    }

    method LookupResult(me: Call) returns (result: Option<Outcome>)
      requires Consistent()
      modifies this`shared, this`history
      ensures Consistent() && Rely(me, old(shared), shared) && result == shared.result
    {
      Yield(me);
      return shared.result;
    }

    /** Put the intent if there is none. Equal content is a replay, other content
        is rejected, and a rejected call may nevertheless have taken effect. */
    method WriteIntent(me: Call, intent: Intent) returns (r: Commit)
      requires Consistent() && shared.author != Some(me) && me !in shared.dispatches
      modifies this`shared, this`history
      ensures Consistent() && Extends(old(shared), shared) && me !in shared.dispatches
      ensures r.Inserted? ==> shared == Shared(Some(intent), Some(me), None, [])
      ensures r.Replayed? ==> shared.intent == Some(intent) && shared.author != Some(me)
      ensures old(shared).intent.Some? ==> shared.author != Some(me)
    {
      Yield(me);
      if * { return Rejected; }
      if shared.intent.None? {
        RunsExtend(NOTHING, history, CommitIntent(me, intent));
        history := history + [CommitIntent(me, intent)];
        shared := Do(shared, CommitIntent(me, intent));
        if * { return Rejected; }
        return Inserted;
      }
      return if shared.intent == Some(intent) then Replayed else Rejected;
    }

    method WriteResult(me: Call, outcome: Outcome) returns (r: Commit)
      requires Consistent() && shared.author == Some(me)
      modifies this`shared, this`history
      ensures Consistent() && Extends(old(shared), shared) && shared.author == Some(me)
      ensures shared.dispatches == old(shared).dispatches
      ensures !r.Rejected? ==> shared.result == Some(outcome)
      ensures shared.result == old(shared).result || (old(shared).result.None? && shared.result == Some(outcome))
    {
      Yield(me);
      if * { return Rejected; }
      if shared.result.None? {
        RunsExtend(NOTHING, history, CommitResult(me, outcome));
        history := history + [CommitResult(me, outcome)];
        shared := Do(shared, CommitResult(me, outcome));
        if * { return Rejected; }
        return Inserted;
      }
      return if shared.result == Some(outcome) then Replayed else Rejected;
    }

    /** Hand the request to the Worker. */
    method Send(me: Call) returns (ok: bool)
      requires Consistent() && shared.author == Some(me) && me !in shared.dispatches && shared.result.None?
      modifies this`shared, this`history
      ensures shared == old(shared).(dispatches := [me]) && Consistent()
    {
      RunsExtend(NOTHING, history, Dispatch(me));
      history := history + [Dispatch(me)];
      shared := Do(shared, Dispatch(me));
      ok := *;
    }

    /** What the Worker's closing event comes to; nothing, if it cannot be believed. */
    method Judge(me: Call, event: WorkerEvent) returns (outcome: Option<Outcome>)
      requires Consistent() && shared.author == Some(me) && !event.Unrelated?
      modifies this`shared, this`history
      ensures Consistent() && shared == old(shared)
      ensures outcome.Some? && event.WorkCancelled? ==>
                outcome.value == Outcome(Failed, None, Some(event.reason), None, Cancelled)
      ensures outcome.Some? && outcome.value.kind == Succeeded ==>
                event.WorkResult? && event.result.kind == Succeeded
                && outcome.value.resultRef.Some? && outcome.value.resultRef == event.result.outputRef
    {
      var valid := Check(me);
      if !valid { return None; }
      match event
      case WorkCancelled(reason) =>
        outcome := Some(Outcome(Failed, None, Some(reason), None, Cancelled));
      case WorkResult(result) =>
        if result.kind != Succeeded {
          outcome := Some(Outcome(result.kind, None, result.errorCode, result.externalActionId, NotConfirmed));
        } else {
          if result.outputRef.None? { return None; }
          var disclosed := Check(me);
          var observed: Option<string> := *;
          if !disclosed || observed != result.outputRef { return None; }
          var text: string := *;
          outcome := Some(Outcome(Succeeded, observed, None, None, Output(text)));
        }
      valid := Check(me);
      if !valid { outcome := None; }
    }

    /** If the Run is active, dispatch, and follow the Worker's events to a recorded outcome; nothing,
        if anything fails or the deadline passes. */
    method DispatchAndFollow(me: Call, runActive: bool, events: seq<WorkerEvent>) returns (outcome: Option<Outcome>)
      requires Consistent() && shared.author == Some(me) && shared.dispatches == [] && shared.result.None?
      modifies this`shared, this`history
      ensures Consistent() && shared.author == Some(me) && shared.intent == old(shared).intent
      ensures shared.dispatches == if runActive then [me] else []
      ensures outcome.Some? ==> shared.result == outcome && runActive
      ensures shared.dispatches == [] ==> shared.result.None?
    {
      if !runActive { return None; }
      var sent := Send(me);
      if !sent { return None; }
      var i := 0;
      while i < |events|
        invariant Consistent() && shared.author == Some(me) && shared.intent == old(shared).intent
        invariant shared.dispatches == [me] && shared.result.None?
      {
        var running := Check(me);
        if !running { return None; }
        if events[i].Unrelated? {
          i := i + 1;
          continue;
        }
        outcome := Judge(me, events[i]);
        if outcome.None? { return; }
        var recorded := WriteResult(me, outcome.value);
        var disclosed := Check(me);
        if recorded.Rejected? || !disclosed { outcome := None; }
        return;
      }
      return None;
    }

    /** Answer from the records that another call left. */
    method Replay(me: Call, invocation: Invocation, intent: Intent) returns (r: Reply)
      requires Consistent() && shared.intent == Some(intent)
      modifies this`shared, this`history
      ensures Consistent() && Rely(me, old(shared), shared)
      ensures r.Returned? ==> intent.identity == ExecutionIdentity(invocation)
      ensures r.Returned? ==> r.outcome == UNKNOWN || shared.result == Some(r.outcome)
      ensures r.Returned? && old(shared).result.Some? ==> old(shared).result == Some(r.outcome)
      ensures intent.identity != ExecutionIdentity(invocation) <==> r == Refused(Conflict)
    {
      if intent.identity != ExecutionIdentity(invocation) { return Refused(Conflict); }
      var result := LookupResult(me);
      var replay := if result.Some? then result.value else UNKNOWN;
      if replay.kind == Succeeded {
        var disclosed := Check(me);
        var observed: Option<string> := *;
        if !disclosed || observed.None? || observed != replay.resultRef { return Refused(NotAuthorized); }
      }
      var valid := Check(me);
      return if valid then Returned(replay) else Refused(NotAuthorized);
    }

    /** The execution body. It calls itself only after its intent turned out to be
        a replay, and then never a second time. */
    method Execute(me: Call, invocation: Invocation, runActive: bool, events: seq<WorkerEvent>)
      returns (r: Reply, ghost replays: nat)
      requires Consistent() && shared.author != Some(me) && me !in shared.dispatches
      modifies this`shared, this`history
      ensures Consistent() && Extends(old(shared), shared)
      // an answer needs an intent of the same execution, and is its record or unknown
      ensures r.Returned? ==> shared.intent.Some? && shared.intent.value.identity == ExecutionIdentity(invocation)
      ensures r.Returned? ==> r.outcome == UNKNOWN || shared.result == Some(r.outcome)
      ensures r.Returned? && old(shared).result.Some? ==> old(shared).result == Some(r.outcome)
      // a call that finds an intent neither dispatches nor records
      ensures old(shared).intent.Some? ==> shared.author != Some(me) && me !in shared.dispatches
      ensures old(shared).intent.Some? && old(shared).intent.value.identity != ExecutionIdentity(invocation) ==>
                r.Refused?
      // the author dispatches at most once, and answers only with what it recorded
      ensures me in shared.dispatches ==> shared.author == Some(me) && shared.dispatches == [me]
      ensures r.Returned? && shared.author == Some(me) ==> shared.result == Some(r.outcome)
      ensures r.Returned? && shared.author == Some(me) ==> (me in shared.dispatches <==> runActive)
      ensures r.Returned? && shared.author == Some(me) && r.outcome != UNKNOWN ==> shared.dispatches == [me]
      ensures replays <= if old(shared).intent.Some? then 0 else 1
      decreases if shared.intent.Some? then 0 else 1
    {
      replays := 0;
      var valid := Check(me);
      if !valid { return Refused(NotAuthorized), 0; }
      var existing := LookupIntent(me);
      if existing.Some? {
        r := Replay(me, invocation, existing.value);
        return;
      }
      var requestedAt: nat, deadlineAt: nat := *, *;
      var intent := Intent(ExecutionIdentity(invocation), requestedAt, deadlineAt);
      var committed := WriteIntent(me, intent);
      match committed
      case Rejected =>
        return Refused(PortFailed), 0;
      case Replayed =>
        r, replays := Execute(me, invocation, runActive, events);
        replays := replays + 1;
      case Inserted =>
        r := Own(me, runActive, events);
    }

    /** From the fresh intent to a recorded outcome, the unknown one if need be. */
    method Own(me: Call, runActive: bool, events: seq<WorkerEvent>) returns (r: Reply)
      requires Consistent() && shared.author == Some(me) && shared.dispatches == [] && shared.result.None?
      modifies this`shared, this`history
      ensures Consistent() && shared.author == Some(me) && shared.intent == old(shared).intent
      ensures shared.dispatches == if runActive then [me] else []
      ensures r.Returned? ==> shared.result == Some(r.outcome)
      ensures r.Returned? && r.outcome != UNKNOWN ==> runActive
    {
      var outcome := DispatchAndFollow(me, runActive, events);
      if outcome.Some? { return Returned(outcome.value); }
      var active := Check(me);
      if !active { return Refused(PortFailed); }
      var recorded := WriteResult(me, UNKNOWN);
      return if recorded.Rejected? then Refused(PortFailed) else Returned(UNKNOWN);
    }

    /** While a call is in flight, the same attempt shares its result and any other
        is refused; a body starts only when none is running. */
    method Admit(invocation: Invocation, call: Call) returns (a: Admission)
      requires OneBody()
      modifies this`inFlight, this`running
      ensures OneBody()
      ensures old(inFlight).None? ==>
                a == Starts && inFlight == Some(Active(invocation, call)) && old(running) == {} && running == {call}
      ensures old(inFlight).Some? ==> inFlight == old(inFlight) && running == old(running)
      ensures old(inFlight).Some? ==>
                a == if old(inFlight).value.attempt == invocation then Joins(old(inFlight).value.call) else Denied
    {
      if inFlight.Some? {
        return if inFlight.value.attempt != invocation then Denied else Joins(inFlight.value.call);
      }
      inFlight := Some(Active(invocation, call));
      running := running + {call};
      return Starts;
    }

    /** The body has ended; until this is noticed, attempts still share its result. */
    ghost method Settle()
      requires OneBody()
      modifies this`running
      ensures OneBody() && running == {}
    {
      running := {};
    }

    /** The settled result is forgotten: the next attempt goes to the records. */
    method Forget()
      requires OneBody() && running == {}
      modifies this`inFlight
      ensures OneBody() && inFlight == None
    {
      inFlight := None;
    }

    /** One attempt in this process. It runs the execution body only if no other
        body of this tool call is running here, and then its reply is the body's. */
    method ExecuteCanonical(me: Call, invocation: Invocation, runActive: bool, events: seq<WorkerEvent>)
      returns (a: Admission, reply: Option<Reply>)
      requires Consistent() && OneBody() && shared.author != Some(me) && me !in shared.dispatches
      modifies this
      ensures Consistent() && OneBody() && Extends(old(shared), shared)
      ensures a.Starts? <==> old(inFlight).None?
      ensures a.Starts? ==> old(running) == {} && running == {} && inFlight == None && reply.Some?
      ensures !a.Starts? ==> inFlight == old(inFlight) && running == old(running) && shared == old(shared)
      ensures a.Denied? <==> old(inFlight).Some? && old(inFlight).value.attempt != invocation
      ensures a.Denied? ==> reply == Some(Refused(Conflict))
      ensures a.Joins? ==> a.call == old(inFlight).value.call && reply == None
      ensures a.Starts? && reply.value.Returned? ==>
                && shared.intent.Some? && shared.intent.value.identity == ExecutionIdentity(invocation)
                && (reply.value.outcome == UNKNOWN || shared.result == Some(reply.value.outcome))
    {
      a := Admit(invocation, me);
      match a
      case Denied => reply := Some(Refused(Conflict));
      case Joins(_) => reply := None;
      case Starts =>
        var answer, replays := Execute(me, invocation, runActive, events);
        Settle();
        Forget();
        reply := Some(answer);
    }
  }

  /** Two bodies of one tool call never run at once in one process. */
  lemma BodiesDoNotOverlap(tools: ProductionRuntimeTools, a: Call, b: Call)
    requires tools.OneBody() && a in tools.running && b in tools.running
    ensures a == b
  {
  }

  /** After a result was recorded, every later call answers with it or refuses:
      a record that could not be disclosed is not replaced by a second one. */
  lemma RecordSurvives(s: Shared, actions: seq<Action>, record: Outcome)
    requires Inv(s) && s.result == Some(record) && Runs(s, actions)
    ensures After(s, actions).result == Some(record)
  {
    RunsKeepInv(s, actions);
  }
}
