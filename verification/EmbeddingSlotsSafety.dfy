/** How often an embedding request is physically sent. */
module EmbeddingSlotsSafety {
  import opened Options
  import opened EmbeddingSlots

  // ----------------------------------------------------- slots move forward

  predicate Later(a: Status, b: Status) {
    || a == b
    || a == Reserved
    || (a == Started && (b == Settled || b == Unresolved))
    || (a == Unresolved && b == Settled)
  }

  ghost predicate Forward(a: Slots, b: Slots) {
    forall n <- a :: n in b && Later(a[n], b[n])
  }

  lemma StepForward(s: State, e: Event)
    requires Ready(s, e)
    ensures Forward(s.slots, Step(s, e).slots)
  {
  }

  lemma ForwardTwice(a: Slots, b: Slots, c: Slots)
    requires Forward(a, b) && Forward(b, c)
    ensures Forward(a, c)
  {
    forall n | n in a
      ensures n in c && Later(a[n], c[n])
    {
      assert n in b && Later(a[n], b[n]);
      assert n in c && Later(b[n], c[n]);
    }
  }

  lemma ForwardKeeps(a: Slots, b: Slots, n: nat)
    requires Forward(a, b)
    ensures AllReleasedBefore(a, n) ==> AllReleasedBefore(b, n)
    ensures WasStarted(a, n) ==> WasStarted(b, n)
  {
    forall m | 1 <= m < n && Is(a, m, Released)
      ensures Is(b, m, Released)
    {
      assert m in b && Later(a[m], b[m]);
    }
  }

  lemma EarlierIsReleased(slots: Slots, n: nat, m: nat)
    requires SlotsInv(slots) && n in slots && 1 <= m < n
    ensures Is(slots, m, Released)
  {
    assert AllReleasedBefore(slots, n);
  }

  /** While one slot is reserved, no request can have been sent under any. */
  lemma ReservedMeansNoneStarted(s: State, n: nat)
    requires Inv(s) && Is(s.slots, n, Reserved)
    ensures s.starter.None? && s.replayed == {} && s.sends == []
  {
    assert s.sends == [] || s.sends[0] in s.sends;
    forall m | m in s.slots
      ensures !WasStarted(s.slots, m)
    {
      if m < n {
        EarlierIsReleased(s.slots, n, m);
      } else if n < m {
        EarlierIsReleased(s.slots, m, n);
        assert false;
      }
    }
  }

  // -------------------------------------------------------- one step, in parts

  lemma SlotsStay(s: State, e: Event)
    requires Inv(s) && Ready(s, e)
    ensures SlotsInv(Step(s, e).slots)
  {
    var t := Step(s, e);
    StepForward(s, e);
    assert CallInv(s, e.call);
    forall n | n in t.slots
      ensures 1 <= n <= LAST_SLOT && AllReleasedBefore(t.slots, n)
    {
      if n in s.slots {
        ForwardKeeps(s.slots, t.slots, n);
      } else {
        ForwardKeeps(s.slots, t.slots, s.live[e.call].slot);
      }
    }
  }

  lemma OtherCallsStay(s: State, e: Event, other: Call)
    requires Inv(s) && Ready(s, e) && other != e.call
    ensures CallInv(Step(s, e), other)
  {
    assert CallInv(s, other) && CallInv(s, e.call);
    if other in s.live {
      StepForward(s, e);
      ForwardKeeps(s.slots, Step(s, e).slots, s.live[other].slot);
    }
    if e.call in s.live && Is(s.slots, s.live[e.call].slot, Reserved) {
      ReservedMeansNoneStarted(s, s.live[e.call].slot);
    }
  }

  lemma ReserveStays(s: State, call: Call)
    requires Inv(s) && Ready(s, Reserve(call))
    ensures CallInv(Step(s, Reserve(call)), call)
  {
    assert CallInv(s, call);
    var n := s.live[call].slot;
    ForwardKeeps(s.slots, Reserving(s.slots, n), n);
  }

  lemma OwnCallStays(s: State, e: Event)
    requires Inv(s) && Ready(s, e)
    ensures CallInv(Step(s, e), e.call)
  {
    assert CallInv(s, e.call);
    if e.Reserve? {
      ReserveStays(s, e.call);
    } else if e.call in s.live {
      StepForward(s, e);
      ForwardKeeps(s.slots, Step(s, e).slots, s.live[e.call].slot);
    } else {
      assert e.call !in s.begun;
      if e.call in s.sends { assert false; }
    }
  }

  lemma LedgerStays(s: State, e: Event)
    requires Inv(s) && Ready(s, e)
    ensures Ledger(Step(s, e))
  {
    assert CallInv(s, e.call);
    if e.call in s.live {
      var n := s.live[e.call].slot;
      if Is(s.slots, n, Reserved) {
        ReservedMeansNoneStarted(s, n);
      }
      StarterStays(s, e);
    }
  }

  lemma StarterStays(s: State, e: Event)
    requires Inv(s) && Ready(s, e) && e.call in s.live
    ensures var t := Step(s, e); t.starter.None? <==> forall n <- t.slots :: !WasStarted(t.slots, n)
  {
    var t := Step(s, e);
    StepForward(s, e);
    var slot := s.live[e.call].slot;
    forall n | n in s.slots
      ensures WasStarted(s.slots, n) ==> WasStarted(t.slots, n)
    {
      ForwardKeeps(s.slots, t.slots, n);
    }
    if s.starter.Some? {
      var n :| n in s.slots && WasStarted(s.slots, n);
      assert n in t.slots;
    } else if t.starter.Some? {
      assert WasStarted(t.slots, slot);
    }
  }

  lemma StepKeepsInv(s: State, e: Event)
    requires Inv(s) && Ready(s, e)
    ensures Inv(Step(s, e))
  {
    SlotsStay(s, e);
    LedgerStays(s, e);
    forall call
      ensures CallInv(Step(s, e), call)
    {
      if call == e.call { OwnCallStays(s, e); } else { OtherCallsStay(s, e, call); }
    }
  }

  // ------------------------------------------------------------------- runs

  predicate Moves(s: State, e: Event, t: State) {
    Ready(s, e) && t == Step(s, e)
  }

  /** The states of a run, from the first reservation on. */
  predicate IsRun(states: seq<State>, es: seq<Event>) {
    && |states| == |es| + 1 && states[0] == INITIAL
    && forall i :: 0 <= i < |es| ==> Moves(states[i], es[i], states[i + 1])
  }

  /** How callers may overlap: how many calls are at work at a time, and whether
      one may begin while another has not got past its `markStarted`. */
  datatype Policy = Policy(calls: nat, beginsBeforeStart: bool)

  /** The calls that have not got past their `markStarted`. */
  function Early(s: State): set<Call> {
    set call | call in s.live && (s.live[call].Scanning? || s.live[call].Holding?)
  }

  predicate Follows(policy: Policy, states: seq<State>, es: seq<Event>)
    requires |states| == |es| + 1
  {
    && (forall s <- states :: |s.live| <= policy.calls)
    && (!policy.beginsBeforeStart ==> forall i :: 0 <= i < |es| && es[i].Begin? ==> Early(states[i]) == {})
  }

  /** Either precaution is enough. */
  predicate Careful(policy: Policy) {
    policy.calls <= 1 || !policy.beginsBeforeStart
  }

  lemma RunExtends(states: seq<State>, es: seq<Event>, e: Event)
    requires IsRun(states, es) && Ready(states[|es|], e)
    ensures IsRun(states + [Step(states[|es|], e)], es + [e])
  {
  }

  lemma {:induction false} RunKeepsInv(states: seq<State>, es: seq<Event>, i: nat)
    requires IsRun(states, es) && i <= |es|
    ensures Inv(states[i])
  {
    if i > 0 {
      RunKeepsInv(states, es, i - 1);
      assert Moves(states[i - 1], es[i - 1], states[i]);
      StepKeepsInv(states[i - 1], es[i - 1]);
    }
  }

  lemma {:induction false} RunGoesForward(states: seq<State>, es: seq<Event>, i: nat, j: nat)
    requires IsRun(states, es) && i <= j <= |es|
    ensures Forward(states[i].slots, states[j].slots)
  {
    if i < j {
      RunGoesForward(states, es, i, j - 1);
      assert Moves(states[j - 1], es[j - 1], states[j]);
      StepForward(states[j - 1], es[j - 1]);
      ForwardTwice(states[i].slots, states[j - 1].slots, states[j].slots);
    }
  }

  /** Slots are never stepped over: in every run, at most 32 are used, and every
      slot before a used one, or before one a call works on, was released. */
  lemma SlotsAreUsedInOrder(states: seq<State>, es: seq<Event>, i: nat)
    requires IsRun(states, es) && i <= |es|
    ensures var s := states[i];
      && (forall n <- s.slots :: 1 <= n <= LAST_SLOT && AllReleasedBefore(s.slots, n))
      && (forall call <- s.live :: AllReleasedBefore(s.slots, s.live[call].slot))
  {
    RunKeepsInv(states, es, i);
    assert forall call <- states[i].live :: CallInv(states[i], call);
  }

  /** A slot under which a request may have been sent is never released, and
      under a released one nothing is ever sent. */
  lemma StartedIsNeverReleased(states: seq<State>, es: seq<Event>, i: nat, j: nat, n: nat)
    requires IsRun(states, es) && i <= j <= |es|
    ensures WasStarted(states[i].slots, n) ==> WasStarted(states[j].slots, n)
    ensures Is(states[i].slots, n, Released) ==> Is(states[j].slots, n, Released)
  {
    RunGoesForward(states, es, i, j);
  }

  /** A call sends only after it was given leave, at most once, and under a slot
      that counts as started from then on. */
  lemma SendsAreBracketed(states: seq<State>, es: seq<Event>, i: nat)
    requires IsRun(states, es) && i < |es| && es[i].Send?
    ensures var s, call := states[i], es[i].call;
      && Ready(s, es[i])
      && WasStarted(s.slots, s.live[call].slot) && MaySend(s, call) && call !in s.sends
      && states[i + 1].sends == s.sends + [call]
  {
    RunKeepsInv(states, es, i);
    assert Moves(states[i], es[i], states[i + 1]);
    assert CallInv(states[i], es[i].call);
  }

  /** How a call that sent can end: it settled, it tried to mark the slot as
      unknown, or it crashed. */
  predicate Closes(e: Event, call: Call) {
    e.call == call && (e.Settle? || e.MarkUnknown? || e.FailedMark? || e.Crash?)
  }

  /** Until it ends in one of these ways, a call that sent stands behind its send. */
  lemma {:induction false} StandsBehindItsSend(states: seq<State>, es: seq<Event>, i: nat, j: nat)
    requires IsRun(states, es) && i < j <= |es| && es[i].Send?
    requires forall k :: i < k < j ==> !Closes(es[k], es[i].call)
    ensures es[i].call in states[j].live && states[j].live[es[i].call].Sent?
    decreases j
  {
    assert Moves(states[j - 1], es[j - 1], states[j]);
    if i < j - 1 {
      StandsBehindItsSend(states, es, i, j - 1);
      RunKeepsInv(states, es, j - 1);
      assert CallInv(states[j - 1], es[i].call);
      SentStays(states[j - 1], es[j - 1], es[i].call);
    }
  }

  lemma SentStays(s: State, e: Event, call: Call)
    requires Ready(s, e) && call in s.live && s.live[call].Sent? && call in s.begun && !Closes(e, call)
    ensures call in Step(s, e).live && Step(s, e).live[call].Sent?
  {
  }

  /** Every send is closed: a call that is no longer at work has settled, tried to
      mark its slot as unknown, or crashed, after it sent. */
  lemma SendsAreClosed(states: seq<State>, es: seq<Event>, i: nat, j: nat) returns (k: nat)
    requires IsRun(states, es) && i < j <= |es| && es[i].Send? && es[i].call !in states[j].live
    ensures i < k < j && Closes(es[k], es[i].call)
  {
    if !exists k: nat :: i < k < j && Closes(es[k], es[i].call) {
      StandsBehindItsSend(states, es, i, j);
    }
    k :| i < k < j && Closes(es[k], es[i].call);
  }

  lemma {:induction false} DistinctSendersAreFew(calls: seq<Call>, allowed: set<Call>)
    requires forall i, j :: 0 <= i < j < |calls| ==> calls[i] != calls[j]
    requires forall call <- calls :: call in allowed
    ensures |calls| <= |allowed|
  {
    if calls != [] {
      var last := calls[|calls| - 1];
      DistinctSendersAreFew(calls[..|calls| - 1], allowed - {last});
    }
  }

  lemma LedgerBoundsSends(s: State)
    requires Ledger(s)
    ensures |s.sends| <= 1 + |s.replayed|
  {
    var allowed := s.replayed + if s.starter.Some? then {s.starter.value} else {};
    forall call | call in s.sends
      ensures call in allowed
    {
      assert MaySend(s, call);
    }
    DistinctSendersAreFew(s.sends, allowed);
  }

  /** However calls overlap, crash and fail: beyond the first, a request is sent
      at most once for every time `markStarted` was answered as a replay. */
  lemma SendsAreBounded(states: seq<State>, es: seq<Event>)
    requires IsRun(states, es)
    ensures |states[|es|].sends| <= 1 + |states[|es|].replayed|
  {
    RunKeepsInv(states, es, |es|);
    LedgerBoundsSends(states[|es|]);
  }

  // ------------------------------------------------------------ careful callers

  /** At most one call is early, no start was a replay, and a held slot has not
      been started by another call. */
  ghost predicate Undisturbed(s: State) {
    && (forall a, b :: a in Early(s) && b in Early(s) ==> a == b)
    && s.replayed == {}
    && forall call <- s.live :: s.live[call].Holding? ==>
         Is(s.slots, s.live[call].slot, Reserved) || Is(s.slots, s.live[call].slot, Released)
  }

  /** A slot becomes started only by a call that holds it, and so is early. */
  lemma OnlyHoldersStart(s: State, e: Event, n: nat)
    requires Ready(s, e) && (Is(s.slots, n, Reserved) || Is(s.slots, n, Released))
    ensures Is(Step(s, e).slots, n, Reserved) || Is(Step(s, e).slots, n, Released) || e.call in Early(s)
  {
  }

  lemma EarlyCallsComeFrom(s: State, e: Event, call: Call)
    requires Ready(s, e) && call in Early(Step(s, e))
    ensures call in Early(s) || (e.Begin? && call == e.call)
  {
  }

  lemma StepUndisturbed(s: State, e: Event)
    requires Undisturbed(s) && Ready(s, e) && (e.Begin? ==> Early(s) == {})
    ensures Undisturbed(Step(s, e))
  {
    var t := Step(s, e);
    forall a, b | a in Early(t) && b in Early(t)
      ensures a == b
    {
      EarlyCallsComeFrom(s, e, a);
      EarlyCallsComeFrom(s, e, b);
    }
    forall call | call in t.live && t.live[call].Holding?
      ensures Is(t.slots, t.live[call].slot, Reserved) || Is(t.slots, t.live[call].slot, Released)
    {
      HeldSlotStays(s, e, call);
    }
  }

  lemma HeldSlotStays(s: State, e: Event, call: Call)
    requires Undisturbed(s) && Ready(s, e) && (e.Begin? ==> Early(s) == {})
    requires call in Step(s, e).live && Step(s, e).live[call].Holding?
    ensures var t := Step(s, e);
      Is(t.slots, t.live[call].slot, Reserved) || Is(t.slots, t.live[call].slot, Released)
  {
    var t := Step(s, e);
    if call != e.call {
      assert call in Early(s);
      OnlyHoldersStart(s, e, t.live[call].slot);
    }
  }

  /** With one call at a time, none is at work when one begins. */
  lemma NoneBefore(s: State, e: Event)
    requires Inv(s) && Ready(s, e) && e.Begin? && |Step(s, e).live| <= 1
    ensures Early(s) == {}
  {
    assert CallInv(s, e.call);
    assert Step(s, e).live.Keys == s.live.Keys + {e.call};
    assert |s.live.Keys| == 0;
  }

  lemma {:induction false} RunUndisturbed(policy: Policy, states: seq<State>, es: seq<Event>, i: nat)
    requires IsRun(states, es) && Careful(policy) && Follows(policy, states, es) && i <= |es|
    ensures Undisturbed(states[i])
  {
    if i > 0 {
      RunUndisturbed(policy, states, es, i - 1);
      RunKeepsInv(states, es, i - 1);
      assert Moves(states[i - 1], es[i - 1], states[i]) && states[i] in states;
      if es[i - 1].Begin? && policy.beginsBeforeStart {
        NoneBefore(states[i - 1], es[i - 1]);
      }
      StepUndisturbed(states[i - 1], es[i - 1]);
    }
  }

  /** Calls that do not overlap, or begin only after the others' starts, send at
      most one physical request, over all crashes. */
  lemma CarefulCallsSendOnce(policy: Policy, states: seq<State>, es: seq<Event>)
    requires IsRun(states, es) && Careful(policy) && Follows(policy, states, es)
    ensures |states[|es|].sends| <= 1
  {
    RunUndisturbed(policy, states, es, |es|);
    SendsAreBounded(states, es);
  }

  // ----------------------------------------------------------- two calls at once

  const TWO_CALLS := [Begin(1), Begin(2), Reserve(1), Reserve(2), Start(1), Start(2), Send(1), Send(2)]

  function Both(status: Status, a: Phase, b: Phase, starter: Option<Call>, replayed: set<Call>, sends: seq<Call>): State {
    State(map[1 := status], map[1 := a, 2 := b], {1, 2}, starter, replayed, sends)
  }

  function Moment(i: nat): State {
    if i == 0 then INITIAL
    else if i == 1 then State(map[], map[1 := Scanning(1)], {1}, None, {}, [])
    else if i == 2 then State(map[], map[1 := Scanning(1), 2 := Scanning(1)], {1, 2}, None, {}, [])
    else if i == 3 then Both(Reserved, Holding(1), Scanning(1), None, {}, [])
    else if i == 4 then Both(Reserved, Holding(1), Holding(1), None, {}, [])
    else if i == 5 then Both(Started, Sending(1), Holding(1), Some(1), {}, [])
    else if i == 6 then Both(Started, Sending(1), Sending(1), Some(1), {2}, [])
    else if i == 7 then Both(Started, Sent(1), Sending(1), Some(1), {2}, [1])
    else Both(Started, Sent(1), Sent(1), Some(1), {2}, [1, 2])
  }

  lemma BothReserve(i: nat)
    requires i < 4
    ensures Moves(Moment(i), TWO_CALLS[i], Moment(i + 1))
  {
    assert Step(Moment(i), TWO_CALLS[i]) == Moment(i + 1);
  }

  lemma BothStart(i: nat)
    requires 4 <= i < 6
    ensures Moves(Moment(i), TWO_CALLS[i], Moment(i + 1))
  {
    assert Step(Moment(i), TWO_CALLS[i]) == Moment(i + 1);
  }

  lemma BothSend(i: nat)
    requires 6 <= i < 8
    ensures Moves(Moment(i), TWO_CALLS[i], Moment(i + 1))
  {
    assert Step(Moment(i), TWO_CALLS[i]) == Moment(i + 1);
  }

  /** Two calls at once send twice: the second start is answered as a replay,
      and the answer is not looked at. */
  lemma OverlappingCallsSendTwice(policy: Policy) returns (states: seq<State>)
    requires !Careful(policy)
    ensures IsRun(states, TWO_CALLS) && Follows(policy, states, TWO_CALLS) && |states[|TWO_CALLS|].sends| == 2
  {
    states := seq(9, i requires 0 <= i => Moment(i));
    forall i | 0 <= i < |TWO_CALLS|
      ensures Moves(states[i], TWO_CALLS[i], states[i + 1])
    {
      if i < 4 { BothReserve(i); } else if i < 6 { BothStart(i); } else { BothSend(i); }
    }
    forall i | 0 <= i < |states|
      ensures |states[i].live| <= 2
    {
      MomentsAreFew(i);
    }
  }

  lemma MomentsAreFew(i: nat)
    ensures |Moment(i).live| <= 2
  {
  }

  /** Over all runs of its callers a policy has at most one physical request,
      exactly if it takes one of the two precautions. */
  lemma SendsOnceIffCareful(policy: Policy)
    ensures (forall states: seq<State>, es :: IsRun(states, es) && Follows(policy, states, es) ==>
               |states[|es|].sends| <= 1) <==> Careful(policy)
  {
    if Careful(policy) {
      forall states: seq<State>, es | IsRun(states, es) && Follows(policy, states, es)
        ensures |states[|es|].sends| <= 1
      {
        CarefulCallsSendOnce(policy, states, es);
      }
    } else {
      var states := OverlappingCallsSendTwice(policy);
      assert IsRun(states, TWO_CALLS) && Follows(policy, states, TWO_CALLS);
    }
  }
}
