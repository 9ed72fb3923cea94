/** The embedding boundary itself: one call's code, with the other calls of the
    same request acting on the budget between any two of its accesses. */
module EmbeddingBoundary {
  import opened Options
  import opened EmbeddingSlots
  import opened EmbeddingSlotsSafety

  datatype Reply = Answered | Failed

  /** What the others cannot change about a call. */
  predicate SameFor(me: Call, s: State, t: State) {
    && (me in t.live <==> me in s.live) && (me in s.live ==> t.live[me] == s.live[me])
    && (me in t.begun <==> me in s.begun) && (me in t.sends <==> me in s.sends)
    && (MaySend(t, me) <==> MaySend(s, me))
  }

  lemma OthersLeaveMe(me: Call, s: State, e: Event)
    requires Inv(s) && Ready(s, e) && e.call != me
    ensures SameFor(me, s, Step(s, e)) && Inv(Step(s, e))
  {
    StepKeepsInv(s, e);
    assert CallInv(s, e.call);
    if e.call in s.live && Is(s.slots, s.live[e.call].slot, Reserved) {
      ReservedMeansNoneStarted(s, s.live[e.call].slot);
    }
  }

  class EmbeddingBoundary {
    /** The budget's allocations for this request. */
    var slots: Slots
    /** Everything the calls of this request have done, and the states in between. */
    ghost var events: seq<Event>
    ghost var states: seq<State>

    /** What happened is a run of the slot protocol, and left these slots. */
    ghost predicate Consistent()
      reads this
    {
      IsRun(states, events) && slots == Now().slots && Inv(Now())
    }

    ghost function Now(): State
      reads this
    {
      if |states| == |events| + 1 then states[|events|] else INITIAL
    }

    ghost predicate At(me: Call, phase: Phase)
      reads this
    {
      Consistent() && me in Now().live && Now().live[me] == phase
    }

    /** The past stays as it was. */
    twostate predicate Continues()
      reads this
    {
      old(events) <= events && old(states) <= states
    }

    constructor ()
      ensures Consistent() && slots == map[] && events == []
    {
      slots, events, states := map[], [], [INITIAL];
    }

    /** Any number of steps of the other calls; `OthersLeaveMe`. */
    method Yield(me: Call)
      requires Consistent()
      modifies this
      ensures Consistent() && Continues() && SameFor(me, old(Now()), Now())
      ensures forall i :: |old(events)| <= i < |events| ==> events[i].call != me
    {
    }

    ghost method Record(e: Event)
      requires IsRun(states, events) && Inv(Now()) && Ready(Now(), e)
      modifies this`events, this`states
      ensures IsRun(states, events) && Inv(Now()) && Now() == Step(old(Now()), e)
      ensures events == old(events) + [e] && states == old(states) + [Now()]
    {
      StepKeepsInv(Now(), e);
      RunExtends(states, events, e);
      events, states := events + [e], states + [Step(Now(), e)];
    }

    /** Reserve a slot and say what it is; nothing, if the budget fails. */
    method ReserveSlot(me: Call, n: nat) returns (status: Option<Status>)
      requires At(me, Scanning(n)) && 1 <= n <= LAST_SLOT
      modifies this
      ensures Consistent() && Continues() && me !in Now().sends
      ensures status == Some(Reserved) ==> At(me, Holding(n))
      ensures status == Some(Released) && n < LAST_SLOT ==> At(me, Scanning(n + 1))
      ensures status != Some(Reserved) && !(status == Some(Released) && n < LAST_SLOT) ==> me !in Now().live
    {
      Yield(me);
      assert CallInv(Now(), me);
      if * {
        Record(Crash(me));
        return None;
      }
      Record(Event.Reserve(me));
      if n !in slots { slots := slots[n := Reserved]; }
      status := Some(slots[n]);
      assert CallInv(Now(), me);
      if * {
        if me in Now().live { Record(Crash(me)); }
        status := None;
      }
    }

    /** Move a held slot to started; a slot found started is as good. */
    method MarkStarted(me: Call, n: nat) returns (ok: bool)
      requires At(me, Holding(n))
      modifies this
      ensures Consistent() && Continues() && me !in Now().sends
      ensures At(me, if ok then Sending(n) else Phase.Releasing(n))
      ensures ok ==> MaySend(Now(), me) && WasStarted(slots, n)
    {
      Yield(me);
      assert CallInv(Now(), me);
      if * {
        Record(Abort(me));
        return false;
      }
      var status := slots[n];
      if * {
        Record(LostStart(me));
        if status == Reserved { slots := slots[n := Started]; }
        ok := false;
      } else {
        Record(Start(me));
        if status == Reserved { slots := slots[n := Started]; }
        ok := status == Reserved || status == Started;
      }
      assert CallInv(Now(), me);
    }

    /** The physical request. */
    method SendRequest(me: Call, n: nat) returns (ok: bool, ghost sent: nat)
      requires At(me, Sending(n)) && me !in Now().sends
      modifies this
      ensures At(me, Sent(n)) && Continues()
      ensures |old(events)| <= sent < |events| && events[sent] == Event.Send(me) && me in Now().sends
      ensures me in states[sent].live && states[sent].live[me] == Sending(n)
    {
      Yield(me);
      sent := |events|;
      Record(Event.Send(me));
      assert Now().sends[|Now().sends| - 1] == me;
      ok := *;
    }

    /** Settle the actual cost; an equal settlement is a replay. */
    method SettleCost(me: Call, n: nat) returns (ok: bool)
      requires At(me, Sent(n))
      modifies this
      ensures Consistent() && Continues() && (me in Now().sends <==> me in old(Now()).sends)
      ensures ok ==> me !in Now().live && Is(slots, n, Settled)
                     && |events| > |old(events)| && events[|events| - 1] == Event.Settle(me)
      ensures !ok ==> At(me, Sent(n))
    {
      Yield(me);
      assert CallInv(Now(), me);
      if * {
        Record(FailedSettle(me));
        return false;
      }
      var status := slots[n];
      if * {
        Record(LostSettle(me));
        ok := false;
      } else {
        Record(Event.Settle(me));
        ok := true;
      }
      if status == Started || status == Unresolved { slots := slots[n := Settled]; }
    }

    /** Mark the slot as unknown, or fail to. */
    method MarkUnresolved(me: Call, n: nat)
      requires At(me, Sent(n))
      modifies this
      ensures Consistent() && Continues() && me !in Now().live
      ensures |events| > |old(events)| && (events[|events| - 1] == MarkUnknown(me) || events[|events| - 1] == FailedMark(me))
    {
      Yield(me);
      if * {
        Record(FailedMark(me));
        return;
      }
      Record(MarkUnknown(me));
      if n in slots && slots[n] == Started { slots := slots[n := Unresolved]; }
    }

    method ReleaseReserved(me: Call, n: nat)
      requires At(me, Phase.Releasing(n))
      modifies this
      ensures Consistent() && Continues() && me !in Now().live && (me in Now().sends <==> me in old(Now()).sends)
    {
      Yield(me);
      if * {
        Record(Crash(me));
        return;
      }
      Record(Release(me));
      if n in slots && slots[n] == Reserved { slots := slots[n := Released]; }
    }

    /** The slot scan: the first slot that was not released, if it is reserved. */
    method FindSlot(me: Call) returns (found: Option<nat>)
      requires At(me, Scanning(1))
      modifies this
      ensures Consistent() && Continues() && me !in Now().sends
      ensures found.Some? ==> 1 <= found.value <= LAST_SLOT && At(me, Holding(found.value))
      ensures found.None? ==> me !in Now().live
    {
      var slot := 1;
      var status := ReserveSlot(me, slot);
      var sequence := 2;
      while status == Some(Released) && sequence <= LAST_SLOT
        invariant 1 <= slot <= LAST_SLOT && sequence == slot + 1
        invariant Consistent() && Continues() && me !in Now().sends
        invariant status == Some(Reserved) ==> At(me, Holding(slot))
        invariant status == Some(Released) && sequence <= LAST_SLOT ==> At(me, Scanning(sequence))
        invariant status != Some(Reserved) && !(status == Some(Released) && sequence <= LAST_SLOT) ==>
                    me !in Now().live
        decreases LAST_SLOT - slot
      {
        slot := sequence;
        status := ReserveSlot(me, slot);
        sequence := sequence + 1;
      }
      return if status == Some(Reserved) then Some(slot) else None;
    }

    /** Up to the leave to send under a slot; without it, the call is over. */
    method Obtain(me: Call) returns (found: Option<nat>)
      requires Consistent() && me !in Now().begun
      modifies this
      ensures Consistent() && Continues() && me !in Now().sends
      ensures found.Some? ==> At(me, Sending(found.value)) && MaySend(Now(), me)
      ensures found.None? ==> me !in Now().live
    {
      assert CallInv(Now(), me) && Ledger(Now());
      Record(Begin(me));
      assert CallInv(Now(), me);
      found := FindSlot(me);
      if found.None? { return; }
      var n := found.value;
      var goOn: bool := *;
      if !goOn {
        Record(Abort(me));
        ReleaseReserved(me, n);
        return None;
      }
      var started := MarkStarted(me, n);
      if !started {
        ReleaseReserved(me, n);
        return None;
      }
    }

    /** After the send: settle an answer, or mark the slot as unknown. */
    method Reckon(me: Call, n: nat, answered: bool) returns (settled: bool)
      requires At(me, Sent(n))
      modifies this
      ensures Consistent() && Continues() && me !in Now().live && |events| > |old(events)|
      ensures settled ==> events[|events| - 1] == Event.Settle(me) && Is(slots, n, Settled)
                          && (me in Now().sends <==> me in old(Now()).sends)
      ensures !settled ==> events[|events| - 1] == MarkUnknown(me) || events[|events| - 1] == FailedMark(me)
    {
      settled := false;
      if answered { settled := SettleCost(me, n); }
      if !settled { MarkUnresolved(me, n); }
    }

    /** Under a started slot: send, then settle or mark the slot as unknown. */
    method SendAndReckon(me: Call, n: nat) returns (settled: bool, ghost sent: nat, ghost closed: nat)
      requires At(me, Sending(n)) && me !in Now().sends
      modifies this
      ensures Consistent() && Continues() && me !in Now().live
      ensures |old(events)| <= sent < closed < |events| && events[sent] == Event.Send(me)
      ensures me in states[sent].live && states[sent].live[me] == Sending(n)
      ensures if settled then events[closed] == Event.Settle(me) && Is(slots, n, Settled) && me in Now().sends
              else events[closed] == MarkUnknown(me) || events[closed] == FailedMark(me)
    {
      var answered;
      answered, sent := SendRequest(me, n);
      settled := Reckon(me, n, answered);
      closed := |events| - 1;
    }

    /** One embedding request, from its reservation to its reckoning. What all
        calls do together stays a run of the slot protocol, so the theorems about
        runs hold of it. This call ends; if it sent, at step `sent`, it settled
        or tried to mark its slot as unknown at the later step `closed`; and it
        answers only after it settled the very slot it sent under. */
    method Embed(me: Call) returns (r: Reply, ghost sent: nat, ghost closed: nat)
      requires Consistent() && me !in Now().begun
      modifies this
      ensures Consistent() && Continues() && me !in Now().live
      ensures me in Now().sends ==>
                && |old(events)| <= sent < closed < |events|
                && events[sent] == Event.Send(me)
                && (|| events[closed] == Event.Settle(me)
                    || events[closed] == MarkUnknown(me) || events[closed] == FailedMark(me))
      ensures r.Answered? ==>
                && me in Now().sends && events[closed] == Event.Settle(me)
                && me in states[sent].live && Is(slots, states[sent].live[me].slot, Settled)
    {
      sent, closed := 0, 0;
      var found := Obtain(me);
      if found.None? { return Failed, 0, 0; }
      var settled;
      settled, sent, closed := SendAndReckon(me, found.value);
      var active: bool := *;
      r := if settled && active then Answered else Failed;
    }
  }
}
