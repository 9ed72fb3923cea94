/** Physical embedding requests for one attempt of a projection job and one
    request text. Their budget reservations live in numbered slots that survive
    crashes; any number of calls may work on them at once. */
module EmbeddingSlots {
  import opened Options

  const LAST_SLOT: nat := 32

  datatype Status = Reserved | Started | Settled | Unresolved | Released

  type Slots = map<nat, Status>

  /** Where a call stands: what it will ask of the budget, or send, next. */
  datatype Phase =
    | Scanning(slot: nat)
    | Holding(slot: nat)
    | Sending(slot: nat)
    | Sent(slot: nat)
    | Releasing(slot: nat)

  type Call = nat

  /** The slots, the calls at work, and what happened: which calls ever began,
      which one moved a slot to started, which were told so again, and who sent. */
  datatype State = State(
    slots: Slots, live: map<Call, Phase>, begun: set<Call>,
    starter: Option<Call>, replayed: set<Call>, sends: seq<Call>)

  const INITIAL := State(map[], map[], {}, None, {}, [])

  /** A lost event takes effect in the budget, but its caller sees an error; a
      failed one takes none. */
  datatype Event =
    | Begin(call: Call)
    | Reserve(call: Call)
    | Start(call: Call)
    | LostStart(call: Call)
    | Abort(call: Call)
    | Send(call: Call)
    | Settle(call: Call)
    | LostSettle(call: Call)
    | FailedSettle(call: Call)
    | MarkUnknown(call: Call)
    | FailedMark(call: Call)
    | Release(call: Call)
    | Crash(call: Call)

  // ------------------------------------------------------------- the budget

  /** The first reservation takes the slot, a later one reads it. */
  function Reserving(slots: Slots, n: nat): Slots {
    if n in slots then slots else slots[n := Reserved]
  }

  predicate Is(slots: Slots, n: nat, status: Status) {
    n in slots && slots[n] == status
  }

  function Starting(slots: Slots, n: nat): Slots {
    if Is(slots, n, Reserved) then slots[n := Started] else slots
  }

  function Settling(slots: Slots, n: nat): Slots {
    if Is(slots, n, Started) || Is(slots, n, Unresolved) then slots[n := Settled] else slots
  }

  function Unresolving(slots: Slots, n: nat): Slots {
    if Is(slots, n, Started) then slots[n := Unresolved] else slots
  }

  function Freeing(slots: Slots, n: nat): Slots {
    if Is(slots, n, Reserved) then slots[n := Released] else slots
  }

  // -------------------------------------------------------------- the calls

  function Move(s: State, call: Call, phase: Phase): State {
    s.(live := s.live[call := phase])
  }

  function End(s: State, call: Call): State {
    s.(live := s.live - {call})
  }

  /** After a reservation: hold a reserved slot, step over a released one. */
  function AfterReserve(s: State, call: Call, n: nat): State {
    if Is(s.slots, n, Reserved) then Move(s, call, Holding(n))
    else if Is(s.slots, n, Released) && n < LAST_SLOT then Move(s, call, Scanning(n + 1))
    else End(s, call)
  }

  /** `markStarted`: a slot that is started already is answered like a fresh start. */
  function AfterStart(s: State, call: Call, n: nat): State {
    if Is(s.slots, n, Reserved) then
      Move(s.(slots := Starting(s.slots, n), starter := Some(call)), call, Sending(n))
    else if Is(s.slots, n, Started) then
      Move(s.(replayed := s.replayed + {call}), call, Sending(n))
    else Move(s, call, Releasing(n))
  }

  /** The call stands where this event can happen. */
  predicate Ready(s: State, e: Event) {
    match e
    case Begin(call) => call !in s.begun
    case Reserve(call) => call in s.live && s.live[call].Scanning?
    case Start(call) => call in s.live && s.live[call].Holding?
    case LostStart(call) => call in s.live && s.live[call].Holding?
    case Abort(call) => call in s.live && s.live[call].Holding?
    case Send(call) => call in s.live && s.live[call].Sending?
    case Settle(call) => call in s.live && s.live[call].Sent?
    case LostSettle(call) => call in s.live && s.live[call].Sent?
    case FailedSettle(call) => call in s.live && s.live[call].Sent?
    case MarkUnknown(call) => call in s.live && s.live[call].Sent?
    case FailedMark(call) => call in s.live && s.live[call].Sent?
    case Release(call) => call in s.live && s.live[call].Releasing?
    case Crash(call) => call in s.live
  }

  function Step(s: State, e: Event): State
    requires Ready(s, e)
  {
    var call := e.call;
    match e
    case Begin(_) => s.(live := s.live[call := Scanning(1)], begun := s.begun + {call})
    case Reserve(_) =>
      var n := s.live[call].slot;
      AfterReserve(s.(slots := Reserving(s.slots, n)), call, n)
    case Start(_) => AfterStart(s, call, s.live[call].slot)
    case LostStart(_) =>
      var n := s.live[call].slot;
      Move(s.(slots := Starting(s.slots, n), starter := if Is(s.slots, n, Reserved) then Some(call) else s.starter),
           call, Releasing(n))
    case Abort(_) => Move(s, call, Phase.Releasing(s.live[call].slot))
    case Send(_) => Move(s.(sends := s.sends + [call]), call, Sent(s.live[call].slot))
    case Settle(_) =>
      var n := s.live[call].slot;
      End(s.(slots := Settling(s.slots, n)), call)
    case LostSettle(_) => s.(slots := Settling(s.slots, s.live[call].slot))
    case FailedSettle(_) => s
    case FailedMark(_) => End(s, call)
    case MarkUnknown(_) => End(s.(slots := Unresolving(s.slots, s.live[call].slot)), call)
    case Release(_) => End(s.(slots := Freeing(s.slots, s.live[call].slot)), call)
    case Crash(_) => End(s, call)
  }

  // -------------------------------------------------------------- invariant

  /** All slots before this one were released. */
  predicate AllReleasedBefore(slots: Slots, n: nat) {
    forall m :: 1 <= m < n ==> Is(slots, m, Released)
  }

  /** A request may have been sent under this slot. */
  predicate WasStarted(slots: Slots, n: nat) {
    Is(slots, n, Started) || Is(slots, n, Settled) || Is(slots, n, Unresolved)
  }

  /** Slots are taken one after the other, each after the release of those before. */
  ghost predicate SlotsInv(slots: Slots) {
    forall n <- slots :: 1 <= n <= LAST_SLOT && AllReleasedBefore(slots, n)
  }

  /** The call got leave to send. */
  predicate MaySend(s: State, call: Call) {
    s.starter == Some(call) || call in s.replayed
  }

  ghost predicate CallInv(s: State, call: Call) {
    call in s.live ==>
      && call in s.begun
      && 1 <= s.live[call].slot <= LAST_SLOT && AllReleasedBefore(s.slots, s.live[call].slot)
      && (s.live[call].Scanning? || s.live[call].Holding? ==> !MaySend(s, call))
      && (s.live[call].Scanning? || s.live[call].Holding? || s.live[call].Sending? || s.live[call].Releasing? ==>
            call !in s.sends)
      && (!s.live[call].Scanning? ==> s.live[call].slot in s.slots)
      && (s.live[call].Sending? || s.live[call].Sent? ==>
            MaySend(s, call) && WasStarted(s.slots, s.live[call].slot))
  }

  ghost predicate Ledger(s: State) {
    && (forall call <- s.sends :: MaySend(s, call) && call in s.begun)
    && (forall i, j :: 0 <= i < j < |s.sends| ==> s.sends[i] != s.sends[j])
    && (forall call <- s.replayed :: call in s.begun)
    && (s.starter.Some? ==> s.starter.value in s.begun)
    && (s.starter.None? <==> forall n <- s.slots :: !WasStarted(s.slots, n))
    && (s.starter.None? ==> s.replayed == {})
  }

  ghost predicate Inv(s: State) {
    SlotsInv(s.slots) && (forall call :: CallInv(s, call)) && Ledger(s)
  }
}
