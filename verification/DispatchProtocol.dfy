/** Any number of callers, each claiming one authorization, dispatching the mutation and consuming the claim, over one
    witness and one store directory.  A step reads or changes one shared file, or reads one of the two directories; a
    caller may stop anywhere. */
module DispatchProtocol {
  import opened Wrappers
  import opened StoreTransition
  import opened Witness
  import opened WitnessCommit
  import opened ConsumptionStore

  datatype Goal = Claiming | Consuming(consumption: Consumption)

  datatype Step =
    | Outside        // about to read the witness pointer
    | Loading        // pointer read; about to read the event log
    | Scanning       // witness accepted; about to read the store directory
    | Rechecking     // transition built; about to compare the pointer again
    | Creating       // about to create the PREPARED event
    | Storing        // PREPARED created; about to write the store record
    | Committing     // about to compare the pointer
    | Sealing        // about to create the COMMITTED event
    | Pointing       // about to read the COMMITTED event back
    | Writing        // about to write the new pointer to a temporary
    | Renaming       // about to rename the temporary to the pointer
    | Reopening      // about to load the store again and compare its head
    | Dispatching    // claim confirmed; about to dispatch
    | Dispatched     // dispatch returned; about to consume
    | Settled
    | Stopped

  /** `expected` is the pointer read at the start, and from the COMMITTED event on the pointer to be written. */
  datatype Caller = Caller(
    claim: Claim, goal: Goal, at: Step, expected: Pointer, envelope: Envelope, dispatched: bool)

  /** `chain` lists the envelopes of the PREPARED events in the order they were created and `makers` their creators;
      `dispatches` lists the callers that dispatched.  All three only record what happened. */
  datatype State = State(
    disk: Disk,
    store: map<Fingerprint, Envelope>,
    callers: map<nat, Caller>,
    chain: seq<Envelope>,
    makers: seq<nat>,
    dispatches: seq<nat>)

  datatype Event =
    | Arrive(p: nat, claim: Claim)
    | Advance(p: nat, seen: seq<Artifact>)
    | Consume(p: nat, transactionId: string, journalId: string, effect: string, manifestAfter: string)
    | Stop(p: nat)

  const NO_ENVELOPE :=
    Envelope(Base(0, ZeroHead, "", 0, BootstrapKind, Claimed(Claim.Claim(0, "", "", "", "", ""))), ZeroHead, Forged(""))

  /** The store and witness as provisioned: empty, with the bootstrap event committed. */
  ghost predicate Init(s: State) {
    && s.disk == Disk(map[Slot(0, Committed) := Readable(BOOTSTRAP)], PointerTo(BOOTSTRAP), 0)
    && s.store == map[] && s.callers == map[] && s.chain == [] && s.makers == [] && s.dispatches == []
  }

  function PayloadOf(c: Caller): Payload {
    match c.goal case Claiming => Claimed(c.claim) case Consuming(x) => Consumed(x)
  }

  /** What the caller does with the records it read, accepted under `expected`. */
  function Decide(c: Caller, bases: seq<Base>): Caller {
    var f := c.claim.authorization;
    var position := Position(bases, f);
    match c.goal
    case Claiming =>
      if position.Some? then c.(at := Stopped)
      else Built(c, BuildEnvelope(bases, c.expected.generation, c.expected.headDigest, PayloadOf(c), None))
    case Consuming(x) =>
      if position.None? then c.(at := Stopped)
      else
        match position.value.payload
        case Consumed(y) => if y == x then c.(at := Settled) else c.(at := Stopped)
        case Claimed(held) =>
          if !SameBinding(held, x) then c.(at := Stopped)
          else Built(c, BuildEnvelope(bases, c.expected.generation, c.expected.headDigest, PayloadOf(c), Some(f)))
  }

  function Built(c: Caller, e: Option<Envelope>): Caller {
    if e.None? then c.(at := Stopped) else c.(at := Rechecking, envelope := e.value)
  }

  function Position(bases: seq<Base>, f: Fingerprint): Option<Base> {
    if bases == [] then None
    else if bases[|bases| - 1].authorization == f then Some(bases[|bases| - 1])
    else Position(bases[..|bases| - 1], f)
  }

  function Placed(s: State, p: nat, c: Caller): State { s.(callers := s.callers[p := c]) }

  function Moved(s: State, p: nat, at: Step): State
    requires p in s.callers
  {
    Placed(s, p, s.callers[p].(at := at))
  }

  predicate Reading(at: Step) { at.Outside? || at.Loading? || at.Scanning? || at.Rechecking? }

  /** Reading and deciding; `seen` is whatever reading the store directory returned. */
  ghost function ReadStep(s: State, p: nat, seen: seq<Artifact>): State
    requires p in s.callers && Reading(s.callers[p].at)
  {
    var c := s.callers[p];
    match c.at
    case Outside => Placed(s, p, c.(at := Loading, expected := s.disk.pointer))
    case Loading =>
      Moved(s, p, if LoadDisk(Disk(s.disk.events, c.expected, s.disk.temporaries)).Some? then Scanning else Stopped)
    case Scanning =>
      if Accepted(seen, c.expected) then Placed(s, p, Decide(c, Bases(seen))) else Moved(s, p, Stopped)
    case Rechecking =>
      var current := s.disk.pointer;
      Moved(s, p, if current.generation == c.expected.generation && current.headDigest == c.expected.headDigest
                     && current.storeRoot == c.expected.storeRoot then Creating else Stopped)
  }

  predicate Publishing(at: Step) { at.Creating? || Publishes(at) }

  predicate Publishes(at: Step) {
    at.Storing? || at.Committing? || at.Sealing? || at.Pointing? || at.Writing? || at.Renaming?
  }

  /** `publishTransition` from the exclusive creation of the PREPARED event on. */
  function PublishStep(s: State, p: nat): State
    requires p in s.callers && Publishing(s.callers[p].at)
  {
    var c := s.callers[p];
    var prepared := PreparedEvent(c.envelope);
    var slot := Slot(prepared.generation, Committed);
    match c.at
    case Creating =>
      if SlotOf(prepared) in s.disk.events then Moved(s, p, Stopped)
      else
        Moved(s, p, Storing).(
          disk := s.disk.(events := s.disk.events[SlotOf(prepared) := Readable(prepared)]),
          chain := s.chain + [c.envelope], makers := s.makers + [p])
    case Storing =>
      if c.goal.Claiming? && prepared.authorization in s.store then Moved(s, p, Stopped)
      else Moved(s, p, Committing).(store := s.store[prepared.authorization := c.envelope])
    case Committing =>
      if s.disk.pointer.generation == prepared.generation && s.disk.pointer.headDigest == prepared.headDigest
         && s.disk.pointer.storeRoot == prepared.storeRoot then Moved(s, p, Reopening)
      else if s.disk.pointer.generation != prepared.generation - 1
              || s.disk.pointer.headDigest != prepared.previousHead then
        Moved(s, p, Stopped)
      else Moved(s, p, Sealing)
    case Sealing =>
      if slot in s.disk.events then Moved(s, p, Pointing)
      else Moved(s, p, Pointing).(disk := s.disk.(events := s.disk.events[slot := Readable(CommittedEvent(prepared))]))
    case Pointing =>
      if slot !in s.disk.events || s.disk.events[slot].Unreadable?
         || !SameTransition(s.disk.events[slot].event, prepared)
      then Moved(s, p, Stopped)
      else Placed(s, p, c.(at := Writing, expected := PointerTo(s.disk.events[slot].event)))
    case Writing => Moved(s, p, Renaming).(disk := s.disk.(temporaries := s.disk.temporaries + 1))
    case Renaming =>
      Moved(s, p, Reopening).(disk := s.disk.(pointer := c.expected, temporaries := Fewer(s.disk.temporaries)))
  }

  function Fewer(n: nat): nat { if n == 0 then 0 else n - 1 }

  ghost predicate Enabled(s: State, e: Event) {
    match e
    case Arrive(p, _) => p !in s.callers
    case Advance(p, _) =>
      p in s.callers && !s.callers[p].at.Dispatched? && !s.callers[p].at.Settled? && !s.callers[p].at.Stopped?
    case Consume(p, _, _, _, _) => p in s.callers && s.callers[p].at.Dispatched?
    case Stop(p) => p in s.callers
  }

  ghost function Apply(s: State, e: Event): State
    requires Enabled(s, e)
  {
    match e
    case Arrive(p, claim) => Placed(s, p, Caller(claim, Claiming, Outside, PointerTo(BOOTSTRAP), NO_ENVELOPE, false))
    case Advance(p, seen) =>
      var c := s.callers[p];
      if Reading(c.at) then ReadStep(s, p, seen)
      else if Publishing(c.at) then PublishStep(s, p)
      else if c.at.Reopening? then
        Moved(s, p, if s.disk.pointer.headDigest != OfEnvelope(c.envelope) then Stopped
                    else if c.goal.Claiming? then Dispatching else Settled)
      else Placed(s, p, c.(at := Dispatched, dispatched := true)).(dispatches := s.dispatches + [p])
    case Consume(p, transactionId, journalId, effect, manifestAfter) =>
      var c := s.callers[p];
      var x := Consumption.Consumption(OfClaim(c.claim), c.claim.authorization, c.claim.operationId, c.claim.workspace,
                           c.claim.target, c.claim.before, c.claim.replacement,
                           transactionId, journalId, effect, manifestAfter);
      Placed(s, p, c.(at := Outside, goal := Consuming(x)))
    case Stop(p) => Moved(s, p, Stopped)
  }

  ghost predicate Transition(s: State, e: Event, s': State) { Enabled(s, e) && s' == Apply(s, e) }

  ghost predicate Next(s: State, s': State) { exists e :: Transition(s, e, s') }

  ghost predicate Run(run: seq<State>) {
    |run| > 0 && Init(run[0]) && forall k :: 0 <= k < |run| - 1 ==> Next(run[k], run[k + 1])
  }
}
