/** Any number of durable registry instances and lock recoverers over one registry file, one writer-lock file
    and the recovery claim files.  A step reads or changes at most one of the shared files; a process that stops
    between two steps has crashed. */
module WriterProtocol {
  import opened Wrappers
  import opened PhysicalRegistry

  /** A registry file.  Generation 0 stands for the missing file.  An integrity digest is injective, so comparing
      generation and digest is comparing envelopes; the sorted entry list is represented by the table it lists. */
  datatype Envelope = Envelope(generation: nat, entries: Table)

  const ABSENT := Envelope(0, map[])
  const MAX_SAFE_INTEGER := 9007199254740991

  ghost predicate ValidEntry(e: Entry) {
    && |e.externalExecutionId| >= 8
    && !e.state.Unlisted?
    && 1 <= e.sequence <= MAX_SAFE_INTEGER
    && e.observedAt.Canonical?
    && (if e.evidence.Some? then e.evidence.value.wellShaped && e.state.Succeeded? else !e.state.Succeeded?)
  }

  ghost predicate ValidEnvelope(v: Envelope) {
    && 1 <= v.generation <= MAX_SAFE_INTEGER
    && (forall op :: op in v.entries ==> OperationOf(v.entries[op]) == op && ValidEntry(v.entries[op]))
    && (forall a, b :: a in v.entries && b in v.entries && KeyOf(v.entries[a]) == KeyOf(v.entries[b]) ==> a == b)
  }

  datatype Context = Context(operationId: string, externalExecutionId: string, workspace: string, repository: string)

  /** The metadata in a writer lock.  `token` is the random owner token; the intended generation is always one
      more than the observed one. */
  datatype Owner = Owner(token: nat, context: Context, observed: Envelope)

  datatype Phase =
    | Idle
    | Linking      // about to link the temporary lock onto the lock path
    | Linked       // lock linked, boundary not yet confirmed
    | Backing      // acquisition failed after the link: about to read the lock back
    | Unwinding    // read back as its own: about to unlink it
    | Entered      // inside the guarded block: about to read the registry
    | Writing      // first read matched: writing and flushing the temporary file
    | Rechecking   // about to read the registry again
    | Renaming     // second read matched: about to rename
    | Confirming   // renamed, boundary not yet confirmed
    | Leaving      // about to read the lock back before releasing it
    | Unlocking    // about to unlink the lock
    | Crashed

  predicate Busy(phase: Phase) { phase != Idle && phase != Crashed }

  /** `next` and `owner` are meaningful while a persist is under way. */
  datatype Instance = Instance(
    committed: Envelope, memory: Table, poisoned: bool, phase: Phase, owner: Owner, next: Envelope)

  datatype RecoveryRequest = RecoveryRequest(context: Context, ownerFingerprint: Owner, observed: Envelope)

  datatype Effect = NoEffect | Committed

  datatype RecoveryPhase =
    | Matching | Probing | Claiming                                                // inspect, then claim
    | Comparing | Looking | Reprobing | Authorizing | LookingAgain | Removing      // under the claim
    | Settling                                                                      // lock removed
    | Abandoning | Dropping
    | Finished

  datatype Recoverer = Recoverer(phase: RecoveryPhase, request: RecoveryRequest, owner: Owner, claim: nat,
                                 effect: Effect)

  datatype ClaimFile = Held(claim: nat) | Settled(claim: nat, effect: Effect)

  /** `removals` and `published` only record what happened. */
  datatype State = State(
    registry: Envelope,
    lock: Option<Owner>,
    claims: map<Owner, ClaimFile>,
    instances: map<nat, Instance>,
    recoverers: map<nat, Recoverer>,
    tokens: nat,
    claimTokens: nat,
    removals: seq<Owner>,
    published: set<Owner>)

  datatype Call = DoClaim(claim: ClaimInput) | DoObserve(observation: ObserveInput)

  datatype Event =
    | Open(p: nat, memory: Table)
    | Invoke(p: nat, memory: Table, call: Call)
    | Progress(p: nat, success: bool)
    | Oversize(p: nat)
    | Crash(p: nat)
    | ReadOwner(q: nat, request: RecoveryRequest)
    | Recover(q: nat, success: bool, effect: Effect)
    | AbandonRecovery(q: nat)

  ghost predicate Init(s: State) {
    s == State(ABSENT, None, map[], map[], map[], 0, 0, [], {})
  }

  // ---------------------------------------------------------------- instances

  /** `memory` is what hydrating the registry file yields. */
  ghost predicate Rehydrates(v: Envelope, memory: Table) {
    exists entries :: Lists(entries, v.entries) && Hydrated(map[], entries) == Ok(memory)
  }

  /** `refresh`: a changed registry file replaces both views, an unchanged one leaves them. */
  ghost predicate Refreshes(i: Instance, registry: Envelope, memory: Table) {
    if registry == i.committed then memory == i.memory else Rehydrates(registry, memory)
  }

  ghost function AfterCall(memory: Table, call: Call): Table {
    match call
    case DoClaim(input) => Claimed(memory, input).0
    case DoObserve(input) => Observed(memory, input).0
  }

  /** Whether a call goes on to persist: a fresh claim or an accepted observation. */
  ghost predicate Mutates(memory: Table, call: Call) {
    match call
    case DoClaim(input) => Claimed(memory, input).1.Ok? && Claimed(memory, input).1.value.created
    case DoObserve(input) => Observed(memory, input).1.Ok?
  }

  function ContextOf(call: Call): Context {
    match call
    case DoClaim(input) =>
      Context(input.request.binding.operationId, input.externalExecutionId,
              input.request.binding.workspace, input.request.binding.repository)
    case DoObserve(input) =>
      Context(input.request.binding.operationId,
              if input.request.externalExecutionId.Some? then input.request.externalExecutionId.value else "",
              input.request.binding.workspace, input.request.binding.repository)
  }

  ghost function Invoked(s: State, i: Instance, memory: Table, call: Call): Instance {
    var current := i.(committed := s.registry, memory := memory);
    if !Mutates(memory, call) then current
    else
      var after := AfterCall(memory, call);
      var next := Envelope(s.registry.generation + 1, after);
      if !ValidEnvelope(next) then current.(memory := after)
      else current.(memory := after, phase := Linking, next := next,
                    owner := Owner(s.tokens, ContextOf(call), s.registry))
  }

  function Moved(s: State, p: nat, phase: Phase): State
    requires p in s.instances
  {
    s.(instances := s.instances[p := s.instances[p].(phase := phase)])
  }

  predicate Acquiring(phase: Phase) { phase.Linking? || phase.Linked? || phase.Backing? || phase.Unwinding? }

  predicate Publishing(phase: Phase) {
    phase.Entered? || phase.Writing? || phase.Rechecking? || phase.Renaming? || phase.Confirming?
  }

  predicate Releasing(phase: Phase) { phase.Leaving? || phase.Unlocking? }

  /** `acquireWriterLock`, from the link on. */
  function AcquireStep(s: State, p: nat, success: bool): State
    requires p in s.instances && Acquiring(s.instances[p].phase)
  {
    var i := s.instances[p];
    match i.phase
    case Linking => if success && s.lock.None? then Moved(s, p, Linked).(lock := Some(i.owner)) else Moved(s, p, Idle)
    case Linked => Moved(s, p, if success then Entered else Backing)
    case Backing => Moved(s, p, if s.lock.Some? && s.lock.value.token == i.owner.token then Unwinding else Idle)
    case Unwinding => if success then Moved(s, p, Idle).(lock := None) else Moved(s, p, Idle)
  }

  function Poisoned(s: State, p: nat): State
    requires p in s.instances
  {
    s.(instances := s.instances[p := s.instances[p].(phase := Leaving, poisoned := true)])
  }

  /** The guarded block of `persist`: any failure poisons the instance and goes on to the release. */
  function PublishStep(s: State, p: nat, success: bool): State
    requires p in s.instances && Publishing(s.instances[p].phase)
  {
    var i := s.instances[p];
    if !success then Poisoned(s, p)
    else
      match i.phase
      case Entered => if s.registry == i.committed then Moved(s, p, Writing) else Poisoned(s, p)
      case Writing => Moved(s, p, Rechecking)
      case Rechecking => if s.registry == i.committed then Moved(s, p, Renaming) else Poisoned(s, p)
      case Renaming => Moved(s, p, Confirming).(registry := i.next, published := s.published + {i.owner})
      case Confirming => s.(instances := s.instances[p := i.(phase := Leaving, committed := i.next)])
  }

  /** `releaseWriterLock`. */
  function ReleaseStep(s: State, p: nat, success: bool): State
    requires p in s.instances && Releasing(s.instances[p].phase)
  {
    var i := s.instances[p];
    match i.phase
    case Leaving => Moved(s, p, if success && s.lock == Some(i.owner) then Unlocking else Idle)
    case Unlocking => if success then Moved(s, p, Idle).(lock := None) else Moved(s, p, Idle)
  }

  /** The next atomic step of a persist under way; `success` is false when the step's own file operation or
      durability call fails. */
  function Progressed(s: State, p: nat, success: bool): State
    requires p in s.instances && Busy(s.instances[p].phase)
  {
    var phase := s.instances[p].phase;
    if Acquiring(phase) then AcquireStep(s, p, success)
    else if Publishing(phase) then PublishStep(s, p, success)
    else ReleaseStep(s, p, success)
  }

  // ---------------------------------------------------------------- recoverers

  predicate Matches(input: RecoveryRequest, owner: Owner, registry: Envelope) {
    && input.context == owner.context
    && input.ownerFingerprint == owner
    && input.observed == owner.observed
    && registry == owner.observed
  }

  /** Some instance may still act on the lock with this owner's token. */
  ghost predicate Active(s: State, owner: Owner) {
    exists p :: p in s.instances && Busy(s.instances[p].phase) && s.instances[p].owner.token == owner.token
  }

  function Stepped(s: State, q: nat, phase: RecoveryPhase): State
    requires q in s.recoverers
  {
    s.(recoverers := s.recoverers[q := s.recoverers[q].(phase := phase)])
  }

  predicate Inspecting(phase: RecoveryPhase) { phase.Matching? || phase.Probing? || phase.Claiming? }

  predicate Confirmation(phase: RecoveryPhase) {
    phase.Comparing? || phase.Looking? || phase.Reprobing? || phase.Authorizing? || phase.LookingAgain?
  }

  /** `inspect` and the exclusive creation of the claim file. */
  function InspectStep(s: State, q: nat, success: bool, effect: Effect): State
    requires q in s.recoverers && Inspecting(s.recoverers[q].phase)
  {
    var r := s.recoverers[q];
    match r.phase
    case Matching => Stepped(s, q, if Matches(r.request, r.owner, s.registry) then Probing else Finished)
    case Probing =>
      if success then s.(recoverers := s.recoverers[q := r.(phase := Claiming, effect := effect)])
      else Stepped(s, q, Finished)
    case Claiming =>
      if r.owner in s.claims then Stepped(s, q, Finished)
      else
        s.(claims := s.claims[r.owner := Held(s.claimTokens)], claimTokens := s.claimTokens + 1,
           recoverers :=
             s.recoverers[q := r.(phase := if success then Comparing else Finished, claim := s.claimTokens)])
  }

  /** Everything compared again under the claim; the first disagreement abandons it. */
  function ConfirmStep(s: State, q: nat, success: bool, effect: Effect): State
    requires q in s.recoverers && Confirmation(s.recoverers[q].phase)
  {
    var r := s.recoverers[q];
    var held := s.lock == Some(r.owner);
    match r.phase
    case Comparing => Stepped(s, q, if Matches(r.request, r.owner, s.registry) then Looking else Abandoning)
    case Looking => Stepped(s, q, if held then Reprobing else Abandoning)
    case Reprobing => Stepped(s, q, if success && effect == r.effect then Authorizing else Abandoning)
    case Authorizing => Stepped(s, q, if success then LookingAgain else Abandoning)
    case LookingAgain => Stepped(s, q, if held then Removing else Abandoning)
  }

  /** Removal of the lock and publication of the result, or removal of an abandoned claim. */
  function CloseStep(s: State, q: nat, success: bool): State
    requires q in s.recoverers && !Inspecting(s.recoverers[q].phase) && !Confirmation(s.recoverers[q].phase)
  {
    var r := s.recoverers[q];
    match r.phase
    case Removing =>
      if !success || s.lock.None? then Stepped(s, q, Finished)
      else Stepped(s, q, Settling).(lock := None, removals := s.removals + [s.lock.value])
    case Settling =>
      if success then Stepped(s, q, Finished).(claims := s.claims[r.owner := Settled(r.claim, r.effect)])
      else Stepped(s, q, Finished)
    case Abandoning =>
      Stepped(s, q, if r.owner in s.claims && s.claims[r.owner] == Held(r.claim) then Dropping else Finished)
    case Dropping =>
      if success then Stepped(s, q, Finished).(claims := s.claims - {r.owner}) else Stepped(s, q, Finished)
    case Finished => s
  }

  /** The next atomic step of a recovery.  At the evidence and authorization steps `success` is the verdict of the
      caller's ports and `effect` the effect they report. */
  function Recovered(s: State, q: nat, success: bool, effect: Effect): State
    requires q in s.recoverers
  {
    var phase := s.recoverers[q].phase;
    if Inspecting(phase) then InspectStep(s, q, success, effect)
    else if Confirmation(phase) then ConfirmStep(s, q, success, effect)
    else CloseStep(s, q, success)
  }

  // ---------------------------------------------------------------- steps

  ghost predicate Enabled(s: State, e: Event) {
    match e
    case Open(p, memory) => p !in s.instances && Rehydrates(s.registry, memory)
    case Invoke(p, memory, _) =>
      && p in s.instances && s.instances[p].phase == Idle && !s.instances[p].poisoned
      && Refreshes(s.instances[p], s.registry, memory)
    case Progress(p, _) => p in s.instances && Busy(s.instances[p].phase)
    case Oversize(p) => p in s.instances && s.instances[p].phase == Linked
    case Crash(p) => p in s.instances
    case ReadOwner(q, _) => q !in s.recoverers && s.lock.Some?
    case Recover(q, success, _) =>
      && q in s.recoverers && s.recoverers[q].phase != Finished
      // evidence confirms an orphan only when no instance can still act as that owner
      && (success && s.recoverers[q].phase.Probing? ==> !Active(s, s.recoverers[q].owner))
      && (success && s.recoverers[q].phase.Reprobing? ==> !Active(s, s.recoverers[q].owner))
    case AbandonRecovery(q) => q in s.recoverers
  }

  ghost function Apply(s: State, e: Event): State
    requires Enabled(s, e)
  {
    match e
    case Open(p, memory) =>
      var owner := Owner(0, Context("", "", "", ""), ABSENT);
      s.(instances := s.instances[p := Instance(s.registry, memory, false, Idle, owner, ABSENT)])
    case Invoke(p, memory, call) =>
      var i := Invoked(s, s.instances[p], memory, call);
      s.(instances := s.instances[p := i], tokens := if i.phase == Linking then s.tokens + 1 else s.tokens)
    case Progress(p, success) => Progressed(s, p, success)
    // the serialized registry exceeds its byte limit: the lock is kept and nothing is poisoned
    case Oversize(p) => Moved(s, p, Idle)
    case Crash(p) => Moved(s, p, Crashed)
    case ReadOwner(q, request) =>
      s.(recoverers := s.recoverers[q := Recoverer(Matching, request, s.lock.value, 0, NoEffect)])
    case Recover(q, success, effect) => Recovered(s, q, success, effect)
    case AbandonRecovery(q) => Stepped(s, q, Finished)
  }

  ghost predicate Step(s: State, e: Event, s': State) {
    Enabled(s, e) && s' == Apply(s, e)
  }

  ghost predicate Next(s: State, s': State) {
    exists e :: Step(s, e, s')
  }

  ghost predicate Run(run: seq<State>) {
    && |run| > 0 && Init(run[0])
    && forall k :: 0 <= k < |run| - 1 ==> Next(run[k], run[k + 1])
  }
}
