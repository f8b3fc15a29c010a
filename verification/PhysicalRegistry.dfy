/** The in-memory physical submission registry and its rebuilding from a persisted envelope.

    `Claimed` and `Observed` say, on a table keyed by operation id, what one call answers and
    leaves behind.  Class `Registry` keeps three maps that share mutable records, as the program
    does, and is proved to follow them.  `Hydrate` is the loop that rebuilds a registry from
    persisted entries by replaying only the last observation of each. */
module PhysicalRegistry {
  import opened Wrappers

  datatype Classification =
    | Accepted | Running | Succeeded | Failed | Cancelled | Rejected | Unknown | Indeterminate
    | AuthenticationFailure | AuthorizationFailure | ProtocolFailure | UnsupportedCapability
    | StaleState | TransportFailure | InternalFailure
    | Unlisted(text: string)

  predicate Terminal(c: Classification) {
    c.Succeeded? || c.Failed? || c.Cancelled? || c.Rejected?
  }

  /** Progress rank; classifications outside the table rank 0. */
  function Rank(c: Classification): nat {
    match c
    case Accepted => 1
    case Running => 2
    case Unknown => 2
    case Indeterminate => 2
    case Succeeded => 3
    case Failed => 3
    case Cancelled => 3
    case Rejected => 3
    case _ => 0
  }

  /** Each object-valued field stands for its canonical serialization, which is all the program compares. */
  datatype Binding = Binding(
    operationId: string,
    idempotencyKey: string,
    intentFingerprint: string,
    principal: string,
    authority: string,
    workspace: string,
    repository: string,
    physicalExecution: string)

  datatype Request = Request(binding: Binding, rest: string)

  /** A reconcile-style request naming a submission. */
  datatype Query = Query(binding: Binding, externalExecutionId: Option<string>, after: int)

  datatype Stamp = Canonical(ms: int) | Noncanonical(text: string)

  datatype Evidence = Evidence(content: string, wellShaped: bool)

  datatype Entry = Entry(
    request: Request,
    externalExecutionId: string,
    state: Classification,
    sequence: nat,
    observedAt: Stamp,
    lastCode: string,
    evidence: Option<Evidence>)

  type Table = map<string, Entry>

  /** `wellShaped` is the verdict of the field-by-field and credential checks on the whole input. */
  datatype ClaimInput = ClaimInput(wellShaped: bool, request: Request, externalExecutionId: string, observedAt: Stamp)

  datatype ObserveInput = ObserveInput(
    wellShaped: bool,
    request: Query,
    classification: Classification,
    code: string,
    observedAt: Stamp,
    evidence: Option<Evidence>)

  datatype Error =
    | MalformedInput | RegistryFailure | IdempotencyConflict | PrincipalSubstitution | AuthorityWidening
    | OperationBindingConflict | ExternalExecutionIdConflict | UnknownSubmission | WorkspaceRepositoryMismatch
    | PhysicalExecutionBindingMismatch | IntentFingerprintMismatch | ForgedExternalExecutionId
    | MalformedProtocolMessage | StaleObservationSequence | ResultStateRegression | PhysicalEvidenceRequired

  datatype Receipt = Receipt(created: bool, entry: Entry)

  const REGISTERED := "SUBMISSION_REGISTERED"

  function KeyOf(e: Entry): string { e.request.binding.idempotencyKey }

  function OperationOf(e: Entry): string { e.request.binding.operationId }

  // ---------------------------------------------------------------- one call on a table

  ghost predicate HoldsKey(t: Table, op: string, key: string) {
    op in t && KeyOf(t[op]) == key
  }

  ghost predicate HoldsExternal(t: Table, op: string, id: string) {
    op in t && t[op].externalExecutionId == id
  }

  /** Filed under its own operation id, with idempotency keys and external ids unique. */
  ghost predicate Indexed(t: Table) {
    && (forall op :: op in t ==> OperationOf(t[op]) == op)
    && (forall a, b :: a in t && b in t && KeyOf(t[a]) == KeyOf(t[b]) ==> a == b)
    && (forall a, b :: a in t && b in t && t[a].externalExecutionId == t[b].externalExecutionId ==> a == b)
  }

  function Registered(input: ClaimInput): Entry {
    Entry(input.request, input.externalExecutionId, Accepted, 1, input.observedAt, REGISTERED, None)
  }

  /** What `claim` answers and the table it leaves. */
  ghost function Claimed(t: Table, input: ClaimInput): (Table, Result<Receipt, Error>) {
    var b := input.request.binding;
    if !input.wellShaped then (t, Err(MalformedInput))
    else if |input.externalExecutionId| < 8 || input.observedAt.Noncanonical? then (t, Err(RegistryFailure))
    else if exists op :: HoldsKey(t, op, b.idempotencyKey) then
      var op :| HoldsKey(t, op, b.idempotencyKey);
      if t[op].request == input.request then (t, Ok(Receipt(false, t[op]))) else (t, Err(IdempotencyConflict))
    else if b.operationId in t then
      var e := t[b.operationId].request.binding;
      if e.principal != b.principal then (t, Err(PrincipalSubstitution))
      else if e.authority != b.authority then (t, Err(AuthorityWidening))
      else (t, Err(OperationBindingConflict))
    else if exists op :: HoldsExternal(t, op, input.externalExecutionId) then (t, Err(ExternalExecutionIdConflict))
    else (t[b.operationId := Registered(input)], Ok(Receipt(true, Registered(input))))
  }

  /** Why a query does not reach the submission it names, or None. */
  function BindingError(e: Option<Entry>, q: Query): Option<Error> {
    if e.None? || KeyOf(e.value) != q.binding.idempotencyKey then Some(UnknownSubmission)
    else
      var b := e.value.request.binding;
      if b.principal != q.binding.principal then Some(PrincipalSubstitution)
      else if b.authority != q.binding.authority then Some(AuthorityWidening)
      else if b.workspace != q.binding.workspace || b.repository != q.binding.repository then
        Some(WorkspaceRepositoryMismatch)
      else if b.physicalExecution != q.binding.physicalExecution then Some(PhysicalExecutionBindingMismatch)
      else if b.intentFingerprint != q.binding.intentFingerprint then Some(IntentFingerprintMismatch)
      else if q.externalExecutionId.Some? && q.externalExecutionId.value != e.value.externalExecutionId then
        Some(ForgedExternalExecutionId)
      else None
  }

  function Lookup(t: Table, op: string): Option<Entry> {
    if op in t then Some(t[op]) else None
  }

  /** Why an observation of a bound entry is refused, or None. */
  function ObservationError(e: Entry, input: ObserveInput): Option<Error> {
    if input.classification.Unlisted? || |input.code| < 1 || |input.code| > 256 || input.observedAt.Noncanonical? then
      Some(MalformedProtocolMessage)
    else if input.request.after != e.sequence then Some(StaleObservationSequence)
    else if (Terminal(e.state) && input.classification != e.state) || Rank(input.classification) < Rank(e.state) then
      Some(ResultStateRegression)
    else if input.classification.Succeeded? && input.evidence.None? then Some(PhysicalEvidenceRequired)
    else None
  }

  function Advanced(e: Entry, input: ObserveInput): Entry {
    e.(state := input.classification, sequence := e.sequence + 1, observedAt := input.observedAt,
       lastCode := input.code, evidence := if input.evidence.Some? then input.evidence else e.evidence)
  }

  /** What `observe` answers and the table it leaves. */
  function Observed(t: Table, input: ObserveInput): (Table, Result<Entry, Error>) {
    var op := input.request.binding.operationId;
    if !input.wellShaped then (t, Err(MalformedInput))
    else
      var bound := BindingError(Lookup(t, op), input.request);
      if bound.Some? then (t, Err(bound.value))
      else
        var refused := ObservationError(t[op], input);
        if refused.Some? then (t, Err(refused.value))
        else (t[op := Advanced(t[op], input)], Ok(Advanced(t[op], input)))
  }

  // ---------------------------------------------------------------- what calls keep

  /** `b` is a later view of the submission `a`: same identity, no lower sequence or rank, terminal states final. */
  predicate Follows(a: Entry, b: Entry) {
    && b.request == a.request
    && b.externalExecutionId == a.externalExecutionId
    && a.sequence <= b.sequence
    && Rank(a.state) <= Rank(b.state)
    && (Terminal(a.state) ==> b.state == a.state)
  }

  ghost predicate Extends(s: Table, t: Table) {
    forall op :: op in s ==> op in t && Follows(s[op], t[op])
  }

  /** The entries that replaying a single observation can rebuild. */
  predicate Replayable(e: Entry) {
    && |e.externalExecutionId| >= 8
    && e.observedAt.Canonical?
    && if e.sequence == 1 then e.state == Accepted && e.lastCode == REGISTERED && e.evidence.None?
       else
         && e.sequence >= 1 && Rank(e.state) >= 1 && 1 <= |e.lastCode| <= 256
         && (e.state.Succeeded? ==> e.evidence.Some?)
  }

  /** Kept by every call; holds of the empty table. */
  ghost predicate Tracked(t: Table) {
    Indexed(t) && forall op :: op in t ==> Replayable(t[op])
  }

  /** A claim changes the table only by adding an accepted entry whose key, operation and external id are all new. */
  lemma ClaimAdds(t: Table, input: ClaimInput)
    ensures var (t', e) := (Claimed(t, input).0, Registered(input));
            t' == t
            || (&& t' == t[OperationOf(e) := e] && Replayable(e) && OperationOf(e) !in t
                && (forall op :: !HoldsKey(t, op, KeyOf(e)) && !HoldsExternal(t, op, e.externalExecutionId)))
  {
  }

  lemma IndexedAdds(t: Table, e: Entry)
    requires Indexed(t) && OperationOf(e) !in t
    requires forall op :: !HoldsKey(t, op, KeyOf(e)) && !HoldsExternal(t, op, e.externalExecutionId)
    ensures Indexed(t[OperationOf(e) := e])
  {
    var t' := t[OperationOf(e) := e];
    forall a | a in t ensures KeyOf(t[a]) != KeyOf(e) && t[a].externalExecutionId != e.externalExecutionId {
      assert !HoldsKey(t, a, KeyOf(e)) && !HoldsExternal(t, a, e.externalExecutionId);
    }
    assert forall a :: a in t' <==> a in t || a == OperationOf(e);
  }

  lemma ClaimKeeps(t: Table, input: ClaimInput)
    requires Tracked(t)
    ensures Tracked(Claimed(t, input).0) && Extends(t, Claimed(t, input).0)
  {
    ClaimAdds(t, input);
    if Claimed(t, input).0 != t { IndexedAdds(t, Registered(input)); }
  }

  /** An accepted observation of a replayable entry leaves a later, still replayable view of it. */
  lemma AdvanceFollows(e: Entry, input: ObserveInput)
    requires Replayable(e) && ObservationError(e, input).None?
    ensures Replayable(Advanced(e, input)) && Follows(e, Advanced(e, input))
  {
  }

  lemma IndexedReplaces(t: Table, op: string, e: Entry)
    requires Indexed(t) && op in t && e.request == t[op].request && e.externalExecutionId == t[op].externalExecutionId
    ensures Indexed(t[op := e])
  {
    var t' := t[op := e];
    assert forall a :: a in t' ==> a in t && KeyOf(t'[a]) == KeyOf(t[a]) && OperationOf(t'[a]) == OperationOf(t[a])
                                   && t'[a].externalExecutionId == t[a].externalExecutionId;
  }

  lemma ObserveKeeps(t: Table, input: ObserveInput)
    requires Tracked(t)
    ensures Tracked(Observed(t, input).0) && Extends(t, Observed(t, input).0)
  {
    var op := input.request.binding.operationId;
    if Observed(t, input).1.Ok? {
      AdvanceFollows(t[op], input);
      IndexedReplaces(t, op, Advanced(t[op], input));
    }
  }

  // ---------------------------------------------------------------- what calls are answered

  /** An idempotency key already used answers its own submission to an exact repeat and a conflict to anything else;
      nothing changes. */
  lemma ClaimReplays(t: Table, op: string, input: ClaimInput)
    requires Indexed(t) && op in t && KeyOf(t[op]) == input.request.binding.idempotencyKey && Admissible(input)
    ensures Claimed(t, input) ==
            (t, if t[op].request == input.request then Ok(Receipt(false, t[op])) else Err(IdempotencyConflict))
  {
    assert HoldsKey(t, op, KeyOf(t[op]));
  }

  /** The checks on the input itself: its shape, its external id and its timestamp. */
  predicate Admissible(input: ClaimInput) {
    input.wellShaped && |input.externalExecutionId| >= 8 && input.observedAt.Canonical?
  }

  ghost predicate UnusedKey(t: Table, key: string) { forall op :: op in t ==> KeyOf(t[op]) != key }

  ghost predicate UnusedExternal(t: Table, id: string) { forall op :: op in t ==> t[op].externalExecutionId != id }

  /** With a new key, an operation already filed is a conflict named after the first of principal and authority that
      differs, and an external id already used is one too; nothing changes. */
  lemma ClaimConflicts(t: Table, input: ClaimInput)
    requires Indexed(t) && Admissible(input) && UnusedKey(t, input.request.binding.idempotencyKey)
    ensures var b := input.request.binding;
            b.operationId in t ==>
              var held := t[b.operationId].request.binding;
              && Claimed(t, input).0 == t && Claimed(t, input).1.Err?
              && (Claimed(t, input).1.error.PrincipalSubstitution? <==> held.principal != b.principal)
              && (Claimed(t, input).1.error.AuthorityWidening? <==>
                    held.principal == b.principal && held.authority != b.authority)
              && (Claimed(t, input).1.error.OperationBindingConflict? <==>
                    held.principal == b.principal && held.authority == b.authority)
    ensures forall op :: op in t && t[op].externalExecutionId == input.externalExecutionId
                         && input.request.binding.operationId !in t ==>
              Claimed(t, input) == (t, Err(ExternalExecutionIdConflict))
  {
    forall op | op in t ensures !HoldsKey(t, op, input.request.binding.idempotencyKey) {}
    forall op | op in t && t[op].externalExecutionId == input.externalExecutionId
      ensures HoldsExternal(t, op, input.externalExecutionId)
    {
    }
  }

  /** A submission is created exactly when the input is admissible and its key, operation and external id are new. */
  lemma ClaimCreates(t: Table, input: ClaimInput)
    requires Indexed(t)
    ensures var b, r := input.request.binding, Claimed(t, input).1;
            r.Ok? && r.value.created <==>
              Admissible(input) && b.operationId !in t && UnusedKey(t, b.idempotencyKey)
              && UnusedExternal(t, input.externalExecutionId)
    ensures var r := Claimed(t, input).1;
            r.Ok? && r.value.created ==>
              && r.value.entry == Registered(input)
              && Claimed(t, input).0 == t[input.request.binding.operationId := Registered(input)]
  {
    forall op | op in t && KeyOf(t[op]) == input.request.binding.idempotencyKey
      ensures HoldsKey(t, op, input.request.binding.idempotencyKey)
    {
    }
    forall op | op in t && t[op].externalExecutionId == input.externalExecutionId
      ensures HoldsExternal(t, op, input.externalExecutionId)
    {
    }
  }

  /** Claiming a request again, with any external id and time, answers the entry the first claim created. */
  lemma ClaimTwice(t: Table, first: ClaimInput, again: ClaimInput)
    requires Indexed(t) && Claimed(t, first).1.Ok? && Admissible(again) && again.request == first.request
    ensures var (t', r) := Claimed(t, first);
            Claimed(t', again) == (t', Ok(Receipt(false, r.value.entry)))
  {
    var (t', r) := Claimed(t, first);
    ClaimAdds(t, first);
    if t' != t { IndexedAdds(t, Registered(first)); }
    var b := first.request.binding;
    if r.value.created {
      ClaimCreates(t, first);
      ClaimReplays(t', b.operationId, again);
    } else {
      var op :| op in t && KeyOf(t[op]) == b.idempotencyKey;
      ClaimReplays(t, op, first);
      ClaimReplays(t, op, again);
    }
  }

  /** A query reaches a submission exactly when it repeats its whole binding, and its external id where it names one. */
  lemma BoundMeans(e: Entry, q: Query)
    requires q.binding.operationId == OperationOf(e)
    ensures BindingError(Some(e), q).None? <==>
              q.binding == e.request.binding && (q.externalExecutionId in {None, Some(e.externalExecutionId)})
  {
  }

  /** And a query that differs from the binding in one field is refused for that field. */
  lemma BindingErrors(e: Entry, q: Query, other: string)
    requires q.binding == e.request.binding && q.externalExecutionId == None
    ensures var b := q.binding;
            && (other != b.idempotencyKey ==>
                  BindingError(Some(e), q.(binding := b.(idempotencyKey := other))) == Some(UnknownSubmission))
            && (other != b.principal ==>
                  BindingError(Some(e), q.(binding := b.(principal := other))) == Some(PrincipalSubstitution))
            && (other != b.authority ==>
                  BindingError(Some(e), q.(binding := b.(authority := other))) == Some(AuthorityWidening))
            && (other != b.workspace ==>
                  BindingError(Some(e), q.(binding := b.(workspace := other))) == Some(WorkspaceRepositoryMismatch))
            && (other != b.repository ==>
                  BindingError(Some(e), q.(binding := b.(repository := other))) == Some(WorkspaceRepositoryMismatch))
            && (other != b.physicalExecution ==>
                  BindingError(Some(e), q.(binding := b.(physicalExecution := other)))
                  == Some(PhysicalExecutionBindingMismatch))
            && (other != b.intentFingerprint ==>
                  BindingError(Some(e), q.(binding := b.(intentFingerprint := other)))
                    == Some(IntentFingerprintMismatch))
            && (other != e.externalExecutionId ==>
                  BindingError(Some(e), q.(externalExecutionId := Some(other))) == Some(ForgedExternalExecutionId))
  {
  }

  /** The states an entry may be observed in next, by its state now. */
  predicate MayBecome(from: Classification, to: Classification) {
    match from
    case Succeeded => to.Succeeded?
    case Failed => to.Failed?
    case Cancelled => to.Cancelled?
    case Rejected => to.Rejected?
    case Running => to.Running? || to.Unknown? || to.Indeterminate? || Terminal(to)
    case Unknown => to.Running? || to.Unknown? || to.Indeterminate? || Terminal(to)
    case Indeterminate => to.Running? || to.Unknown? || to.Indeterminate? || Terminal(to)
    case Accepted => to.Accepted? || to.Running? || to.Unknown? || to.Indeterminate? || Terminal(to)
    case _ => true
  }

  /** An observation moves its submission exactly when it repeats the binding, names the current sequence, is of a
      lawful next state and carries evidence of a success; it then leaves the observed state one sequence on, and the
      same observation again is stale. */
  lemma ObserveMoves(t: Table, input: ObserveInput)
    requires Indexed(t)
    ensures var op := input.request.binding.operationId;
            Observed(t, input).1.Ok? <==>
              && input.wellShaped && op in t && BindingError(Some(t[op]), input.request).None?
              && !input.classification.Unlisted? && 1 <= |input.code| <= 256 && input.observedAt.Canonical?
              && input.request.after == t[op].sequence && MayBecome(t[op].state, input.classification)
              && (input.classification.Succeeded? ==> input.evidence.Some?)
    ensures Observed(t, input).1.Ok? ==>
              var (t', r) := Observed(t, input);
              var op := input.request.binding.operationId;
              && t' == t[op := r.value] && Follows(t[op], r.value)
              && r.value.state == input.classification && r.value.sequence == t[op].sequence + 1
              && Observed(t', input) == (t', Err(StaleObservationSequence))
  {
  }

  // ---------------------------------------------------------------- the mutable registry

  class Record {
    const request: Request
    const externalExecutionId: string
    var state: Classification
    var sequence: nat
    var observedAt: Stamp
    var lastCode: string
    var evidence: Option<Evidence>

    constructor (input: ClaimInput)
      ensures AsEntry() == Registered(input)
    {
      request, externalExecutionId := input.request, input.externalExecutionId;
      state, sequence, observedAt, lastCode, evidence := Accepted, 1, input.observedAt, REGISTERED, None;
    }

    method Advance(input: ObserveInput)
      modifies this
      ensures AsEntry() == Advanced(old(AsEntry()), input)
    {
      state := input.classification;
      sequence := sequence + 1;
      observedAt := input.observedAt;
      lastCode := input.code;
      if input.evidence.Some? { evidence := input.evidence; }
    }

    function AsEntry(): Entry
      reads this
    {
      Entry(request, externalExecutionId, state, sequence, observedAt, lastCode, evidence)
    }
  }

  class Registry {
    var records: map<string, Record>
    var idempotency: map<string, Record>
    var external: map<string, Record>

    ghost predicate Filed(r: Record)
      reads this
    {
      && r.request.binding.operationId in records && records[r.request.binding.operationId] == r
      && r.request.binding.idempotencyKey in idempotency && idempotency[r.request.binding.idempotencyKey] == r
      && r.externalExecutionId in external && external[r.externalExecutionId] == r
    }

    /** The three maps hold the same records, each filed under the identity it carries. */
    ghost predicate Valid()
      reads this
    {
      && (forall op :: op in records ==> records[op].request.binding.operationId == op && Filed(records[op]))
      && (forall k :: k in idempotency ==>
            idempotency[k].request.binding.idempotencyKey == k && Filed(idempotency[k]))
      && (forall x :: x in external ==> external[x].externalExecutionId == x && Filed(external[x]))
    }

    ghost function View(): (t: Table)
      reads this, records.Values
      ensures t.Keys == records.Keys
    {
      map op | op in records :: records[op].AsEntry()
    }

    constructor ()
      ensures Valid() && View() == map[] && records == map[]
    {
      records, idempotency, external := map[], map[], map[];
    }

    /** Looking a key or an external id up in its own map is looking it up in the table. */
    lemma Lookups(key: string, id: string)
      requires Valid()
      ensures key in idempotency ==>
                var op := idempotency[key].request.binding.operationId;
                HoldsKey(View(), op, key) && forall o :: HoldsKey(View(), o, key) ==> o == op
      ensures key !in idempotency ==> forall o :: !HoldsKey(View(), o, key)
      ensures id in external <==> exists o :: HoldsExternal(View(), o, id)
    {
      if id in external { assert HoldsExternal(View(), external[id].request.binding.operationId, id); }
    }

    method File(record: Record)
      requires Valid()
      requires record.request.binding.operationId !in records
      requires record.request.binding.idempotencyKey !in idempotency
      requires record.externalExecutionId !in external
      modifies this
      ensures Valid() && records == old(records)[record.request.binding.operationId := record]
    {
      records := records[record.request.binding.operationId := record];
      idempotency := idempotency[record.request.binding.idempotencyKey := record];
      external := external[record.externalExecutionId := record];
    }

    method Register(input: ClaimInput) returns (record: Record)
      requires Valid()
      requires input.request.binding.operationId !in records
      requires input.request.binding.idempotencyKey !in idempotency
      requires input.externalExecutionId !in external
      modifies this
      ensures Valid() && fresh(record) && record.AsEntry() == Registered(input)
      ensures records == old(records)[input.request.binding.operationId := record]
      ensures View() == old(View())[input.request.binding.operationId := Registered(input)]
    {
      record := new Record(input);
      File(record);
    }

    method Claim(input: ClaimInput) returns (r: Result<Receipt, Error>)
      requires Valid()
      modifies this
      ensures Valid() && fresh(records.Values - old(records.Values))
      ensures (View(), r) == Claimed(old(View()), input)
    {
      var b := input.request.binding;
      Lookups(b.idempotencyKey, input.externalExecutionId);
      if !input.wellShaped { return Err(MalformedInput); }
      if |input.externalExecutionId| < 8 || input.observedAt.Noncanonical? { return Err(RegistryFailure); }
      if b.idempotencyKey in idempotency {
        var keyed := idempotency[b.idempotencyKey];
        if keyed.request == input.request { return Ok(Receipt(false, keyed.AsEntry())); }
        return Err(IdempotencyConflict);
      }
      if b.operationId in records {
        var existing := records[b.operationId].request.binding;
        if existing.principal != b.principal { return Err(PrincipalSubstitution); }
        if existing.authority != b.authority { return Err(AuthorityWidening); }
        return Err(OperationBindingConflict);
      }
      if input.externalExecutionId in external { return Err(ExternalExecutionIdConflict); }
      var record := Register(input);
      r := Ok(Receipt(true, record.AsEntry()));
    }

    /** The record a query is bound to. */
    method RequireBound(q: Query) returns (r: Result<Record, Error>)
      requires Valid()
      ensures var bound := BindingError(Lookup(View(), q.binding.operationId), q);
              if bound.Some? then r == Err(bound.value)
              else r.Ok? && q.binding.operationId in records && r.value == records[q.binding.operationId]
    {
      var op := q.binding.operationId;
      if op !in records || q.binding.idempotencyKey !in idempotency
        || idempotency[q.binding.idempotencyKey] != records[op] {
        return Err(UnknownSubmission);
      }
      var bound := BindingError(Some(records[op].AsEntry()), q);
      r := if bound.Some? then Err(bound.value) else Ok(records[op]);
    }

    method Get(q: Query) returns (r: Result<Entry, Error>)
      requires Valid()
      ensures var bound := BindingError(Lookup(View(), q.binding.operationId), q);
              r == if bound.Some? then Err(bound.value) else Ok(View()[q.binding.operationId])
    {
      var record := RequireBound(q);
      r := if record.Err? then Err(record.error) else Ok(record.value.AsEntry());
    }

    method Observe(input: ObserveInput) returns (r: Result<Entry, Error>)
      requires Valid()
      modifies records.Values
      ensures Valid() && records == old(records)
      ensures (View(), r) == Observed(old(View()), input)
    {
      ghost var t := View();
      if !input.wellShaped { return Err(MalformedInput); }
      var bound := RequireBound(input.request);
      if bound.Err? { return Err(bound.error); }
      var record := bound.value;
      var refused := ObservationError(record.AsEntry(), input);
      if refused.Some? { return Err(refused.value); }
      record.Advance(input);
      assert View() == t[input.request.binding.operationId := Advanced(t[input.request.binding.operationId], input)];
      r := Ok(record.AsEntry());
    }
  }

  // ---------------------------------------------------------------- hydration

  function ClaimFor(e: Entry): ClaimInput {
    ClaimInput(true, e.request, e.externalExecutionId, e.observedAt)
  }

  function ObservationFor(e: Entry, sequence: nat): ObserveInput {
    ObserveInput(true, Query(e.request.binding, Some(e.externalExecutionId), sequence),
                 e.state, e.lastCode, e.observedAt, e.evidence)
  }

  ghost function Replayed(t: Table, e: Entry, current: nat): Result<Table, Error>
    decreases e.sequence - current
  {
    if current >= e.sequence then Ok(t)
    else
      var (t', r) := Observed(t, ObservationFor(e, current));
      if r.Err? then Err(r.error) else Replayed(t', e, r.value.sequence)
  }

  ghost function Rebuilt(t: Table, e: Entry): Result<Table, Error> {
    var (t', r) := Claimed(t, ClaimFor(e));
    if r.Err? then Err(r.error) else Replayed(t', e, r.value.entry.sequence)
  }

  ghost function Hydrated(t: Table, entries: seq<Entry>): Result<Table, Error>
    decreases |entries|
  {
    if entries == [] then Ok(t)
    else
      var r := Rebuilt(t, entries[0]);
      if r.Err? then r else Hydrated(r.value, entries[1..])
  }

  lemma {:induction false} HydratedAppend(t: Table, entries: seq<Entry>, e: Entry)
    ensures Hydrated(t, entries + [e]) ==
            var r := Hydrated(t, entries); if r.Err? then r else Rebuilt(r.value, e)
    decreases |entries|
  {
    if entries == [] {
      assert entries + [e] == [e];
    } else {
      assert (entries + [e])[1..] == entries[1..] + [e];
      var r := Rebuilt(t, entries[0]);
      if r.Ok? { HydratedAppend(r.value, entries[1..], e); }
    }
  }

  lemma {:induction false} HydratedStops(t: Table, entries: seq<Entry>, k: nat)
    requires k <= |entries| && Hydrated(t, entries[..k]).Err?
    ensures Hydrated(t, entries) == Hydrated(t, entries[..k])
    decreases |entries| - k
  {
    if k == |entries| {
      assert entries[..k] == entries;
    } else {
      assert entries[..k + 1] == entries[..k] + [entries[k]];
      HydratedAppend(t, entries[..k], entries[k]);
      HydratedStops(t, entries, k + 1);
    }
  }

  lemma ReplayedOnce(t: Table, e: Entry, current: nat)
    requires current < e.sequence
    ensures var (t', r) := Observed(t, ObservationFor(e, current));
            Replayed(t, e, current) == if r.Err? then Err(r.error) else Replayed(t', e, current + 1)
    ensures var (t', r) := Observed(t, ObservationFor(e, current)); r.Ok? ==> r.value.sequence == current + 1
  {
  }

  method Replay(registry: Registry, e: Entry, start: Entry) returns (r: Option<Error>)
    requires registry.Valid()
    modifies registry.records.Values
    ensures registry.Valid() && registry.records == old(registry.records)
    ensures Replayed(old(registry.View()), e, start.sequence) == if r.None? then Ok(registry.View()) else Err(r.value)
  {
    var current := start;
    while current.sequence < e.sequence
      invariant registry.Valid() && registry.records == old(registry.records)
      invariant Replayed(old(registry.View()), e, start.sequence) == Replayed(registry.View(), e, current.sequence)
    {
      ReplayedOnce(registry.View(), e, current.sequence);
      var observed := registry.Observe(ObservationFor(e, current.sequence));
      if observed.Err? { return Some(observed.error); }
      current := observed.value;
    }
    r := None;
  }

  method Rebuild(registry: Registry, e: Entry) returns (r: Option<Error>)
    requires registry.Valid()
    modifies registry, registry.records.Values
    ensures registry.Valid() && fresh(registry.records.Values - old(registry.records.Values))
    ensures Rebuilt(old(registry.View()), e) == if r.None? then Ok(registry.View()) else Err(r.value)
  {
    var claimed := registry.Claim(ClaimFor(e));
    if claimed.Err? { return Some(claimed.error); }
    r := Replay(registry, e, claimed.value.entry);
  }

  method Hydrate(entries: seq<Entry>) returns (r: Result<Registry, Error>)
    ensures r.Ok? ==> fresh(r.value) && fresh(r.value.records.Values) && r.value.Valid()
    ensures Hydrated(map[], entries) == if r.Ok? then Ok(r.value.View()) else Err(r.error)
  {
    var registry := new Registry();
    for i := 0 to |entries|
      invariant fresh(registry) && fresh(registry.records.Values) && registry.Valid()
      invariant Hydrated(map[], entries[..i]) == Ok(registry.View())
    {
      assert entries[..i + 1] == entries[..i] + [entries[i]];
      HydratedAppend(map[], entries[..i], entries[i]);
      var failed := Rebuild(registry, entries[i]);
      if failed.Some? {
        HydratedStops(map[], entries, i + 1);
        return Err(failed.value);
      }
    }
    assert entries[..|entries|] == entries;
    r := Ok(registry);
  }

  ghost function TableOf(entries: seq<Entry>): (t: Table) {
    if entries == [] then map[]
    else TableOf(entries[..|entries| - 1])[OperationOf(entries[|entries| - 1]) := entries[|entries| - 1]]
  }

  /** What a validated envelope guarantees of its entries' identities. */
  ghost predicate DistinctIdentities(entries: seq<Entry>) {
    && (forall i, j :: 0 <= i < j < |entries| ==> OperationOf(entries[i]) != OperationOf(entries[j]))
    && (forall i, j :: 0 <= i < j < |entries| ==> KeyOf(entries[i]) != KeyOf(entries[j]))
  }

  ghost predicate DistinctExternals(entries: seq<Entry>) {
    forall i, j :: 0 <= i < j < |entries| ==> entries[i].externalExecutionId != entries[j].externalExecutionId
  }

  ghost predicate Lists(entries: seq<Entry>, t: Table) {
    DistinctIdentities(entries) && TableOf(entries) == t
  }

  lemma {:induction false} TableOfContents(entries: seq<Entry>)
    requires DistinctIdentities(entries)
    ensures forall i :: 0 <= i < |entries| ==> Lookup(TableOf(entries), OperationOf(entries[i])) == Some(entries[i])
    ensures forall op :: op in TableOf(entries) ==>
              TableOf(entries)[op] in entries && OperationOf(TableOf(entries)[op]) == op
  {
    if entries != [] { TableOfContents(entries[..|entries| - 1]); }
  }

  lemma {:induction false} ReplayReaches(t: Table, e: Entry, k: nat)
    requires 2 <= k <= e.sequence && Replayable(e)
    requires Lookup(t, OperationOf(e)) == Some(e.(sequence := k))
    ensures Replayed(t, e, k) == Ok(t[OperationOf(e) := e])
    decreases e.sequence - k
  {
    if k == e.sequence {
      assert t == t[OperationOf(e) := e];
    } else {
      var t' := t[OperationOf(e) := e.(sequence := k + 1)];
      assert Observed(t, ObservationFor(e, k)).0 == t';
      ReplayReaches(t', e, k + 1);
      assert t'[OperationOf(e) := e] == t[OperationOf(e) := e];
    }
  }

  /** Replaying an entry touches no other operation. */
  lemma {:induction false} ReplayedFrame(t: Table, e: Entry, k: nat)
    requires Replayed(t, e, k).Ok?
    ensures var t' := Replayed(t, e, k).value;
            && t'.Keys <= t.Keys + {OperationOf(e)}
            && forall op :: op in t && op != OperationOf(e) ==> op in t' && t'[op] == t[op]
    decreases e.sequence - k
  {
    if k < e.sequence {
      var (t', r) := Observed(t, ObservationFor(e, k));
      ReplayedFrame(t', e, r.value.sequence);
    }
  }

  lemma {:induction false} RebuiltFrame(t: Table, e: Entry)
    requires Rebuilt(t, e).Ok?
    ensures var t' := Rebuilt(t, e).value;
            && t'.Keys <= t.Keys + {OperationOf(e)}
            && forall op :: op in t && op != OperationOf(e) ==> op in t' && t'[op] == t[op]
  {
    var (t', r) := Claimed(t, ClaimFor(e));
    ReplayedFrame(t', e, r.value.entry.sequence);
  }

  ghost predicate Unclaimed(t: Table, e: Entry) {
    OperationOf(e) !in t && forall op :: !HoldsKey(t, op, KeyOf(e))
  }

  /** The first observation of a replay is accepted exactly when the entry is replayable. */
  lemma FirstReplay(t: Table, e: Entry)
    requires Lookup(t, OperationOf(e)) == Some(Registered(ClaimFor(e)))
    requires |e.externalExecutionId| >= 8 && e.observedAt.Canonical?
    ensures Replayed(t, e, 1) == Ok(t[OperationOf(e) := e]) <==> Replayable(e)
  {
    var op := OperationOf(e);
    if e.sequence >= 2 {
      var (t', r) := Observed(t, ObservationFor(e, 1));
      if Replayable(e) {
        ReplayReaches(t', e, 2);
        assert t'[op := e] == t[op := e];
      } else {
        assert r.Err?;
      }
    } else if Replayable(e) {
      assert t == t[op := e];
    } else {
      assert t[op := e][op] == e;
    }
  }

  lemma RebuiltExactly(t: Table, e: Entry)
    requires Unclaimed(t, e)
    ensures Rebuilt(t, e) == Ok(t[OperationOf(e) := e])
       <==> Replayable(e) && forall op :: !HoldsExternal(t, op, e.externalExecutionId)
  {
    var (t', r) := Claimed(t, ClaimFor(e));
    forall op ensures !HoldsKey(t, op, ClaimFor(e).request.binding.idempotencyKey) {
      assert !HoldsKey(t, op, KeyOf(e));
    }
    if r.Ok? {
      assert t' == t[OperationOf(e) := Registered(ClaimFor(e))];
      FirstReplay(t', e);
      assert t'[OperationOf(e) := e] == t[OperationOf(e) := e];
    }
  }

  lemma {:induction false} HydratedKeys(entries: seq<Entry>)
    requires Hydrated(map[], entries).Ok?
    ensures forall op :: op in Hydrated(map[], entries).value ==>
              exists i :: 0 <= i < |entries| && OperationOf(entries[i]) == op
  {
    if entries != [] {
      var n := |entries| - 1;
      assert entries == entries[..n] + [entries[n]];
      HydratedAppend(map[], entries[..n], entries[n]);
      HydratedKeys(entries[..n]);
      RebuiltFrame(Hydrated(map[], entries[..n]).value, entries[n]);
    }
  }

  lemma DistinctFront(front: seq<Entry>, e: Entry)
    requires DistinctIdentities(front + [e])
    ensures DistinctIdentities(front)
    ensures forall i :: 0 <= i < |front| ==> OperationOf(front[i]) != OperationOf(e) && KeyOf(front[i]) != KeyOf(e)
    ensures Unclaimed(TableOf(front), e)
  {
    var all := front + [e];
    assert forall i :: 0 <= i < |front| ==> all[i] == front[i];
    assert all[|front|] == e;
    TableOfContents(front);
  }

  /** If the last entry comes out right, so did everything before it. */
  lemma HydratedLast(front: seq<Entry>, e: Entry)
    requires DistinctIdentities(front + [e])
    ensures Hydrated(map[], front + [e]) == Ok(TableOf(front)[OperationOf(e) := e]) <==>
              Hydrated(map[], front) == Ok(TableOf(front))
              && Rebuilt(TableOf(front), e) == Ok(TableOf(front)[OperationOf(e) := e])
  {
    HydratedAppend(map[], front, e);
    DistinctFront(front, e);
    var f := TableOf(front);
    if Hydrated(map[], front + [e]) == Ok(f[OperationOf(e) := e]) {
      HydratedKeys(front);
      var h := Hydrated(map[], front).value;
      assert OperationOf(e) !in h;
      RebuiltFrame(h, e);
      assert h == f;
    }
  }

  lemma ExternalsOf(entries: seq<Entry>, id: string)
    requires DistinctIdentities(entries)
    ensures (forall op :: !HoldsExternal(TableOf(entries), op, id))
       <==> forall i :: 0 <= i < |entries| ==> entries[i].externalExecutionId != id
  {
    TableOfContents(entries);
    forall i | 0 <= i < |entries| && entries[i].externalExecutionId == id
      ensures HoldsExternal(TableOf(entries), OperationOf(entries[i]), id) {}
  }

  /** Hydrating a validated envelope rebuilds exactly its entries if and only if each of them is replayable and
      no two share an external execution id. */
  lemma {:induction false} HydrationRoundTrip(entries: seq<Entry>)
    requires DistinctIdentities(entries)
    ensures Hydrated(map[], entries) == Ok(TableOf(entries))
       <==> (forall i :: 0 <= i < |entries| ==> Replayable(entries[i])) && DistinctExternals(entries)
  {
    if entries != [] {
      var n := |entries| - 1;
      var front, e := entries[..n], entries[n];
      assert entries == front + [e];
      HydratedLast(front, e);
      HydrationRoundTrip(front);
      DistinctFront(front, e);
      var f := TableOf(front);
      RebuiltExactly(f, e);
      ExternalsOf(front, e.externalExecutionId);
    }
  }

  /** Every table reached by calls is rebuilt exactly from any listing of it. */
  lemma TrackedHydrates(t: Table, entries: seq<Entry>)
    requires Tracked(t) && Lists(entries, t)
    ensures Hydrated(map[], entries) == Ok(t)
  {
    TableOfContents(entries);
    HydrationRoundTrip(entries);
  }
}
