/** The logical (version 1) submission registry: the plain in-memory one, and the durable one that keeps its entries in
    a generation-numbered file and rebuilds its maps for every call. */
module LogicalRegistry {
  import opened Wrappers

  datatype Classification =
    | Accepted | Running | Succeeded | Failed | Cancelled | Rejected
    | Unranked(text: string)   // unknown, indeterminate and the failure classes
    | Unlisted(text: string)

  predicate Terminal(c: Classification) { c.Succeeded? || c.Failed? || c.Cancelled? || c.Rejected? }

  function Rank(c: Classification): Option<nat> {
    match c
    case Accepted => Some(1)
    case Running => Some(2)
    case Unranked(_) => None
    case Unlisted(_) => None
    case _ => Some(3)
  }

  /** `operation` is the operation id's place in the collation order that entries are sorted by; object-valued fields
      stand for their canonical serialization, and `rest` for the fields no check looks at. */
  datatype Request = Request(
    operation: nat, key: string, intent: string, principal: string, authority: string,
    workspace: string, repository: string, rest: string)

  datatype Query = Query(request: Request, external: Option<string>, after: int)

  datatype Entry = Entry(
    request: Request, external: string, state: Classification, sequence: nat, observedAt: string,
    lastCode: Option<string>)

  type Table = map<nat, Entry>

  datatype Error =
    | IdempotencyConflict | PrincipalSubstitution | AuthorityWidening | WorkspaceRepositoryMismatch
    | OperationBindingConflict | ExternalExecutionIdConflict | UnknownSubmission | IntentFingerprintMismatch
    | ForgedExternalExecutionId | MalformedProtocolMessage | StaleObservationSequence | ResultStateRegression
    | StaleRegistryGeneration | RegistryStorageFailure | MalformedPersistentState

  /** Inputs that pass both registries' own shape checks: plain fields, canonical timestamps, codes and external ids of
      the permitted form. */
  datatype Call =
    | Claim(request: Request, external: string, observedAt: string)
    | Get(query: Query)
    | Observe(query: Query, classification: Classification, code: string, observedAt: string)

  datatype Answer = Claimed(created: bool, entry: Entry) | Found(entry: Entry) | Refused(error: Error)

  // ---------------------------------------------------------------- what one call means

  ghost predicate HoldsKey(t: Table, op: nat, key: string) { op in t && t[op].request.key == key }

  ghost predicate HoldsExternal(t: Table, op: nat, id: string) { op in t && t[op].external == id }

  ghost predicate Indexed(t: Table) {
    && (forall op :: op in t ==> t[op].request.operation == op)
    && (forall a, b :: a in t && b in t && t[a].request.key == t[b].request.key ==> a == b)
    && (forall a, b :: a in t && b in t && t[a].external == t[b].external ==> a == b)
  }

  function Mismatch(e: Entry, r: Request): Option<Error> {
    if e.request.principal != r.principal then Some(PrincipalSubstitution)
    else if e.request.authority != r.authority then Some(AuthorityWidening)
    else if e.request.workspace != r.workspace || e.request.repository != r.repository
           then Some(WorkspaceRepositoryMismatch)
    else None
  }

  function BindingError(e: Entry, q: Query): Option<Error> {
    if Mismatch(e, q.request).Some? then Mismatch(e, q.request)
    else if e.request.intent != q.request.intent then Some(IntentFingerprintMismatch)
    else if q.external.Some? && q.external.value != e.external then Some(ForgedExternalExecutionId)
    else None
  }

  function Bound(t: Table, q: Query): Result<Entry, Error> {
    var op := q.request.operation;
    if op !in t || t[op].request.key != q.request.key then Err(UnknownSubmission)
    else if BindingError(t[op], q).Some? then Err(BindingError(t[op], q).value)
    else Ok(t[op])
  }

  function Observing(e: Entry, c: Call): Result<Entry, Error>
    requires c.Observe?
  {
    if c.classification.Unlisted? then Err(MalformedProtocolMessage)
    else if c.query.after != e.sequence then Err(StaleObservationSequence)
    else if Terminal(e.state) && c.classification != e.state then Err(ResultStateRegression)
    else if Rank(e.state).Some? && Rank(c.classification).Some?
            && Rank(c.classification).value < Rank(e.state).value then
      Err(ResultStateRegression)
    else Ok(e.(state := c.classification, sequence := e.sequence + 1, observedAt := c.observedAt,
               lastCode := Some(c.code)))
  }

  function Fresh(c: Call): Entry
    requires c.Claim?
  {
    Entry(c.request, c.external, Accepted, 1, c.observedAt, None)
  }

  /** What the in-memory registry answers and becomes. */
  ghost function Step(t: Table, c: Call): (Table, Answer) {
    match c
    case Claim(r, external, _) =>
      if exists op :: HoldsKey(t, op, r.key) then
        var op :| HoldsKey(t, op, r.key);
        (t, if t[op].request == r then Claimed(false, t[op]) else Refused(IdempotencyConflict))
      else if r.operation in t then
        (t, Refused(if Mismatch(t[r.operation], r).Some? then Mismatch(t[r.operation], r).value
                    else OperationBindingConflict))
      else if exists op :: HoldsExternal(t, op, external) then (t, Refused(ExternalExecutionIdConflict))
      else (t[r.operation := Fresh(c)], Claimed(true, Fresh(c)))
    case Get(q) => (t, match Bound(t, q) case Ok(e) => Found(e) case Err(error) => Refused(error))
    case Observe(q, _, _, _) =>
      match Bound(t, q)
      case Err(error) => (t, Refused(error))
      case Ok(e) =>
        match Observing(e, c)
        case Err(error) => (t, Refused(error))
        case Ok(next) => (t[q.request.operation := next], Found(next))
  }

  lemma StepKeeps(t: Table, c: Call)
    requires Indexed(t)
    ensures Indexed(Step(t, c).0)
  {
    var t' := Step(t, c).0;
    if t' != t && c.Claim? {
      var op := c.request.operation;
      forall a | a in t ensures t[a].request.key != c.request.key && t[a].external != c.external {
        assert !HoldsKey(t, a, c.request.key) && !HoldsExternal(t, a, c.external);
      }
    }
  }

  // ---------------------------------------------------------------- what calls are answered

  /** A key already used answers its own entry to an exact repeat and a conflict to anything else. */
  lemma ClaimReplays(t: Table, op: nat, c: Call)
    requires Indexed(t) && c.Claim? && op in t && t[op].request.key == c.request.key
    ensures Step(t, c) ==
            (t, if t[op].request == c.request then Claimed(false, t[op]) else Refused(IdempotencyConflict))
  {
    assert HoldsKey(t, op, c.request.key);
  }

  /** With a new key, an operation or an external id already filed is refused, and the operation's refusal names the
      first of principal, authority and place that differs; with all three new the entry is created. */
  lemma ClaimAnswers(t: Table, c: Call)
    requires Indexed(t) && c.Claim? && forall op :: op in t ==> t[op].request.key != c.request.key
    ensures c.request.operation in t ==>
              var held, r := t[c.request.operation].request, c.request;
              && Step(t, c).0 == t && Step(t, c).1.Refused?
              && (Step(t, c).1.error.PrincipalSubstitution? <==> held.principal != r.principal)
              && (Step(t, c).1.error.AuthorityWidening? <==>
                    held.principal == r.principal && held.authority != r.authority)
              && (Step(t, c).1.error.OperationBindingConflict? <==>
                    held.principal == r.principal && held.authority == r.authority
                    && held.workspace == r.workspace && held.repository == r.repository)
              && (Step(t, c).1.error.WorkspaceRepositoryMismatch? <==>
                    held.principal == r.principal && held.authority == r.authority
                    && (held.workspace != r.workspace || held.repository != r.repository))
    ensures c.request.operation !in t && (exists op :: op in t && t[op].external == c.external) ==>
              Step(t, c) == (t, Refused(ExternalExecutionIdConflict))
    ensures c.request.operation !in t && (forall op :: op in t ==> t[op].external != c.external) ==>
              Step(t, c) == (t[c.request.operation := Fresh(c)], Claimed(true, Fresh(c)))
              && Fresh(c) == Entry(c.request, c.external, Accepted, 1, c.observedAt, None)
  {
    forall op ensures !HoldsKey(t, op, c.request.key) {}
    forall op | op in t && t[op].external == c.external ensures HoldsExternal(t, op, c.external) {}
  }

  /** The states an entry may be observed in next, by its state now. */
  predicate MayBecome(from: Classification, to: Classification) {
    match from
    case Succeeded => to.Succeeded?
    case Failed => to.Failed?
    case Cancelled => to.Cancelled?
    case Rejected => to.Rejected?
    case Running => !to.Accepted?
    case _ => true
  }

  /** A query reaches an entry exactly when it repeats its key and binding, and its external id where it names one. */
  lemma BoundMeans(t: Table, q: Query)
    ensures var op := q.request.operation;
            Bound(t, q).Ok? <==>
              op in t
              && var r := t[op].request;
                 && q.request.key == r.key && q.request.principal == r.principal && q.request.authority == r.authority
                 && q.request.workspace == r.workspace && q.request.repository == r.repository
                 && q.request.intent == r.intent && (q.external in {None, Some(t[op].external)})
    ensures Bound(t, q).Ok? ==> Bound(t, q).value == t[q.request.operation]
  {
  }

  /** An observation moves its entry exactly when the query reaches it, names the current sequence and is of a lawful
      next state; it then leaves the observed state one sequence on, and the same observation again is stale. */
  lemma ObserveMoves(t: Table, c: Call)
    requires Indexed(t) && c.Observe?
    ensures Step(t, c).1.Found? <==>
              && Bound(t, c.query).Ok? && !c.classification.Unlisted?
              && c.query.after == t[c.query.request.operation].sequence
              && MayBecome(t[c.query.request.operation].state, c.classification)
    ensures Step(t, c).1.Found? ==>
              var op, e := c.query.request.operation, Step(t, c).1.entry;
              && Step(t, c).0 == t[op := e] && e.request == t[op].request && e.external == t[op].external
              && e.state == c.classification && e.sequence == t[op].sequence + 1 && e.observedAt == c.observedAt
              && Step(Step(t, c).0, c) == (Step(t, c).0, Refused(StaleObservationSequence))
  {
  }

  // ---------------------------------------------------------------- the in-memory registry

  datatype Maps = Maps(operations: map<nat, Entry>, keys: map<string, Entry>, externals: map<string, Entry>)

  ghost predicate ByKey(keys: map<string, Entry>, t: Table) {
    && (forall k :: k in keys ==>
          keys[k].request.key == k && keys[k].request.operation in t && t[keys[k].request.operation] == keys[k])
    && (forall op :: op in t ==> t[op].request.key in keys && keys[t[op].request.key] == t[op])
  }

  ghost predicate ByExternal(externals: map<string, Entry>, t: Table) {
    && (forall x :: x in externals ==>
          externals[x].external == x && externals[x].request.operation in t
          && t[externals[x].request.operation] == externals[x])
    && (forall op :: op in t ==> t[op].external in externals && externals[t[op].external] == t[op])
  }

  /** The maps index the same entries three ways. */
  ghost predicate Indexes(m: Maps, t: Table) {
    m.operations == t && ByKey(m.keys, t) && ByExternal(m.externals, t)
  }

  function Filed(m: Maps, e: Entry): Maps {
    Maps(m.operations[e.request.operation := e], m.keys[e.request.key := e], m.externals[e.external := e])
  }

  lemma FiledByKey(keys: map<string, Entry>, t: Table, e: Entry)
    requires ByKey(keys, t)
    requires forall op :: op in t ==> (t[op].request.key == e.request.key <==> op == e.request.operation)
    ensures ByKey(keys[e.request.key := e], t[e.request.operation := e])
  {
  }

  lemma FiledByExternal(externals: map<string, Entry>, t: Table, e: Entry)
    requires ByExternal(externals, t)
    requires forall op :: op in t ==> (t[op].external == e.external <==> op == e.request.operation)
    ensures ByExternal(externals[e.external := e], t[e.request.operation := e])
  {
  }

  lemma FiledIndexes(m: Maps, t: Table, e: Entry)
    requires Indexes(m, t) && Indexed(t[e.request.operation := e])
    requires e.request.operation in t ==>
               t[e.request.operation].request.key == e.request.key && t[e.request.operation].external == e.external
    ensures Indexes(Filed(m, e), t[e.request.operation := e])
  {
    forall op | op in t
      ensures t[op].request.key == e.request.key <==> op == e.request.operation
      ensures t[op].external == e.external <==> op == e.request.operation
    {
      var t' := t[e.request.operation := e];
      assert op in t' && e.request.operation in t' && t'[e.request.operation] == e;
      assert op != e.request.operation ==> t'[op] == t[op];
    }
    FiledByKey(m.keys, t, e);
    FiledByExternal(m.externals, t, e);
  }

  function BoundIn(m: Maps, q: Query): Result<Entry, Error> {
    if q.request.operation !in m.operations || q.request.key !in m.keys
       || m.operations[q.request.operation] != m.keys[q.request.key] then Err(UnknownSubmission)
    else if BindingError(m.operations[q.request.operation], q).Some? then
      Err(BindingError(m.operations[q.request.operation], q).value)
    else Ok(m.operations[q.request.operation])
  }

  /** A call decided from the maps: the entry to file, if any, and the answer. */
  function Decided(m: Maps, c: Call): (Option<Entry>, Answer) {
    match c
    case Claim(r, external, _) =>
      if r.key in m.keys then
        (None, if m.keys[r.key].request == r then Claimed(false, m.keys[r.key]) else Refused(IdempotencyConflict))
      else if r.operation in m.operations then
        var mismatch := Mismatch(m.operations[r.operation], r);
        (None, Refused(if mismatch.Some? then mismatch.value else OperationBindingConflict))
      else if external in m.externals then (None, Refused(ExternalExecutionIdConflict))
      else (Some(Fresh(c)), Claimed(true, Fresh(c)))
    case Get(q) => (None, match BoundIn(m, q) case Ok(e) => Found(e) case Err(error) => Refused(error))
    case Observe(q, _, _, _) =>
      match BoundIn(m, q)
      case Err(error) => (None, Refused(error))
      case Ok(e) =>
        match Observing(e, c)
        case Err(error) => (None, Refused(error))
        case Ok(next) => (Some(next), Found(next))
  }

  lemma BoundAgrees(m: Maps, t: Table, q: Query)
    requires Indexes(m, t) && Indexed(t)
    ensures BoundIn(m, q) == Bound(t, q)
  {
  }

  lemma ClaimAgrees(m: Maps, t: Table, c: Call)
    requires Indexes(m, t) && Indexed(t) && c.Claim?
    ensures var (filed, answer) := Decided(m, c);
            Step(t, c) == (if filed.Some? then t[filed.value.request.operation := filed.value] else t, answer)
  {
    var r := c.request;
    if r.key in m.keys { assert HoldsKey(t, m.keys[r.key].request.operation, r.key); }
    if c.external in m.externals { assert HoldsExternal(t, m.externals[c.external].request.operation, c.external); }
  }

  /** Deciding from the three maps is the step on the table they index. */
  lemma DecidedSteps(m: Maps, t: Table, c: Call)
    requires Indexes(m, t) && Indexed(t)
    ensures var (filed, answer) := Decided(m, c);
            Step(t, c) == (if filed.Some? then t[filed.value.request.operation := filed.value] else t, answer)
    ensures var filed := Decided(m, c).0;
            filed.Some? ==>
              if c.Observe? then filed.value.request.operation in t
                 && filed.value.request == t[filed.value.request.operation].request
                                 && filed.value.external == t[filed.value.request.operation].external
                                 && filed.value.sequence == t[filed.value.request.operation].sequence + 1
              else filed.value.request.operation !in t
  {
    match c
    case Claim(_, _, _) => ClaimAgrees(m, t, c);
    case Get(q) => BoundAgrees(m, t, q);
    case Observe(q, _, _, _) => BoundAgrees(m, t, q);
  }

  class InMemory {
    var maps: Maps

    ghost predicate Valid()
      reads this
    {
      Indexed(maps.operations) && Indexes(maps, maps.operations)
    }

    constructor ()
      ensures Valid() && maps.operations == map[]
    {
      maps := Maps(map[], map[], map[]);
    }

    method Do(c: Call) returns (a: Answer)
      requires Valid()
      modifies this
      ensures Valid() && (maps.operations, a) == Step(old(maps.operations), c)
    {
      DecidedSteps(maps, maps.operations, c);
      StepKeeps(maps.operations, c);
      var (filed, answer) := Decided(maps, c);
      if filed.Some? {
        FiledIndexes(maps, maps.operations, filed.value);
        maps := Filed(maps, filed.value);
      }
      a := answer;
    }
  }
}
