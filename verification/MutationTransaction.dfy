/** A mutation transaction: a versioned value whose history only grows along the stage table, with a lock, a
    commit-authority evidence and a recovery evidence bound to it on the way. */
module MutationTransaction {
  import opened Wrappers

  datatype Stage =
    | Prepared | Locked | BeforeVerified | MutationStarted | CommitAuthorityVerified | PhysicalApplied | AfterVerified
    | EvidenceRecorded | FinalizedSuccess | FinalizedFailed | RecoveryRequired | Recovered | RecoveryUnresolved

  predicate Final(s: Stage) { s.FinalizedSuccess? || s.FinalizedFailed? || s.RecoveryUnresolved? }

  predicate RecoveryOutcome(s: Stage) { s.Recovered? || s.RecoveryUnresolved? }

  /** The stage table. */
  predicate Allows(from: Stage, to: Stage) {
    match from
    case Prepared => to.Locked? || to.FinalizedFailed? || to.RecoveryRequired?
    case Locked => to.BeforeVerified? || to.FinalizedFailed? || to.RecoveryRequired?
    case BeforeVerified => to.MutationStarted? || to.FinalizedFailed? || to.RecoveryRequired?
    case MutationStarted => to.CommitAuthorityVerified? || to.FinalizedFailed? || to.RecoveryRequired?
    case CommitAuthorityVerified => to.PhysicalApplied? || to.FinalizedFailed? || to.RecoveryRequired?
    case PhysicalApplied => to.AfterVerified? || to.RecoveryRequired?
    case AfterVerified => to.EvidenceRecorded? || to.RecoveryRequired?
    case EvidenceRecorded => to.FinalizedSuccess? || to.FinalizedFailed? || to.RecoveryRequired?
    case RecoveryRequired => to.Recovered? || to.RecoveryUnresolved?
    case Recovered => to.EvidenceRecorded?
    case _ => false
  }

  datatype Subject = Subject(
    operationId: string, workspace: string, target: string, before: string, replacement: string,
    grant: string, approval: string, identity: string)

  datatype Definition = Definition(subject: Subject, idempotencyKey: string)

  /** Digests are injective: the one derived from a definition is that definition. */
  datatype TransactionId = OfDefinition(definition: Definition) | ForgedId(text: string)

  datatype LockId = OfTarget(workspace: string, target: string) | ForgedLockId(text: string)

  datatype Fingerprint =
    | OfAuthority(fields: AuthorityFields)
    | OfRecovery(recovery: RecoveryFields)
    | ForgedFingerprint(text: string)

  /** `wellShaped` stands for the checks that read nothing but the lock's own schema, owner and timestamp fields. */
  datatype Lock = Lock(
    transactionId: TransactionId, operationId: string, workspace: string, target: string, lockId: LockId,
    ownerToken: string, wellShaped: bool)

  /** `allowed` stands for the checks on policy, risk, capability and the evaluated clock reading. */
  datatype AuthorityFields = AuthorityFields(transactionId: TransactionId, subject: Subject, evaluation: string,
                                             allowed: bool)

  datatype Authority = Authority(fields: AuthorityFields, fingerprint: Fingerprint)

  datatype RecoveryFields = RecoveryFields(
    transactionId: TransactionId, operationId: string, workspace: string, target: string, unresolved: bool,
    observed: string)

  datatype Recovery = Recovery(fields: RecoveryFields, fingerprint: Fingerprint)

  /** What a history event carries besides its sequence and stage. */
  datatype Mark =
    | Unmarked
    | LockMark(lockId: LockId)
    | AuthorityMark(authority: Fingerprint)
    | RecoveryMark(recovery: Fingerprint)

  datatype HistoryEvent = HistoryEvent(sequence: nat, stage: Stage, mark: Mark)

  datatype Transaction = Transaction(
    transactionId: TransactionId, definition: Definition, version: nat, stage: Stage,
    lock: Option<Lock>, commitAuthority: Option<Authority>, recoveryEvidence: Option<Recovery>,
    history: seq<HistoryEvent>)

  predicate LockFits(d: Definition, lock: Lock) {
    && lock.wellShaped && lock.transactionId == OfDefinition(d) && lock.operationId == d.subject.operationId
    && lock.workspace == d.subject.workspace && lock.target == d.subject.target
    && lock.lockId == OfTarget(d.subject.workspace, d.subject.target)
  }

  predicate AuthorityFits(d: Definition, a: Authority) {
    && a.fields.transactionId == OfDefinition(d) && a.fields.subject == d.subject && a.fields.allowed
    && a.fingerprint == OfAuthority(a.fields)
  }

  predicate RecoveryFits(d: Definition, r: Recovery) {
    && r.fields.transactionId == OfDefinition(d) && r.fields.operationId == d.subject.operationId
    && r.fields.workspace == d.subject.workspace && r.fields.target == d.subject.target
    && r.fingerprint == OfRecovery(r.fields)
  }

  /** A mark must name what the transaction itself carries; any event may also go unmarked. */
  predicate MarkFits(t: Transaction, e: HistoryEvent) {
    match e.mark
    case Unmarked => true
    case LockMark(id) => e.stage.Locked? && t.lock.Some? && id == t.lock.value.lockId
    case AuthorityMark(f) =>
      e.stage.CommitAuthorityVerified? && t.commitAuthority.Some? && f == t.commitAuthority.value.fingerprint
    case RecoveryMark(f) =>
      RecoveryOutcome(e.stage) && t.recoveryEvidence.Some? && f == t.recoveryEvidence.value.fingerprint
  }

  predicate EventFits(t: Transaction, k: nat)
    requires k < |t.history|
  {
    && MarkFits(t, t.history[k]) && t.history[k].sequence == k + 1
    && if k == 0 then t.history[k].stage.Prepared? else Allows(t.history[k - 1].stage, t.history[k].stage)
  }

  predicate At(h: seq<HistoryEvent>, s: Stage) { exists k :: 0 <= k < |h| && h[k].stage == s }

  predicate HasOutcome(h: seq<HistoryEvent>) { At(h, Recovered) || At(h, RecoveryUnresolved) }

  /** The first event of a stage. */
  function First(h: seq<HistoryEvent>, s: Stage): Option<HistoryEvent> {
    if h == [] then None else if h[0].stage == s then Some(h[0]) else First(h[1..], s)
  }

  predicate HistoryFits(t: Transaction) { forall k :: 0 <= k < |t.history| ==> EventFits(t, k) }

  predicate LockBound(t: Transaction) {
    if !At(t.history, Locked) then t.lock.None? else t.lock.Some? && LockFits(t.definition, t.lock.value)
  }

  predicate AuthorityBound(t: Transaction) {
    var event := First(t.history, CommitAuthorityVerified);
    if event.None? then t.commitAuthority.None?
    else
      && t.commitAuthority.Some? && AuthorityFits(t.definition, t.commitAuthority.value)
      && event.value.mark == AuthorityMark(t.commitAuthority.value.fingerprint)
  }

  predicate RecoveryBound(t: Transaction) {
    if !HasOutcome(t.history) then t.recoveryEvidence.None?
    else t.recoveryEvidence.Some? ==> RecoveryFits(t.definition, t.recoveryEvidence.value)
  }

  /** What every operation demands of the transaction it is given. */
  predicate WellFormed(t: Transaction) {
    && t.transactionId == OfDefinition(t.definition) && t.version >= 1 && |t.history| == t.version
    && HistoryFits(t) && t.history[|t.history| - 1].stage == t.stage
    && LockBound(t) && AuthorityBound(t) && RecoveryBound(t)
  }

  method RequireTransaction(t: Transaction) returns (ok: bool)
    ensures ok <==> WellFormed(t)
  {
    if t.version < 1 || t.transactionId != OfDefinition(t.definition) || |t.history| != t.version { return false; }
    var previous := t.history[0].stage;
    for index := 0 to |t.history|
      invariant forall k :: 0 <= k < index ==> EventFits(t, k)
      invariant index > 0 ==> previous == t.history[index - 1].stage
    {
      var event := t.history[index];
      if !MarkFits(t, event) || event.sequence != index + 1
         || (index == 0 && event.stage != Prepared) || (index > 0 && !Allows(previous, event.stage)) {
        assert !EventFits(t, index);
        return false;
      }
      previous := event.stage;
    }
    ok := previous == t.stage && LockBound(t) && AuthorityBound(t) && RecoveryBound(t);
  }

  // ---------------------------------------------------------------- operations

  function Create(d: Definition): Transaction {
    Transaction(OfDefinition(d), d, 1, Prepared, None, None, None, [HistoryEvent(1, Prepared, Unmarked)])
  }

  function Extended(t: Transaction, stage: Stage, mark: Mark): Transaction {
    t.(version := t.version + 1, stage := stage, history := t.history + [HistoryEvent(t.version + 1, stage, mark)])
  }

  function BindLock(t: Transaction, lock: Lock): Option<Transaction> {
    if !WellFormed(t) || t.stage != Prepared || !LockFits(t.definition, lock) then None
    else
      Some(t.(version := 2, stage := Locked, lock := Some(lock),
              history := t.history + [HistoryEvent(2, Locked, LockMark(lock.lockId))]))
  }

  function BindAuthority(t: Transaction, a: Authority): Option<Transaction> {
    if !WellFormed(t) || t.stage != MutationStarted || !AuthorityFits(t.definition, a) then None
    else Some(Extended(t, CommitAuthorityVerified, AuthorityMark(a.fingerprint)).(commitAuthority := Some(a)))
  }

  function BindRecovery(t: Transaction, r: Recovery): Option<Transaction> {
    if !WellFormed(t) || t.stage != RecoveryRequired || !RecoveryFits(t.definition, r) then None
    else
      var stage := if r.fields.unresolved then RecoveryUnresolved else Recovered;
      Some(Extended(t, stage, RecoveryMark(r.fingerprint)).(recoveryEvidence := Some(r)))
  }

  function Transition(t: Transaction, next: Stage): Option<Transaction> {
    if !WellFormed(t) || Final(t.stage) || next == t.stage || next.Locked? || next.CommitAuthorityVerified?
       || !Allows(t.stage, next) then None
    else Some(Extended(t, next, Unmarked))
  }

  datatype Operation =
    | ToLock(lock: Lock) | ToAuthority(authority: Authority) | ToRecovery(recovery: Recovery) | ToStage(stage: Stage)

  function Applied(t: Transaction, op: Operation): Option<Transaction> {
    match op
    case ToLock(lock) => BindLock(t, lock)
    case ToAuthority(a) => BindAuthority(t, a)
    case ToRecovery(r) => BindRecovery(t, r)
    case ToStage(stage) => Transition(t, stage)
  }

  // ---------------------------------------------------------------- what operations keep

  lemma {:induction false} FirstIs(h: seq<HistoryEvent>, s: Stage)
    ensures First(h, s).Some? <==> At(h, s)
    ensures First(h, s).Some? ==> First(h, s).value in h && First(h, s).value.stage == s
  {
    if h != [] {
      FirstIs(h[1..], s);
      if At(h[1..], s) {
        var k :| 0 <= k < |h| - 1 && h[1..][k].stage == s;
        assert h[k + 1].stage == s;
      }
      if At(h, s) && h[0].stage != s {
        var k :| 0 <= k < |h| && h[k].stage == s;
        assert h[1..][k - 1].stage == s;
      }
    }
  }

  lemma {:induction false} FirstGrows(h: seq<HistoryEvent>, e: HistoryEvent, s: Stage)
    ensures First(h + [e], s) == if First(h, s).Some? then First(h, s) else if e.stage == s then Some(e) else None
  {
    if h == [] {
      assert (h + [e])[1..] == [];
    } else {
      assert (h + [e])[1..] == h[1..] + [e];
      FirstGrows(h[1..], e, s);
    }
  }

  lemma AtGrows(h: seq<HistoryEvent>, e: HistoryEvent, s: Stage)
    ensures At(h + [e], s) <==> At(h, s) || e.stage == s
  {
    if At(h, s) {
      var k :| 0 <= k < |h| && h[k].stage == s;
      assert (h + [e])[k].stage == s;
    }
    if e.stage == s { assert (h + [e])[|h|].stage == s; }
  }

  lemma CreateFits(d: Definition)
    ensures WellFormed(Create(d))
  {
    var h := Create(d).history;
    assert h[1..] == [];
    FirstIs(h, CommitAuthorityVerified);
  }

  /** Only the first event is PREPARED, so a PREPARED transaction is as created and binding a lock makes version 2. */
  lemma PreparedIsFresh(t: Transaction)
    requires WellFormed(t) && t.stage.Prepared?
    ensures t == Create(t.definition)
  {
    assert EventFits(t, t.version - 1);
    assert t.history == [t.history[0]];
    FirstIs(t.history, CommitAuthorityVerified);
  }

  /** Stages reached only past another one: none of these events exists before its predecessor. */
  predicate Before(s: Stage) { s.Prepared? || s.Locked? || s.BeforeVerified? || s.MutationStarted? }

  lemma {:induction false} StaysBefore(t: Transaction, k: nat)
    requires HistoryFits(t) && k < |t.history| && Before(t.history[k].stage)
    ensures forall j :: 0 <= j <= k ==> Before(t.history[j].stage)
  {
    if k > 0 {
      assert EventFits(t, k);
      StaysBefore(t, k - 1);
    }
  }

  /** A mark left by an earlier recovery that names other evidence. */
  predicate MarkedOtherwise(t: Transaction, f: Fingerprint) {
    exists k :: 0 <= k < |t.history| && t.history[k].mark.RecoveryMark? && t.history[k].mark.recovery != f
  }

  /** `u` carries at least what `t` carries, its recovery evidence possibly replaced. */
  predicate Keeps(t: Transaction, u: Transaction) {
    && (t.lock.Some? ==> u.lock.Some? && u.lock.value.lockId == t.lock.value.lockId)
    && (t.commitAuthority.Some? ==> u.commitAuthority == t.commitAuthority)
    && (u.recoveryEvidence == t.recoveryEvidence || u.recoveryEvidence.Some?)
  }

  lemma EventKept(t: Transaction, u: Transaction, k: nat)
    requires k < |t.history| < |u.history| && u.history[k] == t.history[k]
             && (k > 0 ==> u.history[k - 1] == t.history[k - 1])
    requires EventFits(t, k) && Keeps(t, u)
    ensures EventFits(u, k) <==>
              u.recoveryEvidence == t.recoveryEvidence
              || (t.history[k].mark.RecoveryMark? ==>
                    t.history[k].mark.recovery == u.recoveryEvidence.value.fingerprint)
  {
  }

  lemma MarksKept(t: Transaction, u: Transaction, e: HistoryEvent)
    requires HistoryFits(t) && u.history == t.history + [e] && EventFits(u, |t.history|) && Keeps(t, u)
    ensures HistoryFits(u) <==>
              u.recoveryEvidence == t.recoveryEvidence || !MarkedOtherwise(t, u.recoveryEvidence.value.fingerprint)
  {
    forall k | 0 <= k < |t.history|
      ensures EventFits(u, k) <==>
                u.recoveryEvidence == t.recoveryEvidence
                || (t.history[k].mark.RecoveryMark? ==>
                      t.history[k].mark.recovery == u.recoveryEvidence.value.fingerprint)
    {
      assert EventFits(t, k);
      EventKept(t, u, k);
    }
    if u.recoveryEvidence != t.recoveryEvidence && MarkedOtherwise(t, u.recoveryEvidence.value.fingerprint) {
      var k :| 0 <= k < |t.history| && t.history[k].mark.RecoveryMark?
        && t.history[k].mark.recovery != u.recoveryEvidence.value.fingerprint;
      assert !EventFits(u, k);
    }
  }

  lemma OperationShape(t: Transaction, op: Operation)
    requires Applied(t, op).Some?
    ensures var u := Applied(t, op).value;
            && u.definition == t.definition && u.transactionId == t.transactionId
            && u.version == t.version + 1 == |u.history| && u.history == t.history + [u.history[t.version]]
            && u.history[t.version].stage == u.stage && Allows(t.stage, u.stage) && EventFits(u, t.version)
  {
    if op.ToLock? { PreparedIsFresh(t); }
    assert EventFits(t, t.version - 1);
  }

  /** What is bound stays bound: the parts of well-formedness other than the history. */
  lemma BindingsGrow(t: Transaction, u: Transaction)
    requires WellFormed(t) && |u.history| == |t.history| + 1 && u.history == t.history + [u.history[|t.history|]]
    requires u.definition == t.definition
    requires u.history[|t.history|].stage.Locked? || u.lock == t.lock
    requires u.history[|t.history|].stage.Locked? ==> u.lock.Some? && LockFits(t.definition, u.lock.value)
    requires var e := u.history[|t.history|];
             if e.stage.CommitAuthorityVerified? then
               && !At(t.history, CommitAuthorityVerified) && u.commitAuthority.Some?
               && AuthorityFits(t.definition, u.commitAuthority.value)
               && e.mark == AuthorityMark(u.commitAuthority.value.fingerprint)
             else u.commitAuthority == t.commitAuthority
    requires if RecoveryOutcome(u.history[|t.history|].stage) then
               u.recoveryEvidence.Some? ==> RecoveryFits(t.definition, u.recoveryEvidence.value)
             else u.recoveryEvidence == t.recoveryEvidence
    ensures LockBound(u) && AuthorityBound(u) && RecoveryBound(u)
  {
    var e := u.history[|t.history|];
    AtGrows(t.history, e, Locked);
    AtGrows(t.history, e, Recovered);
    AtGrows(t.history, e, RecoveryUnresolved);
    FirstIs(t.history, CommitAuthorityVerified);
    FirstGrows(t.history, e, CommitAuthorityVerified);
  }

  lemma NotYetAuthorized(t: Transaction)
    requires WellFormed(t) && t.stage.MutationStarted?
    ensures !At(t.history, CommitAuthorityVerified) && t.commitAuthority.None?
  {
    StaysBefore(t, t.version - 1);
    FirstIs(t.history, CommitAuthorityVerified);
  }

  /** A second recovery must present the evidence of the first: every other operation leaves a transaction that the
      next one accepts. */
  lemma OperationKeeps(t: Transaction, op: Operation)
    requires Applied(t, op).Some?
    ensures WellFormed(Applied(t, op).value) <==> (op.ToRecovery? ==> !MarkedOtherwise(t, op.recovery.fingerprint))
  {
    var u := Applied(t, op).value;
    OperationShape(t, op);
    if op.ToAuthority? { NotYetAuthorized(t); }
    if op.ToLock? { PreparedIsFresh(t); }
    BindingsGrow(t, u);
    MarksKept(t, u, u.history[t.version]);
    if op.ToRecovery? && u.recoveryEvidence == t.recoveryEvidence {
      forall k | 0 <= k < |t.history| && t.history[k].mark.RecoveryMark?
        ensures t.history[k].mark.recovery == op.recovery.fingerprint
      {
        assert EventFits(t, k);
      }
    }
  }

  /** Nothing is applied, verified or recorded in a transaction whose history does not hold, earlier, the commit
      authority it carries. */
  lemma {:induction false} PastTheStart(t: Transaction, k: nat)
    requires WellFormed(t) && k < |t.history|
    requires t.history[k].stage.PhysicalApplied? || t.history[k].stage.AfterVerified?
    ensures t.commitAuthority.Some? && AuthorityFits(t.definition, t.commitAuthority.value)
    ensures exists j :: 0 <= j < k && t.history[j].stage.CommitAuthorityVerified?
  {
    assert EventFits(t, k);
    if t.history[k - 1].stage.CommitAuthorityVerified? {
      FirstIs(t.history, CommitAuthorityVerified);
    } else {
      PastTheStart(t, k - 1);
    }
  }
}
