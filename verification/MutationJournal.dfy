/** The mutation journal: one hash-chained record per version of a transaction, and its reconstruction by replaying
    the core operations. */
module MutationJournal {
  import opened Wrappers
  import opened MutationTransaction

  datatype Identity = Identity(transactionId: TransactionId, subject: Subject)

  datatype Payload =
    | DefinitionPayload(definition: Definition) | LockPayload(lock: Lock) | AuthorityPayload(authority: Authority)
    | RecoveryPayload(recovery: Recovery) | EmptyPayload | OtherPayload(text: string)

  datatype Base = Base(identity: Identity, sequence: nat, stage: Stage, payload: Payload, previous: Hash)

  datatype Hash = ZeroHash | OfBase(base: Base) | ForgedHash(text: string)

  datatype Record = Record(base: Base, recordHash: Hash)

  function IdentityOf(t: Transaction): Identity { Identity(t.transactionId, t.definition.subject) }

  function PayloadFor(t: Transaction): Payload {
    match t.stage
    case Prepared => DefinitionPayload(t.definition)
    case Locked => if t.lock.Some? then LockPayload(t.lock.value) else OtherPayload("null")
    case CommitAuthorityVerified =>
      if t.commitAuthority.Some? then AuthorityPayload(t.commitAuthority.value) else OtherPayload("null")
    case Recovered => if t.recoveryEvidence.Some? then RecoveryPayload(t.recoveryEvidence.value) else EmptyPayload
    case RecoveryUnresolved =>
      if t.recoveryEvidence.Some? then RecoveryPayload(t.recoveryEvidence.value) else EmptyPayload
    case _ => EmptyPayload
  }

  function RecordFor(t: Transaction, previous: Hash): Record {
    var base := Base(IdentityOf(t), t.version, t.stage, PayloadFor(t), previous);
    Record(base, OfBase(base))
  }

  predicate ValidRecord(r: Record, identity: Identity, sequence: nat, previous: Hash) {
    && r.base.identity == identity && r.base.sequence == sequence && r.base.previous == previous
    && r.recordHash == OfBase(r.base)
  }

  /** The operation a record after the first stands for, or None where its payload is malformed. */
  function OperationOf(r: Record): Option<Operation> {
    match r.base.stage
    case Locked => if r.base.payload.LockPayload? then Some(ToLock(r.base.payload.lock)) else None
    case CommitAuthorityVerified =>
      if r.base.payload.AuthorityPayload? then Some(ToAuthority(r.base.payload.authority)) else None
    case stage =>
      if RecoveryOutcome(stage) && r.base.payload.RecoveryPayload? then Some(ToRecovery(r.base.payload.recovery))
      else if r.base.payload.EmptyPayload? then Some(ToStage(stage))
      else None
  }

  function Step(t: Transaction, r: Record): Option<Transaction> {
    var op := OperationOf(r);
    if op.None? then None
    else
      var u := Applied(t, op.value);
      if u.None? || u.value.version != r.base.sequence || u.value.stage != r.base.stage then None else u
  }

  function Opened(r: Record): Option<Transaction> {
    if !r.base.stage.Prepared? || !r.base.payload.DefinitionPayload? then None
    else
      var t := Create(r.base.payload.definition);
      if ValidRecord(r, IdentityOf(t), 1, ZeroHash) then Some(t) else None
  }

  /** The transaction a list of records stands for. */
  function Reconstructed(records: seq<Record>): Option<Transaction> {
    var n := |records|;
    if n == 0 then None
    else if n == 1 then Opened(records[0])
    else
      var t := Reconstructed(records[..n - 1]);
      if t.None? || !ValidRecord(records[n - 1], IdentityOf(t.value), n, records[n - 2].recordHash) then None
      else Step(t.value, records[n - 1])
  }

  lemma {:induction false} PrefixReconstructs(records: seq<Record>, k: nat)
    requires 0 < k <= |records| && Reconstructed(records).Some?
    ensures Reconstructed(records[..k]).Some?
    ensures IdentityOf(Reconstructed(records[..k]).value) == IdentityOf(Reconstructed(records).value)
    ensures Reconstructed(records[..k]).value.history <= Reconstructed(records).value.history
    ensures Reconstructed(records[..k]).value.version == k
  {
    var n := |records|;
    if n > 1 {
      var t := Reconstructed(records[..n - 1]).value;
      OperationShape(t, OperationOf(records[n - 1]).value);
      PrefixReconstructs(records[..n - 1], if k == n then n - 1 else k);
      assert k < n ==> records[..n - 1][..k] == records[..k];
    }
    assert k == n ==> records[..k] == records;
  }

  lemma {:induction false} ReconstructedLength(records: seq<Record>)
    requires Reconstructed(records).Some?
    ensures |Reconstructed(records).value.history| == |records|
  {
    var n := |records|;
    if n > 1 {
      ReconstructedLength(records[..n - 1]);
      OperationShape(Reconstructed(records[..n - 1]).value, OperationOf(records[n - 1]).value);
    }
  }

  method Reconstruct(records: seq<Record>) returns (r: Option<Transaction>)
    ensures r == Reconstructed(records)
  {
    if |records| == 0 || !records[0].base.stage.Prepared? || !records[0].base.payload.DefinitionPayload? {
      StopsAt(records, if |records| == 0 then 0 else 1);
      return None;
    }
    var transaction := Create(records[0].base.payload.definition);
    var identity := IdentityOf(transaction);
    var previous := ZeroHash;
    for index := 0 to |records|
      invariant IdentityOf(transaction) == identity
      invariant if index == 0 then previous == ZeroHash && transaction == Create(records[0].base.payload.definition)
                else previous == records[index - 1].recordHash && Reconstructed(records[..index]) == Some(transaction)
    {
      var record := records[index];
      assert index > 0 ==> records[..index + 1][..index] == records[..index];
      if !ValidRecord(record, identity, index + 1, previous) { StopsAt(records, index + 1); return None; }
      if index > 0 {
        var op := OperationOf(record);
        if op.None? { StopsAt(records, index + 1); return None; }
        var next := Applied(transaction, op.value);
        if next.None? || next.value.version != record.base.sequence || next.value.stage != record.base.stage {
          StopsAt(records, index + 1);
          return None;
        }
        OperationShape(transaction, op.value);
        transaction := next.value;
      }
      previous := record.recordHash;
    }
    assert records[..|records|] == records;
    r := Some(transaction);
  }

  lemma StopsAt(records: seq<Record>, k: nat)
    requires k <= |records| && Reconstructed(records[..k]).None? && (k == 0 ==> records == [])
    ensures Reconstructed(records).None?
  {
    if k > 0 && Reconstructed(records).Some? { PrefixReconstructs(records, k); }
  }

  // ---------------------------------------------------------------- the hash chain

  /** A record that names its own position and the hash of the record before it. */
  predicate LinkAt(records: seq<Record>, k: nat)
    requires k < |records|
  {
    && records[k].recordHash == OfBase(records[k].base) && records[k].base.sequence == k + 1
    && records[k].base.previous == if k == 0 then ZeroHash else records[k - 1].recordHash
  }

  lemma {:induction false} LinkedPrefix(a: seq<Record>, b: seq<Record>, j: nat, k: nat)
    requires j < |a| && k < |b| && a[j].recordHash == b[k].recordHash
    requires (forall i :: 0 <= i < |a| ==> LinkAt(a, i)) && (forall i :: 0 <= i < |b| ==> LinkAt(b, i))
    ensures j == k && a[..j + 1] == b[..k + 1]
  {
    assert LinkAt(a, j) && LinkAt(b, k);
    if j > 0 {
      LinkedPrefix(a, b, j - 1, k - 1);
    }
    assert a[..j + 1] == a[..j] + [a[j]] && b[..k + 1] == b[..k] + [b[k]];
  }

  /** Two accepted journals with equal hashes at two positions are at the same position and agree on every record up
      to it. */
  lemma HashFixesPrefix(a: seq<Record>, b: seq<Record>, j: nat, k: nat)
    requires j < |a| && k < |b|
    ensures Reconstructed(a).Some? && Reconstructed(b).Some? && a[j].recordHash == b[k].recordHash ==>
              j == k && a[..j + 1] == b[..k + 1]
  {
    if Reconstructed(a).Some? && Reconstructed(b).Some? && a[j].recordHash == b[k].recordHash {
      forall i | 0 <= i < |a| ensures LinkAt(a, i) { Chained(a, i); }
      forall i | 0 <= i < |b| ensures LinkAt(b, i) { Chained(b, i); }
      LinkedPrefix(a, b, j, k);
    }
  }

  lemma Chained(records: seq<Record>, k: nat)
    requires Reconstructed(records).Some? && k < |records|
    ensures LinkAt(records, k)
    ensures records[k].base.identity == IdentityOf(Reconstructed(records).value)
  {
    PrefixReconstructs(records, k + 1);
    if k > 0 {
      assert records[..k + 1][..k] == records[..k];
      PrefixReconstructs(records[..k + 1], k);
    }
  }

  // ---------------------------------------------------------------- reconstruction inverts recording

  /** A plain transition to a recovery outcome by a transaction that already carries recovery evidence. */
  predicate Bare(t: Transaction, op: Operation) {
    op.ToStage? && RecoveryOutcome(op.stage) && t.recoveryEvidence.Some?
  }

  /** Replaying the record of one operation performs that operation. */
  lemma RecordReplays(t: Transaction, op: Operation, previous: Hash)
    requires Applied(t, op).Some? && !Bare(t, op)
    ensures Step(t, RecordFor(Applied(t, op).value, previous)) == Applied(t, op)
  {
    var u := Applied(t, op).value;
    OperationShape(t, op);
    if op.ToLock? { PreparedIsFresh(t); }
    assert OperationOf(RecordFor(u, previous)) == Some(op);
  }

  /** But the record of a bare outcome is read as a second binding of the evidence: what it then yields differs at the
      last event. */
  lemma BareMisreads(t: Transaction, op: Operation, previous: Hash)
    requires Applied(t, op).Some? && Bare(t, op)
    ensures var s := Step(t, RecordFor(Applied(t, op).value, previous));
            s.None? || (s.value.history != Applied(t, op).value.history && |s.value.history| == t.version + 1)
  {
    var r := t.recoveryEvidence.value;
    assert OperationOf(RecordFor(Applied(t, op).value, previous)) == Some(ToRecovery(r));
    if Applied(t, ToRecovery(r)).Some? {
      OperationShape(t, ToRecovery(r));
      assert Applied(t, ToRecovery(r)).value.history[t.version].mark.RecoveryMark?;
      assert Applied(t, op).value.history[t.version].mark.Unmarked?;
    }
  }

  /** Performing operations one after the other on a fresh transaction. */
  function Performed(d: Definition, ops: seq<Operation>): Option<Transaction> {
    if ops == [] then Some(Create(d))
    else
      var t := Performed(d, ops[..|ops| - 1]);
      if t.None? then None else Applied(t.value, ops[|ops| - 1])
  }

  function Journaled(d: Definition, ops: seq<Operation>): seq<Record>
    requires Performed(d, ops).Some?
  {
    if ops == [] then [RecordFor(Create(d), ZeroHash)]
    else
      var front := Journaled(d, ops[..|ops| - 1]);
      front + [RecordFor(Performed(d, ops).value, if front == [] then ZeroHash else front[|front| - 1].recordHash)]
  }

  ghost predicate BareAt(d: Definition, ops: seq<Operation>, k: nat)
    requires k < |ops|
  {
    Performed(d, ops[..k]).Some? && Bare(Performed(d, ops[..k]).value, ops[k])
  }

  ghost predicate NoneBare(d: Definition, ops: seq<Operation>) {
    forall k :: 0 <= k < |ops| ==> !BareAt(d, ops, k)
  }

  lemma NoneBareSnoc(d: Definition, ops: seq<Operation>)
    requires ops != []
    ensures NoneBare(d, ops) <==> NoneBare(d, ops[..|ops| - 1]) && !BareAt(d, ops, |ops| - 1)
  {
    var front := ops[..|ops| - 1];
    forall k | 0 <= k < |front| ensures BareAt(d, ops, k) == BareAt(d, front, k) {
      assert ops[..k] == front[..k];
    }
  }

  lemma {:induction false} JournaledShape(d: Definition, ops: seq<Operation>)
    requires Performed(d, ops).Some?
    ensures |Journaled(d, ops)| == |ops| + 1 == Performed(d, ops).value.version
    ensures |Performed(d, ops).value.history| == |ops| + 1 && Performed(d, ops).value.definition == d
    ensures Performed(d, ops).value.transactionId == OfDefinition(d)
    ensures Journaled(d, ops)[|ops|]
            == RecordFor(Performed(d, ops).value,
                         if |ops| == 0 then ZeroHash else Journaled(d, ops)[|ops| - 1].recordHash)
  {
    if ops != [] {
      JournaledShape(d, ops[..|ops| - 1]);
      OperationShape(Performed(d, ops[..|ops| - 1]).value, ops[|ops| - 1]);
    }
  }

  /** Reconstructing the records of any sequence of operations gives back exactly the transaction they reached, if and
      only if none of them was a bare outcome; otherwise it fails or disagrees on the history. */
  lemma {:induction false} ReconstructInverts(d: Definition, ops: seq<Operation>)
    requires Performed(d, ops).Some?
    ensures if NoneBare(d, ops) then Reconstructed(Journaled(d, ops)) == Performed(d, ops)
            else Reconstructed(Journaled(d, ops)).None?
                 || Reconstructed(Journaled(d, ops)).value.history != Performed(d, ops).value.history
  {
    var records := Journaled(d, ops);
    JournaledShape(d, ops);
    if ops == [] {
      assert records == [RecordFor(Create(d), ZeroHash)];
    } else {
      var n := |ops|;
      var front, t, op := ops[..n - 1], Performed(d, ops[..n - 1]).value, ops[n - 1];
      NoneBareSnoc(d, ops);
      ReconstructInverts(d, front);
      JournaledShape(d, front);
      assert records[..n] == Journaled(d, front);
      OperationShape(t, op);
      if Bare(t, op) {
        BareMisreads(t, op, records[n - 1].recordHash);
      } else {
        RecordReplays(t, op, records[n - 1].recordHash);
      }
      if NoneBare(d, front) {
      } else if Reconstructed(records).Some? {
        PrefixReconstructs(records, n);
        var s, u := Reconstructed(records[..n]).value, Reconstructed(records).value;
        ReconstructedLength(records[..n]);
        StillDiffer(s.history, u.history, t.history, Performed(d, ops).value.history);
      }
    }
  }

  lemma StillDiffer(a: seq<HistoryEvent>, more: seq<HistoryEvent>, b: seq<HistoryEvent>, also: seq<HistoryEvent>)
    requires a != b && |a| == |b| && a <= more && b <= also
    ensures more != also
  {
    assert more[..|a|] == a;
    assert also[..|b|] == b;
  }

  lemma PerformedNext(d: Definition, ops: seq<Operation>, op: Operation)
    requires Performed(d, ops).Some?
    ensures Performed(d, ops + [op]) == Applied(Performed(d, ops).value, op)
  {
    assert (ops + [op])[..|ops|] == ops;
  }

  lemma Advances(t: Transaction, stage: Stage)
    requires WellFormed(t) && Allows(t.stage, stage) && !stage.Locked? && !stage.CommitAuthorityVerified?
             && stage != t.stage
    requires !Final(t.stage)
    ensures Applied(t, ToStage(stage)) == Some(Extended(t, stage, Unmarked)) && WellFormed(Extended(t, stage, Unmarked))
  {
    OperationKeeps(t, ToStage(stage));
  }

  /** A bare outcome follows any recovery: recover with evidence, require recovery again and declare it RECOVERED. */
  lemma BareOutcomeReached(d: Definition, ops: seq<Operation>, r: Recovery)
    requires Performed(d, ops).Some? && WellFormed(Performed(d, ops).value)
             && Performed(d, ops).value.stage.RecoveryRequired?
    requires RecoveryFits(d, r) && !r.fields.unresolved && !MarkedOtherwise(Performed(d, ops).value, r.fingerprint)
    ensures var more := ops + [ToRecovery(r)] + [ToStage(EvidenceRecorded)] + [ToStage(RecoveryRequired)];
            && Performed(d, more).Some? && Bare(Performed(d, more).value, ToStage(Recovered))
            && WellFormed(Performed(d, more).value) && Performed(d, more).value.stage.RecoveryRequired?
            && (NoneBare(d, ops) ==> NoneBare(d, more))
            && Performed(d, more + [ToStage(Recovered)]).Some? && !NoneBare(d, more + [ToStage(Recovered)])
  {
    JournaledShape(d, ops);
    var t := Performed(d, ops).value;
    var one := ops + [ToRecovery(r)];
    var two := one + [ToStage(EvidenceRecorded)];
    var more := two + [ToStage(RecoveryRequired)];
    PerformedNext(d, ops, ToRecovery(r));
    OperationKeeps(t, ToRecovery(r));
    PerformedNext(d, one, ToStage(EvidenceRecorded));
    Advances(Performed(d, one).value, EvidenceRecorded);
    PerformedNext(d, two, ToStage(RecoveryRequired));
    Advances(Performed(d, two).value, RecoveryRequired);
    PerformedNext(d, more, ToStage(Recovered));
    Advances(Performed(d, more).value, Recovered);
    NoneBareSnoc(d, one);
    NoneBareSnoc(d, two);
    NoneBareSnoc(d, more);
    assert one[..|one| - 1] == ops && two[..|two| - 1] == one && more[..|more| - 1] == two;
    assert (more + [ToStage(Recovered)])[..|more|] == more;
    assert BareAt(d, more + [ToStage(Recovered)], |more|);
  }
}
