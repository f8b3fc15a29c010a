/** Creating a journal, appending one transaction to it and reading it back, with any one of the steps failing. */
module JournalAppend {
  import opened Wrappers
  import opened MutationTransaction
  import opened MutationJournal

  /** What opening the journal of the requested transaction answers. */
  function Read(records: seq<Record>, requested: Transaction): Option<Transaction> {
    var t := Reconstructed(records);
    if !WellFormed(requested) || t.None? || !WellFormed(t.value)
       || t.value.transactionId != requested.transactionId then None
    else t
  }

  datatype Plan = Refuse | Converge | Publish(record: Record)

  /** What appending `c` decides from the records it read. */
  function PlanFor(records: seq<Record>, c: Transaction): Plan {
    var read := Read(records, c);
    if read.None? then Refuse
    else
      var current := read.value;
      if c.version == current.version then if c == current then Converge else Refuse
      else if Final(current.stage) then Refuse
      else if c.version != current.version + 1 || c.history[..|c.history| - 1] != current.history then Refuse
      else Publish(RecordFor(c, records[|records| - 1].recordHash))
  }

  datatype Fault = Clean | LostBeforeLink | LostAfterLink

  /** The records an append leaves and what it answers; None is any thrown error. */
  function Appended(records: seq<Record>, c: Transaction, fault: Fault): (seq<Record>, Option<Transaction>) {
    match PlanFor(records, c)
    case Refuse => (records, None)
    case Converge => (records, if fault.Clean? then Read(records, c) else None)
    case Publish(r) =>
      if fault.LostBeforeLink? then (records, None)
      else (records + [r], if fault.Clean? then Read(records + [r], c) else None)
  }

  class Journal {
    var made: bool
    var records: seq<Record>

    constructor ()
      ensures !made && records == []
    {
      made, records := false, [];
    }

    method Open(requested: Transaction) returns (r: Option<Transaction>)
      ensures r == Read(records, requested)
    {
      var known := RequireTransaction(requested);
      if !known { return None; }
      var t := Reconstruct(records);
      if t.None? { return None; }
      var fits := RequireTransaction(t.value);
      r := if fits && t.value.transactionId == requested.transactionId then t else None;
    }

    /** `crashed` stops the call between creating the directory and linking the first record. */
    method Create(t: Transaction, fault: Fault, crashed: bool) returns (r: Option<Transaction>)
      modifies this
      ensures !WellFormed(t) || t.stage != Prepared || t.version != 1 ==> unchanged(this) && r == None
      ensures WellFormed(t) && t.stage == Prepared && t.version == 1 && old(made) ==>
                unchanged(this) && (r.Some? <==> fault.Clean? && |records| == 1 && Read(records, t).Some?)
      ensures WellFormed(t) && t.stage == Prepared && t.version == 1 && !old(made) ==>
                && made
                && records == (if crashed || fault.LostBeforeLink? then old(records)
                               else old(records) + [RecordFor(t, ZeroHash)])
                && r == (if crashed || !fault.Clean? then None else Read(records, t))
    {
      var known := RequireTransaction(t);
      if !known || t.stage != Prepared || t.version != 1 { return None; }
      if made {
        var existing := Open(t);
        return if existing.Some? && |records| == 1 && fault.Clean? then existing else None;
      }
      made := true;
      if crashed || fault.LostBeforeLink? { return None; }
      records := records + [RecordFor(t, ZeroHash)];
      if fault.LostAfterLink? { return None; }
      r := Open(t);
    }

    method Append(c: Transaction, fault: Fault) returns (r: Option<Transaction>)
      modifies this
      ensures made == old(made)
      ensures (records, r) == Appended(old(records), c, fault)
    {
      var found := Open(c);
      if found.None? { return None; }
      var current := found.value;
      if c.version == current.version {
        return if c == current && fault.Clean? then found else None;
      }
      if Final(current.stage) { return None; }
      if c.version != current.version + 1 || c.history[..|c.history| - 1] != current.history { return None; }
      if fault.LostBeforeLink? { return None; }
      records := records + [RecordFor(c, records[|records| - 1].recordHash)];
      if fault.LostAfterLink? { return None; }
      r := Open(c);
    }
  }

  // ---------------------------------------------------------------- what an append preserves of the candidate

  /** Whether the journal's record of `c` says all that `c` adds to the journal's transaction `j`: its history names a
      lock only by lock id, and names recovery evidence only in a marked outcome. */
  predicate Carries(j: Transaction, c: Transaction)
    requires c.history != []
  {
    var last := c.history[|c.history| - 1];
    match c.stage
    case Locked => last.mark.LockMark?
    case Recovered => c.lock == j.lock && OutcomeCarried(j, c, last)
    case RecoveryUnresolved => c.lock == j.lock && OutcomeCarried(j, c, last)
    case _ => c.lock == j.lock && c.recoveryEvidence == j.recoveryEvidence
  }

  predicate OutcomeCarried(j: Transaction, c: Transaction, last: HistoryEvent) {
    if c.recoveryEvidence.Some?
      then last.mark.RecoveryMark? && (c.stage.RecoveryUnresolved? <==> c.recoveryEvidence.value.fields.unresolved)
    else j.recoveryEvidence.None?
  }

  /** `c` is one version past `j`, with the same identity and the same history before. */
  ghost predicate Succeeds(j: Transaction, c: Transaction) {
    && WellFormed(j) && WellFormed(c) && c.transactionId == j.transactionId
    && c.version == j.version + 1 && c.history[..j.version] == j.history && !Final(j.stage)
  }

  lemma SameAuthority(j: Transaction, c: Transaction)
    requires Succeeds(j, c) && !c.stage.CommitAuthorityVerified?
    ensures c.commitAuthority == j.commitAuthority
  {
    assert c.history == j.history + [c.history[j.version]];
    FirstGrows(j.history, c.history[j.version], CommitAuthorityVerified);
  }

  lemma NoOutcomeYet(j: Transaction)
    requires WellFormed(j) && (j.stage.Prepared? || j.stage.MutationStarted?)
    ensures j.recoveryEvidence.None?
  {
    StaysBefore(j, j.version - 1);
  }

  lemma NoEvidence(j: Transaction, c: Transaction)
    requires Succeeds(j, c) && (c.stage.Locked? || c.stage.CommitAuthorityVerified?)
    ensures c.recoveryEvidence.None? && j.recoveryEvidence.None?
    ensures j.stage == if c.stage.Locked? then Prepared else MutationStarted
  {
    assert EventFits(c, j.version) && c.history[j.version - 1] == j.history[j.version - 1];
    NoOutcomeYet(j);
    StaysBefore(j, j.version - 1);
    assert c.history == j.history + [c.history[j.version]];
    AtGrows(j.history, c.history[j.version], Recovered);
    AtGrows(j.history, c.history[j.version], RecoveryUnresolved);
  }

  lemma SuccessorStage(j: Transaction, c: Transaction)
    requires Succeeds(j, c)
    ensures Allows(j.stage, c.stage) && c.definition == j.definition && MarkFits(c, c.history[j.version])
    ensures c.history == j.history + [c.history[j.version]]
    ensures c.history[j.version] == HistoryEvent(c.version, c.stage, c.history[j.version].mark)
  {
    assert EventFits(c, j.version) && c.history[j.version - 1] == j.history[j.version - 1];
  }

  lemma LockCarried(j: Transaction, c: Transaction, previous: Hash)
    requires Succeeds(j, c) && c.stage.Locked?
    ensures Step(j, RecordFor(c, previous)) == Some(c) <==> Carries(j, c)
  {
    SuccessorStage(j, c);
    NoEvidence(j, c);
    SameAuthority(j, c);
    assert At(c.history, Locked) by { assert c.history[j.version].stage == Locked; }
    PreparedIsFresh(j);
  }

  lemma AuthorityCarried(j: Transaction, c: Transaction, previous: Hash)
    requires Succeeds(j, c) && c.stage.CommitAuthorityVerified?
    ensures Step(j, RecordFor(c, previous)) == Some(c) <==> Carries(j, c)
  {
    SuccessorStage(j, c);
    NoEvidence(j, c);
    NotYetAuthorized(j);
    FirstIs(j.history, CommitAuthorityVerified);
    FirstGrows(j.history, c.history[j.version], CommitAuthorityVerified);
  }

  lemma EvidencedCarried(j: Transaction, c: Transaction, previous: Hash)
    requires Succeeds(j, c) && RecoveryOutcome(c.stage) && c.recoveryEvidence.Some?
    ensures Step(j, RecordFor(c, previous)) == Some(c) <==> Carries(j, c)
  {
    SuccessorStage(j, c);
    SameAuthority(j, c);
    assert HasOutcome(c.history) by { assert c.history[j.version].stage == c.stage; }
    assert OperationOf(RecordFor(c, previous)) == Some(ToRecovery(c.recoveryEvidence.value));
  }

  lemma UnevidencedCarried(j: Transaction, c: Transaction, previous: Hash)
    requires Succeeds(j, c) && RecoveryOutcome(c.stage) && c.recoveryEvidence.None?
    ensures Step(j, RecordFor(c, previous)) == Some(c) <==> Carries(j, c)
  {
    SuccessorStage(j, c);
    SameAuthority(j, c);
    assert OperationOf(RecordFor(c, previous)) == Some(ToStage(c.stage));
  }

  lemma PlainCarried(j: Transaction, c: Transaction, previous: Hash)
    requires Succeeds(j, c) && !RecoveryOutcome(c.stage) && !c.stage.Locked? && !c.stage.CommitAuthorityVerified?
    ensures Step(j, RecordFor(c, previous)) == Some(c) <==> Carries(j, c)
  {
    SuccessorStage(j, c);
    SameAuthority(j, c);
  }

  lemma ReplaysExactly(j: Transaction, c: Transaction, previous: Hash)
    requires Succeeds(j, c)
    ensures Step(j, RecordFor(c, previous)) == Some(c) <==> Carries(j, c)
  {
    if c.stage.Locked? { LockCarried(j, c, previous); }
    else if c.stage.CommitAuthorityVerified? { AuthorityCarried(j, c, previous); }
    else if RecoveryOutcome(c.stage) {
      if c.recoveryEvidence.Some? { EvidencedCarried(j, c, previous); } else { UnevidencedCarried(j, c, previous); }
    }
    else { PlainCarried(j, c, previous); }
  }

  lemma {:induction false} ReadVersion(records: seq<Record>)
    requires Reconstructed(records).Some?
    ensures |records| > 0 && Reconstructed(records).value.version == |records| == |Reconstructed(records).value.history|
  {
    PrefixReconstructs(records, |records|);
    ReconstructedLength(records);
    assert records[..|records|] == records;
  }

  lemma PublishedSucceeds(records: seq<Record>, c: Transaction)
    requires PlanFor(records, c).Publish?
    ensures Reconstructed(records).Some? && Succeeds(Reconstructed(records).value, c)
    ensures Reconstructed(records + [PlanFor(records, c).record])
            == Step(Reconstructed(records).value, PlanFor(records, c).record)
  {
    ReadVersion(records);
    OneMore(records, PlanFor(records, c).record);
  }

  lemma OneMore(records: seq<Record>, r: Record)
    requires Reconstructed(records).Some? && |records| > 0
    requires ValidRecord(r, IdentityOf(Reconstructed(records).value), |records| + 1, records[|records| - 1].recordHash)
    ensures Reconstructed(records + [r]) == Step(Reconstructed(records).value, r)
  {
    assert (records + [r])[..|records|] == records;
  }

  /** An accepted append is inverted by reconstruction exactly when the journal's record carries what the candidate
      adds; otherwise the record is on disk and the journal stands for another transaction, or for none. */
  lemma AppendInverts(records: seq<Record>, c: Transaction)
    requires PlanFor(records, c).Publish?
    ensures Reconstructed(records + [PlanFor(records, c).record]) == Some(c) <==>
              Carries(Reconstructed(records).value, c)
  {
    PublishedSucceeds(records, c);
    ReplaysExactly(Reconstructed(records).value, c, records[|records| - 1].recordHash);
  }

  /** The journal of a recovery that was required again, from the definition of its transaction on. */
  function RecoveredAgain(r: Recovery): seq<Operation> {
    [ToStage(RecoveryRequired)] + [ToRecovery(r)] + [ToStage(EvidenceRecorded)] + [ToStage(RecoveryRequired)]
  }

  lemma RequiredAgain(d: Definition, r: Recovery)
    requires RecoveryFits(d, r) && !r.fields.unresolved
    ensures Performed(d, RecoveredAgain(r)).Some? && NoneBare(d, RecoveredAgain(r))
    ensures var t := Performed(d, RecoveredAgain(r)).value;
            WellFormed(t) && t.stage.RecoveryRequired? && Bare(t, ToStage(Recovered))
            && Performed(d, RecoveredAgain(r) + [ToStage(Recovered)]) == Applied(t, ToStage(Recovered))
  {
    CreateFits(d);
    PerformedNext(d, [], ToStage(RecoveryRequired));
    assert [] + [ToStage(RecoveryRequired)] == [ToStage(RecoveryRequired)];
    Advances(Create(d), RecoveryRequired);
    NoneBareSnoc(d, [ToStage(RecoveryRequired)]);
    BareOutcomeReached(d, [ToStage(RecoveryRequired)], r);
    PerformedNext(d, RecoveredAgain(r), ToStage(Recovered));
  }

  /** A bare outcome is published and not carried. */
  lemma BarePublished(records: seq<Record>, t: Transaction)
    requires Reconstructed(records) == Some(t) && WellFormed(t) && t.stage.RecoveryRequired?
             && Bare(t, ToStage(Recovered))
    ensures Applied(t, ToStage(Recovered)).Some?
    ensures var c := Applied(t, ToStage(Recovered)).value; PlanFor(records, c).Publish? && !Carries(t, c)
  {
    Advances(t, Recovered);
    var c := Extended(t, Recovered, Unmarked);
    assert c.history[..|c.history| - 1] == t.history;
  }

  /** Such a candidate is reached: the bare RECOVERED after recovery was required again is published, and its record
      does not carry it, so the journal does not stand for it. */
  lemma UncarriedPublished(d: Definition, r: Recovery)
    requires RecoveryFits(d, r) && !r.fields.unresolved
    ensures Performed(d, RecoveredAgain(r)).Some? && Performed(d, RecoveredAgain(r) + [ToStage(Recovered)]).Some?
    ensures var records, c :=
              Journaled(d, RecoveredAgain(r)), Performed(d, RecoveredAgain(r) + [ToStage(Recovered)]).value;
            && Reconstructed(records) == Performed(d, RecoveredAgain(r))
            && PlanFor(records, c).Publish? && !Carries(Reconstructed(records).value, c)
            && Reconstructed(records + [PlanFor(records, c).record]) != Some(c)
  {
    RequiredAgain(d, r);
    ReconstructInverts(d, RecoveredAgain(r));
    BarePublished(Journaled(d, RecoveredAgain(r)), Performed(d, RecoveredAgain(r)).value);
    AppendInverts(Journaled(d, RecoveredAgain(r)), Performed(d, RecoveredAgain(r) + [ToStage(Recovered)]).value);
  }

  /** After a failure anywhere past the link, appending the same candidate again returns it and adds nothing, exactly
      when the record carries it. */
  lemma RetryConverges(records: seq<Record>, c: Transaction)
    requires PlanFor(records, c).Publish?
    ensures var linked := Appended(records, c, LostAfterLink).0;
            && linked == records + [PlanFor(records, c).record] == Appended(records, c, Clean).0
            && (Carries(Reconstructed(records).value, c) ==> Appended(linked, c, Clean) == (linked, Some(c)))
            && (Appended(linked, c, Clean).1 == Some(c) ==> Carries(Reconstructed(records).value, c))
  {
    AppendInverts(records, c);
    var linked := records + [PlanFor(records, c).record];
    if Reconstructed(linked).Some? { ReadVersion(linked); ReadVersion(records); }
  }

  /** Once a later record is linked, a retry of an earlier candidate is refused. */
  lemma LateRetryRefused(records: seq<Record>, c: Transaction, fault: Fault)
    requires c.version < |records|
    ensures Appended(records, c, fault) == (records, None)
  {
    if Read(records, c).Some? { ReadVersion(records); }
  }

  /** A journal whose creation stopped between its directory and its first record is refused from then on. */
  lemma EmptyJournalRefused(c: Transaction, fault: Fault)
    ensures Read([], c).None? && Appended([], c, fault) == ([], None)
  {
  }

  /** Once an outcome is journaled with recovery evidence, a later recovery with other evidence is never journaled: a
      recovery that stopped before its FINALIZED record can only be resumed with the very same evidence. */
  lemma OtherEvidenceRefused(records: seq<Record>, r: Recovery, fault: Fault)
    requires Reconstructed(records).Some? && MarkedOtherwise(Reconstructed(records).value, r.fingerprint)
    requires BindRecovery(Reconstructed(records).value, r).Some?
    ensures Appended(records, BindRecovery(Reconstructed(records).value, r).value, fault) == (records, None)
  {
    OperationKeeps(Reconstructed(records).value, ToRecovery(r));
  }
}
