/** The lock of one mutation target under any number of owners and recoverers.

    An owner is a process running one transaction; its number is also its lock's owner token.  A journal is the list of
    its recorded stages, each with the owner token or the recovery evidence it binds, and an append compares the whole
    list.  Every step reads or changes at most one shared file, may fail, and a process may stop between any two. */
module TargetLock {
  import opened Wrappers
  import opened MutationTransaction
  import opened PatchRun

  /** `mark` is the owner token bound by LOCKED, or the evidence bound by a recovery outcome. */
  datatype Entry = Entry(stage: Stage, mark: Option<nat>)

  type Journal = seq<Entry>

  datatype OwnerPhase =
    | Locking      // about to create the lock file
    | Binding      // lock created; LOCKED not yet appended
    | Working      // LOCKED journaled
    | Checking     // about to read the lock back before releasing it
    | Unlinking    // read back as its own
    | Gone

  datatype Owner = Owner(txn: nat, phase: OwnerPhase, history: Journal)

  datatype RecoveryPhase =
    | Looking        // about to inspect the lock
    | Doubting       // lock matched; about to ask whether its owner terminated
    | Claiming       // about to create the recovery claim
    | Deciding | Requiring | Resolving | Recording | Finalizing   // under the claim
    | Rechecking     // about to read the lock back before releasing it
    | Removing       // read back as the recovered owner's
    | Returning      // about to read the claim back
    | Dropping       // read back as its own
    | Done

  datatype Recoverer = Recoverer(
    txn: nat, token: nat, phase: RecoveryPhase, history: Journal, verdict: Classification, evidence: nat, claim: nat)

  datatype State = State(
    lock: Option<nat>,
    claim: Option<nat>,
    claims: nat,
    journals: map<nat, Journal>,
    owners: map<nat, Owner>,
    recoverers: map<nat, Recoverer>)

  datatype Event =
    | Arrive(p: nat, txn: nat)
    | Own(p: nat, stage: Stage, ok: bool, effect: bool)
    | Undo(p: nat)
    | Release(p: nat)
    | StopOwner(p: nat)
    | Open(r: nat, txn: nat)
    | Recover(r: nat, ok: bool, effect: bool, verdict: Classification, evidence: nat)
    | StopRecoverer(r: nat)

  ghost predicate Init(s: State) { s == State(None, None, 0, map[], map[], map[]) }

  function At(j: Journal): Stage
    requires j != []
  {
    j[|j| - 1].stage
  }

  /** The journal after an attempt to append `e` to what the appender holds, and whether it was told so. */
  function Appended(journal: Journal, held: Journal, e: Entry, ok: bool, effect: bool): (Journal, bool) {
    if journal == held then (if effect then held + [e] else journal, ok && effect)
    else (journal, ok && journal == held + [e])
  }

  predicate Live(phase: OwnerPhase) { phase.Binding? || phase.Working? || phase.Checking? || phase.Unlinking? }

  ghost predicate Alive(s: State, p: nat) { p in s.owners && Live(s.owners[p].phase) }

  function Kept(s: State, p: nat, o: Owner): State { s.(owners := s.owners[p := o]) }

  function Put(s: State, r: nat, x: Recoverer): State { s.(recoverers := s.recoverers[r := x]) }

  /** The stages the coordinator itself appends past LOCKED. */
  predicate Coordinated(stage: Stage) { !stage.Prepared? && !stage.Locked? && !stage.RecoveryUnresolved? }

  predicate Finalized(j: Journal) { j != [] && (At(j).FinalizedSuccess? || At(j).FinalizedFailed?) }

  function OwnerStep(s: State, p: nat, stage: Stage, ok: bool, effect: bool): State
    requires p in s.owners && s.owners[p].txn in s.journals && s.owners[p].history != []
  {
    var o := s.owners[p];
    match o.phase
    case Locking =>
      if s.lock.Some? then Kept(s, p, o.(phase := Gone)) else Kept(s, p, o.(phase := Binding)).(lock := Some(p))
    case Binding =>
      var e := Entry(Locked, Some(p));
      var (j, told) := Appended(s.journals[o.txn], o.history, e, ok, effect);
      Kept(s, p, if told then o.(phase := Working, history := o.history + [e])
                 else o.(phase := Gone)).(journals := s.journals[o.txn := j])
    case Working =>
      if !Coordinated(stage) || !Allows(At(o.history), stage) || Final(At(o.history)) then s
      else
        var e := Entry(stage, None);
        var (j, told) := Appended(s.journals[o.txn], o.history, e, ok, effect);
        Kept(s, p, if told then o.(history := o.history + [e]) else o).(journals := s.journals[o.txn := j])
    case Checking => Kept(s, p, o.(phase := if s.lock == Some(p) then Unlinking else Gone))
    case Unlinking => if effect then Kept(s, p, o.(phase := Gone)).(lock := None) else Kept(s, p, o.(phase := Gone))
    case Gone => s
  }

  predicate Appending(phase: RecoveryPhase) {
    phase.Requiring? || phase.Resolving? || phase.Recording? || phase.Finalizing?
  }

  predicate MarkedBy(j: Journal, evidence: nat) {
    forall k :: 0 <= k < |j| && RecoveryOutcome(j[k].stage) && j[k].mark.Some? ==> j[k].mark == Some(evidence)
  }

  /** The entry an appending recoverer wants next; None where the transaction refuses it. */
  function Wanted(x: Recoverer): Option<Entry>
    requires x.history != [] && Appending(x.phase)
  {
    match x.phase
    case Requiring => if Allows(At(x.history), RecoveryRequired) then Some(Entry(RecoveryRequired, None)) else None
    case Resolving =>
      if At(x.history).RecoveryRequired? && MarkedBy(x.history, x.evidence)
      then Some(Entry(if x.verdict.Unresolved? then RecoveryUnresolved else Recovered, Some(x.evidence))) else None
    case Recording => if At(x.history).Recovered? then Some(Entry(EvidenceRecorded, None)) else None
    case Finalizing =>
      var terminal := match x.verdict
        case PreviouslyAuthorizedApplied => FinalizedSuccess
        case Unresolved => RecoveryUnresolved
        case _ => FinalizedFailed;
      if Allows(At(x.history), terminal) then Some(Entry(terminal, None)) else None
  }

  function After(x: Recoverer, e: Entry): RecoveryPhase
    requires Appending(x.phase)
  {
    match x.phase
    case Requiring => Resolving
    case Resolving => if e.stage.Recovered? then Recording else Returning
    case Recording => Finalizing
    case Finalizing => Rechecking
  }

  function AppendStep(s: State, r: nat, ok: bool, effect: bool): State
    requires r in s.recoverers && Appending(s.recoverers[r].phase) && s.recoverers[r].history != []
             && s.recoverers[r].txn in s.journals
  {
    var x := s.recoverers[r];
    var e := Wanted(x);
    if e.None? then Put(s, r, x.(phase := Returning))
    else
      var (j, told) := Appended(s.journals[x.txn], x.history, e.value, ok, effect);
      Put(s, r, if told then x.(phase := After(x, e.value), history := x.history + [e.value])
                else x.(phase := Returning))
        .(journals := s.journals[x.txn := j])
  }

  function RecoverStep(s: State, r: nat, ok: bool, effect: bool, verdict: Classification, evidence: nat): State
    requires r in s.recoverers && !Appending(s.recoverers[r].phase) && s.recoverers[r].history != []
  {
    var x := s.recoverers[r];
    match x.phase
    case Looking => Put(s, r, x.(phase := if s.lock == Some(x.token) then Doubting else Done))
    case Doubting =>
      Put(s, r, if ok then x.(phase := Claiming, verdict := verdict, evidence := evidence) else x.(phase := Done))
    case Claiming =>
      if s.claim.Some? then Put(s, r, x.(phase := Done))
      else
        Put(s, r, x.(phase := if ok then Deciding else Done, claim := s.claims)).(
          claim := Some(s.claims), claims := s.claims + 1)
    case Deciding =>
      var at := At(x.history);
      Put(s, r, x.(phase := if at.RecoveryUnresolved? then Returning
                            else if Final(at) then Rechecking
                            else if at.RecoveryRequired? then Resolving
                            else if at.Recovered? then Recording
                            else Requiring))
    case Rechecking => Put(s, r, x.(phase := if s.lock == Some(x.token) then Removing else Returning))
    case Removing =>
      if effect then Put(s, r, x.(phase := Returning)).(lock := None) else Put(s, r, x.(phase := Returning))
    case Returning => Put(s, r, x.(phase := if s.claim == Some(x.claim) then Dropping else Done))
    case Dropping => if effect then Put(s, r, x.(phase := Done)).(claim := None) else Put(s, r, x.(phase := Done))
    case _ => s
  }

  ghost predicate Enabled(s: State, e: Event) {
    match e
    case Arrive(p, txn) => p !in s.owners && (txn in s.journals ==> s.journals[txn] == [Entry(Prepared, None)])
    case Own(p, _, _, _) => p in s.owners && s.owners[p].txn in s.journals && s.owners[p].history != []
    case Undo(p) => p in s.owners && s.owners[p].phase.Binding?
    case Release(p) => p in s.owners && s.owners[p].phase.Working? && Finalized(s.owners[p].history)
    case StopOwner(p) => p in s.owners
    case Open(r, txn) =>
      && r !in s.recoverers && txn in s.journals && |s.journals[txn]| > 1
      && s.journals[txn][1].stage.Locked? && s.journals[txn][1].mark.Some?
    case Recover(r, ok, _, _, _) =>
      && r in s.recoverers && s.recoverers[r].history != [] && s.recoverers[r].txn in s.journals
      // termination is confirmed only of an owner that takes no further step
      && (s.recoverers[r].phase.Doubting? && ok ==> !Alive(s, s.recoverers[r].token))
    case StopRecoverer(r) => r in s.recoverers
  }

  ghost function Apply(s: State, e: Event): State
    requires Enabled(s, e)
  {
    match e
    case Arrive(p, txn) =>
      Kept(s, p, Owner(txn, Locking, [Entry(Prepared, None)])).(journals := s.journals[txn := [Entry(Prepared, None)]])
    case Own(p, stage, ok, effect) => OwnerStep(s, p, stage, ok, effect)
    case Undo(p) => Kept(s, p, s.owners[p].(phase := Gone)).(lock := None)
    case Release(p) => Kept(s, p, s.owners[p].(phase := Checking))
    case StopOwner(p) => Kept(s, p, s.owners[p].(phase := Gone))
    case Open(r, txn) =>
      Put(s, r, Recoverer(txn, s.journals[txn][1].mark.value, Looking, s.journals[txn], Unresolved, 0, 0))
    case Recover(r, ok, effect, verdict, evidence) =>
      if Appending(s.recoverers[r].phase) then AppendStep(s, r, ok, effect)
      else RecoverStep(s, r, ok, effect, verdict, evidence)
    case StopRecoverer(r) => Put(s, r, s.recoverers[r].(phase := Done))
  }

  ghost predicate Step(s: State, e: Event, s': State) { Enabled(s, e) && s' == Apply(s, e) }

  ghost predicate Next(s: State, s': State) { exists e :: Step(s, e, s') }

  ghost predicate Run(run: seq<State>) {
    |run| > 0 && Init(run[0]) && forall k :: 0 <= k < |run| - 1 ==> Next(run[k], run[k + 1])
  }

  // ---------------------------------------------------------------- the invariant

  /** A journal starts PREPARED, binds its lock second or never, and follows the stage table. */
  ghost predicate Lawful(j: Journal) {
    && j != [] && j[0] == Entry(Prepared, None)
    && (forall k :: 0 < k < |j| ==> Allows(j[k - 1].stage, j[k].stage))
    && (forall k :: 0 <= k < |j| && j[k].stage.Locked? ==> k == 1 && j[k].mark.Some?)
  }

  ghost predicate BoundTo(j: Journal, token: nat) { |j| > 1 && j[1] == Entry(Locked, Some(token)) }

  ghost predicate OwnerView(lock: Option<nat>, journals: map<nat, Journal>, p: nat, o: Owner) {
    && o.txn in journals && Lawful(o.history) && o.history <= journals[o.txn]
    && (Live(o.phase) ==> lock == Some(p))
    && (o.phase.Locking? || o.phase.Binding? ==>
          o.history == [Entry(Prepared, None)] && forall t :: t in journals ==> !BoundTo(journals[t], p))
    && (o.phase.Working? || o.phase.Checking? || o.phase.Unlinking? ==> BoundTo(o.history, p))
    && (o.phase.Checking? || o.phase.Unlinking? ==> Finalized(o.history))
  }

  ghost predicate OwnerInv(s: State, p: nat, o: Owner) { OwnerView(s.lock, s.journals, p, o) }

  predicate Confirmed(phase: RecoveryPhase) { !phase.Looking? && !phase.Doubting? && !phase.Done? }

  predicate UnderClaim(phase: RecoveryPhase) { Confirmed(phase) && !phase.Claiming? }

  ghost predicate RecovererView(lock: Option<nat>, claim: Option<nat>, claims: nat, journals: map<nat, Journal>,
      x: Recoverer) {
    && x.txn in journals && Lawful(x.history) && x.history <= journals[x.txn] && BoundTo(x.history, x.token)
    && (UnderClaim(x.phase) ==> claim == Some(x.claim) && x.claim < claims)
    && (x.phase.Finalizing? ==> At(x.history).EvidenceRecorded?)
    && (x.phase.Rechecking? || x.phase.Removing? ==> Finalized(x.history))
    && (x.phase.Removing? ==> lock == Some(x.token))
  }

  ghost predicate RecovererInv(s: State, x: Recoverer) {
    && RecovererView(s.lock, s.claim, s.claims, s.journals, x)
    && (Confirmed(x.phase) ==> !Alive(s, x.token) && x.token in s.owners)
  }

  ghost predicate JournalView(owners: map<nat, Owner>, t: nat, j: Journal) {
    && Lawful(j)
    && (forall p :: BoundTo(j, p) ==>
          && p in owners && owners[p].txn == t
          && (At(j).RecoveryUnresolved? ==> !Live(owners[p].phase)))
  }

  ghost predicate JournalInv(s: State, t: nat)
    requires t in s.journals
  {
    JournalView(s.owners, t, s.journals[t])
  }

  ghost predicate OneClaimant(s: State) {
    forall q, r :: q in s.recoverers && r in s.recoverers && UnderClaim(s.recoverers[q].phase)
      && UnderClaim(s.recoverers[r].phase)
      ==> q == r
  }

  ghost predicate Inv(s: State) {
    && (forall p :: p in s.owners ==> OwnerInv(s, p, s.owners[p]))
    && (forall r :: r in s.recoverers ==> RecovererInv(s, s.recoverers[r]))
    && (forall t :: t in s.journals ==> JournalInv(s, t))
    && OneClaimant(s)
    && (s.claim.Some? ==> s.claim.value < s.claims)
  }

  // ---------------------------------------------------------------- journals

  lemma AppendedShape(journal: Journal, held: Journal, e: Entry, ok: bool, effect: bool)
    ensures var (j, told) := Appended(journal, held, e, ok, effect);
            (j == journal || (journal == held && j == held + [e])) && (told ==> j == held + [e])
  {
  }

  lemma LawfulGrows(j: Journal, e: Entry)
    requires Lawful(j) && Allows(At(j), e.stage) && (e.stage.Locked? ==> |j| == 1 && e.mark.Some?)
    ensures Lawful(j + [e])
  {
  }

  lemma BoundGrows(j: Journal, e: Entry, p: nat)
    requires j != []
    ensures BoundTo(j + [e], p) <==> BoundTo(j, p) || (|j| == 1 && e == Entry(Locked, Some(p)))
  {
  }

  /** What a step may do to the journals: nothing, or one lawful entry at the end of one of them. */
  ghost predicate Grows(s: State, s': State, t: nat, e: Option<Entry>) {
    if e.None? then s'.journals == s.journals
    else
      && t in s.journals && s.journals[t] != [] && s'.journals == s.journals[t := s.journals[t] + [e.value]]
      && Allows(At(s.journals[t]), e.value.stage)
  }

  // ---------------------------------------------------------------- a step of one owner

  /** `e` is the entry the step appended to the owner's journal, if any. */
  ghost predicate OwnerMove(s: State, s': State, p: nat, e: Option<Entry>) {
    && p in s.owners && p in s'.owners && s'.owners == s.owners[p := s'.owners[p]]
    && s'.recoverers == s.recoverers && s'.claim == s.claim && s'.claims == s.claims
    && var o, o' := s.owners[p], s'.owners[p];
       && o'.txn == o.txn && o.txn in s.journals
       && Grows(s, s', o.txn, e)
       && (e.Some? ==>
             if e.value.stage.Locked?
             then e.value == Entry(Locked, Some(p)) && o.phase.Binding? && |s.journals[o.txn]| == 1
             else e.value.mark.None? && !e.value.stage.RecoveryUnresolved?)
       && (Live(o'.phase) ==> Live(o.phase) || (o.phase.Locking? && s'.lock == Some(p)))
       && (s'.lock != s.lock ==>
             (s.lock == None && s'.lock == Some(p)) || (Live(o.phase) && s'.lock == None && o'.phase.Gone?))
  }

  lemma OwnerMoves(s: State, p: nat, stage: Stage, ok: bool, effect: bool) returns (e: Option<Entry>)
    requires p in s.owners && OwnerInv(s, p, s.owners[p])
    ensures OwnerMove(s, OwnerStep(s, p, stage, ok, effect), p, e)
  {
    var o := s.owners[p];
    var s' := OwnerStep(s, p, stage, ok, effect);
    assert s.owners[p := s.owners[p]] == s.owners;
    var wanted := if o.phase.Binding? then Entry(Locked, Some(p)) else Entry(stage, None);
    AppendedShape(s.journals[o.txn], o.history, wanted, ok, effect);
    assert s.journals[o.txn := s.journals[o.txn]] == s.journals;
    e := if s'.journals == s.journals then None else Some(wanted);
  }

  lemma BindOwn(s: State, p: nat, stage: Stage, ok: bool, effect: bool)
    requires p in s.owners && OwnerInv(s, p, s.owners[p]) && s.owners[p].phase.Binding?
    ensures OwnerInv(OwnerStep(s, p, stage, ok, effect), p, OwnerStep(s, p, stage, ok, effect).owners[p])
  {
    var o := s.owners[p];
    var bound := Entry(Locked, Some(p));
    AppendedShape(s.journals[o.txn], o.history, bound, ok, effect);
    LawfulGrows(o.history, bound);
  }

  lemma WorkOwn(s: State, p: nat, stage: Stage, ok: bool, effect: bool)
    requires p in s.owners && OwnerInv(s, p, s.owners[p]) && s.owners[p].phase.Working?
    ensures OwnerInv(OwnerStep(s, p, stage, ok, effect), p, OwnerStep(s, p, stage, ok, effect).owners[p])
  {
    var o := s.owners[p];
    AppendedShape(s.journals[o.txn], o.history, Entry(stage, None), ok, effect);
    if Coordinated(stage) && Allows(At(o.history), stage) { LawfulGrows(o.history, Entry(stage, None)); }
  }

  lemma OwnerOwn(s: State, p: nat, stage: Stage, ok: bool, effect: bool)
    requires p in s.owners && OwnerInv(s, p, s.owners[p])
    ensures OwnerInv(OwnerStep(s, p, stage, ok, effect), p, OwnerStep(s, p, stage, ok, effect).owners[p])
  {
    if s.owners[p].phase.Binding? { BindOwn(s, p, stage, ok, effect); }
    else if s.owners[p].phase.Working? { WorkOwn(s, p, stage, ok, effect); }
    else {}
  }

  lemma JournalsUnderOwner(s: State, s': State, p: nat, e: Option<Entry>, t: nat)
    requires OwnerMove(s, s', p, e) && OwnerInv(s, p, s.owners[p]) && t in s.journals && JournalInv(s, t)
    ensures t in s'.journals && s.journals[t] <= s'.journals[t] && JournalInv(s', t)
    ensures forall q :: q != p && BoundTo(s'.journals[t], q) ==> BoundTo(s.journals[t], q)
  {
    if e.Some? && t == s.owners[p].txn {
      LawfulGrows(s.journals[t], e.value);
      forall q
        ensures BoundTo(s'.journals[t], q) <==>
                  BoundTo(s.journals[t], q) || (|s.journals[t]| == 1 && e.value == Entry(Locked, Some(q)))
      {
        BoundGrows(s.journals[t], e.value, q);
      }
    }
  }

  lemma OwnersUnderOwner(s: State, s': State, p: nat, e: Option<Entry>, q: nat)
    requires Inv(s) && OwnerMove(s, s', p, e) && q in s.owners && q != p
    ensures OwnerInv(s', q, s.owners[q])
  {
    assert OwnerInv(s, q, s.owners[q]) && OwnerInv(s, p, s.owners[p]);
    forall t | t in s'.journals ensures t in s.journals && s.journals[t] <= s'.journals[t]
                                        && (BoundTo(s'.journals[t], q) ==> BoundTo(s.journals[t], q)) {
      JournalsUnderOwner(s, s', p, e, t);
    }
  }

  lemma RecoverersUnderOwner(s: State, s': State, p: nat, e: Option<Entry>, x: Recoverer)
    requires Inv(s) && OwnerMove(s, s', p, e) && RecovererInv(s, x)
    ensures RecovererInv(s', x)
  {
    assert OwnerInv(s, p, s.owners[p]);
    JournalsUnderOwner(s, s', p, e, x.txn);
    assert BoundTo(s.journals[x.txn], x.token);
  }

  lemma OwnerMoveKeeps(s: State, s': State, p: nat, e: Option<Entry>)
    requires Inv(s) && OwnerMove(s, s', p, e) && OwnerInv(s', p, s'.owners[p])
    ensures Inv(s')
  {
    assert OwnerInv(s, p, s.owners[p]);
    forall q | q in s'.owners ensures OwnerInv(s', q, s'.owners[q]) { if q != p { OwnersUnderOwner(s, s', p, e, q); } }
    forall r | r in s'.recoverers
      ensures RecovererInv(s', s'.recoverers[r])
    {
      RecoverersUnderOwner(s, s', p, e, s.recoverers[r]);
    }
    forall t | t in s'.journals ensures JournalInv(s', t) { JournalsUnderOwner(s, s', p, e, t); }
  }

  /** Undoing an acquisition, turning to the release, and stopping change nothing but the owner and, at most, its
      lock. */
  lemma OwnerEndsKeeps(s: State, p: nat, phase: OwnerPhase, lock: Option<nat>)
    requires Inv(s) && p in s.owners
    requires (phase.Gone? && (lock == s.lock || (lock == None && Live(s.owners[p].phase))))
             || (phase.Checking? && lock == s.lock && s.owners[p].phase.Working? && Finalized(s.owners[p].history))
    ensures Inv(Kept(s, p, s.owners[p].(phase := phase)).(lock := lock))
  {
    var s' := Kept(s, p, s.owners[p].(phase := phase)).(lock := lock);
    assert OwnerInv(s, p, s.owners[p]);
    OwnerMoveKeeps(s, s', p, None);
  }

  lemma ArrivedJournals(s: State, p: nat, txn: nat, t: nat)
    requires Inv(s) && p !in s.owners && (txn in s.journals ==> s.journals[txn] == [Entry(Prepared, None)])
    requires t in Apply(s, Arrive(p, txn)).journals
    ensures JournalInv(Apply(s, Arrive(p, txn)), t) && !BoundTo(Apply(s, Arrive(p, txn)).journals[t], p)
    ensures t in s.journals ==> Apply(s, Arrive(p, txn)).journals[t] == s.journals[t]
  {
    if t != txn { assert JournalInv(s, t); }
  }

  lemma ArrivedOthers(s: State, p: nat, txn: nat, q: nat)
    requires Inv(s) && p !in s.owners && (txn in s.journals ==> s.journals[txn] == [Entry(Prepared, None)])
             && q in s.owners
    ensures OwnerInv(Apply(s, Arrive(p, txn)), q, s.owners[q])
  {
    assert OwnerInv(s, q, s.owners[q]);
  }

  lemma ArriveKeeps(s: State, p: nat, txn: nat)
    requires Inv(s) && p !in s.owners && (txn in s.journals ==> s.journals[txn] == [Entry(Prepared, None)])
    ensures Inv(Apply(s, Arrive(p, txn)))
  {
    var s' := Apply(s, Arrive(p, txn));
    forall t | t in s'.journals
      ensures JournalInv(s', t) && !BoundTo(s'.journals[t], p)
    {
      ArrivedJournals(s, p, txn, t);
    }
    forall q | q in s'.owners ensures OwnerInv(s', q, s'.owners[q]) { if q != p { ArrivedOthers(s, p, txn, q); } }
    forall r | r in s'.recoverers ensures RecovererInv(s', s'.recoverers[r]) {
      assert RecovererInv(s, s.recoverers[r]);
      ArrivedJournals(s, p, txn, s.recoverers[r].txn);
    }
  }

  // ---------------------------------------------------------------- a step of one recoverer

  ghost predicate RecovererMove(s: State, s': State, r: nat, e: Option<Entry>) {
    && r in s.recoverers && r in s'.recoverers && s'.recoverers == s.recoverers[r := s'.recoverers[r]]
    && s'.owners == s.owners && s.claims <= s'.claims
    && var x, x' := s.recoverers[r], s'.recoverers[r];
       && x'.txn == x.txn && x'.token == x.token && x.txn in s.journals
       && Grows(s, s', x.txn, e)
       && (e.Some? ==> UnderClaim(x.phase) && !e.value.stage.Locked?)
       && (s'.lock != s.lock ==> x.phase.Removing? && s'.lock == None)
       && (s'.claim != s.claim ==>
             (s.claim == None && x.phase.Claiming? && s'.claim == Some(s.claims) && s'.claims == s.claims + 1)
                                   || (x.phase.Dropping? && s'.claim == None && x'.phase.Done?))
       && (UnderClaim(x'.phase) ==> UnderClaim(x.phase) || s'.claim != s.claim)
  }

  lemma AppendMoves(s: State, r: nat, ok: bool, effect: bool) returns (e: Option<Entry>)
    requires r in s.recoverers && RecovererInv(s, s.recoverers[r]) && Appending(s.recoverers[r].phase)
    ensures RecovererMove(s, AppendStep(s, r, ok, effect), r, e)
  {
    var x := s.recoverers[r];
    assert s.journals[x.txn := s.journals[x.txn]] == s.journals;
    if Wanted(x).None? { return None; }
    AppendedShape(s.journals[x.txn], x.history, Wanted(x).value, ok, effect);
    e := if AppendStep(s, r, ok, effect).journals == s.journals then None else Wanted(x);
  }

  lemma AppendOwn(s: State, r: nat, ok: bool, effect: bool)
    requires r in s.recoverers && RecovererInv(s, s.recoverers[r]) && Appending(s.recoverers[r].phase)
    ensures RecovererInv(AppendStep(s, r, ok, effect), AppendStep(s, r, ok, effect).recoverers[r])
  {
    var x := s.recoverers[r];
    if Wanted(x).Some? {
      var e := Wanted(x).value;
      AppendedShape(s.journals[x.txn], x.history, e, ok, effect);
      LawfulGrows(x.history, e);
      BoundGrows(x.history, e, x.token);
    }
  }

  lemma RecoverMoves(s: State, r: nat, ok: bool, effect: bool, verdict: Classification, evidence: nat)
    requires r in s.recoverers && RecovererInv(s, s.recoverers[r]) && !Appending(s.recoverers[r].phase)
    ensures RecovererMove(s, RecoverStep(s, r, ok, effect, verdict, evidence), r, None)
  {
    assert s.recoverers[r := s.recoverers[r]] == s.recoverers;
  }

  lemma RecoverConfirms(s: State, r: nat, ok: bool, effect: bool, verdict: Classification, evidence: nat)
    requires r in s.recoverers && !Appending(s.recoverers[r].phase) && s.recoverers[r].history != []
    ensures var x, x' := s.recoverers[r], RecoverStep(s, r, ok, effect, verdict, evidence).recoverers[r];
            Confirmed(x'.phase) ==> Confirmed(x.phase) || (x.phase.Doubting? && ok)
  {
  }

  lemma RecoverViews(s: State, r: nat, ok: bool, effect: bool, verdict: Classification, evidence: nat)
    requires r in s.recoverers && !Appending(s.recoverers[r].phase) && RecovererInv(s, s.recoverers[r])
    ensures var s' := RecoverStep(s, r, ok, effect, verdict, evidence);
            RecovererView(s'.lock, s'.claim, s'.claims, s'.journals, s'.recoverers[r])
  {
  }

  lemma RecoverOwn(s: State, r: nat, ok: bool, effect: bool, verdict: Classification, evidence: nat)
    requires r in s.recoverers && RecovererInv(s, s.recoverers[r]) && !Appending(s.recoverers[r].phase)
    requires s.recoverers[r].phase.Doubting? && ok ==> !Alive(s, s.recoverers[r].token)
    requires s.recoverers[r].token in s.owners
    ensures var s' := RecoverStep(s, r, ok, effect, verdict, evidence); RecovererInv(s', s'.recoverers[r])
  {
    RecoverMoves(s, r, ok, effect, verdict, evidence);
    RecoverConfirms(s, r, ok, effect, verdict, evidence);
    RecoverViews(s, r, ok, effect, verdict, evidence);
  }

  lemma JournalsUnderRecoverer(s: State, s': State, r: nat, e: Option<Entry>, t: nat)
    requires RecovererMove(s, s', r, e) && RecovererInv(s, s.recoverers[r]) && t in s.journals && JournalInv(s, t)
    ensures t in s'.journals && s.journals[t] <= s'.journals[t] && JournalInv(s', t)
    ensures forall q :: BoundTo(s'.journals[t], q) ==> BoundTo(s.journals[t], q)
  {
    var x := s.recoverers[r];
    if e.Some? && t == x.txn {
      assert |s.journals[t]| > 1;
      LawfulGrows(s.journals[t], e.value);
      forall q
        ensures BoundTo(s'.journals[t], q) <==> BoundTo(s.journals[t], q)
      {
        BoundGrows(s.journals[t], e.value, q);
      }
      assert BoundTo(s.journals[t], x.token);
    }
  }

  lemma OwnersUnderRecoverer(s: State, s': State, r: nat, e: Option<Entry>, p: nat)
    requires Inv(s) && RecovererMove(s, s', r, e) && p in s.owners
    ensures OwnerInv(s', p, s.owners[p])
  {
    assert OwnerInv(s, p, s.owners[p]) && RecovererInv(s, s.recoverers[r]);
    forall t | t in s'.journals ensures t in s.journals && s.journals[t] <= s'.journals[t]
                                        && (BoundTo(s'.journals[t], p) ==> BoundTo(s.journals[t], p)) {
      JournalsUnderRecoverer(s, s', r, e, t);
    }
  }

  lemma OthersUnderRecoverer(s: State, s': State, r: nat, e: Option<Entry>, q: nat)
    requires Inv(s) && RecovererMove(s, s', r, e) && q in s.recoverers && q != r
    ensures RecovererInv(s', s.recoverers[q])
  {
    var y := s.recoverers[q];
    assert RecovererInv(s, y) && RecovererInv(s, s.recoverers[r]);
    JournalsUnderRecoverer(s, s', r, e, y.txn);
  }

  lemma RecovererMoveKeeps(s: State, s': State, r: nat, e: Option<Entry>)
    requires Inv(s) && RecovererMove(s, s', r, e) && RecovererInv(s', s'.recoverers[r])
    ensures Inv(s')
  {
    assert RecovererInv(s, s.recoverers[r]);
    forall p | p in s'.owners ensures OwnerInv(s', p, s'.owners[p]) { OwnersUnderRecoverer(s, s', r, e, p); }
    forall q | q in s'.recoverers
      ensures RecovererInv(s', s'.recoverers[q])
    {
      if q != r {
        OthersUnderRecoverer(s, s', r, e, q);
      }
    }
    forall t | t in s'.journals ensures JournalInv(s', t) { JournalsUnderRecoverer(s, s', r, e, t); }
    forall q | q in s.recoverers && UnderClaim(s.recoverers[q].phase)
      ensures s.claim.Some?
    {
      assert RecovererInv(s, s.recoverers[q]);
    }
    ClaimsUnderRecoverer(s, s', r, e);
  }

  lemma ClaimsUnderRecoverer(s: State, s': State, r: nat, e: Option<Entry>)
    requires OneClaimant(s) && (s.claim.Some? ==> s.claim.value < s.claims) && RecovererMove(s, s', r, e)
    requires forall q :: q in s.recoverers && UnderClaim(s.recoverers[q].phase) ==> s.claim.Some?
    ensures OneClaimant(s') && (s'.claim.Some? ==> s'.claim.value < s'.claims)
  {
  }

  lemma OpenedInv(s: State, s': State, txn: nat, x: Recoverer)
    requires txn in s.journals && JournalInv(s, txn) && BoundTo(s.journals[txn], x.token) && s'.journals == s.journals
    requires x.txn == txn && x.phase.Looking? && x.history == s.journals[txn]
    ensures RecovererInv(s', x)
  {
  }

  lemma OpenKeeps(s: State, r: nat, txn: nat)
    requires Inv(s) && Enabled(s, Open(r, txn))
    ensures Inv(Apply(s, Open(r, txn)))
  {
    assert JournalInv(s, txn);
    assert s.journals[txn][1] == Entry(Locked, s.journals[txn][1].mark);
    OpenedInv(s, Apply(s, Open(r, txn)), txn, Apply(s, Open(r, txn)).recoverers[r]);
    forall q | q in s.recoverers
      ensures RecovererInv(Apply(s, Open(r, txn)), s.recoverers[q])
    {
      assert RecovererInv(s, s.recoverers[q]);
    }
  }

  lemma RecoverKeeps(s: State, e: Event)
    requires Inv(s) && Enabled(s, e) && e.Recover?
    ensures Inv(Apply(s, e))
  {
    var x := s.recoverers[e.r];
    assert RecovererInv(s, x);
    if Appending(x.phase) {
      var entry := AppendMoves(s, e.r, e.ok, e.effect);
      AppendOwn(s, e.r, e.ok, e.effect);
      RecovererMoveKeeps(s, Apply(s, e), e.r, entry);
    } else {
      assert JournalInv(s, x.txn) && BoundTo(s.journals[x.txn], x.token);
      RecoverMoves(s, e.r, e.ok, e.effect, e.verdict, e.evidence);
      RecoverOwn(s, e.r, e.ok, e.effect, e.verdict, e.evidence);
      RecovererMoveKeeps(s, Apply(s, e), e.r, None);
    }
  }

  lemma StopRecovererKeeps(s: State, r: nat)
    requires Inv(s) && r in s.recoverers
    ensures Inv(Put(s, r, s.recoverers[r].(phase := Done)))
  {
    assert RecovererInv(s, s.recoverers[r]);
    RecovererMoveKeeps(s, Put(s, r, s.recoverers[r].(phase := Done)), r, None);
  }

  lemma StepKeeps(s: State, e: Event)
    requires Inv(s) && Enabled(s, e)
    ensures Inv(Apply(s, e))
  {
    match e
    case Arrive(p, txn) => ArriveKeeps(s, p, txn);
    case Own(p, stage, ok, effect) =>
      assert OwnerInv(s, p, s.owners[p]);
      var entry := OwnerMoves(s, p, stage, ok, effect);
      OwnerOwn(s, p, stage, ok, effect);
      OwnerMoveKeeps(s, OwnerStep(s, p, stage, ok, effect), p, entry);
    case Undo(p) => OwnerEndsKeeps(s, p, Gone, None);
    case Release(p) => OwnerEndsKeeps(s, p, Checking, s.lock);
    case StopOwner(p) => OwnerEndsKeeps(s, p, Gone, s.lock);
    case Open(r, txn) => OpenKeeps(s, r, txn);
    case Recover(_, _, _, _, _) => RecoverKeeps(s, e);
    case StopRecoverer(r) => StopRecovererKeeps(s, r);
  }

  lemma {:induction false} RunKeeps(run: seq<State>, k: nat)
    requires Run(run) && k < |run|
    ensures Inv(run[k])
  {
    if k > 0 {
      RunKeeps(run, k - 1);
      assert Next(run[k - 1], run[(k - 1) + 1]);
      var e :| Step(run[k - 1], e, run[k]);
      StepKeeps(run[k - 1], e);
    }
  }

  // ---------------------------------------------------------------- what runs guarantee

  /** At most one live owner holds the target, under its own token. */
  lemma OneOwner(run: seq<State>, k: nat, p: nat, q: nat)
    requires Run(run) && k < |run| && Alive(run[k], p) && Alive(run[k], q)
    ensures p == q && run[k].lock == Some(p)
  {
    RunKeeps(run, k);
    assert OwnerInv(run[k], p, run[k].owners[p]) && OwnerInv(run[k], q, run[k].owners[q]);
  }

  /** At most one recoverer acts under the target's recovery claim. */
  lemma OneRecoverer(run: seq<State>, k: nat, q: nat, r: nat)
    requires Run(run) && k < |run| && q in run[k].recoverers && UnderClaim(run[k].recoverers[q].phase)
    requires r in run[k].recoverers && UnderClaim(run[k].recoverers[r].phase)
    ensures q == r && run[k].claim == Some(run[k].recoverers[q].claim)
  {
    RunKeeps(run, k);
    assert RecovererInv(run[k], run[k].recoverers[q]);
  }

  /** The owner `x` itself takes the step, before its LOCKED record or after its own FINALIZED one. */
  ghost predicate OwnRemoval(s: State, e: Event, x: nat) {
    && x in s.owners && s.owners[x].txn in s.journals
    && ((e == Undo(x) && !BoundTo(s.journals[s.owners[x].txn], x))
        || (e.Own? && e.p == x && BoundTo(s.journals[s.owners[x].txn], x) && Finalized(s.journals[s.owners[x].txn])))
  }

  /** The claimed recoverer of `x`'s transaction takes the step after its FINALIZED record, and `x` acts no more. */
  ghost predicate RecoveredRemoval(s: State, e: Event, x: nat) {
    && e.Recover? && e.r in s.recoverers
    && var y := s.recoverers[e.r];
       && y.token == x && s.claim == Some(y.claim) && !Alive(s, x)
       && y.txn in s.journals && BoundTo(s.journals[y.txn], x) && Finalized(s.journals[y.txn])
  }

  lemma FinalizedWhole(h: Journal, j: Journal)
    requires Lawful(j) && h <= j && Finalized(h)
    ensures h == j
  {
    assert |h| < |j| ==> Allows(j[|h| - 1].stage, j[|h|].stage);
  }

  lemma OwnerRemoves(s: State, e: Event)
    requires Inv(s) && Enabled(s, e) && (e.Own? || e.Undo?) && s.lock.Some? && Apply(s, e).lock.None?
    ensures OwnRemoval(s, e, s.lock.value)
  {
    var o := s.owners[e.p];
    assert OwnerInv(s, e.p, o) && JournalInv(s, o.txn);
    if e.Own? { FinalizedWhole(o.history, s.journals[o.txn]); }
  }

  lemma RemovingOnly(s: State, e: Event)
    requires Enabled(s, e) && e.Recover? && Apply(s, e).lock != s.lock
    ensures s.recoverers[e.r].phase.Removing?
  {
  }

  lemma RecovererRemoves(s: State, e: Event)
    requires Inv(s) && Enabled(s, e) && e.Recover? && s.lock.Some? && s.recoverers[e.r].phase.Removing?
    ensures RecoveredRemoval(s, e, s.lock.value)
  {
    var x := s.recoverers[e.r];
    assert RecovererInv(s, x) && JournalInv(s, x.txn);
    FinalizedWhole(x.history, s.journals[x.txn]);
  }

  /** The lock file is removed only by its own owner, or by the one recoverer holding the claim after a FINALIZED
      record of the owner's transaction. */
  lemma RemovedOnlyRightly(run: seq<State>, k: nat, e: Event)
    requires Run(run) && k + 1 < |run| && Step(run[k], e, run[k + 1]) && run[k].lock.Some?
             && run[k + 1].lock != run[k].lock
    ensures run[k + 1].lock.None?
    ensures OwnRemoval(run[k], e, run[k].lock.value) || RecoveredRemoval(run[k], e, run[k].lock.value)
  {
    RunKeeps(run, k);
    var s := run[k];
    if e.Own? {
      assert OwnerInv(s, e.p, s.owners[e.p]);
      var entry := OwnerMoves(s, e.p, e.stage, e.ok, e.effect);
      OwnerRemoves(s, e);
    } else if e.Undo? {
      OwnerRemoves(s, e);
    } else {
      OthersKeepLock(s, e);
      RemovingOnly(s, e);
      RecovererRemoves(s, e);
    }
  }

  lemma OthersKeepLock(s: State, e: Event)
    requires Enabled(s, e) && !e.Own? && !e.Undo?
    ensures Apply(s, e).lock == s.lock || (e.Recover? && Apply(s, e).lock.None?)
  {
  }

  lemma OwnExtends(s: State, e: Event, t: nat)
    requires Inv(s) && Enabled(s, e) && e.Own? && t in s.journals
    ensures t in Apply(s, e).journals && s.journals[t] <= Apply(s, e).journals[t]
  {
    assert OwnerInv(s, e.p, s.owners[e.p]) && JournalInv(s, t);
    var entry := OwnerMoves(s, e.p, e.stage, e.ok, e.effect);
    JournalsUnderOwner(s, OwnerStep(s, e.p, e.stage, e.ok, e.effect), e.p, entry, t);
  }

  lemma RecoverExtends(s: State, e: Event, t: nat)
    requires Inv(s) && Enabled(s, e) && e.Recover? && t in s.journals
    ensures t in Apply(s, e).journals && s.journals[t] <= Apply(s, e).journals[t]
  {
    var x := s.recoverers[e.r];
    assert RecovererInv(s, x) && JournalInv(s, t);
    if Appending(x.phase) {
      var entry := AppendMoves(s, e.r, e.ok, e.effect);
      JournalsUnderRecoverer(s, AppendStep(s, e.r, e.ok, e.effect), e.r, entry, t);
    } else {
      RecoverMoves(s, e.r, e.ok, e.effect, e.verdict, e.evidence);
    }
  }

  lemma StepExtends(s: State, e: Event, t: nat)
    requires Inv(s) && Enabled(s, e) && t in s.journals
    ensures t in Apply(s, e).journals && s.journals[t] <= Apply(s, e).journals[t]
  {
    if e.Own? { OwnExtends(s, e, t); } else if e.Recover? { RecoverExtends(s, e, t); } else {}
  }

  /** A target whose recovery ended unresolved stays locked, for the rest of the run. */
  lemma {:induction false} UnresolvedStaysLocked(run: seq<State>, j: nat, k: nat, t: nat, x: nat)
    requires Run(run) && j <= k < |run| && t in run[j].journals && BoundTo(run[j].journals[t], x)
    requires At(run[j].journals[t]).RecoveryUnresolved? && run[j].lock == Some(x)
    ensures run[k].lock == Some(x) && t in run[k].journals && run[k].journals[t] == run[j].journals[t]
    decreases k - j
  {
    if j < k {
      UnresolvedStaysLocked(run, j, k - 1, t, x);
      RunKeeps(run, k - 1);
      RunKeeps(run, k);
      assert Next(run[k - 1], run[(k - 1) + 1]);
      var e :| Step(run[k - 1], e, run[k]);
      StepExtends(run[k - 1], e, t);
      UnresolvedIsLast(run[k], run[k - 1].journals[t], t);
      StillLocked(run, k - 1, e, t, x);
    }
  }

  lemma UnresolvedIsLast(s: State, j: Journal, t: nat)
    requires Inv(s) && t in s.journals && j != [] && j <= s.journals[t] && At(j).RecoveryUnresolved?
    ensures s.journals[t] == j
  {
    assert JournalInv(s, t);
    assert |j| < |s.journals[t]| ==> Allows(s.journals[t][|j| - 1].stage, s.journals[t][|j|].stage);
  }

  lemma NotRemovable(s: State, e: Event, t: nat, x: nat)
    requires Inv(s) && t in s.journals && BoundTo(s.journals[t], x) && At(s.journals[t]).RecoveryUnresolved?
    ensures !OwnRemoval(s, e, x) && !RecoveredRemoval(s, e, x)
  {
    forall u | u in s.journals && BoundTo(s.journals[u], x) ensures u == s.owners[x].txn { assert JournalInv(s, u); }
  }

  lemma StillLocked(run: seq<State>, k: nat, e: Event, t: nat, x: nat)
    requires Run(run) && k + 1 < |run| && Step(run[k], e, run[k + 1]) && run[k].lock == Some(x)
    requires t in run[k].journals && BoundTo(run[k].journals[t], x) && At(run[k].journals[t]).RecoveryUnresolved?
    ensures run[k + 1].lock == Some(x)
  {
    RunKeeps(run, k);
    NotRemovable(run[k], e, t, x);
    if run[k + 1].lock != run[k].lock { RemovedOnlyRightly(run, k, e); }
  }
}
