/** What a recovery journals for its verdict, and that a recovery or an owner left alone finishes. */
module TargetProgress {
  import opened Wrappers
  import opened MutationTransaction
  import opened Repetition
  import opened TargetLock
  import Patch = PatchRun

  // ---------------------------------------------------------------- the verdict journaled

  lemma AppendJournals(s: State, r: nat, ok: bool, effect: bool, t: nat)
    requires r in s.recoverers && s.recoverers[r].history != [] && s.recoverers[r].txn in s.journals
    requires Appending(s.recoverers[r].phase) && t in s.journals
    ensures var s', x := AppendStep(s, r, ok, effect), s.recoverers[r];
            && t in s'.journals
            && (s'.journals[t] != s.journals[t] ==>
                  t == x.txn && Wanted(x).Some? && s'.journals[t] == s.journals[t] + [Wanted(x).value])
  {
  }

  /** Over every step of a run in which a recovery lengthens a journal: what it adds ends the transaction as a success
      exactly for a patch found applied, as a failure exactly for one found not applied or restored, and as unresolved
      exactly for any other. */
  lemma VerdictJournaled(run: seq<State>, k: nat, e: Event, t: nat)
    requires Run(run) && k < |run| - 1 && e.Recover? && Step(run[k], e, run[k + 1])
    requires t in run[k].journals && t in run[k + 1].journals && run[k + 1].journals[t] != run[k].journals[t]
    ensures var x, before, after := run[k].recoverers[e.r], run[k].journals[t], run[k + 1].journals[t];
            && x.txn == t && |after| == |before| + 1 && before <= after
            && (TargetLock.At(after).FinalizedSuccess? ==> x.verdict.PreviouslyAuthorizedApplied?)
            && (TargetLock.At(after).FinalizedFailed? ==> x.verdict.NotApplied? || x.verdict.RestoredBefore?)
            && (TargetLock.At(after).RecoveryUnresolved? ==> x.verdict.Unresolved?)
            && (Final(TargetLock.At(after)) ==>
                  && (TargetLock.At(after).FinalizedSuccess? <==> x.verdict.PreviouslyAuthorizedApplied?)
                  && (TargetLock.At(after).FinalizedFailed? <==> x.verdict.NotApplied? || x.verdict.RestoredBefore?)
                  && (TargetLock.At(after).RecoveryUnresolved? <==> x.verdict.Unresolved?))
  {
    if Appending(run[k].recoverers[e.r].phase) { AppendJournals(run[k], e.r, e.ok, e.effect, t); }
  }

  /** With the verdict recovery classifies a stopped patch by, FINALIZED_SUCCESS is journaled only over the replacement
      and FINALIZED_FAILED only over contents left as they were. */
  lemma FinalizedTells(run: seq<State>, k: nat, e: Event, t: nat, f: Patch.Files, target: Patch.Content,
      store: Patch.Store, history: seq<Stage>, journal: seq<Stage>)
    requires Run(run) && k < |run| - 1 && e.Recover? && Step(run[k], e, run[k + 1])
    requires t in run[k].journals && t in run[k + 1].journals && run[k + 1].journals[t] != run[k].journals[t]
    requires Patch.Consistent(f, target, store, history, journal)
    requires run[k].recoverers[e.r].verdict == Patch.Classified(f, target, journal)
    ensures TargetLock.At(run[k + 1].journals[t]).FinalizedSuccess? ==>
              f.provider.InPlace? && target == f.replacement && f.start == f.before != f.replacement
    ensures TargetLock.At(run[k + 1].journals[t]).FinalizedFailed? ==> Patch.Untouched(f, target, store)
  {
    VerdictJournaled(run, k, e, t);
    Patch.CrashClassified(f, target, store, history, journal);
  }

  // ---------------------------------------------------------------- a recovery left alone

  ghost function By(e: Event): State -> Option<State> {
    (s: State) => if Enabled(s, e) then Some(Apply(s, e)) else None
  }

  /** The same event, `n` times in a row. */
  ghost predicate Repeats(s: State, e: Event, n: nat, s': State) { Repeated(By(e), s, n, s') }

  lemma RepeatsMore(s: State, e: Event, n: nat, m: State, k: nat, s': State)
    requires Repeats(s, e, n, m) && Repeats(m, e, k, s')
    ensures Repeats(s, e, n + k, s')
  {
    RepeatedMore(By(e), s, n, m, k, s');
  }

  lemma RepeatsFirst(s: State, e: Event)
    requires Enabled(s, e)
    ensures Repeats(s, e, 1, Apply(s, e))
  {
    RepeatedSingle(By(e), s, Apply(s, e));
  }

  lemma RepeatsOne(s: State, e: Event, n: nat, m: State)
    requires Repeats(s, e, n, m) && Enabled(m, e)
    ensures Repeats(s, e, n + 1, Apply(m, e))
  {
    RepeatedOnce(By(e), s, n, m, Apply(m, e));
  }

  /** The state in which recovery `r` has come to `x`, its journal being the one there is, and nobody else has acted. */
  ghost function Come(s: State, r: nat, x: Recoverer, lock: Option<nat>, claim: Option<nat>, claims: nat): State {
    State(lock, claim, claims, s.journals[x.txn := x.history], s.owners, s.recoverers[r := x])
  }

  function Recovery(r: nat, verdict: Patch.Classification, evidence: nat): Event {
    Recover(r, true, true, verdict, evidence)
  }

  ghost predicate Ready(s: State, x: Recoverer) { x.txn in s.journals && x.history != [] && !Alive(s, x.token) }

  lemma SameOwners(s: State, r: nat, x: Recoverer, lock: Option<nat>, claim: Option<nat>, claims: nat,
      verdict: Patch.Classification, evidence: nat)
    requires Ready(s, x)
    ensures Enabled(Come(s, r, x, lock, claim, claims), Recovery(r, verdict, evidence))
  {
    assert Alive(Come(s, r, x, lock, claim, claims), x.token) <==> Alive(s, x.token);
  }

  lemma Moves(s: State, r: nat, x: Recoverer, y: Recoverer)
    requires y.txn == x.txn
    ensures s.recoverers[r := x][r := y] == s.recoverers[r := y]
    ensures s.journals[x.txn := x.history][x.txn := y.history] == s.journals[y.txn := y.history]
  {
  }

  /** One step under the claim that appends what the recovery wants next. */
  lemma Appends(s: State, r: nat, x: Recoverer, lock: Option<nat>, claim: Option<nat>, claims: nat,
      verdict: Patch.Classification, evidence: nat) returns (y: Recoverer)
    requires Ready(s, x) && Appending(x.phase)
    ensures Apply(Come(s, r, x, lock, claim, claims), Recovery(r, verdict, evidence))
            == Come(s, r, y, lock, claim, claims)
    ensures y == if Wanted(x).None? then x.(phase := Returning)
                 else x.(phase := After(x, Wanted(x).value), history := x.history + [Wanted(x).value])
  {
    y := if Wanted(x).None? then x.(phase := Returning)
         else x.(phase := After(x, Wanted(x).value), history := x.history + [Wanted(x).value]);
    Moves(s, r, x, y);
    SameOwners(s, r, x, lock, claim, claims, verdict, evidence);
  }

  /** One of the other steps. */
  lemma Steps(s: State, r: nat, x: Recoverer, lock: Option<nat>, claim: Option<nat>, claims: nat,
      verdict: Patch.Classification, evidence: nat)
    requires Ready(s, x)
    ensures var m, e := Come(s, r, x, lock, claim, claims), Recovery(r, verdict, evidence);
            && (x.phase.Looking? && lock == Some(x.token) ==>
                  Apply(m, e) == Come(s, r, x.(phase := Doubting), lock, claim, claims))
            && (x.phase.Doubting? ==>
                  Apply(m, e) == Come(s, r, x.(phase := Claiming, verdict := verdict, evidence := evidence),
                                      lock, claim, claims))
            && (x.phase.Claiming? && claim.None? ==>
                  Apply(m, e) == Come(s, r, x.(phase := Deciding, claim := claims), lock, Some(claims), claims + 1))
            && (x.phase.Rechecking? && lock == Some(x.token) ==>
                  Apply(m, e) == Come(s, r, x.(phase := Removing), lock, claim, claims))
            && (x.phase.Removing? ==>
                  Apply(m, e) == Come(s, r, x.(phase := Returning), None, claim, claims))
            && (x.phase.Returning? && claim == Some(x.claim) ==>
                  Apply(m, e) == Come(s, r, x.(phase := Dropping), lock, claim, claims))
            && (x.phase.Dropping? ==>
                  Apply(m, e) == Come(s, r, x.(phase := Done), lock, None, claims))
  {
    SameOwners(s, r, x, lock, claim, claims, verdict, evidence);
    Moves(s, r, x, x.(phase := Doubting));
    Moves(s, r, x, x.(phase := Claiming, verdict := verdict, evidence := evidence));
    Moves(s, r, x, x.(phase := Deciding, claim := claims));
    Moves(s, r, x, x.(phase := Removing));
    Moves(s, r, x, x.(phase := Returning));
    Moves(s, r, x, x.(phase := Dropping));
    Moves(s, r, x, x.(phase := Done));
  }

  /** Deciding looks at the last stage. */
  lemma Decides(s: State, r: nat, x: Recoverer, lock: Option<nat>, claim: Option<nat>, claims: nat,
      verdict: Patch.Classification, evidence: nat) returns (y: Recoverer)
    requires Ready(s, x) && x.phase.Deciding?
    ensures Apply(Come(s, r, x, lock, claim, claims), Recovery(r, verdict, evidence))
            == Come(s, r, y, lock, claim, claims)
    ensures var at := TargetLock.At(x.history);
            y == x.(phase := if at.RecoveryUnresolved? then Returning else if Final(at) then Rechecking
                             else if at.RecoveryRequired? then Resolving else if at.Recovered? then Recording
                             else Requiring)
  {
    var at := TargetLock.At(x.history);
    y := x.(phase := if at.RecoveryUnresolved? then Returning else if Final(at) then Rechecking
                     else if at.RecoveryRequired? then Resolving else if at.Recovered? then Recording
                     else Requiring);
    SameOwners(s, r, x, lock, claim, claims, verdict, evidence);
    Moves(s, r, x, y);
  }

  /** The owner of the lock has stopped, and nobody recovers its target. */
  ghost predicate CanRecover(s: State, r: nat, t: nat, token: nat) {
    && r !in s.recoverers && t in s.journals && BoundTo(s.journals[t], token) && !Alive(s, token)
    && s.lock == Some(token) && s.claim.None?
  }

  function PhaseFor(at: Stage): RecoveryPhase {
    if at.RecoveryUnresolved? then Returning else if Final(at) then Rechecking
    else if at.RecoveryRequired? then Resolving else if at.Recovered? then Recording
    else Requiring
  }

  /** Up to the decision. */
  lemma Opens(s: State, r: nat, t: nat, token: nat, verdict: Patch.Classification, evidence: nat) returns (y: Recoverer)
    requires CanRecover(s, r, t, token)
    ensures Enabled(s, Open(r, t))
    ensures Repeats(Apply(s, Open(r, t)), Recovery(r, verdict, evidence), 4,
                    Come(s, r, y, Some(token), Some(s.claims), s.claims + 1))
    ensures y == Recoverer(t, token, PhaseFor(TargetLock.At(s.journals[t])), s.journals[t], verdict, evidence, s.claims)
  {
    var e, lock := Recovery(r, verdict, evidence), Some(token);
    var x := Recoverer(t, token, Looking, s.journals[t], Patch.Unresolved, 0, 0);
    var m := Apply(s, Open(r, t));
    assert s.journals[t := s.journals[t]] == s.journals;
    assert m == Come(s, r, x, lock, None, s.claims);
    Steps(s, r, x, lock, None, s.claims, verdict, evidence);
    SameOwners(s, r, x, lock, None, s.claims, verdict, evidence);
    RepeatsFirst(m, e);
    var x1 := x.(phase := Doubting);
    Steps(s, r, x1, lock, None, s.claims, verdict, evidence);
    SameOwners(s, r, x1, lock, None, s.claims, verdict, evidence);
    RepeatsOne(m, e, 1, Come(s, r, x1, lock, None, s.claims));
    var x2 := x1.(phase := Claiming, verdict := verdict, evidence := evidence);
    Steps(s, r, x2, lock, None, s.claims, verdict, evidence);
    SameOwners(s, r, x2, lock, None, s.claims, verdict, evidence);
    RepeatsOne(m, e, 2, Come(s, r, x2, lock, None, s.claims));
    var x3 := x2.(phase := Deciding, claim := s.claims);
    y := Decides(s, r, x3, lock, Some(s.claims), s.claims + 1, verdict, evidence);
    SameOwners(s, r, x3, lock, Some(s.claims), s.claims + 1, verdict, evidence);
    RepeatsOne(m, e, 3, Come(s, r, x3, lock, Some(s.claims), s.claims + 1));
  }

  /** The entries a recovery adds from an appending phase on. */
  function Added(phase: RecoveryPhase, verdict: Patch.Classification, evidence: nat): Journal
    decreases Left(phase)
  {
    match phase
    case Requiring => [Entry(RecoveryRequired, None)] + Added(Resolving, verdict, evidence)
    case Resolving =>
      if verdict.Unresolved? then [Entry(RecoveryUnresolved, Some(evidence))]
      else [Entry(Recovered, Some(evidence))] + Added(Recording, verdict, evidence)
    case Recording => [Entry(EvidenceRecorded, None)] + Added(Finalizing, verdict, evidence)
    case Finalizing =>
      if verdict.Unresolved? then []
      else [Entry(if verdict.PreviouslyAuthorizedApplied? then FinalizedSuccess else FinalizedFailed, None)]
    case _ => []
  }

  function Left(phase: RecoveryPhase): nat {
    match phase case Requiring => 4 case Resolving => 3 case Recording => 2 case Finalizing => 1 case _ => 0
  }

  /** The phase fits the last stage of the journal held. */
  predicate Fitting(x: Recoverer)
    requires x.history != []
  {
    match x.phase
    case Requiring => Allows(TargetLock.At(x.history), RecoveryRequired) && MarkedBy(x.history, x.evidence)
    case Resolving => TargetLock.At(x.history).RecoveryRequired? && MarkedBy(x.history, x.evidence)
    case Recording => TargetLock.At(x.history).Recovered?
    case Finalizing => TargetLock.At(x.history).EvidenceRecorded?
    case _ => false
  }

  lemma FitsOn(x: Recoverer)
    requires x.history != [] && Fitting(x)
    ensures var e := Wanted(x);
            if e.None? then x.phase.Finalizing? && x.verdict.Unresolved?
            else
              var y := x.(phase := After(x, e.value), history := x.history + [e.value]);
              && Added(x.phase, x.verdict, x.evidence) == [e.value] + Added(y.phase, x.verdict, x.evidence)
              && (if Appending(y.phase) then Fitting(y) && Left(y.phase) < Left(x.phase)
                  else y.phase == (if x.verdict.Unresolved? then Returning else Rechecking))
  {
  }

  /** Where the appends lead. */
  function Journaled(x: Recoverer): Recoverer {
    x.(phase := if x.verdict.Unresolved? then Returning else Rechecking,
       history := x.history + Added(x.phase, x.verdict, x.evidence))
  }

  lemma JournaledOn(x: Recoverer)
    requires x.history != [] && Fitting(x)
    ensures var e := Wanted(x);
            if e.None? then Journaled(x) == x.(phase := Returning)
            else
              var y := x.(phase := After(x, e.value), history := x.history + [e.value]);
              if Appending(y.phase) then Journaled(x) == Journaled(y) && Fitting(y) && Left(y.phase) < Left(x.phase)
              else Journaled(x) == y
  {
    FitsOn(x);
    var e := Wanted(x);
    if e.None? {
      assert x.history + [] == x.history;
    } else {
      var more := Added(After(x, e.value), x.verdict, x.evidence);
      assert x.history + ([e.value] + more) == x.history + [e.value] + more;
    }
  }

  /** The appends, one after the other. */
  lemma {:induction false} Journals(s: State, r: nat, x: Recoverer, lock: Option<nat>, claim: Option<nat>, claims: nat,
      evidence: nat) returns (n: nat)
    requires Ready(s, x) && Fitting(x)
    ensures Repeats(Come(s, r, x, lock, claim, claims), Recovery(r, x.verdict, evidence), n,
                    Come(s, r, Journaled(x), lock, claim, claims))
    decreases Left(x.phase)
  {
    var e, m := Recovery(r, x.verdict, evidence), Come(s, r, x, lock, claim, claims);
    JournaledOn(x);
    var z := Appends(s, r, x, lock, claim, claims, x.verdict, evidence);
    SameOwners(s, r, x, lock, claim, claims, x.verdict, evidence);
    RepeatsFirst(m, e);
    n := 1;
    if Wanted(x).Some? && Appending(z.phase) {
      var k := Journals(s, r, z, lock, claim, claims, evidence);
      RepeatsMore(m, e, 1, Come(s, r, z, lock, claim, claims), k, Come(s, r, Journaled(z), lock, claim, claims));
      n := 1 + k;
    }
  }

  /** The release of the lock where the record is final, and of the claim. */
  lemma Closes(s: State, r: nat, x: Recoverer, claims: nat, evidence: nat) returns (n: nat)
    requires Ready(s, x) && (x.phase.Rechecking? || x.phase.Returning?)
    ensures Repeats(Come(s, r, x, Some(x.token), Some(x.claim), claims), Recovery(r, x.verdict, evidence), n,
                    Come(s, r, x.(phase := Done), if x.phase.Rechecking? then None else Some(x.token), None, claims))
  {
    var e, lock, claim := Recovery(r, x.verdict, evidence), Some(x.token), Some(x.claim);
    var m := Come(s, r, x, lock, claim, claims);
    if x.phase.Rechecking? {
      Steps(s, r, x, lock, claim, claims, x.verdict, evidence);
      SameOwners(s, r, x, lock, claim, claims, x.verdict, evidence);
      RepeatsFirst(m, e);
      var x1 := x.(phase := Removing);
      Steps(s, r, x1, lock, claim, claims, x.verdict, evidence);
      SameOwners(s, r, x1, lock, claim, claims, x.verdict, evidence);
      RepeatsOne(m, e, 1, Come(s, r, x1, lock, claim, claims));
      GivesUp(s, r, x.(phase := Returning), None, claims, evidence);
      RepeatsMore(m, e, 2, Come(s, r, x.(phase := Returning), None, claim, claims), 2,
                  Come(s, r, x.(phase := Done), None, None, claims));
      n := 4;
    } else {
      GivesUp(s, r, x, lock, claims, evidence);
      n := 2;
    }
  }

  lemma GivesUp(s: State, r: nat, x: Recoverer, lock: Option<nat>, claims: nat, evidence: nat)
    requires Ready(s, x) && x.phase.Returning?
    ensures Repeats(Come(s, r, x, lock, Some(x.claim), claims), Recovery(r, x.verdict, evidence), 2,
                    Come(s, r, x.(phase := Done), lock, None, claims))
  {
    var e, claim := Recovery(r, x.verdict, evidence), Some(x.claim);
    var m := Come(s, r, x, lock, claim, claims);
    Steps(s, r, x, lock, claim, claims, x.verdict, evidence);
    SameOwners(s, r, x, lock, claim, claims, x.verdict, evidence);
    RepeatsFirst(m, e);
    var x1 := x.(phase := Dropping);
    Steps(s, r, x1, lock, claim, claims, x.verdict, evidence);
    SameOwners(s, r, x1, lock, claim, claims, x.verdict, evidence);
    RepeatsOne(m, e, 1, Come(s, r, x1, lock, claim, claims));
  }

  /** What recovering a journal with a verdict adds to it: nothing once it is final; otherwise what is missing of
      RECOVERY_REQUIRED, the outcome, EVIDENCE_RECORDED and the terminal stage of the verdict. */
  function Resolution(j: Journal, verdict: Patch.Classification, evidence: nat): Journal
    requires j != []
  {
    Added(PhaseFor(TargetLock.At(j)), verdict, evidence)
  }

  lemma RecoveryAllowed(j: Journal)
    requires Lawful(j) && |j| > 1 && PhaseFor(TargetLock.At(j)).Requiring?
    ensures Allows(TargetLock.At(j), RecoveryRequired)
  {
  }

  lemma DecidedJournals(s: State, r: nat, x: Recoverer, claims: nat) returns (n: nat, y: Recoverer)
    requires Ready(s, x) && Lawful(x.history) && |x.history| > 1 && MarkedBy(x.history, x.evidence)
    requires x.phase == PhaseFor(TargetLock.At(x.history))
    ensures Repeats(Come(s, r, x, Some(x.token), Some(x.claim), claims), Recovery(r, x.verdict, x.evidence), n,
                    Come(s, r, y, Some(x.token), Some(x.claim), claims))
    ensures y == x.(phase := y.phase, history := x.history + Resolution(x.history, x.verdict, x.evidence))
    ensures y.phase.Rechecking? || y.phase.Returning?
    ensures y.phase.Rechecking? <==> Finalized(y.history)
  {
    FinalByVerdict(x.history, x.verdict, x.evidence);
    if Appending(x.phase) {
      if x.phase.Requiring? { RecoveryAllowed(x.history); }
      n := Journals(s, r, x, Some(x.token), Some(x.claim), claims, x.evidence);
      y := Journaled(x);
    } else {
      n, y := 0, x;
      assert x.history + [] == x.history;
      RepeatedNone(By(Recovery(r, x.verdict, x.evidence)), Come(s, r, x, Some(x.token), Some(x.claim), claims));
    }
  }

  lemma FinalByVerdict(j: Journal, verdict: Patch.Classification, evidence: nat)
    requires j != []
    ensures var phase := PhaseFor(TargetLock.At(j));
            Finalized(j + Resolution(j, verdict, evidence)) <==>
              if Appending(phase) then !verdict.Unresolved? else phase.Rechecking?
  {
    if !Appending(PhaseFor(TargetLock.At(j))) { assert j + [] == j; }
  }

  lemma DecidedFinishes(s: State, r: nat, x: Recoverer, claims: nat) returns (n: nat, y: Recoverer)
    requires Ready(s, x) && Lawful(x.history) && |x.history| > 1 && MarkedBy(x.history, x.evidence)
    requires x.phase == PhaseFor(TargetLock.At(x.history))
    ensures y.txn == x.txn && y.phase.Done? && y.history == x.history + Resolution(x.history, x.verdict, x.evidence)
    ensures Repeats(Come(s, r, x, Some(x.token), Some(x.claim), claims), Recovery(r, x.verdict, x.evidence), n,
                    Come(s, r, y, if Finalized(y.history) then None else Some(x.token), None, claims))
  {
    var a, z := DecidedJournals(s, r, x, claims);
    var c := Closes(s, r, z, claims, x.evidence);
    y := z.(phase := Done);
    n := a + c;
    RepeatsMore(Come(s, r, x, Some(x.token), Some(x.claim), claims), Recovery(r, x.verdict, x.evidence),
                a, Come(s, r, z, Some(x.token), Some(x.claim), claims),
                c, Come(s, r, y, if z.phase.Rechecking? then None else Some(x.token), None, claims));
  }

  lemma RecoveryFinishesFrom(s: State, r: nat, t: nat, token: nat, verdict: Patch.Classification, evidence: nat)
    returns (n: nat, y: Recoverer, s': State)
    requires CanRecover(s, r, t, token) && Lawful(s.journals[t]) && MarkedBy(s.journals[t], evidence)
    ensures Enabled(s, Open(r, t)) && Repeats(Apply(s, Open(r, t)), Recovery(r, verdict, evidence), n, s')
    ensures y.txn == t && y.phase.Done? && y.history == s.journals[t] + Resolution(s.journals[t], verdict, evidence)
    ensures s' == Come(s, r, y, if Finalized(y.history) then None else s.lock, None, s.claims + 1)
  {
    var x := Opens(s, r, t, token, verdict, evidence);
    var k: nat;
    k, y := DecidedFinishes(s, r, x, s.claims + 1);
    s' := Come(s, r, y, if Finalized(y.history) then None else s.lock, None, s.claims + 1);
    n := 4 + k;
    RepeatsMore(Apply(s, Open(r, t)), Recovery(r, verdict, evidence),
                4, Come(s, r, x, Some(token), Some(s.claims), s.claims + 1), k, s');
  }

  /** A recovery of a stopped owner's transaction, left alone and with every step succeeding, finishes: it journals the
      resolution of its verdict, gives its claim back, and removes the lock exactly when the journal is then final by
      success or failure. */
  lemma RecoveryFinishes(run: seq<State>, k: nat, r: nat, t: nat, token: nat, verdict: Patch.Classification,
      evidence: nat) returns (n: nat, s': State)
    requires Run(run) && k < |run| && CanRecover(run[k], r, t, token) && MarkedBy(run[k].journals[t], evidence)
    ensures Enabled(run[k], Open(r, t))
    ensures Repeats(Apply(run[k], Open(r, t)), Recovery(r, verdict, evidence), n, s')
    ensures var s, j := run[k], run[k].journals[t];
            && s'.journals == s.journals[t := j + Resolution(j, verdict, evidence)]
            && s'.claim.None? && r in s'.recoverers && s'.recoverers[r].phase.Done? && s'.owners == s.owners
            && s'.lock == (if Finalized(s'.journals[t]) then None else s.lock)
  {
    LawfulAlong(run, k, t);
    var y: Recoverer;
    n, y, s' := RecoveryFinishesFrom(run[k], r, t, token, verdict, evidence);
  }

  lemma LawfulAlong(run: seq<State>, k: nat, t: nat)
    requires Run(run) && k < |run| && t in run[k].journals
    ensures Lawful(run[k].journals[t])
  {
    RunKeeps(run, k);
    assert JournalInv(run[k], t);
  }

  // ---------------------------------------------------------------- an owner left alone

  ghost predicate Leads(events: seq<Event>, path: seq<State>, i: nat)
    requires i < |events| && i + 1 < |path|
  {
    Enabled(path[i], events[i]) && Apply(path[i], events[i]) == path[i + 1]
  }

  ghost predicate IsCourse(s: State, events: seq<Event>, s': State, path: seq<State>) {
    && |path| == |events| + 1 && path[0] == s && path[|events|] == s'
    && forall i :: 0 <= i < |events| ==> Leads(events, path, i)
  }

  /** The events, one after the other, lead from `s` to `s'`. */
  ghost predicate Course(s: State, events: seq<Event>, s': State) { exists path :: IsCourse(s, events, s', path) }

  lemma CourseNone(s: State)
    ensures Course(s, [], s)
  {
    assert IsCourse(s, [], s, [s]);
  }

  lemma CourseOne(s: State, events: seq<Event>, m: State, e: Event, s': State)
    requires Course(s, events, m) && Enabled(m, e) && Apply(m, e) == s'
    ensures Course(s, events + [e], s')
  {
    var path :| IsCourse(s, events, m, path);
    var more, longer := events + [e], path + [s'];
    forall i | 0 <= i < |more| ensures Leads(more, longer, i) {
      if i < |events| { assert Leads(events, path, i); }
    }
    assert IsCourse(s, more, s', longer);
  }

  /** The state in which owner `p` has come to `o`, its journal being the one there is. */
  function Owned(s: State, p: nat, o: Owner, lock: Option<nat>): State {
    State(lock, s.claim, s.claims, s.journals[o.txn := o.history], s.owners[p := o], s.recoverers)
  }

  lemma OwnedMoves(s: State, p: nat, o: Owner, o': Owner)
    requires o'.txn == o.txn
    ensures s.owners[p := o][p := o'] == s.owners[p := o']
    ensures s.journals[o.txn := o.history][o.txn := o'.history] == s.journals[o'.txn := o'.history]
  {
  }

  function Acts(p: nat, stage: Stage): Event { Own(p, stage, true, true) }

  /** The stages an owner appends one by one after LOCKED, up to the one that ends the transaction. */
  predicate Appendable(at: Stage, stages: seq<Stage>)
    decreases |stages|
  {
    if stages == [] then at.FinalizedSuccess? || at.FinalizedFailed?
    else !Final(at) && Coordinated(stages[0]) && Allows(at, stages[0]) && Appendable(stages[0], stages[1..])
  }

  function Entries(stages: seq<Stage>): Journal {
    if stages == [] then [] else [Entry(stages[0], None)] + Entries(stages[1..])
  }

  function Acting(p: nat, stages: seq<Stage>): seq<Event> {
    if stages == [] then [] else [Acts(p, stages[0])] + Acting(p, stages[1..])
  }

  lemma OwnerAppends(s: State, p: nat, o: Owner, stage: Stage, b: State, events: seq<Event>)
    requires o.phase.Working? && o.history != [] && !Final(TargetLock.At(o.history)) && Coordinated(stage)
    requires Allows(TargetLock.At(o.history), stage) && Course(b, events, Owned(s, p, o, Some(p)))
    ensures Course(b, events + [Acts(p, stage)],
                   Owned(s, p, o.(history := o.history + [Entry(stage, None)]), Some(p)))
  {
    var o' := o.(history := o.history + [Entry(stage, None)]);
    OwnedMoves(s, p, o, o');
    CourseOne(b, events, Owned(s, p, o, Some(p)), Acts(p, stage), Owned(s, p, o', Some(p)));
  }

  /** The first stage and the rest of them. */
  lemma SplitsFirst(h: Journal, events: seq<Event>, p: nat, stages: seq<Stage>)
    requires stages != []
    ensures h + [Entry(stages[0], None)] + Entries(stages[1..]) == h + Entries(stages)
    ensures events + [Acts(p, stages[0])] + Acting(p, stages[1..]) == events + Acting(p, stages)
  {
  }

  lemma SplitsNone(h: Journal, events: seq<Event>, p: nat)
    ensures h + Entries([]) == h && events + Acting(p, []) == events
  {
  }

  lemma {:induction false} OwnerJournals(s: State, p: nat, o: Owner, stages: seq<Stage>, b: State, events: seq<Event>)
    requires o.phase.Working? && o.history != [] && Appendable(TargetLock.At(o.history), stages)
    requires Course(b, events, Owned(s, p, o, Some(p)))
    ensures var o' := o.(history := o.history + Entries(stages));
            Course(b, events + Acting(p, stages), Owned(s, p, o', Some(p))) && Finalized(o'.history)
    decreases |stages|
  {
    if stages == [] {
      SplitsNone(o.history, events, p);
    } else {
      var o1 := o.(history := o.history + [Entry(stages[0], None)]);
      OwnerAppends(s, p, o, stages[0], b, events);
      OwnerJournals(s, p, o1, stages[1..], b, events + [Acts(p, stages[0])]);
      SplitsFirst(o.history, events, p, stages);
    }
  }

  /** Taking the lock and binding it. */
  lemma OwnerLocks(s: State, p: nat, t: nat)
    requires s.lock.None? && Enabled(s, Arrive(p, t))
    ensures Course(s, [Arrive(p, t), Acts(p, Locked), Acts(p, Locked)],
                   Owned(s, p, Owner(t, Working, [Entry(Prepared, None), Entry(Locked, Some(p))]), Some(p)))
  {
    var first := [Entry(Prepared, None)];
    var o, o1 := Owner(t, Locking, first), Owner(t, Binding, first);
    var o2 := Owner(t, Working, first + [Entry(Locked, Some(p))]);
    assert o2.history == [Entry(Prepared, None), Entry(Locked, Some(p))];
    CourseNone(s);
    CourseOne(s, [], s, Arrive(p, t), Owned(s, p, o, None));
    OwnedMoves(s, p, o, o1);
    CourseOne(s, [] + [Arrive(p, t)], Owned(s, p, o, None), Acts(p, Locked), Owned(s, p, o1, Some(p)));
    OwnedMoves(s, p, o1, o2);
    var two := [] + [Arrive(p, t)] + [Acts(p, Locked)];
    CourseOne(s, two, Owned(s, p, o1, Some(p)), Acts(p, Locked), Owned(s, p, o2, Some(p)));
    assert two + [Acts(p, Locked)] == [Arrive(p, t), Acts(p, Locked), Acts(p, Locked)];
  }

  /** Giving the lock up. */
  lemma OwnerReleases(s: State, p: nat, o: Owner, b: State, events: seq<Event>)
    requires o.phase.Working? && Finalized(o.history) && Course(b, events, Owned(s, p, o, Some(p)))
    ensures Course(b, events + [Release(p), Acts(p, Locked), Acts(p, Locked)], Owned(s, p, o.(phase := Gone), None))
  {
    var o1, o2, o3 := o.(phase := Checking), o.(phase := Unlinking), o.(phase := Gone);
    OwnedMoves(s, p, o, o1);
    CourseOne(b, events, Owned(s, p, o, Some(p)), Release(p), Owned(s, p, o1, Some(p)));
    OwnedMoves(s, p, o1, o2);
    CourseOne(b, events + [Release(p)], Owned(s, p, o1, Some(p)), Acts(p, Locked), Owned(s, p, o2, Some(p)));
    OwnedMoves(s, p, o2, o3);
    var two := events + [Release(p)] + [Acts(p, Locked)];
    CourseOne(b, two, Owned(s, p, o2, Some(p)), Acts(p, Locked), Owned(s, p, o3, None));
    assert two + [Acts(p, Locked)] == events + [Release(p), Acts(p, Locked), Acts(p, Locked)];
  }

  /** An owner that finds no lock and is left alone, every step succeeding, journals its lock and the stages it is asked
      to, up to the one that ends the transaction, and then its lock is gone; nobody else is touched. */
  lemma OwnerFinishes(s: State, p: nat, t: nat, stages: seq<Stage>) returns (s': State)
    requires s.lock.None? && Enabled(s, Arrive(p, t)) && Appendable(Locked, stages)
    ensures Course(s, [Arrive(p, t), Acts(p, Locked), Acts(p, Locked)] + Acting(p, stages)
                      + [Release(p), Acts(p, Locked), Acts(p, Locked)], s')
    ensures s'.lock.None? && s'.claim == s.claim && s'.recoverers == s.recoverers
    ensures s'.journals == s.journals[t := [Entry(Prepared, None), Entry(Locked, Some(p))] + Entries(stages)]
    ensures p in s'.owners && s'.owners == s.owners[p := s'.owners[p]] && s'.owners[p].phase.Gone?
  {
    var o := Owner(t, Working, [Entry(Prepared, None), Entry(Locked, Some(p))]);
    var begun := [Arrive(p, t), Acts(p, Locked), Acts(p, Locked)];
    OwnerLocks(s, p, t);
    OwnerJournals(s, p, o, stages, s, begun);
    var o' := o.(history := o.history + Entries(stages));
    OwnerReleases(s, p, o', s, begun + Acting(p, stages));
    s' := Owned(s, p, o'.(phase := Gone), None);
  }
}
