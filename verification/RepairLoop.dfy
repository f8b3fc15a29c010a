/** The governed repair loop: frozen loop values replaced by each call, with the gateway's classifications as inputs. */
module RepairLoop {
  import opened Wrappers

  datatype Class = Success | Failure | NeedsAuthority | OtherClass(text: string)

  datatype LoopState =
    Investigating | ReadyForRepair | MissionAuthorityReady | AuthorityRequired | Green | Blocked | Cancelled

  datatype Attempt = Attempt(number: nat, target: string, passed: bool)

  /** `exact` stands for the checks binding the proposal to the objective, the repository and its workspace. */
  datatype Proposal = Proposal(number: nat, target: string, fingerprint: string, exact: bool)

  /** `request` and `authority` tell whether the mission-authority request and grant are carried. */
  datatype Loop = Loop(
    state: LoopState, targets: seq<string>, ceiling: nat, attempts: seq<Attempt>, pending: Option<Proposal>,
    request: bool, authority: bool)

  const MAX_TARGETS := 8
  const MAX_ATTEMPTS := 8

  predicate Closed(s: LoopState) { s.Green? || s.Blocked? || s.Cancelled? }

  predicate ValidLoop(l: Loop) {
    && 1 <= l.ceiling <= MAX_ATTEMPTS
    && (l.state.MissionAuthorityReady? ==> l.pending.Some? && l.authority)
    && (Closed(l.state) ==> !l.request && !l.authority)
    && (l.authority ==> l.request)
  }

  function Deduplicated(targets: seq<string>): seq<string> {
    if targets == [] then []
    else
      var front := Deduplicated(targets[..|targets| - 1]);
      if targets[|targets| - 1] in front then front else front + [targets[|targets| - 1]]
  }

  function Create(targets: seq<string>, ceiling: nat): Option<Loop> {
    var bounded := Deduplicated(targets);
    if bounded == [] || |bounded| > MAX_TARGETS || ceiling < 1 || ceiling > MAX_ATTEMPTS then None
    else Some(Loop(Investigating, bounded, ceiling, [], None, false, false))
  }

  function Stopped(l: Loop): Loop { l.(state := Blocked, pending := None, request := false, authority := false) }

  function Investigate(l: Loop, test: Class): Option<Loop> {
    if !ValidLoop(l) || l.state != Investigating then None
    else if test.Failure? then Some(l.(state := ReadyForRepair, request := true))
    else Some(l.(state := Blocked))
  }

  function AuthorizeMission(l: Loop): Option<Loop> {
    if !ValidLoop(l) || l.state != ReadyForRepair || !l.request || l.authority then None
    else Some(l.(authority := true))
  }

  predicate Mutated(attempts: seq<Attempt>, target: string) {
    exists k :: 0 <= k < |attempts| && attempts[k].target == target
  }

  function Propose(l: Loop, p: Proposal, proposed: Class, requested: Class): Option<Loop> {
    if !ValidLoop(l) || l.state != ReadyForRepair then None
    else if !p.exact || p.number != |l.attempts| + 1 || p.target !in l.targets
            || Mutated(l.attempts, p.target) then None
    else if !proposed.Success? then None
    else if l.authority then Some(l.(state := MissionAuthorityReady, pending := Some(p)))
    else if !requested.NeedsAuthority? then None
    else Some(l.(state := AuthorityRequired, pending := Some(p)))
  }

  /** What the gateway answers to the conditional mutation, the test after it and the qualification after that. */
  datatype Answers = Answers(mutation: Class, test: Class, qualification: Class)

  /** The loop after an authorized mutation was dispatched on the pending target. */
  function Continued(l: Loop, a: Answers): Loop
    requires l.pending.Some?
  {
    var number := |l.attempts| + 1;
    var attempts := l.attempts + [Attempt(number, l.pending.value.target, a.test.Success?)];
    if !a.mutation.Success? then Stopped(l)
    else if !a.test.Success? then
      if number >= l.ceiling then Stopped(l.(attempts := attempts))
      else l.(state := ReadyForRepair, attempts := attempts, pending := None)
    else if !a.qualification.Success? then Stopped(l.(attempts := attempts))
    else l.(state := Green, attempts := attempts, pending := None, request := false, authority := false)
  }

  /** Whether a human approval, or the mission authority, lets the mutation be dispatched. */
  predicate MayDispatch(l: Loop, approved: Option<string>) {
    && ValidLoop(l) && l.pending.Some?
    && (if approved.Some? then l.state.AuthorityRequired? && approved.value == l.pending.value.fingerprint
        else l.state.MissionAuthorityReady? && l.authority)
  }

  function Deny(l: Loop): Option<Loop> {
    if !ValidLoop(l) || l.state != AuthorityRequired || l.pending.None? then None else Some(Stopped(l))
  }

  function Cancel(l: Loop): Option<Loop> {
    if !ValidLoop(l) || l.state.Green? || l.state.Cancelled? then None
    else Some(Stopped(l).(state := Cancelled))
  }

  /** Written out for a restart, read back and bound to the physical state found. */
  function Restarted(l: Loop, physicalStateValid: bool): Option<Loop> {
    if !ValidLoop(l) || l.state.MissionAuthorityReady? || |l.attempts| > l.ceiling then None
    else
      Some(l.(state := if physicalStateValid then l.state else Blocked,
              pending := if physicalStateValid then l.pending else None, request := false, authority := false))
  }

  // ---------------------------------------------------------------- linear runs

  /** How a call that may dispatch ended; only `ThrewBefore` never reached the conditional mutation. */
  datatype Fate = Returned | ThrewBefore | ThrewAfter

  /** A run keeps one loop value.  `dispatched` lists the targets of all conditional mutations that were dispatched,
      `completed` those whose call returned; `derivations` are the proposals the mission authority has derived an
      authorization for; `qualified` tells whether the last call that returned qualified. */
  datatype World = World(
    loop: Loop, completed: seq<string>, dispatched: seq<string>, derivations: set<string>, qualified: bool)

  datatype Event =
    | Investigates(test: Class)
    | Authorizes
    | Proposes(proposal: Proposal, proposed: Class, requested: Class)
    | Dispatches(approved: Option<string>, answers: Answers, fate: Fate)
    | Denies
    | Cancels
    | Restarts(physicalStateValid: bool)

  /** A human may approve the pending proposal as often as the loop waits for it; a mission authority derives one
      authorization for each proposal. */
  predicate Admitted(w: World, approved: Option<string>) {
    MayDispatch(w.loop, approved) && (approved.None? ==> w.loop.pending.value.fingerprint !in w.derivations)
  }

  function Derived(w: World, approved: Option<string>): set<string>
    requires w.loop.pending.Some?
  {
    if approved.Some? then w.derivations else w.derivations + {w.loop.pending.value.fingerprint}
  }

  /** The world after one call; a refused call changes nothing. */
  function Next(w: World, e: Event): World {
    match e
    case Investigates(test) => With(w, Investigate(w.loop, test))
    case Authorizes =>
      var authorized := AuthorizeMission(w.loop);
      if authorized.None? then w else w.(loop := authorized.value, derivations := {})
    case Proposes(p, proposed, requested) => With(w, Propose(w.loop, p, proposed, requested))
    case Dispatches(approved, answers, fate) =>
      if !Admitted(w, approved) then w
      else if fate.ThrewBefore? then w.(derivations := Derived(w, approved))
      else
        var dispatched := w.dispatched + [w.loop.pending.value.target];
        if fate.ThrewAfter? then w.(derivations := Derived(w, approved), dispatched := dispatched)
        else
          World(Continued(w.loop, answers), w.completed + [w.loop.pending.value.target], dispatched,
                Derived(w, approved),
                answers.mutation.Success? && answers.test.Success? && answers.qualification.Success?)
    case Denies => With(w, Deny(w.loop))
    case Cancels => With(w, Cancel(w.loop))
    case Restarts(valid) => With(w, Restarted(w.loop, valid))
  }

  function With(w: World, l: Option<Loop>): World { if l.None? then w else w.(loop := l.value) }

  function Ran(l: Loop, events: seq<Event>): World {
    if events == [] then World(l, [], [], {}, false) else Next(Ran(l, events[..|events| - 1]), events[|events| - 1])
  }

  predicate Distinct(s: seq<string>) { forall j, k :: 0 <= j < k < |s| ==> s[j] != s[k] }

  predicate Open(s: LoopState) {
    s.Investigating? || s.ReadyForRepair? || s.MissionAuthorityReady? || s.AuthorityRequired?
  }

  ghost predicate Sound(l: Loop) {
    && ValidLoop(l) && Distinct(l.targets) && |l.attempts| <= l.ceiling
    && (l.state.Investigating? ==> !l.request)
    && (Open(l.state) ==> |l.attempts| < l.ceiling && forall k :: 0 <= k < |l.attempts| ==> !l.attempts[k].passed)
    && (l.pending.Some? ==> (l.state.MissionAuthorityReady? || l.state.AuthorityRequired?)
                            && l.pending.value.target in l.targets && !Mutated(l.attempts, l.pending.value.target))
    && (l.state.Green? ==>
          l.attempts != [] && forall k :: 0 <= k < |l.attempts| ==> (l.attempts[k].passed <==> k == |l.attempts| - 1))
    && (forall k :: 0 <= k < |l.attempts| ==> l.attempts[k].number == k + 1)
  }

  /** The completed mutations are the recorded attempts, or those and one more that stopped the loop. */
  ghost predicate Accounted(w: World) {
    var l := w.loop;
    && Distinct(w.completed) && (forall k :: 0 <= k < |w.completed| ==> w.completed[k] in l.targets)
    && |l.attempts| <= |w.completed| <= l.ceiling
    && (Open(l.state) ==> |w.completed| == |l.attempts|)
    && (forall k :: 0 <= k < |l.attempts| ==> l.attempts[k].target == w.completed[k])
    && (l.state.Green? ==> w.qualified)
  }

  ghost predicate Inv(w: World) { Sound(w.loop) && Accounted(w) }

  lemma {:induction false} DeduplicatedDistinct(targets: seq<string>)
    ensures Distinct(Deduplicated(targets))
  {
    if targets != [] { DeduplicatedDistinct(targets[..|targets| - 1]); }
  }

  lemma ContinuedSound(l: Loop, a: Answers)
    requires Sound(l) && l.pending.Some?
    ensures Sound(Continued(l, a))
  {
  }

  lemma FreshTarget(w: World)
    requires Inv(w) && w.loop.pending.Some?
    ensures w.loop.pending.value.target !in w.completed && |w.completed| == |w.loop.attempts| < w.loop.ceiling
  {
    var target := w.loop.pending.value.target;
    forall k | 0 <= k < |w.completed|
      ensures w.completed[k] != target
    {
      assert w.loop.attempts[k].target == w.completed[k];
    }
  }

  lemma DispatchKeeps(w: World, approved: Option<string>, answers: Answers, fate: Fate)
    requires Inv(w) && Admitted(w, approved)
    ensures Inv(Next(w, Dispatches(approved, answers, fate)))
  {
    FreshTarget(w);
    ContinuedSound(w.loop, answers);
  }

  lemma OtherKeeps(w: World, e: Event)
    requires Inv(w) && !e.Dispatches?
    ensures Inv(Next(w, e))
  {
  }

  lemma NextKeeps(w: World, e: Event)
    requires Inv(w)
    ensures Inv(Next(w, e)) && Next(w, e).loop.ceiling == w.loop.ceiling && Next(w, e).loop.targets == w.loop.targets
  {
    if e.Dispatches? {
      if Admitted(w, e.approved) { DispatchKeeps(w, e.approved, e.answers, e.fate); }
    } else {
      OtherKeeps(w, e);
    }
  }

  lemma {:induction false} RunKeeps(l: Loop, targets: seq<string>, ceiling: nat, events: seq<Event>)
    requires Create(targets, ceiling) == Some(l)
    ensures Inv(Ran(l, events)) && Ran(l, events).loop.ceiling == ceiling && Ran(l, events).loop.targets == l.targets
  {
    if events == [] {
      DeduplicatedDistinct(targets);
    } else {
      RunKeeps(l, targets, ceiling, events[..|events| - 1]);
      NextKeeps(Ran(l, events[..|events| - 1]), events[|events| - 1]);
    }
  }

  lemma {:induction false} Pigeonhole(a: seq<string>, b: seq<string>)
    requires Distinct(a) && forall k :: 0 <= k < |a| ==> a[k] in b
    ensures |a| <= |b|
  {
    DistinctSize(a);
    SizeBound(b);
    assert (set x | x in a) <= (set x | x in b);
    Smaller(set x | x in a, set x | x in b);
  }

  lemma {:induction false} DistinctSize(a: seq<string>)
    requires Distinct(a)
    ensures |set x | x in a| == |a|
  {
    if a == [] {
      assert (set x | x in a) == {};
    } else {
      var n := |a| - 1;
      DistinctSize(a[..n]);
      assert a == a[..n] + [a[n]];
      assert (set x | x in a) == (set x | x in a[..n]) + {a[n]};
      assert a[n] !in a[..n];
    }
  }

  lemma {:induction false} SizeBound(b: seq<string>)
    ensures |set x | x in b| <= |b|
  {
    if b == [] {
      assert (set x | x in b) == {};
    } else {
      var n := |b| - 1;
      SizeBound(b[..n]);
      assert b == b[..n] + [b[n]];
      assert (set x | x in b) == (set x | x in b[..n]) + {b[n]};
    }
  }

  // ---------------------------------------------------------------- when a target is mutated twice

  /** Whether the k-th call dispatched its conditional mutation. */
  predicate DispatchedAt(l: Loop, events: seq<Event>, k: nat)
    requires k < |events|
  {
    events[k].Dispatches? && !events[k].fate.ThrewBefore? && Admitted(Ran(l, events[..k]), events[k].approved)
  }

  predicate ThrewAt(l: Loop, events: seq<Event>, k: nat)
    requires k < |events|
  {
    DispatchedAt(l, events, k) && events[k].fate.ThrewAfter?
  }

  predicate ApprovedThrow(l: Loop, events: seq<Event>, k: nat)
    requires k < |events|
  {
    ThrewAt(l, events, k) && events[k].approved.Some?
  }

  predicate ApprovedDispatch(l: Loop, events: seq<Event>, k: nat)
    requires k < |events|
  {
    DispatchedAt(l, events, k) && events[k].approved.Some?
  }

  /** A human-approved mutation is dispatched after one whose call threw. */
  predicate ApprovedAgain(l: Loop, events: seq<Event>) {
    exists i, j :: 0 <= i < j < |events| && ApprovedThrow(l, events, i) && ApprovedDispatch(l, events, j)
  }

  predicate AnyThrew(l: Loop, events: seq<Event>) { exists k :: 0 <= k < |events| && ThrewAt(l, events, k) }

  predicate AnyApprovedThrow(l: Loop, events: seq<Event>) {
    exists k :: 0 <= k < |events| && ApprovedThrow(l, events, k)
  }

  lemma RanOn(l: Loop, events: seq<Event>, e: Event)
    ensures Ran(l, events + [e]) == Next(Ran(l, events), e)
  {
    assert (events + [e])[..|events|] == events;
  }

  lemma SameAt(l: Loop, events: seq<Event>, e: Event, k: nat)
    requires k < |events|
    ensures DispatchedAt(l, events + [e], k) == DispatchedAt(l, events, k)
    ensures ThrewAt(l, events + [e], k) == ThrewAt(l, events, k)
    ensures ApprovedThrow(l, events + [e], k) == ApprovedThrow(l, events, k)
    ensures ApprovedDispatch(l, events + [e], k) == ApprovedDispatch(l, events, k)
  {
    assert (events + [e])[..k] == events[..k];
  }

  lemma LastAt(l: Loop, events: seq<Event>, e: Event)
    ensures DispatchedAt(l, events + [e], |events|) <==>
              e.Dispatches? && !e.fate.ThrewBefore? && Admitted(Ran(l, events), e.approved)
  {
    assert (events + [e])[..|events|] == events;
  }

  /** What the calls so far have thrown, after one more. */
  lemma ThrewOn(l: Loop, events: seq<Event>, e: Event)
    ensures AnyThrew(l, events + [e]) <==> AnyThrew(l, events) || ThrewAt(l, events + [e], |events|)
    ensures AnyApprovedThrow(l, events + [e]) <==>
              AnyApprovedThrow(l, events) || ApprovedThrow(l, events + [e], |events|)
    ensures ApprovedAgain(l, events + [e]) <==>
              ApprovedAgain(l, events) || (AnyApprovedThrow(l, events) && ApprovedDispatch(l, events + [e], |events|))
  {
    var longer := events + [e];
    forall k | 0 <= k < |events|
      ensures ThrewAt(l, longer, k) == ThrewAt(l, events, k)
              && ApprovedThrow(l, longer, k) == ApprovedThrow(l, events, k)
      ensures ApprovedDispatch(l, longer, k) == ApprovedDispatch(l, events, k)
    {
      SameAt(l, events, e, k);
    }
  }

  /** Before any throw every dispatched call returned.  After one, and until its mutation is dispatched again, the loop
      holds the proposal of that call or is closed; a mission authority has then derived its only authorization. */
  ghost predicate Traced(w: World, threw: bool, byHuman: bool, again: bool) {
    && (again <==> !Distinct(w.dispatched))
    && (!threw ==> !byHuman && w.completed == w.dispatched)
    && (threw && !again && w.loop.pending.None? ==> Closed(w.loop.state))
    && (threw && !again && w.loop.pending.Some? ==>
          && w.loop.pending.value.target in w.dispatched
          && (w.loop.state.AuthorityRequired? ==> byHuman)
          && (w.loop.state.MissionAuthorityReady? ==> w.loop.pending.value.fingerprint in w.derivations))
  }

  /** A target dispatched without any call of it returning: only the one the loop holds, or held when it closed. */
  ghost predicate Unreturned(w: World, target: string) {
    && |w.completed| < w.loop.ceiling && target in w.loop.targets && w.dispatched != []
    && target == w.dispatched[|w.dispatched| - 1]
    && (if w.loop.pending.Some? then w.loop.pending.value.target == target else Closed(w.loop.state))
  }

  ghost predicate AllReturned(w: World) {
    forall target :: target in w.dispatched && target !in w.completed ==> Unreturned(w, target)
  }

  ghost predicate TracedRun(l: Loop, events: seq<Event>) {
    Traced(Ran(l, events), AnyThrew(l, events), AnyApprovedThrow(l, events), ApprovedAgain(l, events))
  }

  lemma DistinctOn(s: seq<string>, target: string)
    ensures Distinct(s + [target]) <==> Distinct(s) && target !in s
  {
    var longer := s + [target];
    assert longer[|s|] == target && forall k :: 0 <= k < |s| ==> longer[k] == s[k];
    if Distinct(longer) {
      forall j, k | 0 <= j < k < |s| ensures s[j] != s[k] { assert longer[j] != longer[k]; }
      forall j | 0 <= j < |s| ensures s[j] != target { assert longer[j] != longer[|s|]; }
    }
  }

  lemma TraceDispatch(w: World, e: Event, threw: bool, byHuman: bool, again: bool)
    requires Inv(w) && Traced(w, threw, byHuman, again) && e.Dispatches? && !e.fate.ThrewBefore?
             && Admitted(w, e.approved)
    ensures Traced(Next(w, e), threw || e.fate.ThrewAfter?, byHuman || (e.fate.ThrewAfter? && e.approved.Some?),
                   again || (byHuman && e.approved.Some?))
  {
    DistinctOn(w.dispatched, w.loop.pending.value.target);
    FreshTarget(w);
  }

  lemma TraceOther(w: World, e: Event, threw: bool, byHuman: bool, again: bool)
    requires Inv(w) && Traced(w, threw, byHuman, again)
    requires !e.Dispatches? || e.fate.ThrewBefore? || !Admitted(w, e.approved)
    ensures Traced(Next(w, e), threw, byHuman, again)
  {
  }

  lemma {:induction false} Trace(l: Loop, targets: seq<string>, ceiling: nat, events: seq<Event>)
    requires Create(targets, ceiling) == Some(l)
    ensures TracedRun(l, events)
  {
    if events != [] {
      var before, e := events[..|events| - 1], events[|events| - 1];
      assert events == before + [e];
      RunKeeps(l, targets, ceiling, before);
      Trace(l, targets, ceiling, before);
      RanOn(l, before, e);
      ThrewOn(l, before, e);
      LastAt(l, before, e);
      var w := Ran(l, before);
      if e.Dispatches? && !e.fate.ThrewBefore? && Admitted(w, e.approved) {
        TraceDispatch(w, e, AnyThrew(l, before), AnyApprovedThrow(l, before), ApprovedAgain(l, before));
      } else {
        TraceOther(w, e, AnyThrew(l, before), AnyApprovedThrow(l, before), ApprovedAgain(l, before));
      }
    }
  }

  lemma NextReturned(w: World, e: Event)
    requires Inv(w) && AllReturned(w)
    ensures AllReturned(Next(w, e))
  {
    if e.Dispatches? && Admitted(w, e.approved) { FreshTarget(w); }
    forall target | target in Next(w, e).dispatched && target !in Next(w, e).completed
      ensures Unreturned(Next(w, e), target)
    {
      assert target in w.dispatched ==> Unreturned(w, target) || target in w.completed;
    }
  }

  lemma {:induction false} RunReturned(l: Loop, targets: seq<string>, ceiling: nat, events: seq<Event>)
    requires Create(targets, ceiling) == Some(l)
    ensures AllReturned(Ran(l, events))
  {
    if events != [] {
      RunKeeps(l, targets, ceiling, events[..|events| - 1]);
      RunReturned(l, targets, ceiling, events[..|events| - 1]);
      NextReturned(Ran(l, events[..|events| - 1]), events[|events| - 1]);
    }
  }

  /** Over every run from a created loop, conditional mutations go to pairwise distinct targets exactly when no
      human-approved one is dispatched after a human-approved one whose call threw. */
  lemma {:induction false} MutationsDistinct(l: Loop, targets: seq<string>, ceiling: nat, events: seq<Event>)
    requires Create(targets, ceiling) == Some(l)
    ensures Distinct(Ran(l, events).dispatched) <==> !ApprovedAgain(l, events)
  {
    Trace(l, targets, ceiling, events);
  }

  /** GREEN is reached only when the last attempt, and no earlier one, passed its test and qualification succeeded in
      the same call. */
  lemma {:induction false} GreenMeans(l: Loop, targets: seq<string>, ceiling: nat, events: seq<Event>)
    requires Create(targets, ceiling) == Some(l) && Ran(l, events).loop.state.Green?
    ensures var w := Ran(l, events);
            && w.qualified && w.loop.attempts != []
            && forall k :: 0 <= k < |w.loop.attempts| ==> (w.loop.attempts[k].passed <==> k == |w.loop.attempts| - 1)
  {
    RunKeeps(l, targets, ceiling, events);
  }

  /** A loop ready for another repair has attempts left, and none of its attempts passed. */
  lemma {:induction false} ReadyMeans(l: Loop, targets: seq<string>, ceiling: nat, events: seq<Event>)
    requires Create(targets, ceiling) == Some(l) && Ran(l, events).loop.state.ReadyForRepair?
    ensures var w := Ran(l, events);
            && |w.loop.attempts| < ceiling && |w.completed| == |w.loop.attempts|
            && forall k :: 0 <= k < |w.loop.attempts| ==> !w.loop.attempts[k].passed
  {
    RunKeeps(l, targets, ceiling, events);
  }

  /** How a dispatched call leaves the loop: a refused mutation blocks it and records nothing; otherwise one attempt
      is recorded, and the loop is GREEN when test and qualification succeed, ready again when the test failed with
      attempts left, and blocked in every other case. */
  lemma {:induction false} DispatchLeaves(l: Loop, targets: seq<string>, ceiling: nat, events: seq<Event>,
      approved: Option<string>, a: Answers)
    requires Create(targets, ceiling) == Some(l) && Admitted(Ran(l, events), approved)
    ensures var before, after := Ran(l, events).loop, Ran(l, events + [Dispatches(approved, a, Returned)]).loop;
            var attempt := Attempt(|before.attempts| + 1, before.pending.value.target, a.test.Success?);
            && after.attempts == before.attempts + (if a.mutation.Success? then [attempt] else [])
            && (after.state.Green? <==> a.mutation.Success? && a.test.Success? && a.qualification.Success?)
            && (after.state.ReadyForRepair? <==>
                  a.mutation.Success? && !a.test.Success? && |after.attempts| < ceiling)
            && (after.state.Green? || after.state.ReadyForRepair? || after.state.Blocked?) && after.pending.None?
  {
    RunKeeps(l, targets, ceiling, events);
    RanOn(l, events, Dispatches(approved, a, Returned));
  }

  /** However often calls throw, at most min(attempt ceiling, number of targets) allowed targets are mutated. */
  lemma {:induction false} MutationsBounded(l: Loop, targets: seq<string>, ceiling: nat, events: seq<Event>)
    requires Create(targets, ceiling) == Some(l)
    ensures var mutated := set target | target in Ran(l, events).dispatched;
            |mutated| <= ceiling && |mutated| <= |l.targets|
            && forall target :: target in mutated ==> target in l.targets
  {
    RunKeeps(l, targets, ceiling, events);
    RunReturned(l, targets, ceiling, events);
    MutatedBound(Ran(l, events));
  }

  lemma MutatedBound(w: World)
    requires Inv(w) && AllReturned(w)
    ensures var mutated := set target | target in w.dispatched;
            && |mutated| <= w.loop.ceiling && |mutated| <= |w.loop.targets|
            && forall target :: target in mutated ==> target in w.loop.targets
  {
    var mutated := set target | target in w.dispatched;
    var returned := set target | target in w.completed;
    DistinctSize(w.completed);
    if target :| target in mutated && target !in returned {
      assert Unreturned(w, target);
      forall other | other in mutated && other !in returned ensures other == target { assert Unreturned(w, other); }
      Smaller(mutated, returned + {target});
    } else {
      Smaller(mutated, returned);
    }
    forall other | other in mutated ensures other in w.loop.targets {
      if other !in returned { assert Unreturned(w, other); }
    }
    SizeBound(w.loop.targets);
    Smaller(mutated, set target | target in w.loop.targets);
  }

  /** The calls of a run in which a target is mutated twice: the approved call throws once its mutation is dispatched,
      and the same approval is given again. */
  function TwiceApproved(target: string, fingerprint: string, answers: Answers): seq<Event> {
    [Investigates(Failure), Proposes(Proposal(1, target, fingerprint, true), Success, NeedsAuthority)]
    + [Dispatches(Some(fingerprint), answers, ThrewAfter)]
    + [Dispatches(Some(fingerprint), Answers(Success, Success, Success), Returned)]
  }

  lemma ApprovedTwice(l: Loop, targets: seq<string>, ceiling: nat, target: string, fingerprint: string,
      answers: Answers)
    requires Create(targets, ceiling) == Some(l) && target in l.targets
    ensures var w := Ran(l, TwiceApproved(target, fingerprint, answers));
            w.dispatched == [target, target] && w.loop.state.Green? && !Distinct(w.dispatched)
  {
    var es := TwiceApproved(target, fingerprint, answers);
    RanOn(l, [], es[0]);
    RanOn(l, es[..1], es[1]);
    RanOn(l, es[..2], es[2]);
    RanOn(l, es[..3], es[3]);
    assert es[..1] == [] + [es[0]] && es[..2] == es[..1] + [es[1]] && es[..3] == es[..2] + [es[2]]
           && es == es[..3] + [es[3]];
    var w := Ran(l, es);
    assert w.dispatched[0] == w.dispatched[1];
  }

  /** The mission authority has derived its authorization for the pending proposal, or the loop is closed. */
  ghost predicate Spent(w: World) {
    if w.loop.pending.None? then Closed(w.loop.state)
    else w.loop.state.MissionAuthorityReady? && w.loop.pending.value.fingerprint in w.derivations
  }

  lemma SpentStays(w: World, e: Event)
    requires Inv(w) && Spent(w)
    ensures Spent(Next(w, e)) && Next(w, e).dispatched == w.dispatched
  {
  }

  /** A mission-authorized call that threw is the last to mutate anything: its second derivation is refused. */
  lemma {:induction false} MissionThrowIsLast(l: Loop, targets: seq<string>, ceiling: nat, events: seq<Event>, k: nat)
    requires Create(targets, ceiling) == Some(l) && k < |events| && ThrewAt(l, events, k) && events[k].approved.None?
    ensures Spent(Ran(l, events)) && Ran(l, events).dispatched == Ran(l, events[..k + 1]).dispatched
  {
    var before, e := events[..|events| - 1], events[|events| - 1];
    assert events == before + [e];
    RunKeeps(l, targets, ceiling, before);
    if k == |before| {
      assert events[..k] == before && events[..k + 1] == events;
    } else {
      SameAt(l, before, e, k);
      MissionThrowIsLast(l, targets, ceiling, before, k);
      SpentStays(Ran(l, before), e);
      assert before[..k + 1] == events[..k + 1];
    }
  }

  function Targets(attempts: seq<Attempt>): seq<string> {
    seq(|attempts|, k requires 0 <= k < |attempts| => attempts[k].target)
  }

  predicate Proposable(l: Loop, target: string) { target in l.targets && !Mutated(l.attempts, target) }

  /** A loop ready for another repair can take one exactly when it has fewer attempts than targets: a ceiling above the
      number of targets leaves a ready loop that accepts no proposal. */
  lemma ReadyMeansProposable(l: Loop, targets: seq<string>, ceiling: nat, events: seq<Event>)
    requires Create(targets, ceiling) == Some(l) && Ran(l, events).loop.state.ReadyForRepair?
    ensures var now := Ran(l, events).loop;
            (exists target :: Proposable(now, target)) <==> |now.attempts| < |now.targets|
  {
    RunKeeps(l, targets, ceiling, events);
    var w := Ran(l, events);
    if target :| Proposable(w.loop, target) { OneMoreFits(w, target); } else { AllMutated(w.loop); }
  }

  lemma AllMutated(l: Loop)
    requires Distinct(l.targets) && forall target :: !Proposable(l, target)
    ensures |l.targets| <= |l.attempts|
  {
    forall k | 0 <= k < |l.targets| ensures l.targets[k] in Targets(l.attempts) {
      assert !Proposable(l, l.targets[k]);
      var j :| 0 <= j < |l.attempts| && l.attempts[j].target == l.targets[k];
      assert Targets(l.attempts)[j] == l.targets[k];
    }
    Pigeonhole(l.targets, Targets(l.attempts));
  }

  lemma OneMoreFits(w: World, target: string)
    requires Inv(w) && Open(w.loop.state) && Proposable(w.loop, target)
    ensures |w.loop.attempts| < |w.loop.targets|
  {
    var more := w.completed + [target];
    forall k | 0 <= k < |w.completed|
      ensures w.completed[k] != target
    {
      assert w.loop.attempts[k].target == w.completed[k];
    }
    Pigeonhole(more, w.loop.targets);
  }

  /** And such a proposal, approved and answered with success, makes the loop GREEN with one more mutation. */
  lemma ProposalReachesGreen(l: Loop, targets: seq<string>, ceiling: nat, events: seq<Event>, target: string,
      fingerprint: string)
    requires Create(targets, ceiling) == Some(l)
    requires Ran(l, events).loop.state.ReadyForRepair? && !Ran(l, events).loop.authority
             && Proposable(Ran(l, events).loop, target)
    ensures var w := Ran(l, events);
            var p := Proposal(|w.loop.attempts| + 1, target, fingerprint, true);
            var calls := [Proposes(p, Success, NeedsAuthority),
                          Dispatches(Some(fingerprint), Answers(Success, Success, Success), Returned)];
            Ran(l, events + calls).loop.state.Green? && Ran(l, events + calls).dispatched == w.dispatched + [target]
  {
    RunKeeps(l, targets, ceiling, events);
    var w := Ran(l, events);
    var p := Proposal(|w.loop.attempts| + 1, target, fingerprint, true);
    var propose, approve :=
      Proposes(p, Success, NeedsAuthority), Dispatches(Some(fingerprint), Answers(Success, Success, Success), Returned);
    RanOn(l, events, propose);
    RanOn(l, events + [propose], approve);
    assert events + [propose, approve] == events + [propose] + [approve];
  }
}
