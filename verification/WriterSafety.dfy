/** What every interleaving of registry instances, crashes and recoverers keeps. */
module WriterSafety {
  import opened Wrappers
  import opened PhysicalRegistry
  import opened WriterProtocol

  /** The lock file is certainly this instance's own. */
  predicate Holding(phase: Phase) {
    Busy(phase) && phase != Linking
  }

  predicate Unpublished(phase: Phase) {
    phase.Linking? || phase.Linked? || phase.Backing? || phase.Unwinding? || phase.Entered? || phase.Writing?
    || phase.Rechecking? || phase.Renaming?
  }

  predicate UnderClaim(phase: RecoveryPhase) {
    phase.Comparing? || phase.Looking? || phase.Reprobing? || phase.Authorizing? || phase.LookingAgain?
    || phase.Removing? || phase.Settling? || phase.Abandoning? || phase.Dropping?
  }

  predicate OrphanSeen(phase: RecoveryPhase) { phase.Claiming? || UnderClaim(phase) }

  predicate Compared(phase: RecoveryPhase) {
    phase.Looking? || phase.Reprobing? || phase.Authorizing? || phase.LookingAgain? || phase.Removing?
  }

  ghost predicate InstanceInv(s: State, i: Instance) {
    && Tracked(i.memory)
    && Extends(i.committed.entries, i.memory)
    && (Busy(i.phase) ==> i.owner.token < s.tokens && i.memory == i.next.entries)
    && (Unpublished(i.phase) || i.phase.Confirming? ==>
          i.next.generation == i.committed.generation + 1 && i.owner.observed == i.committed)
    && (Unpublished(i.phase) ==> forall o :: o in s.published ==> o.token != i.owner.token)
    && (Holding(i.phase) ==> s.lock == Some(i.owner))
    && (i.phase.Renaming? ==> s.registry == i.committed)
    && (i.phase.Confirming? ==> s.registry == i.next)
  }

  ghost predicate RecovererInv(s: State, r: Recoverer) {
    && r.owner.token < s.tokens
    && (OrphanSeen(r.phase) ==> !Active(s, r.owner))
    && (UnderClaim(r.phase) ==> r.owner in s.claims && s.claims[r.owner] == Held(r.claim) && r.claim < s.claimTokens)
    && (Compared(r.phase) && s.lock == Some(r.owner) ==> s.registry == r.owner.observed)
    && (r.phase.Removing? ==> s.lock == Some(r.owner))
  }

  ghost predicate SharedInv(s: State) {
    && Tracked(s.registry.entries)
    && (s.lock.Some? ==> s.lock.value.token < s.tokens)
    && (forall o :: o in s.published ==> o.token < s.tokens && o.observed.generation < s.registry.generation)
    && (forall k :: 0 <= k < |s.removals| ==>
          var o := s.removals[k];
          o.token < s.tokens && !Active(s, o) && (s.lock.Some? ==> s.lock.value.token != o.token) && o !in s.published)
    && (forall j, k :: 0 <= j < k < |s.removals| ==> s.removals[j].token != s.removals[k].token)
  }

  ghost predicate OwnTokens(s: State) {
    forall p, q :: p in s.instances && q in s.instances && p != q && Busy(s.instances[p].phase)
      && Busy(s.instances[q].phase)
      ==> s.instances[p].owner.token != s.instances[q].owner.token
  }

  ghost predicate OwnClaims(s: State) {
    forall p, q :: p in s.recoverers && q in s.recoverers && p != q
        && UnderClaim(s.recoverers[p].phase) && UnderClaim(s.recoverers[q].phase)
      ==> s.recoverers[p].claim != s.recoverers[q].claim
  }

  ghost predicate Inv(s: State) {
    && SharedInv(s) && OwnTokens(s) && OwnClaims(s)
    && (forall p :: p in s.instances ==> InstanceInv(s, s.instances[p]))
    && (forall q :: q in s.recoverers ==> RecovererInv(s, s.recoverers[q]))
  }

  // ---------------------------------------------------------------- tables

  lemma ExtendsTransitive(a: Table, b: Table, c: Table)
    requires Extends(a, b) && Extends(b, c)
    ensures Extends(a, c)
  {
    forall op | op in a ensures op in c && Follows(a[op], c[op]) {
      assert Follows(a[op], b[op]) && Follows(b[op], c[op]);
    }
  }

  lemma CallKeeps(memory: Table, call: Call)
    requires Tracked(memory)
    ensures Tracked(AfterCall(memory, call)) && Extends(memory, AfterCall(memory, call))
  {
    match call
    case DoClaim(input) => ClaimKeeps(memory, input);
    case DoObserve(input) => ObserveKeeps(memory, input);
  }

  /** Hydrating a registry file of a run gives back its entries. */
  lemma RehydratedExactly(v: Envelope, memory: Table)
    requires Tracked(v.entries) && Rehydrates(v, memory)
    ensures memory == v.entries
  {
    var entries :| Lists(entries, v.entries) && Hydrated(map[], entries) == Ok(memory);
    TrackedHydrates(v.entries, entries);
  }

  lemma ListsSnoc(front: seq<Entry>, rest: Table, e: Entry)
    requires Lists(front, rest) && Unclaimed(rest, e)
    ensures Lists(front + [e], rest[OperationOf(e) := e])
  {
    TableOfContents(front);
    var entries := front + [e];
    assert entries[..|front|] == front;
    forall i | 0 <= i < |front| ensures OperationOf(front[i]) != OperationOf(e) && KeyOf(front[i]) != KeyOf(e) {
      assert !HoldsKey(rest, OperationOf(front[i]), KeyOf(e));
    }
  }

  lemma Without(t: Table, op: string)
    requires Indexed(t) && op in t
    ensures Indexed(t - {op}) && Unclaimed(t - {op}, t[op]) && OperationOf(t[op]) == op && (t - {op})[op := t[op]] == t
  {
    assert forall a :: a in t - {op} ==> a in t && a != op;
  }

  lemma {:induction false} ListingExists(t: Table)
    requires Indexed(t)
    ensures exists entries :: Lists(entries, t)
    decreases |t|
  {
    if t == map[] {
      assert Lists([], t);
    } else {
      var op :| op in t;
      Without(t, op);
      ListingExists(t - {op});
      var front :| Lists(front, t - {op});
      ListsSnoc(front, t - {op}, t[op]);
    }
  }

  // ---------------------------------------------------------------- a step of one instance

  /** What a step of instance `p` may do to the shared files and to its own claim on them. */
  ghost predicate InstanceStep(s: State, s': State, p: nat) {
    && p in s'.instances
    && s'.instances == s.instances[p := s'.instances[p]]
    && s'.recoverers == s.recoverers && s'.claims == s.claims && s'.claimTokens == s.claimTokens
    && s'.removals == s.removals
    && s.tokens <= s'.tokens
    && var i' := s'.instances[p];
       && (Busy(i'.phase) ==>
             || (s.tokens == i'.owner.token < s'.tokens)
             || (p in s.instances && Busy(s.instances[p].phase) && s.instances[p].owner == i'.owner))
       && (s'.lock != s.lock ==>
             && p in s.instances && Busy(s.instances[p].phase)
             && (if s'.lock.None? then Holding(s.instances[p].phase)
                 else s.lock.None? && s'.lock.value == s.instances[p].owner == i'.owner && Busy(i'.phase)))
       && (s'.registry != s.registry || s'.published != s.published ==>
             && p in s.instances && s.instances[p].phase.Renaming? && s'.lock == s.lock
             && s'.registry == s.instances[p].next
             && s'.published == s.published + {s.instances[p].owner})
  }

  lemma NotActivated(s: State, s': State, p: nat, o: Owner)
    requires Inv(s) && InstanceStep(s, s', p)
    requires o.token < s.tokens && !Active(s, o)
    ensures !Active(s', o)
  {
  }

  lemma OtherInstances(s: State, s': State, p: nat, k: nat)
    requires Inv(s) && InstanceStep(s, s', p) && k in s.instances && k != p
    ensures InstanceInv(s', s.instances[k])
  {
    var j := s.instances[k];
    assert InstanceInv(s, j);
    if p in s.instances { assert InstanceInv(s, s.instances[p]); }
  }

  lemma OtherRecoverers(s: State, s': State, p: nat, q: nat)
    requires Inv(s) && InstanceStep(s, s', p) && q in s.recoverers
    ensures RecovererInv(s', s.recoverers[q])
  {
    var r := s.recoverers[q];
    assert RecovererInv(s, r);
    if OrphanSeen(r.phase) {
      NotActivated(s, s', p, r.owner);
      if p in s.instances && Busy(s.instances[p].phase) {
        assert InstanceInv(s, s.instances[p]);
        assert s.instances[p].owner.token != r.owner.token;
      }
    }
  }

  lemma SharedFiles(s: State, s': State, p: nat)
    requires Inv(s) && InstanceStep(s, s', p) && InstanceInv(s', s'.instances[p])
    ensures SharedInv(s')
  {
    if p in s.instances { assert InstanceInv(s, s.instances[p]); }
    forall k | 0 <= k < |s'.removals|
      ensures var o := s'.removals[k];
              && o.token < s'.tokens && !Active(s', o) && o !in s'.published
              && (s'.lock.Some? ==> s'.lock.value.token != o.token)
    {
      var o := s.removals[k];
      NotActivated(s, s', p, o);
      if p in s.instances && Busy(s.instances[p].phase) { assert s.instances[p].owner.token != o.token; }
    }
  }

  lemma InstanceStepKeeps(s: State, s': State, p: nat)
    requires Inv(s) && InstanceStep(s, s', p) && InstanceInv(s', s'.instances[p])
    ensures Inv(s')
  {
    SharedFiles(s, s', p);
    forall k | k in s'.instances ensures InstanceInv(s', s'.instances[k]) {
      if k != p { OtherInstances(s, s', p, k); }
    }
    forall q | q in s'.recoverers ensures RecovererInv(s', s'.recoverers[q]) {
      OtherRecoverers(s, s', p, q);
    }
    forall k | k in s.instances && Busy(s.instances[k].phase) ensures s.instances[k].owner.token < s.tokens {
      assert InstanceInv(s, s.instances[k]);
    }
    assert OwnTokens(s');
  }

  lemma OpenKeeps(s: State, e: Event)
    requires Inv(s) && Enabled(s, e) && e.Open?
    ensures Inv(Apply(s, e))
  {
    RehydratedExactly(s.registry, e.memory);
    InstanceStepKeeps(s, Apply(s, e), e.p);
  }

  lemma InvokeShape(s: State, e: Event)
    requires Enabled(s, e) && e.Invoke?
    ensures InstanceStep(s, Apply(s, e), e.p)
    ensures Apply(s, e).instances[e.p] == Invoked(s, s.instances[e.p], e.memory, e.call)
    ensures Apply(s, e).instances[e.p].phase.Linking? ==> Apply(s, e).tokens == s.tokens + 1
  {
    assert s.instances[e.p].phase == Idle;
  }

  lemma InvokedInv(s: State, s': State, i: Instance, memory: Table, call: Call)
    requires SharedInv(s) && Tracked(memory) && Extends(s.registry.entries, memory) && i.phase == Idle
    requires s'.registry == s.registry && s'.published == s.published
    requires Invoked(s, i, memory, call).phase.Linking? ==> s'.tokens == s.tokens + 1
    requires Tracked(AfterCall(memory, call)) && Extends(s.registry.entries, AfterCall(memory, call))
    ensures InstanceInv(s', Invoked(s, i, memory, call))
  {
    if Mutates(memory, call) {} else {}
  }

  lemma InvokeKeeps(s: State, e: Event)
    requires Inv(s) && Enabled(s, e) && e.Invoke?
    ensures Inv(Apply(s, e))
  {
    var i := s.instances[e.p];
    assert InstanceInv(s, i);
    if s.registry != i.committed { RehydratedExactly(s.registry, e.memory); }
    InvokeShape(s, e);
    CallKeeps(e.memory, e.call);
    ExtendsTransitive(s.registry.entries, e.memory, AfterCall(e.memory, e.call));
    InvokedInv(s, Apply(s, e), i, e.memory, e.call);
    InstanceStepKeeps(s, Apply(s, e), e.p);
  }

  lemma AcquireShape(s: State, p: nat, success: bool)
    requires p in s.instances && Acquiring(s.instances[p].phase)
    ensures InstanceStep(s, AcquireStep(s, p, success), p)
  {
  }

  lemma AcquireOwn(s: State, p: nat, success: bool)
    requires p in s.instances && Acquiring(s.instances[p].phase) && InstanceInv(s, s.instances[p])
    ensures InstanceInv(AcquireStep(s, p, success), AcquireStep(s, p, success).instances[p])
  {
  }

  lemma AcquireKeeps(s: State, p: nat, success: bool)
    requires Inv(s) && p in s.instances && Acquiring(s.instances[p].phase)
    ensures Inv(AcquireStep(s, p, success))
  {
    var s' := AcquireStep(s, p, success);
    AcquireShape(s, p, success);
    AcquireOwn(s, p, success);
    InstanceStepKeeps(s, s', p);
  }

  lemma PublishShape(s: State, p: nat, success: bool)
    requires p in s.instances && Publishing(s.instances[p].phase)
    ensures InstanceStep(s, PublishStep(s, p, success), p)
  {
  }

  lemma PublishOwn(s: State, p: nat, success: bool)
    requires p in s.instances && Publishing(s.instances[p].phase) && InstanceInv(s, s.instances[p])
    ensures InstanceInv(PublishStep(s, p, success), PublishStep(s, p, success).instances[p])
  {
  }

  lemma PublishKeeps(s: State, p: nat, success: bool)
    requires Inv(s) && p in s.instances && Publishing(s.instances[p].phase)
    ensures Inv(PublishStep(s, p, success))
  {
    var s' := PublishStep(s, p, success);
    PublishShape(s, p, success);
    PublishOwn(s, p, success);
    InstanceStepKeeps(s, s', p);
  }

  lemma ReleaseShape(s: State, p: nat, success: bool)
    requires p in s.instances && Releasing(s.instances[p].phase)
    ensures InstanceStep(s, ReleaseStep(s, p, success), p)
  {
  }

  lemma ReleaseOwn(s: State, p: nat, success: bool)
    requires p in s.instances && Releasing(s.instances[p].phase) && InstanceInv(s, s.instances[p])
    ensures InstanceInv(ReleaseStep(s, p, success), ReleaseStep(s, p, success).instances[p])
  {
  }

  lemma ReleaseKeeps(s: State, p: nat, success: bool)
    requires Inv(s) && p in s.instances && Releasing(s.instances[p].phase)
    ensures Inv(ReleaseStep(s, p, success))
  {
    var s' := ReleaseStep(s, p, success);
    ReleaseShape(s, p, success);
    ReleaseOwn(s, p, success);
    InstanceStepKeeps(s, s', p);
  }

  /** Crashing, and leaving the lock behind when the registry grew too large, only end the instance's own activity. */
  lemma StopKeeps(s: State, p: nat, phase: Phase)
    requires Inv(s) && p in s.instances && !Busy(phase)
    ensures Inv(Moved(s, p, phase))
  {
    assert InstanceInv(s, s.instances[p]);
    InstanceStepKeeps(s, Moved(s, p, phase), p);
  }

  // ---------------------------------------------------------------- a step of one recoverer

  /** What a step of recoverer `q` may do to the shared files. */
  ghost predicate RecovererStep(s: State, s': State, q: nat) {
    && q in s'.recoverers
    && s'.recoverers == s.recoverers[q := s'.recoverers[q]]
    && s'.instances == s.instances && s'.tokens == s.tokens && s'.registry == s.registry && s'.published == s.published
    && s.claimTokens <= s'.claimTokens
    && var r' := s'.recoverers[q];
       && (UnderClaim(r'.phase) ==>
             || (s.claimTokens == r'.claim < s'.claimTokens)
             || (q in s.recoverers && UnderClaim(s.recoverers[q].phase) && s.recoverers[q].claim == r'.claim))
       && (s'.claims != s.claims ==>
             && q in s.recoverers
             && (forall o :: o in s.claims && o != s.recoverers[q].owner ==>
                   o in s'.claims && s'.claims[o] == s.claims[o])
             && (UnderClaim(s.recoverers[q].phase) || s.recoverers[q].owner !in s.claims))
       && (s'.lock != s.lock || s'.removals != s.removals ==>
             && q in s.recoverers && s.recoverers[q].phase.Removing?
             && s'.lock == None && s'.removals == s.removals + [s.recoverers[q].owner])
  }

  lemma OtherClaims(s: State, s': State, q: nat, k: nat)
    requires Inv(s) && RecovererStep(s, s', q) && k in s.recoverers && k != q
    ensures RecovererInv(s', s.recoverers[k])
  {
    var r := s.recoverers[k];
    assert RecovererInv(s, r);
    assert Active(s', r.owner) == Active(s, r.owner);
    if q in s.recoverers { assert RecovererInv(s, s.recoverers[q]); }
  }

  lemma InstancesUntouched(s: State, s': State, q: nat, p: nat)
    requires Inv(s) && RecovererStep(s, s', q) && p in s.instances
    ensures InstanceInv(s', s.instances[p])
  {
    var i := s.instances[p];
    assert InstanceInv(s, i);
    if s'.lock != s.lock {
      assert RecovererInv(s, s.recoverers[q]);
      assert Busy(i.phase) ==> i.owner.token != s.recoverers[q].owner.token;
    }
  }

  lemma RemovalsStayDead(s: State, s': State, q: nat)
    requires Inv(s) && RecovererStep(s, s', q)
    ensures SharedInv(s')
  {
    assert forall o :: Active(s', o) == Active(s, o);
    if s'.removals != s.removals {
      var r := s.recoverers[q];
      assert RecovererInv(s, r);
      assert s.lock == Some(r.owner) && s.registry == r.owner.observed;
    }
  }

  lemma RecovererStepKeeps(s: State, s': State, q: nat)
    requires Inv(s) && RecovererStep(s, s', q) && RecovererInv(s', s'.recoverers[q])
    ensures Inv(s')
  {
    RemovalsStayDead(s, s', q);
    forall p | p in s'.instances ensures InstanceInv(s', s'.instances[p]) { InstancesUntouched(s, s', q, p); }
    forall k | k in s'.recoverers ensures RecovererInv(s', s'.recoverers[k]) {
      if k != q { OtherClaims(s, s', q, k); }
    }
    forall k | k in s.recoverers && UnderClaim(s.recoverers[k].phase) ensures s.recoverers[k].claim < s.claimTokens {
      assert RecovererInv(s, s.recoverers[k]);
    }
    assert OwnClaims(s');
  }

  lemma ReadOwnerKeeps(s: State, e: Event)
    requires Inv(s) && Enabled(s, e) && e.ReadOwner?
    ensures Inv(Apply(s, e))
  {
    RecovererStepKeeps(s, Apply(s, e), e.q);
  }

  lemma InspectKeeps(s: State, q: nat, success: bool, effect: Effect)
    requires Inv(s) && q in s.recoverers && Inspecting(s.recoverers[q].phase)
    requires success && s.recoverers[q].phase.Probing? ==> !Active(s, s.recoverers[q].owner)
    ensures Inv(InspectStep(s, q, success, effect))
  {
    var s' := InspectStep(s, q, success, effect);
    assert RecovererInv(s, s.recoverers[q]);
    assert Active(s', s.recoverers[q].owner) == Active(s, s.recoverers[q].owner);
    assert RecovererStep(s, s', q);
    assert RecovererInv(s', s'.recoverers[q]);
    RecovererStepKeeps(s, s', q);
  }

  lemma ConfirmKeeps(s: State, q: nat, success: bool, effect: Effect)
    requires Inv(s) && q in s.recoverers && Confirmation(s.recoverers[q].phase)
    ensures Inv(ConfirmStep(s, q, success, effect))
  {
    var s' := ConfirmStep(s, q, success, effect);
    assert RecovererInv(s, s.recoverers[q]);
    assert Active(s', s.recoverers[q].owner) == Active(s, s.recoverers[q].owner);
    RecovererStepKeeps(s, s', q);
  }

  lemma CloseShape(s: State, q: nat, success: bool)
    requires q in s.recoverers && !Inspecting(s.recoverers[q].phase) && !Confirmation(s.recoverers[q].phase)
    requires RecovererInv(s, s.recoverers[q])
    ensures RecovererStep(s, CloseStep(s, q, success), q)
  {
    assert s.recoverers[q := s.recoverers[q]] == s.recoverers;
  }

  lemma CloseKeeps(s: State, q: nat, success: bool)
    requires Inv(s) && q in s.recoverers && !Inspecting(s.recoverers[q].phase) && !Confirmation(s.recoverers[q].phase)
    ensures Inv(CloseStep(s, q, success))
  {
    var s' := CloseStep(s, q, success);
    assert RecovererInv(s, s.recoverers[q]);
    CloseShape(s, q, success);
    assert Active(s', s.recoverers[q].owner) == Active(s, s.recoverers[q].owner);
    RecovererStepKeeps(s, s', q);
  }

  lemma DropKeeps(s: State, q: nat)
    requires Inv(s) && q in s.recoverers
    ensures Inv(Stepped(s, q, Finished))
  {
    assert RecovererInv(s, s.recoverers[q]);
    RecovererStepKeeps(s, Stepped(s, q, Finished), q);
  }

  lemma StepKeeps(s: State, e: Event)
    requires Inv(s) && Enabled(s, e)
    ensures Inv(Apply(s, e))
  {
    match e
    case Open(_, _) => OpenKeeps(s, e);
    case Invoke(_, _, _) => InvokeKeeps(s, e);
    case Progress(p, success) =>
      var phase := s.instances[p].phase;
      if Acquiring(phase) { AcquireKeeps(s, p, success); }
      else if Publishing(phase) { PublishKeeps(s, p, success); }
      else { ReleaseKeeps(s, p, success); }
    case Oversize(p) => StopKeeps(s, p, Idle);
    case Crash(p) => StopKeeps(s, p, Crashed);
    case ReadOwner(_, _) => ReadOwnerKeeps(s, e);
    case Recover(q, success, effect) =>
      var phase := s.recoverers[q].phase;
      if Inspecting(phase) { InspectKeeps(s, q, success, effect); }
      else if Confirmation(phase) { ConfirmKeeps(s, q, success, effect); }
      else { CloseKeeps(s, q, success); }
    case AbandonRecovery(q) => DropKeeps(s, q);
  }

  // ---------------------------------------------------------------- whole runs

  lemma {:induction false} RunKeeps(run: seq<State>, k: nat)
    requires Run(run) && k < |run|
    ensures Inv(run[k])
  {
    if k > 0 {
      RunKeeps(run, k - 1);
      assert Next(run[k - 1], run[(k - 1) + 1]);
      var e :| Step(run[k - 1], e, run[k]);
      StepKeeps(run[k - 1], e);
    }
  }

  /** One step leaves the registry file alone or replaces generation g by exactly g + 1 and extends every entry. */
  ghost predicate Advances(v: Envelope, w: Envelope) {
    w == v || (w.generation == v.generation + 1 && Extends(v.entries, w.entries))
  }

  /** Only a rename changes the registry file, and only a recovery's removal lengthens `removals`. */
  lemma ProgressMoves(s: State, p: nat, success: bool)
    requires p in s.instances && Busy(s.instances[p].phase)
    ensures var s' := Progressed(s, p, success);
            && s'.removals == s.removals
            && (if success && s.instances[p].phase.Renaming? then s'.registry == s.instances[p].next
                else s'.registry == s.registry)
  {
  }

  lemma RecoveredMoves(s: State, q: nat, success: bool, effect: Effect)
    requires q in s.recoverers
    ensures var s' := Recovered(s, q, success, effect); s'.registry == s.registry && s.removals <= s'.removals
  {
  }

  lemma StepMoves(s: State, e: Event)
    requires Enabled(s, e)
    ensures s.removals <= Apply(s, e).removals
    ensures if e.Progress? && e.success && s.instances[e.p].phase.Renaming?
            then Apply(s, e).registry == s.instances[e.p].next else Apply(s, e).registry == s.registry
  {
    match e
    case Progress(p, success) => ProgressMoves(s, p, success);
    case Recover(q, success, effect) => RecoveredMoves(s, q, success, effect);
    case _ =>
  }

  lemma StepAdvances(s: State, e: Event)
    requires Inv(s) && Enabled(s, e)
    ensures Advances(s.registry, Apply(s, e).registry)
    ensures e.Progress? && e.success && s.instances[e.p].phase.Renaming?
            ==> Apply(s, e).registry.generation == s.registry.generation + 1
  {
    StepMoves(s, e);
    if e.Progress? { assert InstanceInv(s, s.instances[e.p]); }
  }

  /** No update is ever lost: from any point of a run to any later one the registry's generation has not gone down,
      and every submission is still there with its request, its external id and no lower sequence or rank. */
  lemma {:induction false} NoLostUpdate(run: seq<State>, j: nat, k: nat)
    requires Run(run) && j <= k < |run|
    ensures Extends(run[j].registry.entries, run[k].registry.entries)
    ensures run[j].registry.generation <= run[k].registry.generation <= run[j].registry.generation + (k - j)
    ensures k > 0 ==> Advances(run[k - 1].registry, run[k].registry)
    decreases k - j
  {
    if k > 0 {
      RunKeeps(run, k - 1);
      assert Next(run[k - 1], run[(k - 1) + 1]);
      var e :| Step(run[k - 1], e, run[k]);
      StepAdvances(run[k - 1], e);
    }
    if j < k {
      NoLostUpdate(run, j, k - 1);
      ExtendsTransitive(run[j].registry.entries, run[k - 1].registry.entries, run[k].registry.entries);
    }
  }

  /** A rename puts exactly the table its call produced on disk, one generation up, and from then on every registry
      of the run extends that table. */
  lemma {:induction false} PublishedIsKept(run: seq<State>, j: nat, k: nat, p: nat)
    requires Run(run) && j <= k < |run|
    requires p in run[j].instances && run[j].instances[p].phase.Confirming?
    ensures var i := run[j].instances[p];
            && run[j].registry == i.next && i.next.entries == i.memory
            && i.next.generation == i.committed.generation + 1 && Extends(i.committed.entries, i.next.entries)
            && Extends(i.memory, run[k].registry.entries)
  {
    RunKeeps(run, j);
    assert InstanceInv(run[j], run[j].instances[p]);
    NoLostUpdate(run, j, k);
  }

  /** Mutual exclusion survives crashes and recoveries: at any point of a run at most one instance holds the lock,
      and the lock file is that instance's own. */
  lemma MutualExclusion(run: seq<State>, k: nat, p: nat, q: nat)
    requires Run(run) && k < |run|
    requires p in run[k].instances && Holding(run[k].instances[p].phase)
    requires q in run[k].instances && Holding(run[k].instances[q].phase)
    ensures p == q && run[k].lock == Some(run[k].instances[p].owner)
  {
    RunKeeps(run, k);
    assert InstanceInv(run[k], run[k].instances[p]) && InstanceInv(run[k], run[k].instances[q]);
  }

  /** A removing recoverer removes the lock of the very owner it inspected, whose owner can no longer act and whose
      observed registry is still the current one. */
  lemma RemovesItsOrphan(run: seq<State>, k: nat, q: nat)
    requires Run(run) && k < |run| && q in run[k].recoverers && run[k].recoverers[q].phase.Removing?
    ensures var o := run[k].recoverers[q].owner;
            run[k].lock == Some(o) && !Active(run[k], o) && run[k].registry == o.observed && o !in run[k].published
  {
    RunKeeps(run, k);
    assert RecovererInv(run[k], run[k].recoverers[q]);
  }

  lemma {:induction false} RemovalsGrow(run: seq<State>, j: nat, k: nat)
    requires Run(run) && j <= k < |run|
    ensures run[j].removals <= run[k].removals
    decreases k - j
  {
    if j < k {
      RemovalsGrow(run, j, k - 1);
      assert Next(run[k - 1], run[(k - 1) + 1]);
      var e :| Step(run[k - 1], e, run[k]);
      StepMoves(run[k - 1], e);
    }
  }

  /** Recovery removes the lock of a given owner at most once over a whole run; an owner whose lock it removed had
      not published its intended generation and never does so later. */
  lemma RecoveredAtMostOnce(run: seq<State>, j: nat, k: nat)
    requires Run(run) && j <= k < |run|
    ensures run[j].removals <= run[k].removals
    ensures forall a, b :: 0 <= a < b < |run[k].removals| ==> run[k].removals[a].token != run[k].removals[b].token
    ensures forall a :: 0 <= a < |run[j].removals| ==> run[j].removals[a] !in run[k].published
  {
    RunKeeps(run, k);
    RemovalsGrow(run, j, k);
    assert forall a :: 0 <= a < |run[j].removals| ==> run[j].removals[a] == run[k].removals[a];
  }

  /** Opening or refreshing an instance never fails: the registry file of a run always hydrates, to its own entries. */
  lemma AlwaysHydrates(run: seq<State>, k: nat)
    requires Run(run) && k < |run|
    ensures Rehydrates(run[k].registry, run[k].registry.entries)
    ensures forall memory :: Rehydrates(run[k].registry, memory) ==> memory == run[k].registry.entries
  {
    RunKeeps(run, k);
    var v := run[k].registry;
    ListingExists(v.entries);
    var entries :| Lists(entries, v.entries);
    TrackedHydrates(v.entries, entries);
    forall memory | Rehydrates(v, memory) ensures memory == v.entries { RehydratedExactly(v, memory); }
  }
}
