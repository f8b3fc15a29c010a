/** What an instance or a lock recoverer that is left alone achieves: a persist publishes and gives up the writer
    lock, a recovery removes the lock of a stopped owner. */
module WriterProgress {
  import opened Wrappers
  import opened PhysicalRegistry
  import opened Repetition
  import opened WriterProtocol
  import opened WriterSafety

  ghost function By(e: Event): State -> Option<State> {
    (s: State) => if Enabled(s, e) then Some(Apply(s, e)) else None
  }

  /** The same event, `n` times in a row. */
  ghost predicate Repeats(s: State, e: Event, n: nat, s': State) { Repeated(By(e), s, n, s') }

  lemma RepeatsMore(s: State, e: Event, n: nat, m: State, k: nat, s': State)
    requires Repeats(s, e, n, m) && Repeats(m, e, k, s')
    ensures Repeats(s, e, n + k, s')
  {
    RepeatedMore(By(e), s, n, m, k, s');
  }

  lemma RepeatsFirst(s: State, e: Event, s': State)
    requires Enabled(s, e) && Apply(s, e) == s'
    ensures Repeats(s, e, 1, s')
  {
    RepeatedSingle(By(e), s, s');
  }

  lemma RepeatsOne(s: State, e: Event, n: nat, m: State, s': State)
    requires Repeats(s, e, n, m) && Enabled(m, e) && Apply(m, e) == s'
    ensures Repeats(s, e, n + 1, s')
  {
    RepeatedOnce(By(e), s, n, m, s');
  }

  // ---------------------------------------------------------------- a persist

  /** The state in which instance `p` has come to `i`, and nothing else has changed but lock, registry and what is
      recorded as published. */
  ghost function Come(s: State, p: nat, i: Instance, lock: Option<Owner>, registry: Envelope, published: set<Owner>)
    : State
  {
    s.(instances := s.instances[p := i], lock := lock, registry := registry, published := published)
  }

  lemma Again(s: State, p: nat, i: Instance, j: Instance)
    ensures s.instances[p := i][p := j] == s.instances[p := j]
  {
  }

  /** From the link to the first step inside the guarded block. */
  lemma Acquires(s: State, p: nat, i: Instance, registry: Envelope, published: set<Owner>)
    requires i.phase.Linking?
    ensures Repeats(Come(s, p, i, None, registry, published), Progress(p, true), 2,
                    Come(s, p, i.(phase := Entered), Some(i.owner), registry, published))
  {
    var e, m := Progress(p, true), Come(s, p, i, None, registry, published);
    var m1 := Come(s, p, i.(phase := Linked), Some(i.owner), registry, published);
    var m2 := Come(s, p, i.(phase := Entered), Some(i.owner), registry, published);
    Again(s, p, i, i.(phase := Linked));
    Again(s, p, i.(phase := Linked), i.(phase := Entered));
    RepeatsFirst(m, e, m1);
    RepeatsOne(m, e, 1, m1, m2);
  }

  /** The guarded block up to the rename. */
  lemma Prepares(s: State, p: nat, i: Instance, published: set<Owner>)
    requires i.phase.Entered?
    ensures Repeats(Come(s, p, i, Some(i.owner), i.committed, published), Progress(p, true), 3,
                    Come(s, p, i.(phase := Renaming), Some(i.owner), i.committed, published))
  {
    var e, lock := Progress(p, true), Some(i.owner);
    var m := Come(s, p, i, lock, i.committed, published);
    var m1 := Come(s, p, i.(phase := Writing), lock, i.committed, published);
    var m2 := Come(s, p, i.(phase := Rechecking), lock, i.committed, published);
    var m3 := Come(s, p, i.(phase := Renaming), lock, i.committed, published);
    Again(s, p, i, i.(phase := Writing));
    Again(s, p, i.(phase := Writing), i.(phase := Rechecking));
    Again(s, p, i.(phase := Rechecking), i.(phase := Renaming));
    RepeatsFirst(m, e, m1);
    RepeatsOne(m, e, 1, m1, m2);
    RepeatsOne(m, e, 2, m2, m3);
  }

  /** The rename and what follows it inside the block. */
  lemma Publishes(s: State, p: nat, i: Instance, published: set<Owner>)
    requires i.phase.Renaming?
    ensures Repeats(Come(s, p, i, Some(i.owner), i.committed, published), Progress(p, true), 2,
                    Come(s, p, i.(phase := Leaving, committed := i.next), Some(i.owner), i.next, published + {i.owner}))
  {
    var e, lock := Progress(p, true), Some(i.owner);
    var m := Come(s, p, i, lock, i.committed, published);
    var m1 := Come(s, p, i.(phase := Confirming), lock, i.next, published + {i.owner});
    var m2 := Come(s, p, i.(phase := Leaving, committed := i.next), lock, i.next, published + {i.owner});
    Again(s, p, i, i.(phase := Confirming));
    Again(s, p, i.(phase := Confirming), i.(phase := Leaving, committed := i.next));
    RepeatsFirst(m, e, m1);
    RepeatsOne(m, e, 1, m1, m2);
  }

  /** The release of the lock. */
  lemma Releases(s: State, p: nat, i: Instance, registry: Envelope, published: set<Owner>)
    requires i.phase.Leaving?
    ensures Repeats(Come(s, p, i, Some(i.owner), registry, published), Progress(p, true), 2,
                    Come(s, p, i.(phase := Idle), None, registry, published))
  {
    var e, m := Progress(p, true), Come(s, p, i, Some(i.owner), registry, published);
    var m1 := Come(s, p, i.(phase := Unlocking), Some(i.owner), registry, published);
    var m2 := Come(s, p, i.(phase := Idle), None, registry, published);
    Again(s, p, i, i.(phase := Unlocking));
    Again(s, p, i.(phase := Unlocking), i.(phase := Idle));
    RepeatsFirst(m, e, m1);
    RepeatsOne(m, e, 1, m1, m2);
  }

  lemma PersistFrom(s: State, p: nat, i: Instance, published: set<Owner>)
    requires i.phase.Linking?
    ensures Repeats(Come(s, p, i, None, i.committed, published), Progress(p, true), 9,
                    Come(s, p, i.(phase := Idle, committed := i.next), None, i.next, published + {i.owner}))
  {
    var e, m, lock := Progress(p, true), Come(s, p, i, None, i.committed, published), Some(i.owner);
    Acquires(s, p, i, i.committed, published);
    Prepares(s, p, i.(phase := Entered), published);
    RepeatsMore(m, e, 2, Come(s, p, i.(phase := Entered), lock, i.committed, published),
                3, Come(s, p, i.(phase := Renaming), lock, i.committed, published));
    Publishes(s, p, i.(phase := Renaming), published);
    var left := i.(phase := Leaving, committed := i.next);
    RepeatsMore(m, e, 5, Come(s, p, i.(phase := Renaming), lock, i.committed, published),
                2, Come(s, p, left, lock, i.next, published + {i.owner}));
    Releases(s, p, left, i.next, published + {i.owner});
    RepeatsMore(m, e, 7, Come(s, p, left, lock, i.next, published + {i.owner}),
                2, Come(s, p, i.(phase := Idle, committed := i.next), None, i.next, published + {i.owner}));
  }

  /** The call goes on to persist, and nobody holds the writer lock. */
  ghost predicate CanPersist(s: State, p: nat, memory: Table, call: Call) {
    && s.lock.None? && Enabled(s, Invoke(p, memory, call))
    && Mutates(memory, call) && ValidEnvelope(Envelope(s.registry.generation + 1, AfterCall(memory, call)))
  }

  lemma InvokedLinks(s: State, p: nat, memory: Table, call: Call) returns (i: Instance)
    requires CanPersist(s, p, memory, call)
    ensures i.phase.Linking? && !i.poisoned && i.committed == s.registry
    ensures i.memory == AfterCall(memory, call) && i.next == Envelope(s.registry.generation + 1, i.memory)
    ensures var m := Apply(s, Invoke(p, memory, call));
            && m == Come(m, p, i, None, i.committed, s.published) && m.instances == s.instances[p := i]
            && m.recoverers == s.recoverers && m.claims == s.claims && m.removals == s.removals
  {
    i := Invoked(s, s.instances[p], memory, call);
    Again(s, p, i, i);
  }

  /** A fresh claim or an accepted observation of an instance left alone, every step succeeding, ends published: the
      registry holds the table the call leaves, one generation on, the instance is idle on it and not poisoned, and the
      writer lock is gone. */
  lemma PersistFinishes(s: State, p: nat, memory: Table, call: Call) returns (s': State)
    requires CanPersist(s, p, memory, call)
    ensures Repeats(Apply(s, Invoke(p, memory, call)), Progress(p, true), 9, s')
    ensures s'.registry == Envelope(s.registry.generation + 1, AfterCall(memory, call)) && s'.lock.None?
    ensures p in s'.instances && s'.instances == s.instances[p := s'.instances[p]]
    ensures var i := s'.instances[p];
            i.phase.Idle? && !i.poisoned && i.committed == s'.registry && i.memory == s'.registry.entries
    ensures s'.recoverers == s.recoverers && s'.claims == s.claims && s'.removals == s.removals
  {
    var i := InvokedLinks(s, p, memory, call);
    var m := Apply(s, Invoke(p, memory, call));
    PersistFrom(m, p, i, s.published);
    s' := Come(m, p, i.(phase := Idle, committed := i.next), None, i.next, s.published + {i.owner});
    Again(s, p, i, i.(phase := Idle, committed := i.next));
  }

  /** After it another call of the same instance, hydrating nothing, persists in the same way. */
  lemma PersistsAgain(s: State, p: nat, memory: Table, call: Call, next: Call) returns (s': State, s'': State)
    requires CanPersist(s, p, memory, call)
    requires var after := AfterCall(memory, call);
             Mutates(after, next) && ValidEnvelope(Envelope(s.registry.generation + 2, AfterCall(after, next)))
    ensures Repeats(Apply(s, Invoke(p, memory, call)), Progress(p, true), 9, s')
    ensures Enabled(s', Invoke(p, s'.registry.entries, next))
    ensures Repeats(Apply(s', Invoke(p, s'.registry.entries, next)), Progress(p, true), 9, s'')
    ensures s''.registry == Envelope(s.registry.generation + 2, AfterCall(AfterCall(memory, call), next))
    ensures s''.lock.None? && p in s''.instances && s''.instances[p].phase.Idle? && !s''.instances[p].poisoned
  {
    s' := PersistFinishes(s, p, memory, call);
    s'' := PersistFinishes(s', p, s'.registry.entries, next);
  }

  // ---------------------------------------------------------------- which claims persist

  /** The registry file is absent or valid, and so is what a persist under way goes on to write. */
  ghost predicate Sound(s: State) {
    && (s.registry == ABSENT || ValidEnvelope(s.registry))
    && forall p :: p in s.instances && Busy(s.instances[p].phase) ==> ValidEnvelope(s.instances[p].next)
  }

  /** The registry file is kept, or replaced by what instance `p` was to write; nobody else moves. */
  ghost predicate Writes(s: State, s': State, p: nat) {
    && p in s.instances && p in s'.instances && s'.instances == s.instances[p := s'.instances[p]]
    && s'.instances[p].next == s.instances[p].next && Busy(s.instances[p].phase)
    && (s'.registry == s.registry || s'.registry == s.instances[p].next)
  }

  lemma AcquireWrites(s: State, p: nat, success: bool)
    requires p in s.instances && Acquiring(s.instances[p].phase)
    ensures Writes(s, AcquireStep(s, p, success), p)
  {
  }

  lemma PublishWrites(s: State, p: nat, success: bool)
    requires p in s.instances && Publishing(s.instances[p].phase)
    ensures Writes(s, PublishStep(s, p, success), p)
  {
  }

  lemma ReleaseWrites(s: State, p: nat, success: bool)
    requires p in s.instances && Releasing(s.instances[p].phase)
    ensures Writes(s, ReleaseStep(s, p, success), p)
  {
  }

  lemma WritesSound(s: State, s': State, p: nat)
    requires Sound(s) && Writes(s, s', p)
    ensures Sound(s')
  {
  }

  lemma ProgressSound(s: State, p: nat, success: bool)
    requires Sound(s) && p in s.instances && Busy(s.instances[p].phase)
    ensures Sound(Progressed(s, p, success))
  {
    var phase := s.instances[p].phase;
    if Acquiring(phase) { AcquireWrites(s, p, success); }
    else if Publishing(phase) { PublishWrites(s, p, success); }
    else { ReleaseWrites(s, p, success); }
    WritesSound(s, Progressed(s, p, success), p);
  }

  ghost predicate SameWriters(s: State, s': State) { s'.registry == s.registry && s'.instances == s.instances }

  lemma InspectLeaves(s: State, q: nat, success: bool, effect: Effect)
    requires q in s.recoverers && Inspecting(s.recoverers[q].phase)
    ensures SameWriters(s, InspectStep(s, q, success, effect))
  {
  }

  lemma ConfirmLeaves(s: State, q: nat, success: bool, effect: Effect)
    requires q in s.recoverers && Confirmation(s.recoverers[q].phase)
    ensures SameWriters(s, ConfirmStep(s, q, success, effect))
  {
  }

  lemma CloseLeaves(s: State, q: nat, success: bool)
    requires q in s.recoverers && !Inspecting(s.recoverers[q].phase) && !Confirmation(s.recoverers[q].phase)
    ensures SameWriters(s, CloseStep(s, q, success))
  {
  }

  /** A recovery touches neither the registry file nor an instance. */
  lemma RecoverLeaves(s: State, q: nat, success: bool, effect: Effect)
    requires q in s.recoverers
    ensures SameWriters(s, Recovered(s, q, success, effect))
  {
    var phase := s.recoverers[q].phase;
    if Inspecting(phase) { InspectLeaves(s, q, success, effect); }
    else if Confirmation(phase) { ConfirmLeaves(s, q, success, effect); }
    else { CloseLeaves(s, q, success); }
  }

  lemma StepSound(s: State, e: Event)
    requires Sound(s) && Enabled(s, e)
    ensures Sound(Apply(s, e))
  {
    match e
    case Progress(p, success) => ProgressSound(s, p, success);
    case Recover(q, success, effect) => RecoverLeaves(s, q, success, effect);
    case _ =>
  }

  lemma {:induction false} RunSound(run: seq<State>, k: nat)
    requires Run(run) && k < |run|
    ensures Sound(run[k])
  {
    if k > 0 {
      RunSound(run, k - 1);
      assert Next(run[k - 1], run[(k - 1) + 1]);
      var e :| Step(run[k - 1], e, run[k]);
      StepSound(run[k - 1], e);
    }
  }

  lemma ClaimValid(v: Envelope, input: ClaimInput)
    requires (v == ABSENT || ValidEnvelope(v)) && Tracked(v.entries) && v.generation < MAX_SAFE_INTEGER
    requires Claimed(v.entries, input).1.Ok? && Claimed(v.entries, input).1.value.created
    ensures ValidEnvelope(Envelope(v.generation + 1, Claimed(v.entries, input).0))
  {
    ClaimCreates(v.entries, input);
    ClaimKeeps(v.entries, input);
  }

  /** In any state of a run without a writer lock, an idle instance in step with the registry file persists every claim
      whose key, operation and external id are new. */
  lemma ClaimPersists(run: seq<State>, k: nat, p: nat, input: ClaimInput)
    requires Run(run) && k < |run| && run[k].lock.None? && run[k].registry.generation < MAX_SAFE_INTEGER
    requires p in run[k].instances && run[k].instances[p].phase.Idle? && !run[k].instances[p].poisoned
    requires run[k].instances[p].committed == run[k].registry && run[k].instances[p].memory == run[k].registry.entries
    requires var t, b := run[k].registry.entries, input.request.binding;
             && Admissible(input) && b.operationId !in t && UnusedKey(t, b.idempotencyKey)
             && UnusedExternal(t, input.externalExecutionId)
    ensures CanPersist(run[k], p, run[k].registry.entries, DoClaim(input))
  {
    RunKeeps(run, k);
    RunSound(run, k);
    ClaimCreates(run[k].registry.entries, input);
    ClaimValid(run[k].registry, input);
  }

  // ---------------------------------------------------------------- a recovery

  /** The state in which recovery `q` has come to `r`. */
  ghost function Held(s: State, q: nat, r: Recoverer, lock: Option<Owner>, claims: map<Owner, ClaimFile>,
      claimTokens: nat, removals: seq<Owner>): State
  {
    s.(recoverers := s.recoverers[q := r], lock := lock, claims := claims, claimTokens := claimTokens,
       removals := removals)
  }

  lemma AgainRecoverer(s: State, q: nat, r: Recoverer, x: Recoverer)
    ensures s.recoverers[q := r][q := x] == s.recoverers[q := x]
  {
  }

  /** The owner of the lock has stopped before publishing, nobody has claimed its recovery, and the request names it. */
  ghost predicate CanRecover(s: State, q: nat, request: RecoveryRequest) {
    && q !in s.recoverers && s.lock.Some? && Matches(request, s.lock.value, s.registry)
    && !Active(s, s.lock.value) && s.lock.value !in s.claims
  }

  lemma NotActive(s: State, q: nat, r: Recoverer, lock: Option<Owner>, claims: map<Owner, ClaimFile>,
      claimTokens: nat, removals: seq<Owner>, owner: Owner)
    requires !Active(s, owner)
    ensures !Active(Held(s, q, r, lock, claims, claimTokens, removals), owner)
  {
  }

  /** Inspection and the claim. */
  lemma Inspects(s: State, q: nat, r: Recoverer, effect: Effect)
    requires r.phase.Matching? && Matches(r.request, r.owner, s.registry) && !Active(s, r.owner) && r.owner !in s.claims
    ensures Repeats(Held(s, q, r, s.lock, s.claims, s.claimTokens, s.removals), Recover(q, true, effect), 3,
                    Held(s, q, r.(phase := Comparing, effect := effect, claim := s.claimTokens), s.lock,
                         s.claims[r.owner := WriterProtocol.Held(s.claimTokens)], s.claimTokens + 1, s.removals))
  {
    var e := Recover(q, true, effect);
    var r1, r2 := r.(phase := Probing), r.(phase := Claiming, effect := effect);
    var r3 := r.(phase := Comparing, effect := effect, claim := s.claimTokens);
    var m := Held(s, q, r, s.lock, s.claims, s.claimTokens, s.removals);
    var m1 := Held(s, q, r1, s.lock, s.claims, s.claimTokens, s.removals);
    var m2 := Held(s, q, r2, s.lock, s.claims, s.claimTokens, s.removals);
    var m3 := Held(s, q, r3, s.lock, s.claims[r.owner := WriterProtocol.Held(s.claimTokens)], s.claimTokens + 1,
                   s.removals);
    AgainRecoverer(s, q, r, r1);
    AgainRecoverer(s, q, r1, r2);
    AgainRecoverer(s, q, r2, r3);
    NotActive(s, q, r1, s.lock, s.claims, s.claimTokens, s.removals, r.owner);
    RepeatsFirst(m, e, m1);
    RepeatsOne(m, e, 1, m1, m2);
    RepeatsOne(m, e, 2, m2, m3);
  }

  /** The comparisons under the claim, up to the second look at the owner. */
  lemma Compares(s: State, q: nat, r: Recoverer, claims: map<Owner, ClaimFile>, claimTokens: nat)
    requires r.phase.Comparing? && Matches(r.request, r.owner, s.registry) && s.lock == Some(r.owner)
    ensures Repeats(Held(s, q, r, s.lock, claims, claimTokens, s.removals), Recover(q, true, r.effect), 2,
                    Held(s, q, r.(phase := Reprobing), s.lock, claims, claimTokens, s.removals))
  {
    var e := Recover(q, true, r.effect);
    var m := Held(s, q, r, s.lock, claims, claimTokens, s.removals);
    var m1 := Held(s, q, r.(phase := Looking), s.lock, claims, claimTokens, s.removals);
    var m2 := Held(s, q, r.(phase := Reprobing), s.lock, claims, claimTokens, s.removals);
    AgainRecoverer(s, q, r, r.(phase := Looking));
    AgainRecoverer(s, q, r.(phase := Looking), r.(phase := Reprobing));
    RepeatsFirst(m, e, m1);
    RepeatsOne(m, e, 1, m1, m2);
  }

  /** From the second look at the owner to the last look at the lock. */
  lemma Authorizes(s: State, q: nat, r: Recoverer, claims: map<Owner, ClaimFile>, claimTokens: nat)
    requires r.phase.Reprobing? && !Active(s, r.owner) && s.lock == Some(r.owner)
    ensures Repeats(Held(s, q, r, s.lock, claims, claimTokens, s.removals), Recover(q, true, r.effect), 3,
                    Held(s, q, r.(phase := Removing), s.lock, claims, claimTokens, s.removals))
  {
    var e := Recover(q, true, r.effect);
    var m := Held(s, q, r, s.lock, claims, claimTokens, s.removals);
    var m1 := Held(s, q, r.(phase := Authorizing), s.lock, claims, claimTokens, s.removals);
    var m2 := Held(s, q, r.(phase := LookingAgain), s.lock, claims, claimTokens, s.removals);
    var m3 := Held(s, q, r.(phase := Removing), s.lock, claims, claimTokens, s.removals);
    AgainRecoverer(s, q, r, r.(phase := Authorizing));
    AgainRecoverer(s, q, r.(phase := Authorizing), r.(phase := LookingAgain));
    AgainRecoverer(s, q, r.(phase := LookingAgain), r.(phase := Removing));
    NotActive(s, q, r, s.lock, claims, claimTokens, s.removals, r.owner);
    RepeatsFirst(m, e, m1);
    RepeatsOne(m, e, 1, m1, m2);
    RepeatsOne(m, e, 2, m2, m3);
  }

  lemma Confirms(s: State, q: nat, r: Recoverer, claims: map<Owner, ClaimFile>, claimTokens: nat)
    requires r.phase.Comparing? && Matches(r.request, r.owner, s.registry) && !Active(s, r.owner)
    requires s.lock == Some(r.owner)
    ensures Repeats(Held(s, q, r, s.lock, claims, claimTokens, s.removals), Recover(q, true, r.effect), 5,
                    Held(s, q, r.(phase := Removing), s.lock, claims, claimTokens, s.removals))
  {
    Compares(s, q, r, claims, claimTokens);
    Authorizes(s, q, r.(phase := Reprobing), claims, claimTokens);
    RepeatsMore(Held(s, q, r, s.lock, claims, claimTokens, s.removals), Recover(q, true, r.effect), 2,
                Held(s, q, r.(phase := Reprobing), s.lock, claims, claimTokens, s.removals), 3,
                Held(s, q, r.(phase := Removing), s.lock, claims, claimTokens, s.removals));
  }

  /** The removal of the lock and the result. */
  lemma Removes(s: State, q: nat, r: Recoverer, claims: map<Owner, ClaimFile>, claimTokens: nat, effect: Effect)
    requires r.phase.Removing? && s.lock == Some(r.owner)
    ensures Repeats(Held(s, q, r, s.lock, claims, claimTokens, s.removals), Recover(q, true, effect), 2,
                    Held(s, q, r.(phase := Finished), None, claims[r.owner := Settled(r.claim, r.effect)], claimTokens,
                         s.removals + [r.owner]))
  {
    var e := Recover(q, true, effect);
    var m := Held(s, q, r, s.lock, claims, claimTokens, s.removals);
    var m1 := Held(s, q, r.(phase := Settling), None, claims, claimTokens, s.removals + [r.owner]);
    var m2 := Held(s, q, r.(phase := Finished), None, claims[r.owner := Settled(r.claim, r.effect)], claimTokens,
                   s.removals + [r.owner]);
    AgainRecoverer(s, q, r, r.(phase := Settling));
    AgainRecoverer(s, q, r.(phase := Settling), r.(phase := Finished));
    RepeatsFirst(m, e, m1);
    RepeatsOne(m, e, 1, m1, m2);
  }

  /** From the inspection to the removal. */
  lemma ComesToRemove(s: State, q: nat, r: Recoverer, effect: Effect)
    requires r.phase.Matching? && Matches(r.request, r.owner, s.registry) && !Active(s, r.owner)
    requires r.owner !in s.claims && s.lock == Some(r.owner)
    ensures Repeats(Held(s, q, r, s.lock, s.claims, s.claimTokens, s.removals), Recover(q, true, effect), 8,
                    Held(s, q, r.(phase := Removing, effect := effect, claim := s.claimTokens), s.lock,
                         s.claims[r.owner := WriterProtocol.Held(s.claimTokens)], s.claimTokens + 1, s.removals))
  {
    var claimed := r.(phase := Comparing, effect := effect, claim := s.claimTokens);
    var claims := s.claims[r.owner := WriterProtocol.Held(s.claimTokens)];
    Inspects(s, q, r, effect);
    Confirms(s, q, claimed, claims, s.claimTokens + 1);
    RepeatsMore(Held(s, q, r, s.lock, s.claims, s.claimTokens, s.removals), Recover(q, true, effect), 3,
                Held(s, q, claimed, s.lock, claims, s.claimTokens + 1, s.removals), 5,
                Held(s, q, claimed.(phase := Removing), s.lock, claims, s.claimTokens + 1, s.removals));
  }

  /** A recovery of a stopped owner that has not published, left alone with every check passing, removes its lock and
      publishes the effect it found; the registry and the instances are as before. */
  lemma RecoveryFinishes(s: State, q: nat, request: RecoveryRequest, effect: Effect) returns (s': State)
    requires CanRecover(s, q, request)
    ensures Enabled(s, ReadOwner(q, request))
    ensures Repeats(Apply(s, ReadOwner(q, request)), Recover(q, true, effect), 10, s')
    ensures s'.lock.None? && s'.claims == s.claims[s.lock.value := Settled(s.claimTokens, effect)]
    ensures s'.removals == s.removals + [s.lock.value]
    ensures q in s'.recoverers && s'.recoverers[q].phase.Finished?
    ensures s'.registry == s.registry && s'.instances == s.instances && s'.published == s.published
  {
    var owner, e := s.lock.value, Recover(q, true, effect);
    var r := Recoverer(Matching, request, owner, 0, NoEffect);
    var m := Apply(s, ReadOwner(q, request));
    assert m == Held(s, q, r, s.lock, s.claims, s.claimTokens, s.removals);
    var removing := r.(phase := Removing, effect := effect, claim := s.claimTokens);
    var claims := s.claims[owner := WriterProtocol.Held(s.claimTokens)];
    ComesToRemove(s, q, r, effect);
    Removes(s, q, removing, claims, s.claimTokens + 1, effect);
    var settled := claims[owner := Settled(s.claimTokens, effect)];
    assert settled == s.claims[owner := Settled(s.claimTokens, effect)];
    s' := Held(s, q, removing.(phase := Finished), None, settled, s.claimTokens + 1, s.removals + [owner]);
    RepeatsMore(m, e, 8, Held(s, q, removing, s.lock, claims, s.claimTokens + 1, s.removals), 2, s');
  }
}
