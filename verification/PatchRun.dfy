/** One governed patch: the coordinator's journaled stages, the physical compare-and-replace, its verification, the
    compensating restore and the release of the target lock.

    Every effect takes the next answer of an arbitrary script saying what the environment did and reported; the process
    stops where the script ends, so a statement about all scripts is one about every fault and every crash point. */
module PatchRun {
  import opened Wrappers
  import opened MutationTransaction

  type Content = string

  /** What the repository's own provider does is `ContentAddressed`: it moves a manifest ref and materializes a
      projection inside the Git directory.  Any other qualified provider replaces the target `InPlace`. */
  datatype Provider = InPlace | ContentAddressed

  /** What a provider answers to a compare-and-replace; `Throws` stands for an error or unbound evidence too, and
      `SaysProjected` for an APPLIED whose evidence has the content-addressed schema. */
  datatype Report = SaysApplied | SaysProjected | SaysMismatch | SaysFailedPrecommit | SaysAmbiguous | Throws

  /** `ok`: what the caller is told; `effect`: whether the durable effect happened; `report`: what an in-place provider
      answers; `written`: what a projection write left in the file. */
  datatype Answer = Answer(ok: bool, effect: bool, report: Report, written: Content)

  datatype Ended = Completed | Threw | Crashed

  datatype Recovering = NotStarted | Restored | UnprovenOwnership | JournalAmbiguity | AuthoritativeProjection

  datatype PatchResult = Applied | Failed(recovery: Recovering) | Error | Stopped

  // ---------------------------------------------------------------- contents

  /** The manifest ref of the target, by the content its manifest binds, and the projection files there are: each is
      named by its manifest, so by the content it ought to hold. */
  datatype Store = Store(manifest: Option<Content>, projections: map<Content, Content>)

  predicate Projected(s: Store, c: Content) { c in s.projections && s.projections[c] == c }

  /** The governed content of the target: the manifest's once there is one, and then only with its projection intact. */
  function Observed(s: Store, target: Content): Option<Content> {
    if s.manifest.None? then Some(target) else if Projected(s, s.manifest.value) then s.manifest else None
  }

  /** The contents the grant binds, the provider, and what the target and the store held at the start. */
  datatype Files = Files(before: Content, replacement: Content, provider: Provider, start: Content, store: Store)

  /** Only such a patch can be applied. */
  predicate Acceptable(f: Files) {
    f.start == f.before && (f.provider.ContentAddressed? ==> Observed(f.store, f.start) == Some(f.before))
  }

  /** And where every effect succeeds it is, unless a torn projection of the same replacement lies in the way. */
  predicate Clean(f: Files) {
    Acceptable(f) && (f.provider.ContentAddressed? && f.replacement in f.store.projections ==>
                        Projected(f.store, f.replacement))
  }

  /** A first content-addressed patch of a target whose BEFORE content was never projected. */
  predicate Strandable(f: Files) {
    f.provider.ContentAddressed? && Acceptable(f) && f.store.manifest.None? && f.before !in f.store.projections
  }

  ghost predicate Untouched(f: Files, target: Content, store: Store) { target == f.start && store == f.store }

  /** The authorized replacement is in place where the provider's authority lies. */
  ghost predicate Replaced(f: Files, target: Content, store: Store) {
    if f.provider.InPlace? then target == f.replacement
    else store.manifest == Some(f.replacement) && Projected(store, f.replacement)
  }

  /** The ref was created for the BEFORE content, and nothing else done. */
  ghost predicate Bootstrapped(f: Files, store: Store) {
    store.manifest == Some(f.before) && store.projections == f.store.projections
  }

  /** The ref was swapped; at most the projection of the replacement is new, and it may be torn. */
  ghost predicate Swapped(f: Files, store: Store) {
    && store.manifest == Some(f.replacement) && f.store.projections.Keys <= store.projections.Keys
    && store.projections.Keys <= f.store.projections.Keys + {f.replacement}
    && forall c :: c in f.store.projections ==> store.projections[c] == f.store.projections[c]
  }

  /** What each provider can have made of the contents: the in-place one never touches the store, the content-addressed
      one never touches the target. */
  ghost predicate Contents(f: Files, target: Content, store: Store) {
    || Untouched(f, target, store)
    || (f.provider.InPlace? && Acceptable(f) && target == f.replacement && store == f.store)
    || (f.provider.ContentAddressed? && Acceptable(f) && target == f.start
        && (Bootstrapped(f, store) || Swapped(f, store)))
  }

  // ---------------------------------------------------------------- stages

  function Last(h: seq<Stage>): Stage
    requires h != []
  {
    h[|h| - 1]
  }

  predicate Path(h: seq<Stage>) {
    h != [] && h[0].Prepared? && forall k :: 0 < k < |h| ==> Allows(h[k - 1], h[k])
  }

  predicate EarlyStage(s: Stage) { s.Prepared? || s.Locked? || s.BeforeVerified? || s.MutationStarted? }

  /** What may be said of the contents when a stage is appended. */
  ghost predicate Warranted(f: Files, target: Content, store: Store, stage: Stage) {
    && (stage.BeforeVerified? || stage.CommitAuthorityVerified? || stage.Recovered? ==> f.start == f.before)
    && (stage.AfterVerified? || stage.FinalizedSuccess? ==> Replaced(f, target, store))
    && (stage.FinalizedFailed? ==> Untouched(f, target, store))
    && (stage.Recovered? ==> Untouched(f, target, store) && f.provider.InPlace?)
    && !stage.RecoveryUnresolved?
  }

  /** `history` is the coordinator's own transaction, `journal` what is durable: at most one record ahead, when an
      append took effect and its acknowledgement was lost. */
  ghost predicate Consistent(f: Files, target: Content, store: Store, history: seq<Stage>, journal: seq<Stage>) {
    && Path(history) && Path(journal) && history <= journal && |journal| <= |history| + 1
    && Contents(f, target, store)
    && (CommitAuthorityVerified in history || Untouched(f, target, store))
    && forall stage :: stage in journal ==> Warranted(f, target, store, stage)
  }

  class Run {
    const files: Files
    var target: Content
    var store: Store
    var history: seq<Stage>
    var journal: seq<Stage>
    var locked: bool
    var script: seq<Answer>

    ghost predicate Valid()
      reads this
    {
      && Consistent(files, target, store, history, journal)
      && (!locked ==> history == journal && (Last(journal).FinalizedSuccess? || Last(journal).FinalizedFailed?))
    }

    /** The coordinator as it enters the patch: journaled LOCKED, holding the target lock. */
    constructor (files: Files, script: seq<Answer>)
      ensures Valid() && this.files == files && this.script == script && Fresh()
    {
      this.files, target, store, locked := files, files.start, files.store, true;
      history, journal, this.script := [Prepared, Locked], [Prepared, Locked], script;
    }

    ghost predicate Fresh()
      reads this
    {
      history == journal == [Prepared, Locked] && Untouched(files, target, store) && locked
    }

    /** Every effect to come happens and is reported as it happened. */
    ghost predicate Smooth()
      reads this`script
    {
      forall k :: 0 <= k < |script| ==> Fine(script[k])
    }

    ghost predicate Fine(a: Answer) { a.ok && a.effect && a.report.SaysApplied? && a.written == files.replacement }

    method Next() returns (a: Option<Answer>)
      modifies this`script
      ensures if old(script) == [] then a == None && script == []
              else a == Some(old(script)[0]) && script == old(script)[1..]
      ensures old(Smooth()) ==> Smooth() && (a.Some? ==> Fine(a.value))
    {
      if script == [] { return None; }
      a := Some(script[0]);
      script := script[1..];
    }

    // -------------------------------------------------------------- the coordinator

    /** Appends a stage to the journal by comparing versions.  The caller of a stage that claims something about the
        file must have established it. */
    method Advance(stage: Stage) returns (r: Ended)
      requires Valid() && locked
      requires Warranted(files, target, store, stage)
      modifies this`history, this`journal, this`script
      ensures Valid()
      ensures r.Completed? ==> journal == history == old(history) + [stage] && Allows(Last(old(history)), stage)
      ensures r.Completed? ==> |script| + 1 == |old(script)|
      ensures !r.Completed? ==> history == old(history)
      ensures journal == old(journal) || (old(journal) == old(history) && journal == old(history) + [stage])
      ensures old(Smooth()) ==> Smooth() && |script| + 1 >= |old(script)|
      ensures old(Smooth()) && old(script) != [] && old(history) == old(journal)
              && Allows(Last(old(history)), stage) ==>
                r.Completed?
    {
      if Final(Last(history)) || !Allows(Last(history), stage) { return Threw; }
      var answer := Next();
      if answer.None? { return Crashed; }
      if journal == history {
        if answer.value.effect { journal := journal + [stage]; }
      } else if journal != history + [stage] {
        return Threw;
      }
      if !answer.value.ok || journal == history { return Threw; }
      history := history + [stage];
      r := Completed;
    }

    method RequireRecovery() returns (r: Ended)
      requires Valid() && locked
      modifies this`history, this`journal, this`script
      ensures Valid()
      ensures history == old(history)
              || (history == old(history) + [RecoveryRequired] && Last(old(history)) != Recovered)
      ensures r.Completed? ==> Last(history).RecoveryRequired? || (Last(history).Recovered? && history == old(history))
      ensures journal == old(journal) || (old(journal) == old(history) && journal == old(history) + [RecoveryRequired])
      ensures old(Smooth()) ==> Smooth() && |script| + 1 >= |old(script)|
      ensures old(Smooth()) && old(script) != [] && old(history) == old(journal)
              && Last(old(history)).PhysicalApplied? ==>
                r.Completed? && history == journal == old(history) + [RecoveryRequired]
    {
      assert journal[|history| - 1] == Last(history) && Warranted(files, target, store, Last(history));
      if Last(history).RecoveryRequired? || Last(history).Recovered? || Last(history).RecoveryUnresolved? {
        return Completed;
      }
      r := Advance(RecoveryRequired);
    }

    method ReleaseLock() returns (r: Ended)
      requires Valid() && locked && history == journal
      requires Last(history).FinalizedSuccess? || Last(history).FinalizedFailed?
      modifies this`locked, this`script
      ensures Valid() && (r.Completed? ==> !locked)
      ensures old(Smooth()) && old(script) != [] ==> r.Completed?
    {
      var answer := Next();
      if answer.None? { return Crashed; }
      if answer.value.effect { locked := false; }
      r := if answer.value.ok && answer.value.effect then Completed else Threw;
    }

    // -------------------------------------------------------------- the patch

    /** An in-place provider's atomic replacement of the target.  Commit authority must be journaled before it is asked
        for; what it reports need not be what it did. */
    method ReplaceTarget(expected: Content, next: Content) returns (r: Option<Report>)
      requires CommitAuthorityVerified in history
      modifies this`target, this`script
      ensures target == old(target) || (old(target) == expected && target == next)
      ensures old(Smooth()) ==> Smooth() && |script| + 1 >= |old(script)|
      ensures old(Smooth()) && old(script) != [] ==>
                r == Some(SaysApplied) && (old(target) == expected ==> target == next)
    {
      var answer := Next();
      if answer.None? { return None; }
      if answer.value.effect && target == expected { target := next; }
      r := Some(answer.value.report);
    }

    /** The content-addressed provider: the ref is bound to the observed content where there is none, then swapped for
        the replacement's manifest, then the replacement is written to the projection of that manifest.  The target file
        is only read, and only before there is a ref. */
    method SwapManifest() returns (r: Option<Report>)
      requires CommitAuthorityVerified in history && Valid() && files.provider.ContentAddressed?
      requires files.start == files.before && Untouched(files, target, store)
      modifies this`store, this`script
      ensures Contents(files, target, store)
      ensures r == Some(SaysProjected) ==> Replaced(files, target, store)
      ensures r == Some(SaysProjected) ==> Clean(files)
      ensures !Acceptable(files) ==> store == old(store)
      ensures r != Some(SaysApplied)
      ensures old(Smooth()) ==> Smooth() && |script| + 4 >= |old(script)|
      ensures old(Smooth()) && |old(script)| >= 4 && Clean(files) ==> r == Some(SaysProjected)
      ensures old(Smooth()) && |old(script)| == 2 && Strandable(files) ==> r.None? && Bootstrapped(files, store)
    {
      var observed := Next();
      if observed.None? { return None; }
      if !observed.value.ok || Observed(store, target) != Some(files.before) { return Some(SaysMismatch); }
      if store.manifest.None? {
        var created := Next();
        if created.None? { return None; }
        if created.value.effect { store := store.(manifest := Some(files.before)); }
        if store.manifest.None? { return Some(SaysMismatch); }
      }
      var swapped := Next();
      if swapped.None? { return None; }
      if swapped.value.effect { store := store.(manifest := Some(files.replacement)); }
      if !swapped.value.ok { return Some(if store.manifest == Some(files.before) then Throws else SaysMismatch); }
      if store.manifest != Some(files.replacement) { return Some(Throws); }
      r := Materialize();
    }

    ghost predicate Torn()
      reads this
    {
      files.replacement in store.projections && !Projected(store, files.replacement)
    }

    /** The projection of the current manifest: verified where it exists, created exclusively and verified otherwise. */
    method Materialize() returns (r: Option<Report>)
      requires files.provider.ContentAddressed? && Swapped(files, store)
      modifies this`store, this`script
      ensures Swapped(files, store)
              && (r == Some(SaysProjected) ==> Projected(store, files.replacement) && !old(Torn()))
              && r != Some(SaysApplied)
      ensures old(Smooth()) ==> Smooth() && |script| + 1 >= |old(script)|
      ensures old(Smooth()) && old(script) != [] && !old(Torn()) ==> r == Some(SaysProjected)
    {
      var written := Next();
      if written.None? { return None; }
      if files.replacement in store.projections {
        if !Projected(store, files.replacement) { return Some(SaysAmbiguous); }
      } else if written.value.effect {
        store := store.(projections := store.projections[files.replacement := written.value.written]);
      }
      r := Some(if written.value.ok && Projected(store, files.replacement) then SaysProjected else Throws);
    }

    /** The authority observed on entry and the checks on the request and the target, up to BEFORE_VERIFIED. */
    method Check() returns (r: Option<PatchResult>)
      requires Valid() && Fresh()
      modifies this`history, this`journal, this`script
      ensures Valid() && locked
      ensures r.None? ==> history == journal == old(history) + [BeforeVerified] && files.start == files.before
      ensures r.None? ==> |script| + 4 == |old(script)|
      ensures r.Some? ==>
                history == old(history) && !r.value.Applied? && (r.value.Failed? ==> r.value.recovery.NotStarted?)
      ensures old(Smooth()) ==> Smooth() && |script| + 4 >= |old(script)|
      ensures old(Smooth()) && |old(script)| >= 4 && files.start == files.before ==> r.None?
    {
      var entry := Next();
      if entry.None? { return Some(Stopped); }
      if !entry.value.ok { return Some(if entry.value.effect then Failed(NotStarted) else Error); }
      var scope := Next();
      if scope.None? { return Some(Stopped); }
      if !scope.value.ok || target != files.before { return Some(Error); }
      var checked := Next();
      if checked.None? { return Some(Stopped); }
      if !checked.value.ok { return Some(Error); }
      var verified := Advance(BeforeVerified);
      if verified.Crashed? { return Some(Stopped); }
      r := if verified.Threw? then Some(Error) else None;
    }

    /** Observing the authority once more and journaling the stage it allows. */
    method Observe(stage: Stage) returns (r: Option<PatchResult>)
      requires Valid() && locked && history == journal && Allows(Last(history), stage)
      requires stage.MutationStarted? || stage.CommitAuthorityVerified?
      requires files.start == files.before
      modifies this`history, this`journal, this`script
      ensures Valid()
      ensures r.None? ==> history == journal == old(history) + [stage] && |script| + 2 == |old(script)|
      ensures r.Some? ==>
                history == old(history) && !r.value.Applied? && (r.value.Failed? ==> r.value.recovery.NotStarted?)
      ensures old(Smooth()) ==> Smooth() && |script| + 2 >= |old(script)|
      ensures old(Smooth()) && |old(script)| >= 2 ==> r.None?
    {
      var authority := Next();
      if authority.None? { return Some(Stopped); }
      if !authority.value.ok { return Some(if authority.value.effect then Failed(NotStarted) else Error); }
      var journaled := Advance(stage);
      if journaled.Crashed? { return Some(Stopped); }
      r := if journaled.Threw? then Some(Error) else None;
    }

    /** Steps up to the journaled commit authority; None when they all completed. */
    method Prepare() returns (r: Option<PatchResult>)
      requires Valid() && Fresh()
      modifies this`history, this`journal, this`script
      ensures Valid() && locked
      ensures r.None? ==>
                history == journal == [Prepared, Locked, BeforeVerified, MutationStarted, CommitAuthorityVerified]
                          && files.start == files.before && |script| + 8 == |old(script)|
      ensures r.Some? ==>
                EarlyStage(Last(history)) && !r.value.Applied? && (r.value.Failed? ==> r.value.recovery.NotStarted?)
      ensures old(Smooth()) ==> Smooth() && |script| + 8 >= |old(script)|
      ensures old(Smooth()) && |old(script)| >= 8 && files.start == files.before ==> r.None?
    {
      r := Check();
      if r.Some? { return; }
      r := Observe(MutationStarted);
      if r.Some? { return; }
      r := Observe(CommitAuthorityVerified);
    }

    method FailRecovering(recovery: Recovering) returns (r: PatchResult)
      requires Valid() && locked && !recovery.Restored?
      modifies this`history, this`journal, this`script
      ensures Valid() && (r == Stopped || r == Failed(recovery))
      ensures history == old(history)
              || (history == old(history) + [RecoveryRequired] && Last(old(history)) != Recovered)
    {
      var recovering := RequireRecovery();
      r := if recovering.Crashed? then Stopped else Failed(recovery);
    }

    /** No record yet says that the replacement is verified in place. */
    ghost predicate Unverified()
      reads this
    {
      AfterVerified !in journal && FinalizedSuccess !in journal && Recovered !in journal && FinalizedFailed !in journal
    }

    /** The compensating restore of a target the process still owns; true only once the old content was read back. */
    method Restore() returns (r: Option<bool>)
      requires Valid() && locked && CommitAuthorityVerified in history && Unverified()
      requires files.provider.InPlace? && files.start == files.before
      modifies this`target, this`script
      ensures Valid() && (r == Some(true) ==> Untouched(files, target, store))
      ensures old(Smooth()) ==> Smooth() && |script| + 4 >= |old(script)|
      ensures old(Smooth()) && |old(script)| >= 4 && old(target) == files.replacement ==> r == Some(true)
    {
      var owned := Next();
      if owned.None? { return None; }
      if !owned.value.ok || target != files.replacement { return Some(false); }
      var current := Next();
      if current.None? { return None; }
      if !current.value.ok { return Some(false); }
      var restoring := ReplaceTarget(files.replacement, files.before);
      if restoring.None? { return None; }
      if restoring.value != SaysApplied { return Some(false); }
      var restored := Next();
      if restored.None? { return None; }
      r := Some(restored.value.ok && target == files.before);
    }

    method Compensate() returns (r: PatchResult)
      requires Valid() && locked && files.provider.InPlace? && files.start == files.before
      requires CommitAuthorityVerified in history && Unverified() && history == journal
               && Last(history).PhysicalApplied?
      modifies this`target, this`history, this`journal, this`script
      ensures Valid() && (r == Stopped || r == Failed(Restored) || r == Failed(UnprovenOwnership))
      ensures r == Failed(Restored) ==> Untouched(files, target, store)
      ensures Last(history).Recovered? ==> r == Failed(Restored) || r == Stopped
      ensures Last(history).PhysicalApplied? || Last(history).RecoveryRequired? || Last(history).Recovered?
      ensures old(Smooth()) && |old(script)| >= 6 && old(target) == files.replacement ==>
                r == Failed(Restored) && target == files.before && Last(journal).Recovered?
    {
      var recovering := RequireRecovery();
      if recovering.Crashed? { return Stopped; }
      var restored := Restore();
      if restored.None? { return Stopped; }
      if !restored.value { return Failed(UnprovenOwnership); }
      var recovered := Advance(Recovered);
      r := if recovered.Crashed? then Stopped else Failed(Restored);
    }

    /** The provider's compare-and-replace of BEFORE by the replacement. */
    method CompareAndReplace() returns (r: Option<Report>)
      requires Valid() && CommitAuthorityVerified in history && Untouched(files, target, store) && Unverified()
      requires files.start == files.before
      modifies this`target, this`store, this`script
      ensures Valid()
      ensures files.provider.ContentAddressed? ==> target == old(target) && r != Some(SaysApplied)
      ensures files.provider.InPlace? ==> store == old(store)
      ensures !Acceptable(files) ==> Untouched(files, target, store)
      ensures files.provider.ContentAddressed? && r == Some(SaysProjected) ==>
                Replaced(files, target, store) && Clean(files)
      ensures old(Smooth()) ==> Smooth() && |script| + 4 >= |old(script)|
      ensures old(Smooth()) && |old(script)| >= 4 && Clean(files) ==>
                Replaced(files, target, store)
                  && r == Some(if files.provider.InPlace? then SaysApplied else SaysProjected)
      ensures old(Smooth()) && |old(script)| == 2 && Strandable(files) ==> r.None? && Bootstrapped(files, store)
    {
      if files.provider.InPlace? {
        r := ReplaceTarget(files.before, files.replacement);
      } else {
        r := SwapManifest();
      }
    }

    /** The replacement and its journaling; None when both completed. */
    method Replace() returns (r: Option<PatchResult>)
      requires Valid() && locked && Untouched(files, target, store) && files.start == files.before
      requires history == journal == [Prepared, Locked, BeforeVerified, MutationStarted, CommitAuthorityVerified]
      modifies this`target, this`store, this`history, this`journal, this`script
      ensures Valid() && locked
      ensures files.provider.ContentAddressed? ==> target == old(target)
      ensures r.None? ==> history == journal == old(history) + [PhysicalApplied]
      ensures r.None? && files.provider.ContentAddressed? ==> Replaced(files, target, store) && Clean(files)
      ensures r.Some? ==> (Last(history).CommitAuthorityVerified? || Last(history).RecoveryRequired?)
      ensures r.Some? ==>
                r.value.Error? || r.value.Stopped? || r.value == Failed(JournalAmbiguity)
                  || r.value == Failed(AuthoritativeProjection)
      ensures old(Smooth()) && |old(script)| >= 6 && Clean(files) ==>
                r.None? && Smooth() && |script| + 6 >= |old(script)| && Replaced(files, target, store)
      ensures old(Smooth()) && |old(script)| == 2 && Strandable(files) ==>
                r == Some(Stopped) && Bootstrapped(files, store)
    {
      var replaced := CompareAndReplace();
      if replaced.None? { return Some(Stopped); }
      if replaced.value.Throws? || replaced.value.SaysMismatch? || replaced.value.SaysFailedPrecommit? {
        return Some(Error);
      }
      if replaced.value.SaysAmbiguous? {
        var ambiguous := FailRecovering(JournalAmbiguity);
        return Some(ambiguous);
      }
      if replaced.value.SaysProjected? {
        var binding := Next();
        if binding.None? { return Some(Stopped); }
        if !binding.value.ok || files.provider.InPlace? {
          var denied := FailRecovering(AuthoritativeProjection);
          return Some(denied);
        }
      }
      var applied := Advance(PhysicalApplied);
      if applied.Crashed? { return Some(Stopped); }
      if applied.Threw? {
        var ambiguous := FailRecovering(JournalAmbiguity);
        return Some(ambiguous);
      }
      r := None;
    }

    /** AFTER is read back where the provider's authority lies: the target file, or the projection. */
    method Verify() returns (r: PatchResult)
      requires Valid() && locked && files.start == files.before
      requires history == journal == [Prepared, Locked, BeforeVerified, MutationStarted, CommitAuthorityVerified,
                                      PhysicalApplied]
      requires files.provider.ContentAddressed? ==> Replaced(files, target, store)
      modifies this`target, this`history, this`journal, this`script
      ensures Valid()
      ensures files.provider.ContentAddressed? ==> target == old(target) && r != Failed(Restored)
      ensures r.Applied? ==> history == journal == old(history) + [AfterVerified] && Replaced(files, target, store)
      ensures r == Failed(Restored) ==> Untouched(files, target, store)
      ensures !r.Applied? ==>
                Last(history).PhysicalApplied? || Last(history).RecoveryRequired? || Last(history).Recovered?
      ensures Last(history).Recovered? ==> r == Failed(Restored) || r == Stopped
      ensures r != Failed(NotStarted)
      ensures old(Smooth()) && |old(script)| >= 2 && old(Replaced(files, target, store)) ==>
                r.Applied? && Smooth() && |script| + 2 >= |old(script)|
    {
      var after := Next();
      if after.None? { return Stopped; }
      if files.provider.ContentAddressed? {
        if !after.value.ok || !Projected(store, files.replacement) {
          r := FailRecovering(AuthoritativeProjection);
          return;
        }
      } else if !after.value.ok || target != files.replacement {
        r := Compensate();
        return;
      }
      var verified := Advance(AfterVerified);
      if verified.Crashed? { return Stopped; }
      if verified.Threw? {
        r := FailRecovering(JournalAmbiguity);
        return;
      }
      r := Applied;
    }

    /** The whole patch, from the journaled LOCKED stage. */
    method Patch() returns (r: PatchResult)
      requires Valid() && Fresh()
      modifies this`target, this`store, this`history, this`journal, this`script
      ensures Valid() && locked
      ensures files.provider.ContentAddressed? ==> target == files.start && r != Failed(Restored)
      ensures r.Applied? ==>
                && history == journal
                && history == [Prepared, Locked, BeforeVerified, MutationStarted, CommitAuthorityVerified,
                               PhysicalApplied, AfterVerified]
                && Replaced(files, target, store) && Clean(files)
      ensures r == Failed(Restored) ==> Untouched(files, target, store)
      ensures r == Failed(NotStarted) ==> Untouched(files, target, store) && EarlyStage(Last(history))
      ensures !r.Applied? ==> !Last(history).AfterVerified? && !Last(history).EvidenceRecorded? && !Final(Last(history))
      ensures Last(history).Recovered? ==> r == Failed(Restored) || r == Stopped
      ensures old(Smooth()) && |old(script)| >= 16 && Clean(files) ==>
                r.Applied? && Smooth() && |script| + 16 >= |old(script)|
      ensures old(Smooth()) && |old(script)| == 10 && Strandable(files) ==> r.Stopped? && Bootstrapped(files, store)
    {
      var early := Prepare();
      if early.Some? { return early.value; }
      var failed := Replace();
      if failed.Some? { return failed.value; }
      r := Verify();
    }

    // -------------------------------------------------------------- the orchestrator around it

    /** Closing stages after a patch that applied, or after a compensated one. */
    method Close(outcome: Stage) returns (r: Ended)
      requires Valid() && locked && (outcome.FinalizedSuccess? || outcome.FinalizedFailed?)
      requires Warranted(files, target, store, outcome)
      modifies this`history, this`journal, this`locked, this`script
      ensures Valid() && (r.Completed? ==> !locked) && (!locked ==> Last(journal) == outcome)
      ensures old(Smooth()) && |old(script)| >= 3 && old(history) == old(journal)
              && Allows(Last(old(history)), EvidenceRecorded) ==>
                r.Completed?
    {
      r := Advance(EvidenceRecorded);
      if !r.Completed? { return; }
      r := Advance(outcome);
      if !r.Completed? { return; }
      r := ReleaseLock();
    }

    method FailBeforeCommit() returns (r: Ended)
      requires Valid() && locked && EarlyStage(Last(history)) && Untouched(files, target, store)
      modifies this`history, this`journal, this`locked, this`script
      ensures Valid() && (r.Completed? ==> !locked) && (!locked ==> Last(journal).FinalizedFailed?)
    {
      r := Advance(FinalizedFailed);
      if !r.Completed? { return; }
      r := ReleaseLock();
    }

    /** The stages a failed mutation is closed from: nothing was started, or the old content was restored. */
    static predicate Releases(at: Stage, evidence: bool, notStarted: bool) {
      at.Locked? || at.BeforeVerified? || (at.MutationStarted? && evidence && notStarted) || (at.Recovered? && evidence)
    }

    /** What the orchestrator does once anything above has thrown. */
    method Settle(evidence: bool, notStarted: bool) returns (r: Ended)
      requires Valid() && locked
      modifies this`history, this`journal, this`locked, this`script
      ensures Valid()
      // the lock is given up only for a mutation that left everything as it was
      ensures !locked ==>
                Last(journal).FinalizedFailed? && Untouched(files, target, store)
                  && Releases(old(Last(history)), evidence, notStarted)
      // and what completes is given up, already final, or journaled as needing recovery
      ensures r.Completed? ==>
                if Releases(old(Last(history)), evidence, notStarted) then !locked
                else
                  Last(history).RecoveryRequired? || Last(history).Recovered?
                  || (Final(Last(history)) && history == old(history))
    {
      var at := Last(history);
      if EarlyStage(at) { EarlyPath(history); }
      if at.Locked? || at.BeforeVerified? || (at.MutationStarted? && evidence && notStarted) {
        r := FailBeforeCommit();
      } else if at.Recovered? && evidence {
        assert journal[|history| - 1] == at && Warranted(files, target, store, at);
        r := Close(FinalizedFailed);
      } else if !Final(at) && !at.RecoveryRequired? {
        r := RequireRecovery();
      } else {
        r := Completed;
      }
    }

    /** One governed mutation from its LOCKED record to its end.  Whatever happens and wherever it stops, `Valid` says
        what the contents can be; and the lock is given up only past a FINALIZED record that says what they are. */
    method Orchestrate() returns (r: PatchResult)
      requires Valid() && Fresh()
      modifies this`target, this`store, this`history, this`journal, this`locked, this`script
      ensures Valid()
      ensures !Untouched(files, target, store) ==> CommitAuthorityVerified in journal && Acceptable(files)
      ensures files.provider.ContentAddressed? ==> target == files.start && r != Failed(Restored)
      ensures files.provider.InPlace? ==> store == files.store
      ensures AfterVerified in journal || FinalizedSuccess in journal ==> Replaced(files, target, store)
      ensures r == Failed(Restored) ==> Untouched(files, target, store)
      ensures r.Applied? ==>
                !locked && Last(journal).FinalizedSuccess? && Replaced(files, target, store) && Clean(files)
      // where every effect succeeds, exactly a clean patch is applied and finalized
      ensures old(Smooth()) && |old(script)| >= 20 && Clean(files) ==> r.Applied?
      // and one that stops between the creation of its ref and the swap leaves the ref alone
      ensures old(Smooth()) && |old(script)| == 10 && Strandable(files) ==> r.Stopped? && Bootstrapped(files, store)
    {
      r := Patch();
      if r.Stopped? { return; }
      if r.Applied? {
        var recorded := Next();
        if recorded.None? { return Stopped; }
        var closed := Threw;
        if recorded.value.ok { closed := Close(FinalizedSuccess); }
        if closed.Completed? { return; }
        if closed.Crashed? { return Stopped; }
        r := Error;
      }
      if locked {
        var settled := Settle(r.Failed?, r == Failed(NotStarted));
        if settled.Crashed? { r := if r == Failed(Restored) then r else Stopped; }
      }
    }
  }

  lemma {:induction false} EarlyPath(h: seq<Stage>)
    requires Path(h) && EarlyStage(Last(h))
    ensures forall k :: 0 <= k < |h| ==> EarlyStage(h[k])
  {
    if |h| > 1 {
      assert Allows(h[|h| - 2], h[|h| - 1]);
      EarlyPath(h[..|h| - 1]);
    }
  }

  // ---------------------------------------------------------------- what a recovery makes of a crash

  datatype Physical = IsBefore | IsReplacement | IsOther | Unavailable

  datatype Classification = NotApplied | RestoredBefore | PreviouslyAuthorizedApplied | Unresolved

  /** Recovery inspects the worktree file, whichever provider was used. */
  function Inspect(f: Files, target: Content): Physical {
    if target == f.before then IsBefore else if target == f.replacement then IsReplacement else IsOther
  }

  /** The recovery classification of a journal's last stage and the observed target, for a matched lock. */
  function Classify(stage: Stage, commitProven: bool, physical: Physical, lockMatched: bool): Classification {
    if !lockMatched then Unresolved
    else if physical.IsBefore? && EarlyStage(stage) then NotApplied
    else if physical.IsBefore? && stage.Recovered? then RestoredBefore
    else if physical.IsReplacement? && commitProven
            && (stage.CommitAuthorityVerified? || stage.PhysicalApplied? || stage.AfterVerified?
                || stage.EvidenceRecorded? || stage.FinalizedSuccess? || stage.RecoveryRequired? || stage.Recovered?)
    then PreviouslyAuthorizedApplied
    else Unresolved
  }

  function Classified(f: Files, target: Content, journal: seq<Stage>): Classification
    requires journal != []
  {
    Classify(Last(journal), CommitAuthorityVerified in journal, Inspect(f, target), true)
  }

  /** Wherever a run stopped, whatever the target held on entry: a crash is recognised as an authorized patch exactly
      when the target was changed, so an applied one exactly when its provider works in place; NOT_APPLIED and
      RESTORED mean that nothing is left changed; and everything else stays unresolved. */
  lemma CrashClassified(f: Files, target: Content, store: Store, history: seq<Stage>, journal: seq<Stage>)
    requires Consistent(f, target, store, history, journal)
    ensures var c := Classified(f, target, journal);
            && (c.PreviouslyAuthorizedApplied? <==> target != f.start)
            && (!Untouched(f, target, store) ==> (c.PreviouslyAuthorizedApplied? <==> f.provider.InPlace?))
            && (c.NotApplied? <==> f.start == f.before && EarlyStage(Last(journal)))
            && (c.NotApplied? || c.RestoredBefore? ==> Untouched(f, target, store))
            && (c.RestoredBefore? <==> Last(journal).Recovered?)
  {
    var last := Last(journal);
    if EarlyStage(last) { EarlyPath(journal); }
    assert last in journal && Warranted(f, target, store, last);
    if CommitAuthorityVerified in journal { assert Warranted(f, target, store, CommitAuthorityVerified); }
  }

  /** Some content-addressed patch of the target is accepted over these contents. */
  ghost predicate Patchable(target: Content, store: Store) {
    exists g: Files :: g.provider.ContentAddressed? && g.start == target && g.store == store && Acceptable(g)
  }

  /** Wherever a content-addressed run stopped, another one over the same worktree is accepted exactly when the store
      is untouched, or its ref is at BEFORE and BEFORE is projected.  So a target is patched once: past the swap the
      worktree file and the manifest differ; and a run stopped between its two ref updates leaves a ref no patch can
      start from. */
  lemma NextAccepted(f: Files, target: Content, store: Store, history: seq<Stage>, journal: seq<Stage>)
    requires Consistent(f, target, store, history, journal) && f.provider.ContentAddressed? && Acceptable(f)
    ensures Patchable(target, store) <==>
              store == f.store || (store.manifest == Some(f.before) && Projected(store, f.before))
  {
    var again := Files(f.before, f.replacement, ContentAddressed, target, store);
    assert store == f.store || (store.manifest == Some(f.before) && Projected(store, f.before)) ==> Acceptable(again);
  }

  /** Answers under which every effect happens and is reported as it happened. */
  function AllFine(replacement: Content, n: nat): seq<Answer> {
    seq(n, _ => Answer(true, true, SaysApplied, replacement))
  }

  /** A run that reaches such a state: stopped between its two ref updates, it leaves its target unpatchable. */
  method Strand(before: Content, replacement: Content) returns (target: Content, store: Store)
    ensures target == before && store.manifest == Some(before) && !Patchable(target, store)
  {
    var files := Files(before, replacement, ContentAddressed, before, Store(None, map[]));
    var run := new Run(files, AllFine(replacement, 10));
    var stopped := run.Orchestrate();
    target, store := run.target, run.store;
    NextAccepted(files, target, store, run.history, run.journal);
  }

  /** And one that is applied: no patch of the same worktree file is accepted after it. */
  method PatchOnce(before: Content, replacement: Content) returns (target: Content, store: Store)
    ensures target == before && store.manifest == Some(replacement) && Projected(store, replacement)
    ensures Patchable(target, store) <==> before == replacement
  {
    var files := Files(before, replacement, ContentAddressed, before, Store(None, map[]));
    var run := new Run(files, AllFine(replacement, 20));
    var applied := run.Orchestrate();
    target, store := run.target, run.store;
    NextAccepted(files, target, store, run.history, run.journal);
  }
}
