/** What every interleaving of claiming, dispatching and consuming callers keeps.

    The invariant is built in layers, each kept on its own: the event log and who owns its last transition; the links
    of the chain; the store directory; and what callers have claimed and dispatched. */
module DispatchSafety {
  import opened Wrappers
  import opened StoreTransition
  import opened Witness
  import opened WitnessCommit
  import opened ConsumptionStore
  import opened DispatchProtocol

  predicate Reads(at: Step) { at.Loading? || at.Scanning? || at.Rechecking? || at.Creating? }

  predicate HasBuilt(at: Step) { at.Rechecking? || at.Creating? }

  // ---------------------------------------------------------------- the event log

  function HeadAt(chain: seq<Envelope>, k: nat): Digest
    requires k <= |chain|
  {
    if k == 0 then ZeroHead else OfEnvelope(chain[k - 1])
  }

  function CommittedAt(chain: seq<Envelope>, k: nat): StoreTransition.Event
    requires k <= |chain|
  {
    if k == 0 then BOOTSTRAP else CommittedEventOf(chain[k - 1])
  }

  /** The event log is the chain: every generation prepared once, all but possibly the last committed. */
  ghost predicate LogInv(chain: seq<Envelope>, d: Disk) {
    && (forall k: nat :: Slot(k, Prepared) in d.events <==> 1 <= k <= |chain|)
    && (forall k: nat :: 1 <= k <= |chain| ==> d.events[Slot(k, Prepared)] == Readable(PreparedEvent(chain[k - 1])))
    && (forall k: nat :: k < |chain| ==> Slot(k, Committed) in d.events)
    && (forall k: nat :: Slot(k, Committed) in d.events ==>
          k <= |chain| && d.events[Slot(k, Committed)] == Readable(CommittedAt(chain, k)))
    && (forall k: nat :: Slot(k, Aborted) !in d.events)
    && d.pointer.generation <= |chain| <= d.pointer.generation + 1
    && d.pointer == PointerTo(CommittedAt(chain, d.pointer.generation))
    && Slot(d.pointer.generation, Committed) in d.events
    && d.temporaries <= 1 && (d.temporaries == 1 ==> d.pointer.generation < |chain|)
  }

  /** The caller publishing the last transition: what it has read back and written. */
  ghost predicate Progress(chain: seq<Envelope>, d: Disk, c: Caller) {
    && (c.at.Pointing? || c.at.Writing? || c.at.Renaming? ==> Slot(|chain|, Committed) in d.events)
    && (c.at.Writing? || c.at.Renaming? ==> c.expected == PointerTo(CommittedAt(chain, |chain|)))
    && (Publishes(c.at) ==> d.temporaries == if c.at.Renaming? then 1 else 0)
  }

  ghost predicate GenerationAt(chain: seq<Envelope>, k: nat)
    requires k < |chain|
  {
    chain[k].base.generation == k + 1 && chain[k].base.previousHead == HeadAt(chain, k)
  }

  ghost predicate GenerationsInv(chain: seq<Envelope>) {
    forall k :: 0 <= k < |chain| ==> GenerationAt(chain, k)
  }

  /** A caller's view of the log. */
  ghost predicate View(chain: seq<Envelope>, makers: seq<nat>, d: Disk, p: nat, c: Caller) {
    var n := |chain|;
    && (Reads(c.at) ==>
          && c.expected.generation <= d.pointer.generation <= n
          && c.expected == PointerTo(CommittedAt(chain, c.expected.generation)))
    && (HasBuilt(c.at) ==>
          c.envelope.base == BaseEnvelope(c.expected.generation + 1, c.expected.headDigest, PayloadOf(c)))
    && (Publishes(c.at) ==>
          && 0 < n == d.pointer.generation + 1 && |makers| == n
          && chain[n - 1] == c.envelope && makers[n - 1] == p && c.envelope.base.payload == PayloadOf(c))
    && Progress(chain, d, c)
  }

  ghost predicate ViewInv(s: State, p: nat, c: Caller) { View(s.chain, s.makers, s.disk, p, c) }

  ghost predicate Ordered(s: State) {
    && LogInv(s.chain, s.disk) && GenerationsInv(s.chain) && |s.makers| == |s.chain|
    && forall p :: p in s.callers ==> ViewInv(s, p, s.callers[p])
  }

  /** A step that changes nothing but the caller's own record and the list of dispatches. */
  ghost predicate LocalStep(s: State, s': State, p: nat) {
    && p in s'.callers && s'.callers == s.callers[p := s'.callers[p]]
    && s'.disk == s.disk && s'.store == s.store && s'.chain == s.chain && s'.makers == s.makers
    && var c' := s'.callers[p];
       && !Publishes(c'.at)
       && (Reads(c'.at) ==>
             || c'.expected == s.disk.pointer
             || (p in s.callers && Reads(s.callers[p].at) && c'.expected == s.callers[p].expected))
       && (HasBuilt(c'.at) ==>
             || c'.envelope.base == BaseEnvelope(c'.expected.generation + 1, c'.expected.headDigest, PayloadOf(c'))
             || (p in s.callers && HasBuilt(s.callers[p].at)
                 && c' == s.callers[p].(at := c'.at)))
  }

  lemma DecideShape(c: Caller, bases: seq<Base>)
    ensures var c' := Decide(c, bases);
            && (c'.at.Stopped? || (c'.at.Settled? && c.goal.Consuming?) || c'.at.Rechecking?)
            && c' == c.(at := c'.at, envelope := c'.envelope)
            && (c'.at.Rechecking? ==>
                  c'.envelope.base == BaseEnvelope(c.expected.generation + 1, c.expected.headDigest, PayloadOf(c)))
  {
  }

  lemma ReadLocal(s: State, p: nat, seen: seq<Artifact>)
    requires p in s.callers && Reading(s.callers[p].at)
    ensures LocalStep(s, ReadStep(s, p, seen), p)
  {
    if s.callers[p].at.Scanning? { DecideShape(s.callers[p], Bases(seen)); }
  }

  lemma OtherLocal(s: State, e: DispatchProtocol.Event)
    requires Enabled(s, e) && (e.Advance? ==> !Reading(s.callers[e.p].at) && !Publishing(s.callers[e.p].at))
    ensures LocalStep(s, Apply(s, e), e.p)
  {
  }

  lemma LocalView(s: State, s': State, p: nat)
    requires Ordered(s) && LocalStep(s, s', p)
    ensures ViewInv(s', p, s'.callers[p])
  {
    var c' := s'.callers[p];
    assert s.disk.pointer == PointerTo(CommittedAt(s.chain, s.disk.pointer.generation));
    if p in s.callers { assert ViewInv(s, p, s.callers[p]); }
    if HasBuilt(c'.at)
       && c'.envelope.base != BaseEnvelope(c'.expected.generation + 1, c'.expected.headDigest, PayloadOf(c')) {
      assert PayloadOf(c') == PayloadOf(s.callers[p]);
    }
  }

  lemma LocalOrdered(s: State, s': State, p: nat)
    requires Ordered(s) && LocalStep(s, s', p)
    ensures Ordered(s')
  {
    LocalView(s, s', p);
    forall q | q in s'.callers && q != p ensures ViewInv(s', q, s'.callers[q]) {
      assert ViewInv(s, q, s.callers[q]);
    }
  }

  /** An absent PREPARED file means the caller's pointer is the last transition and is committed. */
  lemma CreatesNext(s: State, p: nat)
    requires Ordered(s) && p in s.callers && s.callers[p].at.Creating?
    requires SlotOf(PreparedEvent(s.callers[p].envelope)) !in s.disk.events
    ensures s.callers[p].expected.generation == |s.chain| == s.disk.pointer.generation
    ensures SlotOf(PreparedEvent(s.callers[p].envelope)) == Slot(|s.chain| + 1, Prepared)
    ensures forall q :: q in s.callers ==> !Publishes(s.callers[q].at)
  {
    assert ViewInv(s, p, s.callers[p]);
    assert Slot(s.callers[p].expected.generation + 1, Prepared) !in s.disk.events;
    forall q | q in s.callers ensures !Publishes(s.callers[q].at) { assert ViewInv(s, q, s.callers[q]); }
  }

  lemma LogGrows(chain: seq<Envelope>, d: Disk, e: Envelope)
    requires LogInv(chain, d) && d.pointer.generation == |chain| == e.base.generation - 1
    ensures LogInv(chain + [e], d.(events := d.events[Slot(|chain| + 1, Prepared) := Readable(PreparedEvent(e))]))
  {
    var more, d' := chain + [e], d.(events := d.events[Slot(|chain| + 1, Prepared) := Readable(PreparedEvent(e))]);
    assert forall k :: 0 <= k <= |chain| ==> CommittedAt(more, k) == CommittedAt(chain, k);
    assert forall k: nat :: Slot(k, Committed) in d'.events <==> Slot(k, Committed) in d.events;
  }

  lemma CreateShape(s: State, p: nat)
    requires p in s.callers && s.callers[p].at.Creating?
    requires SlotOf(PreparedEvent(s.callers[p].envelope)) !in s.disk.events
    ensures var e := s.callers[p].envelope;
            PublishStep(s, p) == Moved(s, p, Storing).(
              disk := s.disk.(events := s.disk.events[SlotOf(PreparedEvent(e)) := Readable(PreparedEvent(e))]),
              chain := s.chain + [e], makers := s.makers + [p])
  {
  }

  lemma CreateOrdered(s: State, p: nat)
    requires Ordered(s) && p in s.callers && s.callers[p].at.Creating?
    requires SlotOf(PreparedEvent(s.callers[p].envelope)) !in s.disk.events
    ensures Ordered(PublishStep(s, p))
  {
    var c, n := s.callers[p], |s.chain|;
    assert ViewInv(s, p, c);
    CreatesNext(s, p);
    LogGrows(s.chain, s.disk, c.envelope);
    CreateShape(s, p);
    var s' := PublishStep(s, p);
    assert s'.disk == s.disk.(events := s.disk.events[Slot(n + 1, Prepared) := Readable(PreparedEvent(c.envelope))]);
    assert LogInv(s'.chain, s'.disk);
    forall k | 0 <= k < n + 1 ensures GenerationAt(s'.chain, k) {
      assert HeadAt(s'.chain, k) == HeadAt(s.chain, k);
      if k < n { assert GenerationAt(s.chain, k); }
      if k == n { assert s.disk.pointer.headDigest == HeadAt(s.chain, n); }
    }
    forall q | q in s'.callers ensures ViewInv(s', q, s'.callers[q]) {
      if q != p { CreateOther(s, s', q); }
    }
  }

  lemma CreateOther(s: State, s': State, q: nat)
    requires Ordered(s) && q in s.callers && !Publishes(s.callers[q].at)
    requires s.chain <= s'.chain && s'.disk.pointer == s.disk.pointer
    ensures ViewInv(s', q, s.callers[q])
  {
    assert ViewInv(s, q, s.callers[q]);
    if Reads(s.callers[q].at) {
      assert CommittedAt(s'.chain, s.callers[q].expected.generation)
             == CommittedAt(s.chain, s.callers[q].expected.generation);
    }
  }

  lemma StoreShape(s: State, p: nat)
    requires p in s.callers && s.callers[p].at.Storing?
    ensures var s' := PublishStep(s, p);
            && s'.disk == s.disk && s'.chain == s.chain && s'.makers == s.makers
            && p in s'.callers && s'.callers == s.callers[p := s.callers[p].(at := s'.callers[p].at)]
            && (s'.callers[p].at.Committing? || s'.callers[p].at.Stopped?)
  {
  }

  lemma StoreOrdered(s: State, s': State, p: nat)
    requires Ordered(s) && p in s.callers && s.callers[p].at.Storing? && p in s'.callers
    requires s'.disk == s.disk && s'.chain == s.chain && s'.makers == s.makers
    requires s'.callers == s.callers[p := s.callers[p].(at := s'.callers[p].at)]
    requires s'.callers[p].at.Committing? || s'.callers[p].at.Stopped?
    ensures Ordered(s')
  {
    forall q | q in s'.callers ensures ViewInv(s', q, s'.callers[q]) { assert ViewInv(s, q, s.callers[q]); }
  }

  /** Only one caller publishes at a time. */
  lemma OnePublisher(s: State, p: nat, q: nat)
    requires Ordered(s) && p in s.callers && q in s.callers
    requires Publishes(s.callers[p].at) && Publishes(s.callers[q].at)
    ensures p == q
  {
    assert ViewInv(s, p, s.callers[p]) && ViewInv(s, q, s.callers[q]);
  }

  lemma LogCommits(chain: seq<Envelope>, d: Disk)
    requires LogInv(chain, d) && chain != [] && d.pointer.generation + 1 == |chain|
    ensures LogInv(chain, d.(events := d.events[Slot(|chain|, Committed) := Readable(CommittedAt(chain, |chain|))]))
  {
    var n, events := |chain|, d.events[Slot(|chain|, Committed) := Readable(CommittedAt(chain, |chain|))];
    assert forall k: nat :: Slot(k, Prepared) in events <==> Slot(k, Prepared) in d.events;
    assert forall k: nat :: Slot(k, Aborted) in events <==> Slot(k, Aborted) in d.events;
  }

  lemma LogPoints(chain: seq<Envelope>, d: Disk)
    requires LogInv(chain, d) && chain != [] && Slot(|chain|, Committed) in d.events
    requires chain[|chain| - 1].base.generation == |chain|
    ensures LogInv(chain, d.(pointer := PointerTo(CommittedAt(chain, |chain|)), temporaries := 0))
  {
  }

  /** A step of a publishing caller past its store record: only the disk and its own position and pointer change. */
  ghost predicate DiskStep(s: State, s': State, p: nat, at: Step, expected: Pointer, d: Disk)
    requires p in s.callers
  {
    && s'.disk == d && s'.chain == s.chain && s'.makers == s.makers
    && p in s'.callers && s'.callers == s.callers[p := s.callers[p].(at := at, expected := expected)]
  }

  /** A publishing step that finds its file already there, or loses a comparison, only stops the caller. */
  predicate Halts(s: State, p: nat)
    requires p in s.callers && Publishing(s.callers[p].at)
  {
    PublishStep(s, p) == Moved(s, p, Stopped)
  }

  lemma CompareShape(s: State, p: nat)
    requires p in s.callers && s.callers[p].at.Committing? && !Halts(s, p)
    ensures var c, at := s.callers[p], PublishStep(s, p).callers[p].at;
            DiskStep(s, PublishStep(s, p), p, at, c.expected, s.disk) && (at.Sealing? || at.Reopening?)
  {
  }

  lemma SealShape(s: State, p: nat)
    requires p in s.callers && s.callers[p].at.Sealing?
    ensures var c := s.callers[p];
            var slot := Slot(c.envelope.base.generation, Committed);
            var d := if slot in s.disk.events then s.disk
                     else s.disk.(events := s.disk.events[slot := Readable(CommittedEventOf(c.envelope))]);
            DiskStep(s, PublishStep(s, p), p, Pointing, c.expected, d)
  {
    assert CommittedEvent(PreparedEvent(s.callers[p].envelope)) == CommittedEventOf(s.callers[p].envelope);
  }

  lemma PointShape(s: State, p: nat)
    requires p in s.callers && s.callers[p].at.Pointing?
    requires var slot := Slot(s.callers[p].envelope.base.generation, Committed);
             slot in s.disk.events && s.disk.events[slot] == Readable(CommittedEventOf(s.callers[p].envelope))
    ensures DiskStep(s, PublishStep(s, p), p, Writing, PointerTo(CommittedEventOf(s.callers[p].envelope)), s.disk)
  {
  }

  lemma WriteShape(s: State, p: nat)
    requires p in s.callers && (s.callers[p].at.Writing? || s.callers[p].at.Renaming?)
    ensures var c := s.callers[p];
            if c.at.Writing?
            then DiskStep(s, PublishStep(s, p), p, Renaming, c.expected, s.disk.(temporaries := s.disk.temporaries + 1))
            else DiskStep(s, PublishStep(s, p), p, Reopening, c.expected,
                          s.disk.(pointer := c.expected, temporaries := Fewer(s.disk.temporaries)))
  {
  }

  /** The caller publishing the last transition and what its envelope says. */
  lemma LastView(s: State, p: nat)
    requires Ordered(s) && p in s.callers && Publishes(s.callers[p].at)
    ensures |s.chain| > 0 && s.chain[|s.chain| - 1] == s.callers[p].envelope
    ensures s.callers[p].envelope.base.generation == |s.chain| == s.disk.pointer.generation + 1
    ensures CommittedAt(s.chain, |s.chain|) == CommittedEventOf(s.callers[p].envelope)
    ensures Progress(s.chain, s.disk, s.callers[p])
  {
    assert ViewInv(s, p, s.callers[p]);
    assert GenerationAt(s.chain, |s.chain| - 1);
  }

  /** What a publishing caller does to the disk leaves the views of the others, none of which publishes. */
  lemma OthersView(s: State, d: Disk, p: nat)
    requires Ordered(s) && p in s.callers && Publishes(s.callers[p].at)
    requires s.disk.pointer.generation <= d.pointer.generation <= |s.chain|
    ensures forall q :: q in s.callers && q != p ==> View(s.chain, s.makers, d, q, s.callers[q])
  {
    forall q | q in s.callers && q != p ensures View(s.chain, s.makers, d, q, s.callers[q]) {
      assert ViewInv(s, q, s.callers[q]);
      if Publishes(s.callers[q].at) { OnePublisher(s, p, q); }
    }
  }

  /** So it keeps the order of the log when it keeps the log and the caller's own view. */
  lemma DiskOrdered(s: State, s': State, p: nat, at: Step, expected: Pointer, d: Disk)
    requires Ordered(s) && p in s.callers && Publishes(s.callers[p].at) && DiskStep(s, s', p, at, expected, d)
    requires LogInv(s.chain, d) && s.disk.pointer.generation <= d.pointer.generation
    requires View(s.chain, s.makers, d, p, s.callers[p].(at := at, expected := expected))
    ensures Ordered(s')
  {
    OthersView(s, d, p);
    forall q | q in s'.callers ensures ViewInv(s', q, s'.callers[q]) {}
  }

  lemma CompareOrdered(s: State, p: nat)
    requires Ordered(s) && p in s.callers && s.callers[p].at.Committing? && !Halts(s, p)
    ensures Ordered(PublishStep(s, p)) && PublishStep(s, p).callers[p].at.Sealing?
  {
    var c := s.callers[p];
    LastView(s, p);
    CompareShape(s, p);
    assert ViewInv(s, p, c);
    DiskOrdered(s, PublishStep(s, p), p, Sealing, c.expected, s.disk);
  }

  lemma SealOrdered(s: State, p: nat)
    requires Ordered(s) && p in s.callers && s.callers[p].at.Sealing?
    ensures Ordered(PublishStep(s, p))
  {
    var c := s.callers[p];
    LastView(s, p);
    SealShape(s, p);
    LogCommits(s.chain, s.disk);
    assert ViewInv(s, p, c);
    DiskOrdered(s, PublishStep(s, p), p, Pointing, c.expected, PublishStep(s, p).disk);
  }

  lemma PointOrdered(s: State, p: nat)
    requires Ordered(s) && p in s.callers && s.callers[p].at.Pointing?
    ensures Ordered(PublishStep(s, p))
  {
    var c := s.callers[p];
    LastView(s, p);
    assert s.disk.events[Slot(|s.chain|, Committed)] == Readable(CommittedAt(s.chain, |s.chain|));
    PointShape(s, p);
    assert ViewInv(s, p, c);
    DiskOrdered(s, PublishStep(s, p), p, Writing, PointerTo(CommittedEventOf(c.envelope)), s.disk);
  }

  lemma WriteOrdered(s: State, p: nat)
    requires Ordered(s) && p in s.callers && (s.callers[p].at.Writing? || s.callers[p].at.Renaming?)
    ensures Ordered(PublishStep(s, p))
    ensures s.callers[p].at.Renaming? ==> PublishStep(s, p).disk.pointer.generation == |s.chain|
  {
    var c := s.callers[p];
    LastView(s, p);
    WriteShape(s, p);
    assert ViewInv(s, p, c);
    if c.at.Writing? {
      DiskOrdered(s, PublishStep(s, p), p, Renaming, c.expected, s.disk.(temporaries := 1));
    } else {
      LogPoints(s.chain, s.disk);
      DiskOrdered(s, PublishStep(s, p), p, Reopening, c.expected, s.disk.(pointer := c.expected, temporaries := 0));
    }
  }

  /** A publishing step, as far as the chain, the store and the caller's position go. */
  ghost predicate PublishRelation(s: State, s': State, p: nat) {
    && p in s.callers && p in s'.callers
    && var c, at' := s.callers[p], s'.callers[p].at;
       && s'.callers == s.callers[p := c.(at := at', expected := s'.callers[p].expected)]
       && s'.dispatches == s.dispatches
       && (at'.Stopped? || Publishes(at') || at'.Reopening?)
       && (if at'.Storing? then c.at.Creating? && s'.chain == s.chain + [c.envelope] && s'.makers == s.makers + [p]
           else s'.chain == s.chain && s'.makers == s.makers)
       && (if at'.Committing? then c.at.Storing? && s'.store == s.store[c.envelope.base.authorization := c.envelope]
           else s'.store == s.store)
       && (at'.Sealing? || at'.Pointing? || at'.Writing? || at'.Renaming? || at'.Reopening? ==>
             Publishes(c.at) && !c.at.Storing?)
       && (s'.disk.pointer == s.disk.pointer || c.at.Renaming?)
  }

  lemma PublishRelates(s: State, p: nat)
    requires p in s.callers && Publishing(s.callers[p].at)
    ensures PublishRelation(s, PublishStep(s, p), p)
  {
  }

  lemma StepOrdered(s: State, e: DispatchProtocol.Event)
    requires Ordered(s) && Enabled(s, e)
    ensures Ordered(Apply(s, e))
  {
    var p := e.p;
    if e.Advance? && Reading(s.callers[p].at) {
      ReadLocal(s, p, e.seen);
      LocalOrdered(s, Apply(s, e), p);
    } else if e.Advance? && Publishing(s.callers[p].at) {
      if Halts(s, p) { LocalOrdered(s, Apply(s, e), p); }
      else if s.callers[p].at.Creating? { CreateOrdered(s, p); }
      else if s.callers[p].at.Storing? { StoreShape(s, p); StoreOrdered(s, PublishStep(s, p), p); }
      else if s.callers[p].at.Committing? { CompareOrdered(s, p); }
      else if s.callers[p].at.Sealing? { SealOrdered(s, p); }
      else if s.callers[p].at.Pointing? { PointOrdered(s, p); }
      else { WriteOrdered(s, p); }
    } else {
      OtherLocal(s, e);
      LocalOrdered(s, Apply(s, e), p);
    }
  }

  // ---------------------------------------------------------------- the links of the chain

  lemma PointerMatches(chain: seq<Envelope>, k: nat)
    requires k <= |chain|
    ensures PointerTo(CommittedAt(chain, k)) == PointerAfter(chain[..k])
    ensures HeadAt(chain, k) == HeadOf(chain[..k])
  {
  }

  predicate Bound(c: Caller) { c.goal.Consuming? ==> SameBinding(c.claim, c.goal.consumption) }

  /** What a caller built links to the prefix it read. */
  ghost predicate Links(chain: seq<Envelope>, c: Caller) {
    c.expected.generation <= |chain| && Link(chain[..c.expected.generation], c.envelope)
  }

  ghost predicate Linked(s: State) {
    && Chain(s.chain)
    && forall p :: p in s.callers ==>
         Bound(s.callers[p]) && (HasBuilt(s.callers[p].at) ==> Links(s.chain, s.callers[p]))
  }

  lemma {:induction false} PositionIn(bases: seq<Base>, f: Fingerprint)
    ensures Position(bases, f).Some? ==>
              Position(bases, f).value in bases && Position(bases, f).value.authorization == f
    ensures Position(bases, f).None? ==> forall k :: 0 <= k < |bases| ==> bases[k].authorization != f
  {
    if bases != [] { PositionIn(bases[..|bases| - 1], f); }
  }

  lemma PositionFinds(bases: seq<Base>, d: Directory, f: Fingerprint)
    requires Lists(bases, d)
    ensures Position(bases, f) == if f in d then Some(d[f]) else None
  {
    PositionIn(bases, f);
    if f in d { var k :| 0 <= k < |bases| && bases[k] == d[f]; }
  }

  lemma BuiltBase(bases: seq<Base>, generation: nat, head: Digest, payload: Payload, replacing: Option<Fingerprint>)
    ensures var e := BuildEnvelope(bases, generation, head, payload, replacing);
            e.Some? ==>
              e.value.base == BaseEnvelope(generation + 1, head, payload)
              && e.value.signature == Signed(e.value.base, e.value.storeRoot)
  {
  }

  /** A transition built from records accepted under the pointer of a committed chain links to that chain. */
  lemma BuiltLinks(chain: seq<Envelope>, c: Caller, entries: seq<Artifact>)
    requires Chain(chain) && c.expected == PointerAfter(chain) && c.expected.generation == |chain|
    requires c.expected.headDigest == HeadOf(chain)
    requires Accepted(entries, c.expected) && Bound(c)
    requires Decide(c, Bases(entries)).at.Rechecking?
    ensures Link(chain, Decide(c, Bases(entries)).envelope)
  {
    LoadedIsReplay(chain, entries);
    var bases, d, f := Bases(entries), Replay(chain), c.claim.authorization;
    PositionFinds(bases, d, f);
    var replacing := if c.goal.Claiming? then None else Some(f);
    assert AuthorizationOf(PayloadOf(c)) == f;
    BuiltRoot(bases, d, |chain|, c.expected.headDigest, PayloadOf(c), replacing);
    BuiltBase(bases, |chain|, c.expected.headDigest, PayloadOf(c), replacing);
    assert Some(Decide(c, bases).envelope)
           == BuildEnvelope(bases, |chain|, c.expected.headDigest, PayloadOf(c), replacing);
    LegalDecision(chain, c, bases);
  }

  lemma LegalDecision(chain: seq<Envelope>, c: Caller, bases: seq<Base>)
    requires Lists(bases, Replay(chain)) && Bound(c) && Decide(c, bases).at.Rechecking?
    ensures Legal(Replay(chain), PayloadOf(c))
  {
    PositionFinds(bases, Replay(chain), c.claim.authorization);
  }

  lemma LocalLinked(s: State, s': State, p: nat)
    requires Linked(s) && LocalStep(s, s', p) && Bound(s'.callers[p])
    requires HasBuilt(s'.callers[p].at) ==> Links(s'.chain, s'.callers[p])
    ensures Linked(s')
  {
  }

  lemma ScanLinks(s: State, p: nat, seen: seq<Artifact>)
    requires Ordered(s) && Chain(s.chain) && p in s.callers && s.callers[p].at.Scanning? && Bound(s.callers[p])
    requires Accepted(seen, s.callers[p].expected) && Decide(s.callers[p], Bases(seen)).at.Rechecking?
    ensures Links(s.chain, Decide(s.callers[p], Bases(seen)))
  {
    var c := s.callers[p];
    var g := c.expected.generation;
    assert ViewInv(s, p, c);
    PointerMatches(s.chain, g);
    ChainFront(s.chain, g);
    assert |s.chain[..g]| == g;
    BuiltLinks(s.chain[..g], c, seen);
    DecideShape(c, Bases(seen));
  }

  lemma ReadOutcome(s: State, p: nat, seen: seq<Artifact>)
    requires p in s.callers && Reading(s.callers[p].at)
    ensures var c, c' := s.callers[p], ReadStep(s, p, seen).callers[p];
            && (Bound(c) ==> Bound(c'))
            && (HasBuilt(c'.at) ==>
                  || (c.at.Scanning? && Accepted(seen, c.expected) && Decide(c, Bases(seen)).at.Rechecking?
                      && c' == Decide(c, Bases(seen)))
                  || (c.at.Rechecking? && c' == c.(at := Creating)))
  {
    if s.callers[p].at.Scanning? { DecideShape(s.callers[p], Bases(seen)); }
  }

  lemma ReadLinked(s: State, s': State, p: nat, seen: seq<Artifact>)
    requires Ordered(s) && Linked(s) && p in s.callers && Reading(s.callers[p].at)
    requires s' == ReadStep(s, p, seen)
    ensures Linked(s')
  {
    var c, c' := s.callers[p], s'.callers[p];
    ReadLocal(s, p, seen);
    ReadOutcome(s, p, seen);
    if HasBuilt(c'.at) {
      if c.at.Scanning? { ScanLinks(s, p, seen); } else { assert Links(s.chain, c); }
    }
    LocalLinked(s, s', p);
  }

  lemma ChainGrows(chain: seq<Envelope>, e: Envelope)
    requires Chain(chain) && Link(chain, e)
    ensures Chain(chain + [e])
  {
    var more := chain + [e];
    forall k | 0 <= k < |more| ensures Link(more[..k], more[k]) {
      assert more[..k] == chain[..k];
      if k == |chain| { assert chain[..k] == chain; }
    }
  }

  lemma StillLinks(chain: seq<Envelope>, more: seq<Envelope>, c: Caller)
    requires Links(chain, c) && chain <= more
    ensures Links(more, c)
  {
    assert more[..c.expected.generation] == chain[..c.expected.generation];
  }

  lemma CreateChains(s: State, p: nat)
    requires Linked(s) && p in s.callers && s.callers[p].at.Creating? && s.callers[p].expected.generation == |s.chain|
    ensures Chain(s.chain + [s.callers[p].envelope])
  {
    assert s.chain[..|s.chain|] == s.chain;
    assert Links(s.chain, s.callers[p]);
    ChainGrows(s.chain, s.callers[p].envelope);
  }

  lemma PublishLinked(s: State, s': State, p: nat)
    requires Linked(s) && PublishRelation(s, s', p)
    requires s'.callers[p].at.Storing? ==> s.callers[p].expected.generation == |s.chain|
    ensures Linked(s')
  {
    if s'.callers[p].at.Storing? { CreateChains(s, p); }
    forall q | q in s'.callers && HasBuilt(s'.callers[q].at) ensures Links(s'.chain, s'.callers[q]) {
      StillLinks(s.chain, s'.chain, s.callers[q]);
    }
  }

  lemma CreateCondition(s: State, p: nat)
    requires p in s.callers && Publishing(s.callers[p].at) && PublishStep(s, p).callers[p].at.Storing?
    ensures s.callers[p].at.Creating? && SlotOf(PreparedEvent(s.callers[p].envelope)) !in s.disk.events
  {
  }

  lemma StepLinked(s: State, e: DispatchProtocol.Event)
    requires Ordered(s) && Linked(s) && Enabled(s, e)
    ensures Linked(Apply(s, e))
  {
    var p := e.p;
    if e.Advance? && Reading(s.callers[p].at) { ReadLinked(s, Apply(s, e), p, e.seen); }
    else if e.Advance? && Publishing(s.callers[p].at) {
      PublishRelates(s, p);
      if PublishStep(s, p).callers[p].at.Storing? { CreateCondition(s, p); CreatesNext(s, p); }
      PublishLinked(s, PublishStep(s, p), p);
    } else {
      OtherLocal(s, e);
      OtherBound(s, e);
      LocalLinked(s, Apply(s, e), p);
    }
  }

  lemma OtherBound(s: State, e: DispatchProtocol.Event)
    requires Enabled(s, e) && (e.Advance? ==> !Reading(s.callers[e.p].at) && !Publishing(s.callers[e.p].at))
    requires e.p in s.callers ==> Bound(s.callers[e.p])
    ensures Bound(Apply(s, e).callers[e.p]) && !HasBuilt(Apply(s, e).callers[e.p].at)
  {
  }

  // ---------------------------------------------------------------- the store directory

  ghost function StoredBases(store: map<Fingerprint, Envelope>): Directory { map f | f in store :: store[f].base }

  /** The store holds the replay of the chain, except before the last transition is written. */
  ghost predicate Stored(s: State) {
    && (|| StoredBases(s.store) == Replay(s.chain)
        || (s.disk.pointer.generation + 1 == |s.chain| && StoredBases(s.store) == Replay(s.chain[..|s.chain| - 1])))
    && (forall p :: p in s.callers && s.callers[p].at.Storing? ==>
          |s.chain| > 0 && StoredBases(s.store) == Replay(s.chain[..|s.chain| - 1]))
    && (forall p :: p in s.callers && Publishes(s.callers[p].at) && !s.callers[p].at.Storing? ==>
          StoredBases(s.store) == Replay(s.chain))
  }

  lemma PublishStored(s: State, s': State, p: nat)
    requires Stored(s) && PublishRelation(s, s', p)
    requires s'.callers[p].at.Storing? ==> s.disk.pointer.generation == |s.chain|
    requires Publishes(s.callers[p].at) ==>
               && |s.chain| > 0 && s.chain[|s.chain| - 1] == s.callers[p].envelope
               && forall q :: q in s.callers && q != p ==> !Publishes(s.callers[q].at)
    requires s'.disk.pointer == s.disk.pointer || s'.disk.pointer.generation == |s.chain|
    requires s'.callers[p].at.Storing? ==> forall q :: q in s.callers ==> !Publishes(s.callers[q].at)
    ensures Stored(s')
  {
    var c, at' := s.callers[p], s'.callers[p].at;
    if at'.Storing? {
      assert s'.chain[..|s'.chain| - 1] == s.chain;
    } else if at'.Committing? {
      assert StoredBases(s'.store) == StoredBases(s.store)[c.envelope.base.authorization := c.envelope.base];
    }
  }

  lemma PublishesAlone(s: State, p: nat)
    requires Ordered(s) && p in s.callers && Publishes(s.callers[p].at)
    ensures |s.chain| > 0 && s.chain[|s.chain| - 1] == s.callers[p].envelope
    ensures forall q :: q in s.callers && q != p ==> !Publishes(s.callers[q].at)
  {
    assert ViewInv(s, p, s.callers[p]);
    forall q | q in s.callers && q != p ensures !Publishes(s.callers[q].at) {
      if Publishes(s.callers[q].at) { OnePublisher(s, p, q); }
    }
  }

  lemma PointerMoves(s: State, p: nat)
    requires Ordered(s) && p in s.callers && Publishing(s.callers[p].at)
    ensures PublishStep(s, p).disk.pointer == s.disk.pointer || PublishStep(s, p).disk.pointer.generation == |s.chain|
  {
    if s.callers[p].at.Renaming? {
      WriteOrdered(s, p);
    }
  }

  lemma StepStored(s: State, e: DispatchProtocol.Event)
    requires Ordered(s) && Stored(s) && Enabled(s, e)
    ensures Stored(Apply(s, e))
  {
    var p := e.p;
    if e.Advance? && Reading(s.callers[p].at) { ReadLocal(s, p, e.seen); LocalStored(s, Apply(s, e), p); }
    else if e.Advance? && Publishing(s.callers[p].at) {
      PublishRelates(s, p);
      PointerMoves(s, p);
      if Publishes(s.callers[p].at) { PublishesAlone(s, p); }
      if PublishStep(s, p).callers[p].at.Storing? { CreateCondition(s, p); CreatesNext(s, p); }
      PublishStored(s, PublishStep(s, p), p);
    } else {
      OtherLocal(s, e);
      LocalStored(s, Apply(s, e), p);
    }
  }

  lemma LocalStored(s: State, s': State, p: nat)
    requires Stored(s) && LocalStep(s, s', p)
    ensures Stored(s')
  {
  }

  // ---------------------------------------------------------------- claims and dispatches

  ghost predicate MadeAt(s: State, p: nat, payload: Payload, k: nat) {
    k < |s.chain| && k < |s.makers| && s.chain[k].base.payload == payload && s.makers[k] == p
  }

  /** The caller itself created a transition with this payload. */
  ghost predicate Made(s: State, p: nat, payload: Payload) {
    exists k :: MadeAt(s, p, payload, k)
  }

  /** Past its confirmed claim. */
  predicate Confirmed(c: Caller) {
    c.at.Dispatching? || c.at.Dispatched? || c.goal.Consuming? || c.dispatched
  }

  ghost predicate ClaimInv(s: State, p: nat, c: Caller) {
    && (c.at.Reopening? ==> Made(s, p, PayloadOf(c)))
    && (Confirmed(c) ==> Made(s, p, Claimed(c.claim)))
    && (c.dispatched <==> p in s.dispatches)
    && (c.goal.Claiming? && !c.at.Dispatched? && !c.at.Stopped? && !c.at.Settled? ==> !c.dispatched)
    && (c.at.Dispatching? ==> c.goal.Claiming?)
  }

  ghost predicate Dispatches(s: State) {
    && (forall p :: p in s.callers ==> ClaimInv(s, p, s.callers[p]))
    && (forall k :: 0 <= k < |s.dispatches| ==> s.dispatches[k] in s.callers)
    && (forall j, k :: 0 <= j < k < |s.dispatches| ==> s.dispatches[j] != s.dispatches[k])
  }

  lemma StillMade(s: State, s': State, p: nat, payload: Payload)
    requires Made(s, p, payload) && s.chain <= s'.chain && s.makers <= s'.makers
    ensures Made(s', p, payload)
  {
    var k :| MadeAt(s, p, payload, k);
    assert MadeAt(s', p, payload, k);
  }

  lemma PublishDispatches(s: State, s': State, p: nat)
    requires Dispatches(s) && PublishRelation(s, s', p)
    requires s'.callers[p].at.Reopening? ==> Made(s, p, PayloadOf(s.callers[p]))
    ensures Dispatches(s')
  {
    forall q | q in s'.callers ensures ClaimInv(s', q, s'.callers[q]) {
      var c := s.callers[q];
      assert ClaimInv(s, q, c);
      if Made(s, q, PayloadOf(c)) { StillMade(s, s', q, PayloadOf(c)); }
      if Made(s, q, Claimed(c.claim)) { StillMade(s, s', q, Claimed(c.claim)); }
    }
  }

  /** A step outside publishing: the caller may dispatch, once, or move on without dispatching. */
  ghost predicate DispatchRelation(s: State, s': State, p: nat) {
    && LocalStep(s, s', p)
    && var c' := s'.callers[p];
       if p !in s.callers then c'.at.Outside? && c'.goal.Claiming? && !c'.dispatched && s'.dispatches == s.dispatches
       else
         var c := s.callers[p];
         && c'.claim == c.claim
         && (|| (s'.dispatches == s.dispatches && c'.dispatched == c.dispatched)
             || (s'.dispatches == s.dispatches + [p] && c.at.Dispatching? && c'.dispatched && c'.goal == c.goal
                 && c'.at.Dispatched?))
         && !c'.at.Reopening?
         && (c'.at.Dispatching? ==> c.at.Reopening? && c'.goal == c.goal == Claiming)
         && (c'.goal.Claiming? ==>
               && c.goal.Claiming?
               && (c'.at.Dispatched? ==> c.at.Dispatching?)
               && (!c'.at.Stopped? && !c'.at.Settled? && !c'.at.Dispatched? ==>
                     !c.at.Dispatched? && !c.at.Stopped? && !c.at.Settled?))
         && (c'.goal.Consuming? && c.goal.Claiming? ==> c.at.Dispatched?)
  }

  lemma ReadRelates(s: State, p: nat, seen: seq<Artifact>)
    requires p in s.callers && Reading(s.callers[p].at)
    ensures DispatchRelation(s, ReadStep(s, p, seen), p)
  {
    ReadLocal(s, p, seen);
    if s.callers[p].at.Scanning? { DecideShape(s.callers[p], Bases(seen)); }
  }

  lemma OtherRelates(s: State, e: DispatchProtocol.Event)
    requires Enabled(s, e) && (e.Advance? ==> !Reading(s.callers[e.p].at) && !Publishing(s.callers[e.p].at))
    ensures DispatchRelation(s, Apply(s, e), e.p)
  {
    OtherLocal(s, e);
  }

  lemma LocalDispatches(s: State, s': State, p: nat)
    requires Dispatches(s) && DispatchRelation(s, s', p)
    ensures Dispatches(s')
  {
    if p in s.callers { assert ClaimInv(s, p, s.callers[p]); }
    forall q | q in s'.callers ensures ClaimInv(s', q, s'.callers[q]) {
      if q in s.callers {
        var c := s.callers[q];
        assert ClaimInv(s, q, c);
        if Made(s, q, PayloadOf(c)) { StillMade(s, s', q, PayloadOf(c)); }
        if Made(s, q, Claimed(c.claim)) { StillMade(s, s', q, Claimed(c.claim)); }
      }
    }
  }

  lemma LastIsMade(s: State, p: nat)
    requires Ordered(s) && p in s.callers && Publishes(s.callers[p].at)
    ensures Made(s, p, PayloadOf(s.callers[p]))
  {
    assert ViewInv(s, p, s.callers[p]);
    assert MadeAt(s, p, PayloadOf(s.callers[p]), |s.chain| - 1);
  }

  lemma StepDispatches(s: State, e: DispatchProtocol.Event)
    requires Ordered(s) && Dispatches(s) && Enabled(s, e)
    ensures Dispatches(Apply(s, e))
  {
    var p := e.p;
    if e.Advance? && Reading(s.callers[p].at) {
      ReadRelates(s, p, e.seen);
      LocalDispatches(s, Apply(s, e), p);
    } else if e.Advance? && Publishing(s.callers[p].at) {
      PublishRelates(s, p);
      if Publishes(s.callers[p].at) { LastIsMade(s, p); }
      PublishDispatches(s, PublishStep(s, p), p);
    } else {
      OtherRelates(s, e);
      LocalDispatches(s, Apply(s, e), p);
    }
  }

  // ---------------------------------------------------------------- whole runs

  ghost predicate Inv(s: State) { Ordered(s) && Linked(s) && Stored(s) && Dispatches(s) }

  lemma {:induction false} RunKeeps(run: seq<State>, k: nat)
    requires Run(run) && k < |run|
    ensures Inv(run[k])
  {
    if k == 0 {
      assert run[0].chain[..0] == [];
    } else {
      RunKeeps(run, k - 1);
      assert Next(run[k - 1], run[(k - 1) + 1]);
      var e :| Transition(run[k - 1], e, run[k]);
      StepOrdered(run[k - 1], e);
      StepLinked(run[k - 1], e);
      StepStored(run[k - 1], e);
      StepDispatches(run[k - 1], e);
    }
  }

  lemma ChainAppends(s: State, e: DispatchProtocol.Event)
    requires Enabled(s, e)
    ensures s.chain <= Apply(s, e).chain && s.makers <= Apply(s, e).makers
  {
    var p := e.p;
    if e.Advance? && Reading(s.callers[p].at) { ReadLocal(s, p, e.seen); }
    else if e.Advance? && Publishing(s.callers[p].at) { PublishRelates(s, p); }
    else { OtherLocal(s, e); }
  }

  lemma {:induction false} ChainOnlyGrows(run: seq<State>, j: nat, k: nat)
    requires Run(run) && j <= k < |run|
    ensures run[j].chain <= run[k].chain
    decreases k - j
  {
    if j < k {
      ChainOnlyGrows(run, j, k - 1);
      assert Next(run[k - 1], run[(k - 1) + 1]);
      var e :| Transition(run[k - 1], e, run[k]);
      ChainAppends(run[k - 1], e);
    }
  }

  /** The witness history is one chain: it only grows at its end, every generation is prepared at most once, committed
      generations are contiguous from the bootstrap, and each prepare carries the head of the generation before. */
  lemma OneChain(run: seq<State>, j: nat, k: nat)
    requires Run(run) && j <= k < |run|
    ensures run[j].chain <= run[k].chain
    ensures Chain(run[k].chain) && GenerationsInv(run[k].chain) && LogInv(run[k].chain, run[k].disk)
  {
    ChainOnlyGrows(run, j, k);
    RunKeeps(run, k);
  }

  /** Whatever the store directory returns when it is read, at once or piecemeal, edited or rolled back: if it loads
      under the pointer of a state of the run, its records are the replay of that state's committed chain. */
  lemma LoadsOnlyTheReplay(run: seq<State>, k: nat, seen: seq<Artifact>)
    requires Run(run) && k < |run| && Accepted(seen, run[k].disk.pointer)
    ensures run[k].disk.pointer.generation <= |run[k].chain|
    ensures Lists(Bases(seen), Replay(run[k].chain[..run[k].disk.pointer.generation]))
  {
    RunKeeps(run, k);
    var s := run[k];
    var g := s.disk.pointer.generation;
    PointerMatches(s.chain, g);
    ChainFront(s.chain, g);
    LoadedIsReplay(s.chain[..g], seen);
  }

  /** With no transition outstanding the directory itself holds exactly the replay of the whole chain. */
  lemma SettledStoreIsReplay(run: seq<State>, k: nat)
    requires Run(run) && k < |run| && run[k].disk.pointer.generation == |run[k].chain|
    ensures StoredBases(run[k].store) == Replay(run[k].chain)
  {
    RunKeeps(run, k);
  }

  lemma ClaimIsAt(s: State, p: nat) returns (k: nat)
    requires Inv(s) && p in s.dispatches
    ensures p in s.callers && MadeAt(s, p, Claimed(s.callers[p].claim), k)
  {
    assert ClaimInv(s, p, s.callers[p]);
    k :| MadeAt(s, p, Claimed(s.callers[p].claim), k);
  }

  /** At most one dispatch per authorization, over every run, crash and interleaving; each was claimed in the chain by
      its own caller before. */
  lemma DispatchedAtMostOnce(run: seq<State>, k: nat, a: nat, b: nat)
    requires Run(run) && k < |run| && a < b < |run[k].dispatches|
    ensures var s := run[k];
            && s.dispatches[a] in s.callers && s.dispatches[b] in s.callers
            && s.callers[s.dispatches[a]].claim.authorization != s.callers[s.dispatches[b]].claim.authorization
            && Made(s, s.dispatches[a], Claimed(s.callers[s.dispatches[a]].claim))
            && Made(s, s.dispatches[b], Claimed(s.callers[s.dispatches[b]].claim))
  {
    RunKeeps(run, k);
    var s := run[k];
    var i := ClaimIsAt(s, s.dispatches[a]);
    var j := ClaimIsAt(s, s.dispatches[b]);
    assert Link(s.chain[..i], s.chain[i]) && Link(s.chain[..j], s.chain[j]);
    if s.chain[i].base.authorization == s.chain[j].base.authorization {
      if i < j { ClaimedOnce(s.chain, i, j); }
      if j < i { ClaimedOnce(s.chain, j, i); }
    }
  }

  /** Every consumption in the chain has one claim of the same authorization before it, and carries its seven bound
      fields: a record is never consumed without having been claimed. */
  lemma ConsumptionHasClaim(run: seq<State>, k: nat, j: nat) returns (i: nat)
    requires Run(run) && k < |run| && j < |run[k].chain| && run[k].chain[j].base.payload.Consumed?
    ensures i < j && run[k].chain[i].base.authorization == run[k].chain[j].base.authorization
    ensures run[k].chain[i].base.payload.Claimed?
    ensures SameBinding(run[k].chain[i].base.payload.claim, run[k].chain[j].base.payload.consumption)
    ensures forall m :: 0 <= m < |run[k].chain| && m != i && m != j ==>
              run[k].chain[m].base.authorization != run[k].chain[j].base.authorization
  {
    RunKeeps(run, k);
    i := HasClaim(run[k].chain, j);
    Lifecycle(run[k].chain, i, j);
  }

  /** Of two transitions of one authorization the earlier is its claim and the later the consumption of that claim. */
  lemma ConsumptionMatchesClaim(run: seq<State>, k: nat, i: nat, j: nat)
    requires Run(run) && k < |run| && i < j < |run[k].chain|
    requires run[k].chain[i].base.authorization == run[k].chain[j].base.authorization
    ensures run[k].chain[i].base.payload.Claimed? && run[k].chain[j].base.payload.Consumed?
    ensures SameBinding(run[k].chain[i].base.payload.claim, run[k].chain[j].base.payload.consumption)
  {
    RunKeeps(run, k);
    Lifecycle(run[k].chain, i, j);
  }

  // ---------------------------------------------------------------- what loads answer along a run

  lemma LogReads(chain: seq<Envelope>, d: Disk)
    requires LogInv(chain, d) && GenerationsInv(chain)
    ensures WellFiled(d.events) && Bootstrapped(Readings(d.events))
    ensures Readings(d.events)[Slot(0, Committed)] == BOOTSTRAP
  {
    forall s | s in d.events ensures d.events[s].Readable? && SlotOf(d.events[s].event) == s {
      if 1 <= s.generation <= |chain| { assert GenerationAt(chain, s.generation - 1); }
      assert s == Slot(s.generation, s.phase) && (s.phase.Prepared? || s.phase.Committed? || s.phase.Aborted?);
    }
  }

  /** Generation g checks out against the chain when it is committed, and is refused otherwise. */
  ghost predicate Checks(chain: seq<Envelope>, log: Log, g: nat, committed: bool)
    requires 1 <= g <= |chain|
  {
    && HasGroup(log, g)
    && CheckGeneration(log, g, CommittedAt(chain, g - 1)) == if committed then Some(CommittedAt(chain, g)) else None
  }

  /** The same with only the last generation possibly uncommitted. */
  ghost predicate ChecksOut(chain: seq<Envelope>, log: Log, g: nat, committed: bool)
    requires 1 <= g <= |chain|
  {
    Checks(chain, log, g, g < |chain| || committed)
  }

  lemma CheckChain(log: Log, e: Envelope, latest: StoreTransition.Event, committed: bool)
    requires var g := e.base.generation;
             && Slot(g, Prepared) in log && log[Slot(g, Prepared)] == PreparedEvent(e)
             && Slot(g, Aborted) !in log && e.base.previousHead == latest.headDigest
             && (Slot(g, Committed) in log <==> committed)
             && (committed ==> log[Slot(g, Committed)] == CommittedEventOf(e))
    ensures CheckGeneration(log, e.base.generation, latest) == if committed then Some(CommittedEventOf(e)) else None
  {
  }

  lemma {:induction false} WalkChain(chain: seq<Envelope>, log: Log, committed: bool, g: nat)
    requires 1 <= g <= |chain| + 1
    requires forall k :: 1 <= k <= |chain| ==> ChecksOut(chain, log, k, committed)
    requires !HasGroup(log, |chain| + 1)
    requires g == |chain| + 1 ==> committed
    ensures Walk(log, g, CommittedAt(chain, g - 1))
         == if committed then Some((|chain| + 1, CommittedAt(chain, |chain|))) else None
    decreases |chain| + 1 - g
  {
    if g <= |chain| {
      assert ChecksOut(chain, log, g, committed);
      if g < |chain| || committed { WalkChain(chain, log, committed, g + 1); }
    }
  }

  lemma SlotsBounded(chain: seq<Envelope>, d: Disk, t: Slot)
    requires LogInv(chain, d) && t in d.events
    ensures t.generation <= |chain|
  {
    assert t == Slot(t.generation, t.phase) && (t.phase.Prepared? || t.phase.Committed? || t.phase.Aborted?);
  }

  /** The files of one generation hold what the chain says. */
  ghost predicate Filed(files: map<Slot, File>, e: Envelope) {
    var g := e.base.generation;
    && Slot(g, Prepared) in files && files[Slot(g, Prepared)] == Readable(PreparedEvent(e))
    && Slot(g, Aborted) !in files
    && (Slot(g, Committed) in files ==> files[Slot(g, Committed)] == Readable(CommittedEventOf(e)))
  }

  lemma ChainFiled(chain: seq<Envelope>, d: Disk, g: nat)
    requires LogInv(chain, d) && GenerationsInv(chain) && 1 <= g <= |chain|
    ensures Filed(d.events, chain[g - 1]) && (g < |chain| ==> Slot(g, Committed) in d.events)
  {
    assert GenerationAt(chain, g - 1);
  }

  lemma ReadingAt(files: map<Slot, File>, t: Slot)
    requires WellFiled(files)
    ensures t in Readings(files) <==> t in files
    ensures t in files ==> Readable(Readings(files)[t]) == files[t]
  {
  }

  lemma FiledChecks(files: map<Slot, File>, e: Envelope, latest: StoreTransition.Event)
    requires WellFiled(files) && Filed(files, e) && e.base.previousHead == latest.headDigest
    ensures HasGroup(Readings(files), e.base.generation)
    ensures CheckGeneration(Readings(files), e.base.generation, latest)
         == if Slot(e.base.generation, Committed) in files then Some(CommittedEventOf(e)) else None
  {
    var g := e.base.generation;
    ReadingAt(files, Slot(g, Prepared));
    ReadingAt(files, Slot(g, Committed));
    ReadingAt(files, Slot(g, Aborted));
    CheckChain(Readings(files), e, latest, Slot(g, Committed) in files);
  }

  lemma LogChecks(chain: seq<Envelope>, d: Disk, g: nat)
    requires LogInv(chain, d) && GenerationsInv(chain) && WellFiled(d.events) && 1 <= g <= |chain|
    ensures ChecksOut(chain, Readings(d.events), g, Slot(|chain|, Committed) in d.events)
  {
    ChainFiled(chain, d, g);
    PreviousHead(chain, g);
    FiledChecks(d.events, chain[g - 1], CommittedAt(chain, g - 1));
  }

  lemma PreviousHead(chain: seq<Envelope>, g: nat)
    requires GenerationsInv(chain) && 1 <= g <= |chain|
    ensures chain[g - 1].base.generation == g && chain[g - 1].base.previousHead == CommittedAt(chain, g - 1).headDigest
  {
    assert GenerationAt(chain, g - 1);
    assert HeadAt(chain, g - 1) == CommittedAt(chain, g - 1).headDigest;
  }

  lemma LogEnds(chain: seq<Envelope>, d: Disk)
    requires LogInv(chain, d) && WellFiled(d.events)
    ensures !HasGroup(Readings(d.events), |chain| + 1)
    ensures forall t :: t in d.events ==> t.generation <= |chain|
  {
    forall t | t in d.events ensures t.generation <= |chain| { SlotsBounded(chain, d, t); }
  }

  lemma LoadChain(chain: seq<Envelope>, pointer: Pointer, log: Log, committed: bool)
    requires Bootstrapped(log) && log[Slot(0, Committed)] == BOOTSTRAP
    requires forall k :: 1 <= k <= |chain| ==> ChecksOut(chain, log, k, committed)
    requires !HasGroup(log, |chain| + 1) && forall t :: t in log ==> t.generation <= |chain|
    requires |chain| == 0 ==> committed
    ensures LoadLog(pointer, log).Some? <==> committed && PointsTo(pointer, CommittedAt(chain, |chain|))
  {
    WalkChain(chain, log, committed, 1);
  }

  lemma AllCheckOut(chain: seq<Envelope>, d: Disk)
    requires LogInv(chain, d) && GenerationsInv(chain) && WellFiled(d.events)
    ensures forall g :: 1 <= g <= |chain| ==>
              ChecksOut(chain, Readings(d.events), g, Slot(|chain|, Committed) in d.events)
  {
    forall g | 1 <= g <= |chain| ensures ChecksOut(chain, Readings(d.events), g, Slot(|chain|, Committed) in d.events) {
      LogChecks(chain, d, g);
    }
  }

  lemma LogPointer(chain: seq<Envelope>, d: Disk)
    requires LogInv(chain, d) && GenerationsInv(chain)
    ensures Slot(|chain|, Committed) in d.events && PointsTo(d.pointer, CommittedAt(chain, |chain|))
       <==> d.pointer.generation == |chain|
    ensures |chain| == 0 ==> Slot(|chain|, Committed) in d.events
  {
    if |chain| > 0 { PreviousHead(chain, |chain|); }
  }

  lemma LoadsExactly(chain: seq<Envelope>, d: Disk)
    requires LogInv(chain, d) && GenerationsInv(chain)
    ensures LoadDisk(d).Some? <==> d.temporaries == 0 && d.pointer.generation == |chain|
  {
    LogReads(chain, d);
    LogEnds(chain, d);
    AllCheckOut(chain, d);
    LogPointer(chain, d);
    LoadChain(chain, d.pointer, Readings(d.events), Slot(|chain|, Committed) in d.events);
  }

  /** Along every run a load of the witness is granted exactly when no prepared transition is outstanding: a pointer
      temporary is only ever found beside one. */
  lemma LoadsWhenSettled(run: seq<State>, k: nat)
    requires Run(run) && k < |run|
    ensures LoadDisk(run[k].disk).Some? <==> run[k].disk.pointer.generation == |run[k].chain|
    ensures run[k].disk.temporaries <= 1
  {
    RunKeeps(run, k);
    LoadsExactly(run[k].chain, run[k].disk);
  }

  // ---------------------------------------------------------------- a transition whose caller stopped

  /** A transition is outstanding and nobody publishes it. */
  ghost predicate Stranded(s: State) {
    s.disk.pointer.generation < |s.chain| && forall p :: p in s.callers ==> !Publishes(s.callers[p].at)
  }

  /** Nothing is committed or stored from one state to another. */
  ghost predicate SameFiles(s: State, s': State) { s'.disk == s.disk && s'.chain == s.chain && s'.store == s.store }

  lemma StrandedStays(s: State, e: DispatchProtocol.Event)
    requires Ordered(s) && Stranded(s) && Enabled(s, e)
    ensures Stranded(Apply(s, e)) && SameFiles(s, Apply(s, e))
  {
    var p := e.p;
    if e.Advance? && Reading(s.callers[p].at) {
      ReadLocal(s, p, e.seen);
    } else if e.Advance? && Publishing(s.callers[p].at) {
      assert ViewInv(s, p, s.callers[p]);
      if SlotOf(PreparedEvent(s.callers[p].envelope)) !in s.disk.events { CreatesNext(s, p); }
    } else {
      OtherLocal(s, e);
    }
  }

  lemma StrandedNext(s: State, s': State)
    requires Inv(s) && Stranded(s) && Next(s, s')
    ensures Stranded(s') && SameFiles(s, s')
  {
    var e :| Transition(s, e, s');
    StrandedStays(s, e);
  }

  lemma StrandedStep(run: seq<State>, k: nat)
    requires Run(run) && k < |run| - 1 && Stranded(run[k])
    ensures Stranded(run[k + 1]) && SameFiles(run[k], run[k + 1])
  {
    RunKeeps(run, k);
    StrandedNext(run[k], run[k + 1]);
  }

  lemma StrandedRefused(run: seq<State>, k: nat)
    requires Run(run) && k < |run| && Stranded(run[k])
    ensures LoadDisk(run[k].disk).None?
  {
    LoadsWhenSettled(run, k);
  }

  lemma {:induction false} StrandedAlong(run: seq<State>, j: nat, k: nat)
    requires Run(run) && j <= k < |run| && Stranded(run[j])
    ensures Stranded(run[k]) && SameFiles(run[j], run[k])
    decreases k - j
  {
    if j < k {
      StrandedAlong(run, j, k - 1);
      StrandedStep(run, k - 1);
    }
  }

  /** Once the caller of an outstanding transition has stopped, wherever it did, nothing is ever committed, stored or
      loaded again. */
  lemma StrandedForGood(run: seq<State>, j: nat, k: nat)
    requires Run(run) && j <= k < |run| && Stranded(run[j])
    ensures SameFiles(run[j], run[k]) && LoadDisk(run[k].disk).None?
  {
    StrandedAlong(run, j, k);
    StrandedRefused(run, k);
  }

  lemma StopStrandsHere(s: State, p: nat)
    requires Inv(s) && p in s.callers && Publishes(s.callers[p].at)
    ensures Stranded(Apply(s, Stop(p)))
    ensures Apply(s, Stop(p)).disk.temporaries == 1 <==> s.callers[p].at.Renaming?
  {
    LastView(s, p);
    PublishesAlone(s, p);
    OtherLocal(s, Stop(p));
  }

  /** A publishing caller that stops strands its transition, with its pointer temporary where it had written one. */
  lemma StopStrands(run: seq<State>, k: nat, p: nat)
    requires Run(run) && k < |run| && p in run[k].callers && Publishes(run[k].callers[p].at)
    ensures Stranded(Apply(run[k], Stop(p)))
    ensures Apply(run[k], Stop(p)).disk.temporaries == 1 <==> run[k].callers[p].at.Renaming?
  {
    RunKeeps(run, k);
    StopStrandsHere(run[k], p);
  }
}
