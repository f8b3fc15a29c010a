/** What a caller that is left alone achieves: it dispatches what it claimed and consumes it, or stops and has changed
    nothing. */
module DispatchProgress {
  import opened Wrappers
  import opened StoreTransition
  import opened Witness
  import opened WitnessCommit
  import opened ConsumptionStore
  import opened DispatchProtocol
  import opened DispatchSafety
  import opened Repetition

  ghost function By(e: DispatchProtocol.Event): State -> Option<State> {
    (s: State) => if Enabled(s, e) then Some(Apply(s, e)) else None
  }

  /** The same event, `n` times in a row. */
  ghost predicate Repeats(s: State, e: DispatchProtocol.Event, n: nat, s': State) { Repeated(By(e), s, n, s') }

  lemma RepeatsMore(s: State, e: DispatchProtocol.Event, n: nat, m: State, k: nat, s': State)
    requires Repeats(s, e, n, m) && Repeats(m, e, k, s')
    ensures Repeats(s, e, n + k, s')
  {
    RepeatedMore(By(e), s, n, m, k, s');
  }

  lemma RepeatsNone(s: State, e: DispatchProtocol.Event, s': State)
    ensures Repeats(s, e, 0, s') <==> s' == s
  {
    RepeatedNone(By(e), s);
    if Repeats(s, e, 0, s') { var path :| IsPath(By(e), path, s, 0, s'); }
  }

  lemma RepeatsFirst(s: State, e: DispatchProtocol.Event, s': State)
    requires Enabled(s, e) && Apply(s, e) == s'
    ensures Repeats(s, e, 1, s')
  {
    RepeatedSingle(By(e), s, s');
  }

  lemma RepeatsOne(s: State, e: DispatchProtocol.Event, n: nat, m: State, s': State)
    requires Repeats(s, e, n, m) && Enabled(m, e) && Apply(m, e) == s'
    ensures Repeats(s, e, n + 1, s')
  {
    RepeatedOnce(By(e), s, n, m, s');
  }

  // ---------------------------------------------------------------- two more invariants

  /** Every record in the store is signed over what it says. */
  ghost predicate StoreSigned(s: State) {
    forall f :: f in s.store ==> s.store[f].signature == Signed(s.store[f].base, s.store[f].storeRoot)
  }

  lemma PublishSigned(s: State, p: nat)
    requires Ordered(s) && Linked(s) && StoreSigned(s) && p in s.callers && Publishing(s.callers[p].at)
    ensures StoreSigned(PublishStep(s, p))
  {
    PublishRelates(s, p);
    if PublishStep(s, p).callers[p].at.Committing? {
      LastView(s, p);
      assert Link(s.chain[..|s.chain| - 1], s.chain[|s.chain| - 1]);
    }
  }

  /** Every consumption in the chain was made by a caller that is consuming just that. */
  ghost predicate ConsumedBy(s: State, k: nat)
    requires k < |s.chain| && |s.makers| == |s.chain|
  {
    s.chain[k].base.payload.Consumed? ==>
      s.makers[k] in s.callers && s.callers[s.makers[k]].goal == Consuming(s.chain[k].base.payload.consumption)
  }

  /** A dispatched caller has not begun to consume. */
  ghost predicate Consumers(s: State) {
    && |s.makers| == |s.chain|
    && (forall k :: 0 <= k < |s.chain| ==> ConsumedBy(s, k))
    && forall p :: p in s.callers && (s.callers[p].at.Dispatching? || s.callers[p].at.Dispatched?) ==>
         s.callers[p].goal.Claiming?
  }

  lemma PublishConsumers(s: State, p: nat)
    requires Ordered(s) && Consumers(s) && p in s.callers && Publishing(s.callers[p].at)
    ensures Consumers(PublishStep(s, p))
  {
    PublishRelates(s, p);
    var s' := PublishStep(s, p);
    assert ViewInv(s, p, s.callers[p]);
    forall k | 0 <= k < |s'.chain| ensures ConsumedBy(s', k) {
      if k < |s.chain| { assert ConsumedBy(s, k); }
    }
  }

  lemma LocalConsumers(s: State, s': State, p: nat)
    requires Consumers(s) && DispatchRelation(s, s', p)
    requires p in s.callers && s.callers[p].goal.Consuming? ==> s'.callers[p].goal == s.callers[p].goal
    requires s'.callers[p].at.Dispatching? || s'.callers[p].at.Dispatched? ==> s'.callers[p].goal.Claiming?
    ensures Consumers(s')
  {
    forall k | 0 <= k < |s'.chain| ensures ConsumedBy(s', k) { assert ConsumedBy(s, k); }
  }

  /** Everything known of a state of a run. */
  ghost predicate Whole(s: State) { Inv(s) && StoreSigned(s) && Consumers(s) }

  lemma ReadGoal(s: State, p: nat, seen: seq<Artifact>)
    requires p in s.callers && Reading(s.callers[p].at)
    ensures var c' := ReadStep(s, p, seen).callers[p];
            c'.goal == s.callers[p].goal && !c'.at.Dispatching? && !c'.at.Dispatched?
  {
    if s.callers[p].at.Scanning? { DecideShape(s.callers[p], Bases(seen)); }
  }

  lemma OtherGoal(s: State, e: DispatchProtocol.Event)
    requires Enabled(s, e) && (e.Advance? ==> !Reading(s.callers[e.p].at) && !Publishing(s.callers[e.p].at))
    requires Consumers(s)
    ensures var p, s' := e.p, Apply(s, e);
            && p in s'.callers
            && (p in s.callers && s.callers[p].goal.Consuming? ==> s'.callers[p].goal == s.callers[p].goal)
            && (s'.callers[p].at.Dispatching? || s'.callers[p].at.Dispatched? ==> s'.callers[p].goal.Claiming?)
  {
  }

  lemma StepSigned(s: State, e: DispatchProtocol.Event)
    requires Ordered(s) && Linked(s) && StoreSigned(s) && Enabled(s, e)
    ensures StoreSigned(Apply(s, e))
  {
    var p := e.p;
    if e.Advance? && Reading(s.callers[p].at) { ReadLocal(s, p, e.seen); }
    else if e.Advance? && Publishing(s.callers[p].at) { PublishSigned(s, p); }
    else { OtherLocal(s, e); }
  }

  lemma StepConsumers(s: State, e: DispatchProtocol.Event)
    requires Ordered(s) && Consumers(s) && Enabled(s, e)
    ensures Consumers(Apply(s, e))
  {
    var p := e.p;
    if e.Advance? && Reading(s.callers[p].at) {
      ReadRelates(s, p, e.seen);
      ReadGoal(s, p, e.seen);
      LocalConsumers(s, Apply(s, e), p);
    } else if e.Advance? && Publishing(s.callers[p].at) {
      PublishConsumers(s, p);
    } else {
      OtherRelates(s, e);
      OtherGoal(s, e);
      LocalConsumers(s, Apply(s, e), p);
    }
  }

  lemma {:induction false} RunWhole(run: seq<State>, k: nat)
    requires Run(run) && k < |run|
    ensures Whole(run[k])
  {
    RunKeeps(run, k);
    if k > 0 {
      RunWhole(run, k - 1);
      assert Next(run[k - 1], run[(k - 1) + 1]);
      var e :| Transition(run[k - 1], e, run[k]);
      StepSigned(run[k - 1], e);
      StepConsumers(run[k - 1], e);
    }
  }

  // ---------------------------------------------------------------- reading the directory in full

  /** `seen` lists every record of the store once, in any order, beside lock directories. */
  ghost predicate ListsStore(seen: seq<Artifact>, store: map<Fingerprint, Envelope>) {
    && (forall k :: 0 <= k < |seen| ==>
          seen[k].LockDirectory?
          || (seen[k].Record? && seen[k].position in store && store[seen[k].position] == seen[k].envelope))
    && (forall j, k :: 0 <= j < k < |seen| && seen[j].Record? && seen[k].Record? ==>
          seen[j].position != seen[k].position)
    && (forall f :: f in store ==> Record(f, store[f]) in seen)
  }

  lemma ListsOneMore(seen: seq<Artifact>, store: map<Fingerprint, Envelope>, f: Fingerprint, e: Envelope)
    requires ListsStore(seen, store) && f !in store
    ensures ListsStore(seen + [Record(f, e)], store[f := e])
  {
    var more := seen + [Record(f, e)];
    assert more[|seen|] == Record(f, e);
    forall g | g in store ensures Record(g, store[g]) in more {
      var k :| 0 <= k < |seen| && seen[k] == Record(g, store[g]);
      assert more[k] == seen[k];
    }
  }

  /** Every store can be listed. */
  lemma {:induction false} Listing(store: map<Fingerprint, Envelope>) returns (seen: seq<Artifact>)
    ensures ListsStore(seen, store)
    decreases |store.Keys|
  {
    if store == map[] {
      seen := [];
    } else {
      var f :| f in store;
      var rest := store - {f};
      assert rest.Keys == store.Keys - {f};
      var others := Listing(rest);
      ListsOneMore(others, rest, f, store[f]);
      seen := others + [Record(f, store[f])];
      assert rest[f := store[f]] == store;
    }
  }

  lemma {:induction false} BaseIn(entries: seq<Artifact>, k: nat)
    requires k < |entries| && entries[k].Record?
    ensures entries[k].envelope.base in Bases(entries)
  {
    var n := |entries| - 1;
    if k < n { BaseIn(entries[..n], k); }
  }

  lemma {:induction false} BaseAt(entries: seq<Artifact>, i: nat) returns (k: nat)
    requires i < |Bases(entries)|
    ensures k < |entries| && entries[k].Record? && entries[k].envelope.base == Bases(entries)[i]
  {
    var n := |entries| - 1;
    if i < |Bases(entries[..n])| { k := BaseAt(entries[..n], i); } else { k := n; }
  }

  lemma {:induction false} BasePair(entries: seq<Artifact>, i: nat, j: nat) returns (a: nat, b: nat)
    requires i < j < |Bases(entries)|
    ensures a < b < |entries| && entries[a].Record? && entries[b].Record?
    ensures entries[a].envelope.base == Bases(entries)[i] && entries[b].envelope.base == Bases(entries)[j]
  {
    var n := |entries| - 1;
    if j < |Bases(entries[..n])| {
      a, b := BasePair(entries[..n], i, j);
    } else {
      b := n;
      a := BaseAt(entries[..n], i);
    }
  }

  /** A record of the store and where in the chain it comes from. */
  lemma RecordFits(s: State, f: Fingerprint) returns (k: nat)
    requires Whole(s) && s.disk.pointer.generation == |s.chain| && f in s.store
    ensures k < |s.chain| && s.chain[k].base == s.store[f].base && s.store[f].base.authorization == f
    ensures s.store[f].base.generation == k + 1 && ShapeOk(s.store[f].base)
    ensures Verifies(Record(f, s.store[f]), s.disk.pointer)
  {
    assert StoredBases(s.store) == Replay(s.chain);
    assert StoredBases(s.store)[f] == s.store[f].base;
    k := ReplayFrom(s.chain, f);
    assert Link(s.chain[..k], s.chain[k]);
  }

  lemma FullLists(s: State, seen: seq<Artifact>)
    requires Whole(s) && s.disk.pointer.generation == |s.chain| && ListsStore(seen, s.store)
    ensures Lists(Bases(seen), Replay(s.chain)) && DistinctGenerations(Bases(seen))
  {
    var bases, d := Bases(seen), StoredBases(s.store);
    assert d == Replay(s.chain);
    forall i | 0 <= i < |bases| ensures bases[i].authorization in d && d[bases[i].authorization] == bases[i] {
      var k := BaseAt(seen, i);
      var m := RecordFits(s, seen[k].position);
    }
    forall i, j | 0 <= i < j < |bases|
      ensures bases[i].authorization != bases[j].authorization && bases[i].generation != bases[j].generation
    {
      var a, b := BasePair(seen, i, j);
      var k := RecordFits(s, seen[a].position);
      var m := RecordFits(s, seen[b].position);
    }
    forall f | f in d ensures d[f] in bases && d[f].authorization == f {
      var k :| 0 <= k < |seen| && seen[k] == Record(f, s.store[f]);
      BaseIn(seen, k);
      var m := RecordFits(s, f);
    }
  }

  /** With no transition outstanding a full reading of the store directory loads. */
  lemma FullLoads(s: State, seen: seq<Artifact>)
    requires Whole(s) && s.disk.pointer.generation == |s.chain| && ListsStore(seen, s.store)
    ensures Accepted(seen, s.disk.pointer) && Lists(Bases(seen), Replay(s.chain))
  {
    FullLists(s, seen);
    forall k | 0 <= k < |seen| ensures Verifies(seen[k], s.disk.pointer) {
      if seen[k].Record? { var m := RecordFits(s, seen[k].position); }
    }
    var n := |s.chain|;
    assert s.chain[..n] == s.chain;
    PointerMatches(s.chain, n);
    ChainRoot(s.chain);
    var l :| Lists(l, Replay(s.chain)) && ComputeStoreRoot(l) == Some(s.disk.pointer.storeRoot);
    RootIgnoresOrder(Replay(s.chain), l, Bases(seen));
  }

  /** And whatever loads at any point of a run was signed over what it says, and says what the chain committed then put
      at its position. */
  lemma LoadsOnlySigned(run: seq<State>, k: nat, seen: seq<Artifact>, i: nat)
    requires Run(run) && k < |run| && Accepted(seen, run[k].disk.pointer) && i < |seen| && !seen[i].LockDirectory?
    ensures seen[i].Record? && run[k].disk.pointer.generation <= |run[k].chain|
    ensures var e, d := seen[i].envelope, Replay(run[k].chain[..run[k].disk.pointer.generation]);
            && e.signature == Signed(e.base, e.storeRoot)
            && seen[i].position in d && d[seen[i].position] == e.base
  {
    assert Verifies(seen[i], run[k].disk.pointer);
    LoadsOnlyTheReplay(run, k, seen);
    BaseIn(seen, i);
    var j :| 0 <= j < |Bases(seen)| && Bases(seen)[j] == seen[i].envelope.base;
  }

  // ---------------------------------------------------------------- one caller moving alone

  lemma PlacedAgain(b: State, p: nat, c: Caller, c': Caller)
    ensures Placed(Placed(b, p, c), p, c') == Placed(b, p, c')
  {
    assert b.callers[p := c][p := c'] == b.callers[p := c'];
  }

  /** What caller `c` decides from a full reading under the present pointer. */
  function Decided(b: State, c: Caller, seen: seq<Artifact>): Caller {
    Decide(c.(at := Scanning, expected := b.disk.pointer), Bases(seen))
  }

  lemma Loads(b: State, p: nat, c: Caller, seen: seq<Artifact>)
    requires c.at.Outside? && LoadDisk(b.disk).Some?
    ensures Repeats(Placed(b, p, c), Advance(p, seen), 2, Placed(b, p, c.(at := Scanning, expected := b.disk.pointer)))
  {
    var e, c1 := Advance(p, seen), c.(at := Loading, expected := b.disk.pointer);
    PlacedAgain(b, p, c, c1);
    PlacedAgain(b, p, c1, c1.(at := Scanning));
    RepeatsFirst(Placed(b, p, c), e, Placed(b, p, c1));
    RepeatsOne(Placed(b, p, c), e, 1, Placed(b, p, c1), Placed(b, p, c1.(at := Scanning)));
  }

  lemma Scans(b: State, p: nat, c: Caller, seen: seq<Artifact>)
    requires c.at.Outside? && LoadDisk(b.disk).Some? && Accepted(seen, b.disk.pointer)
    ensures Repeats(Placed(b, p, c), Advance(p, seen), 3, Placed(b, p, Decided(b, c, seen)))
  {
    var e, c2 := Advance(p, seen), c.(at := Scanning, expected := b.disk.pointer);
    Loads(b, p, c, seen);
    PlacedAgain(b, p, c2, Decided(b, c, seen));
    RepeatsOne(Placed(b, p, c), e, 2, Placed(b, p, c2), Placed(b, p, Decided(b, c, seen)));
  }

  lemma Builds(b: State, p: nat, c: Caller, seen: seq<Artifact>)
    requires c.at.Outside? && LoadDisk(b.disk).Some? && Accepted(seen, b.disk.pointer)
    requires Decided(b, c, seen).at.Rechecking?
    ensures Repeats(Placed(b, p, c), Advance(p, seen), 4, Placed(b, p, Decided(b, c, seen).(at := Creating)))
  {
    var c3 := Decided(b, c, seen);
    Scans(b, p, c, seen);
    DecideShape(c.(at := Scanning, expected := b.disk.pointer), Bases(seen));
    PlacedAgain(b, p, c3, c3.(at := Creating));
    RepeatsOne(Placed(b, p, c), Advance(p, seen), 3, Placed(b, p, c3), Placed(b, p, c3.(at := Creating)));
  }

  /** After the PREPARED event and the store record. */
  ghost function Prepares(b: State, p: nat, e: Envelope): State {
    b.(disk := b.disk.(events := b.disk.events[SlotOf(PreparedEvent(e)) := Readable(PreparedEvent(e))]),
       store := b.store[e.base.authorization := e], chain := b.chain + [e], makers := b.makers + [p])
  }

  lemma Stores(b: State, p: nat, c: Caller, seen: seq<Artifact>)
    requires c.at.Creating? && Slot(c.envelope.base.generation, Prepared) !in b.disk.events
    requires c.goal.Claiming? ==> c.envelope.base.authorization !in b.store
    ensures Repeats(Placed(b, p, c), Advance(p, seen), 2, Placed(Prepares(b, p, c.envelope), p, c.(at := Committing)))
  {
    var e, prepared := Advance(p, seen), PreparedEvent(c.envelope);
    var b1 := b.(disk := b.disk.(events := b.disk.events[SlotOf(prepared) := Readable(prepared)]),
                 chain := b.chain + [c.envelope], makers := b.makers + [p]);
    var m1 := Placed(b1, p, c.(at := Storing));
    PlacedAgain(b, p, c, c.(at := Storing));
    CreateShape(Placed(b, p, c), p);
    RepeatsFirst(Placed(b, p, c), e, m1);
    PlacedAgain(b1, p, c.(at := Storing), c.(at := Committing));
    RepeatsOne(Placed(b, p, c), e, 1, m1, Placed(Prepares(b, p, c.envelope), p, c.(at := Committing)));
  }

  /** After the COMMITTED event. */
  function Seals(d: Disk, e: Envelope): Disk {
    d.(events := d.events[Slot(e.base.generation, Committed) := Readable(CommittedEventOf(e))])
  }

  lemma Commits(b: State, p: nat, c: Caller, seen: seq<Artifact>)
    requires c.at.Committing? && b.disk.pointer.generation + 1 == c.envelope.base.generation
    requires b.disk.pointer.headDigest == c.envelope.base.previousHead
    requires Slot(c.envelope.base.generation, Committed) !in b.disk.events
    ensures Repeats(Placed(b, p, c), Advance(p, seen), 2,
                    Placed(b.(disk := Seals(b.disk, c.envelope)), p, c.(at := Pointing)))
  {
    var e := Advance(p, seen);
    var m1, b2 := Placed(b, p, c.(at := Sealing)), b.(disk := Seals(b.disk, c.envelope));
    PlacedAgain(b, p, c, c.(at := Sealing));
    RepeatsFirst(Placed(b, p, c), e, m1);
    PlacedAgain(b, p, c.(at := Sealing), c.(at := Pointing));
    assert CommittedEvent(PreparedEvent(c.envelope)) == CommittedEventOf(c.envelope);
    RepeatsOne(Placed(b, p, c), e, 1, m1, Placed(b2, p, c.(at := Pointing)));
  }

  lemma ReadsBack(b: State, p: nat, c: Caller, seen: seq<Artifact>)
    requires c.at.Pointing?
    requires var slot := Slot(c.envelope.base.generation, Committed);
             slot in b.disk.events && b.disk.events[slot] == Readable(CommittedEventOf(c.envelope))
    ensures Repeats(Placed(b, p, c), Advance(p, seen), 1,
                    Placed(b, p, c.(at := Writing, expected := PointerTo(CommittedEventOf(c.envelope)))))
  {
    var c1 := c.(at := Writing, expected := PointerTo(CommittedEventOf(c.envelope)));
    PlacedAgain(b, p, c, c1);
    RepeatsFirst(Placed(b, p, c), Advance(p, seen), Placed(b, p, c1));
  }

  lemma Renames(b: State, p: nat, c: Caller, seen: seq<Artifact>)
    requires c.at.Writing? && b.disk.temporaries == 0
    ensures Repeats(Placed(b, p, c), Advance(p, seen), 2,
                    Placed(b.(disk := b.disk.(pointer := c.expected)), p, c.(at := Reopening)))
  {
    var e, m := Advance(p, seen), Placed(b, p, c);
    var b1, b2 := b.(disk := b.disk.(temporaries := 1)), b.(disk := b.disk.(pointer := c.expected));
    PlacedAgain(b, p, c, c.(at := Renaming));
    RepeatsFirst(m, e, Placed(b1, p, c.(at := Renaming)));
    PlacedAgain(b1, p, c.(at := Renaming), c.(at := Reopening));
    RepeatsOne(m, e, 1, Placed(b1, p, c.(at := Renaming)), Placed(b2, p, c.(at := Reopening)));
  }

  lemma Points(b: State, p: nat, c: Caller, seen: seq<Artifact>)
    requires c.at.Pointing? && b.disk.temporaries == 0
    requires var slot := Slot(c.envelope.base.generation, Committed);
             slot in b.disk.events && b.disk.events[slot] == Readable(CommittedEventOf(c.envelope))
    ensures var pointer := PointerTo(CommittedEventOf(c.envelope));
            Repeats(Placed(b, p, c), Advance(p, seen), 3,
                    Placed(b.(disk := b.disk.(pointer := pointer)), p, c.(at := Reopening, expected := pointer)))
  {
    var pointer := PointerTo(CommittedEventOf(c.envelope));
    var c1 := c.(at := Writing, expected := pointer);
    ReadsBack(b, p, c, seen);
    Renames(b, p, c1, seen);
    RepeatsMore(Placed(b, p, c), Advance(p, seen), 1, Placed(b, p, c1), 2,
                Placed(b.(disk := b.disk.(pointer := pointer)), p, c1.(at := Reopening)));
  }

  /** The transition in place: record, both events and pointer. */
  ghost function Published(b: State, p: nat, e: Envelope): State {
    var m := Prepares(b, p, e);
    m.(disk := Seals(m.disk, e).(pointer := PointerTo(CommittedEventOf(e))))
  }

  /** The next generation is free and the pointer is the one the envelope was built on. */
  ghost predicate Fits(b: State, e: Envelope) {
    && b.disk.temporaries == 0 && b.disk.pointer.generation + 1 == e.base.generation
    && b.disk.pointer.headDigest == e.base.previousHead
    && Slot(e.base.generation, Prepared) !in b.disk.events && Slot(e.base.generation, Committed) !in b.disk.events
  }

  lemma PublishesAll(b: State, p: nat, c: Caller, seen: seq<Artifact>)
    requires c.at.Creating? && Fits(b, c.envelope)
    requires c.goal.Claiming? ==> c.envelope.base.authorization !in b.store
    ensures Repeats(Placed(b, p, c), Advance(p, seen), 7,
                    Placed(Published(b, p, c.envelope), p,
                           c.(at := Reopening, expected := PointerTo(CommittedEventOf(c.envelope)))))
  {
    var e, m := Advance(p, seen), Placed(b, p, c);
    var b2 := Prepares(b, p, c.envelope);
    var b4 := b2.(disk := Seals(b2.disk, c.envelope));
    var c2, c4 := c.(at := Committing), c.(at := Pointing);
    Stores(b, p, c, seen);
    Commits(b2, p, c2, seen);
    RepeatsMore(m, e, 2, Placed(b2, p, c2), 2, Placed(b4, p, c4));
    Points(b4, p, c4, seen);
    RepeatsMore(m, e, 4, Placed(b4, p, c4), 3,
                Placed(Published(b, p, c.envelope), p,
                       c.(at := Reopening, expected := PointerTo(CommittedEventOf(c.envelope)))));
  }

  /** From the first read to the reopened store. */
  lemma Transits(b: State, p: nat, c: Caller, seen: seq<Artifact>) returns (c': Caller)
    requires c.at.Outside? && LoadDisk(b.disk).Some? && Accepted(seen, b.disk.pointer)
    requires Decided(b, c, seen).at.Rechecking? && Fits(b, Decided(b, c, seen).envelope)
    requires c.goal.Claiming? ==> c.claim.authorization !in b.store
    requires c.goal.Consuming? ==> c.goal.consumption.authorization == c.claim.authorization
    ensures c' == c.(at := Reopening, expected := c'.expected, envelope := Decided(b, c, seen).envelope)
    ensures Repeats(Placed(b, p, c), Advance(p, seen), 11, Placed(Published(b, p, c'.envelope), p, c'))
    ensures Published(b, p, c'.envelope).disk.pointer.headDigest == OfEnvelope(c'.envelope)
  {
    DecideShape(c.(at := Scanning, expected := b.disk.pointer), Bases(seen));
    var c4 := Decided(b, c, seen).(at := Creating);
    c' := c4.(at := Reopening, expected := PointerTo(CommittedEventOf(c4.envelope)));
    Builds(b, p, c, seen);
    PublishesAll(b, p, c4, seen);
    RepeatsMore(Placed(b, p, c), Advance(p, seen), 4, Placed(b, p, c4), 7, Placed(Published(b, p, c'.envelope), p, c'));
  }

  lemma DispatchesOne(b: State, p: nat, c: Caller, seen: seq<Artifact>)
    requires c.at.Reopening? && c.goal.Claiming? && b.disk.pointer.headDigest == OfEnvelope(c.envelope)
    ensures Repeats(Placed(b, p, c), Advance(p, seen), 2,
                    Placed(b.(dispatches := b.dispatches + [p]), p, c.(at := Dispatched, dispatched := true)))
  {
    var e, m, m1 := Advance(p, seen), Placed(b, p, c), Placed(b, p, c.(at := Dispatching));
    PlacedAgain(b, p, c, c.(at := Dispatching));
    PlacedAgain(b, p, c.(at := Dispatching), c.(at := Dispatched, dispatched := true));
    RepeatsFirst(m, e, m1);
    RepeatsOne(m, e, 1, m1, Placed(b.(dispatches := b.dispatches + [p]), p, c.(at := Dispatched, dispatched := true)));
  }

  // ---------------------------------------------------------------- what is left when it is done

  /** Nobody else has moved, and the one transition `e` is committed on top of the chain. */
  ghost predicate OneMore(s: State, s': State, p: nat, e: Envelope) {
    && s'.chain == s.chain + [e] && s'.makers == s.makers + [p] && s'.store == s.store[e.base.authorization := e]
    && e.base.generation == |s'.chain| == s'.disk.pointer.generation
    && s'.disk.pointer == PointerTo(CommittedEventOf(e)) && s'.disk.temporaries == 0
    && p in s'.callers && s'.callers == s.callers[p := s'.callers[p]]
  }

  /** No transition is outstanding. */
  ghost predicate Quiet(s: State) { s.disk.pointer.generation == |s.chain| }

  lemma QuietFits(s: State, e: Envelope)
    requires Ordered(s) && Quiet(s)
    requires e.base.generation == |s.chain| + 1 && e.base.previousHead == s.disk.pointer.headDigest
    ensures Fits(s, e) && LoadDisk(s.disk).Some?
  {
    LoadsExactly(s.chain, s.disk);
  }

  lemma DecideClaim(c: Caller, bases: seq<Base>)
    requires c.goal.Claiming?
    ensures Decide(c, bases)
         == if Position(bases, c.claim.authorization).Some? then c.(at := Stopped)
            else Built(c, BuildEnvelope(bases, c.expected.generation, c.expected.headDigest, Claimed(c.claim), None))
  {
  }

  lemma DecideConsumption(c: Caller, bases: seq<Base>, base: Base)
    requires c.goal.Consuming? && Position(bases, c.claim.authorization) == Some(base)
    requires base.payload == Claimed(c.claim) && SameBinding(c.claim, c.goal.consumption)
    ensures Decide(c, bases)
         == Built(c, BuildEnvelope(bases, c.expected.generation, c.expected.headDigest, Consumed(c.goal.consumption),
                                   Some(c.claim.authorization)))
  {
  }

  /** The record of an authorization found in a full reading. */
  lemma Finds(s: State, f: Fingerprint, seen: seq<Artifact>)
    requires Whole(s) && Quiet(s) && ListsStore(seen, s.store)
    ensures Accepted(seen, s.disk.pointer) && Lists(Bases(seen), Replay(s.chain))
    ensures f in Replay(s.chain) <==> f in s.store
    ensures Position(Bases(seen), f) == if f in s.store then Some(s.store[f].base) else None
  {
    FullLoads(s, seen);
    assert StoredBases(s.store) == Replay(s.chain);
    PositionFinds(Bases(seen), Replay(s.chain), f);
  }

  /** What a caller claiming an authorization decides. */
  lemma ClaimDecides(s: State, c: Caller, seen: seq<Artifact>)
    requires Whole(s) && Quiet(s) && ListsStore(seen, s.store) && c.goal.Claiming?
    ensures Accepted(seen, s.disk.pointer)
    ensures var c' := Decided(s, c, seen);
            && (c'.at.Rechecking? <==> c.claim.authorization !in s.store) && (!c'.at.Rechecking? ==> c'.at.Stopped?)
            && (c'.at.Rechecking? ==>
                  c'.envelope.base == BaseEnvelope(|s.chain| + 1, s.disk.pointer.headDigest, Claimed(c.claim)))
  {
    var bases, head := Bases(seen), s.disk.pointer.headDigest;
    Finds(s, c.claim.authorization, seen);
    DecideClaim(c.(at := Scanning, expected := s.disk.pointer), bases);
    BuiltRoot(bases, Replay(s.chain), |s.chain|, head, Claimed(c.claim), None);
    BuiltBase(bases, |s.chain|, head, Claimed(c.claim), None);
  }

  /** What a caller decides whose claim is the record at its position. */
  lemma ConsumptionDecides(s: State, c: Caller, seen: seq<Artifact>)
    requires Whole(s) && Quiet(s) && ListsStore(seen, s.store) && c.goal.Consuming?
    requires c.claim.authorization in s.store && s.store[c.claim.authorization].base.payload == Claimed(c.claim)
    requires SameBinding(c.claim, c.goal.consumption)
    ensures Accepted(seen, s.disk.pointer)
    ensures var c' := Decided(s, c, seen);
            && c'.at.Rechecking?
            && c'.envelope.base == BaseEnvelope(|s.chain| + 1, s.disk.pointer.headDigest, Consumed(c.goal.consumption))
  {
    var bases, head, f := Bases(seen), s.disk.pointer.headDigest, c.claim.authorization;
    var payload := Consumed(c.goal.consumption);
    Finds(s, f, seen);
    DecideConsumption(c.(at := Scanning, expected := s.disk.pointer), bases, s.store[f].base);
    BuiltRoot(bases, Replay(s.chain), |s.chain|, head, payload, Some(f));
    BuiltBase(bases, |s.chain|, head, payload, Some(f));
  }

  // ---------------------------------------------------------------- claim and dispatch

  lemma PublishedOne(s: State, p: nat, e: Envelope, c: Caller, dispatches: seq<nat>)
    requires s.disk.temporaries == 0 && e.base.generation == |s.chain| + 1
    ensures OneMore(s, Placed(Published(s, p, e).(dispatches := dispatches), p, c), p, e)
  {
  }

  lemma ClaimTransits(s: State, p: nat, c: Caller, seen: seq<Artifact>) returns (c': Caller)
    requires Whole(s) && Quiet(s) && ListsStore(seen, s.store)
    requires c.at.Outside? && c.goal.Claiming? && c.claim.authorization !in s.store
    ensures c' == c.(at := Reopening, expected := c'.expected, envelope := c'.envelope)
    ensures c'.envelope.base == BaseEnvelope(|s.chain| + 1, s.disk.pointer.headDigest, Claimed(c.claim))
    ensures Repeats(Placed(s, p, c), Advance(p, seen), 11, Placed(Published(s, p, c'.envelope), p, c'))
    ensures Published(s, p, c'.envelope).disk.pointer.headDigest == OfEnvelope(c'.envelope)
    ensures s.disk.temporaries == 0
  {
    ClaimDecides(s, c, seen);
    QuietFits(s, Decided(s, c, seen).envelope);
    c' := Transits(s, p, c, seen);
  }

  function Arrived(claim: Claim): Caller {
    Caller(claim, Claiming, Outside, PointerTo(BOOTSTRAP), NO_ENVELOPE, false)
  }

  /** The state in which caller `c`, its transition in place, has dispatched. */
  ghost function AfterDispatch(s: State, p: nat, c: Caller): State {
    Placed(Published(s, p, c.envelope).(dispatches := s.dispatches + [p]), p, c.(at := Dispatched, dispatched := true))
  }

  lemma ThenDispatches(s: State, p: nat, m: State, c: Caller, seen: seq<Artifact>)
    requires c.at.Reopening? && c.goal.Claiming?
    requires Repeats(m, Advance(p, seen), 11, Placed(Published(s, p, c.envelope), p, c))
    ensures Repeats(m, Advance(p, seen), 13, AfterDispatch(s, p, c))
  {
    DispatchesOne(Published(s, p, c.envelope), p, c, seen);
    RepeatsMore(m, Advance(p, seen), 11, Placed(Published(s, p, c.envelope), p, c), 2, AfterDispatch(s, p, c));
  }

  lemma ClaimFrom(s: State, p: nat, claim: Claim, seen: seq<Artifact>) returns (s': State, e: Envelope)
    requires Whole(s) && Quiet(s) && ListsStore(seen, s.store)
    requires p !in s.callers && claim.authorization !in s.store
    ensures Repeats(Placed(s, p, Arrived(claim)), Advance(p, seen), 13, s')
    ensures OneMore(s, s', p, e) && e.base.payload == Claimed(claim) && e.base.authorization == claim.authorization
    ensures s'.dispatches == s.dispatches + [p]
    ensures s'.callers[p].at.Dispatched? && s'.callers[p].claim == claim
  {
    var c := ClaimTransits(s, p, Arrived(claim), seen);
    e := c.envelope;
    s' := AfterDispatch(s, p, c);
    ThenDispatches(s, p, Placed(s, p, Arrived(claim)), c, seen);
    PublishedOne(s, p, e, c.(at := Dispatched, dispatched := true), s.dispatches + [p]);
  }

  // ---------------------------------------------------------------- consuming

  /** The claim of a confirmed caller and where it stands in the chain. */
  lemma ConfirmedAt(s: State, p: nat) returns (k: nat)
    requires Whole(s) && p in s.callers && Confirmed(s.callers[p])
    ensures MadeAt(s, p, Claimed(s.callers[p].claim), k)
    ensures s.chain[k].base.authorization == s.callers[p].claim.authorization
  {
    assert ClaimInv(s, p, s.callers[p]);
    k :| MadeAt(s, p, Claimed(s.callers[p].claim), k);
    assert Link(s.chain[..k], s.chain[k]);
  }

  /** Only the caller that made a claim consumes it. */
  lemma ConsumesItsOwn(s: State, i: nat, j: nat)
    requires Whole(s) && i < j < |s.chain|
    requires s.chain[i].base.authorization == s.chain[j].base.authorization
    ensures s.makers[i] == s.makers[j] && s.makers[j] in s.callers && s.callers[s.makers[j]].goal.Consuming?
  {
    Lifecycle(s.chain, i, j);
    assert ConsumedBy(s, j);
    assert Link(s.chain[..j], s.chain[j]);
    var q := s.makers[j];
    assert Bound(s.callers[q]);
    var k := ConfirmedAt(s, q);
    assert k == i || k == j;
  }

  /** The record of a dispatched caller is still its claim, whatever other callers did. */
  lemma DispatchedHeld(s: State, p: nat)
    requires Whole(s) && Quiet(s) && p in s.callers && s.callers[p].at.Dispatched?
    ensures var claim := s.callers[p].claim;
            claim.authorization in s.store && s.store[claim.authorization].base.payload == Claimed(claim)
  {
    var f := s.callers[p].claim.authorization;
    var k := ConfirmedAt(s, p);
    ReplayKeeps(s.chain, k);
    forall j | k < j < |s.chain| ensures s.chain[j].base.authorization != f {
      if s.chain[j].base.authorization == f { ConsumesItsOwn(s, k, j); }
    }
    assert StoredBases(s.store) == Replay(s.chain);
    assert StoredBases(s.store)[f] == s.chain[k].base;
  }

  /** What the caller consumes its claim with. */
  function ConsumptionOf(claim: Claim, transactionId: string, journalId: string, effect: string, after: string)
    : (x: Consumption)
    ensures SameBinding(claim, x) && x.transactionId == transactionId && x.journalId == journalId
    ensures x.effect == effect && x.manifestAfter == after
  {
    Consumption.Consumption(OfClaim(claim), claim.authorization, claim.operationId, claim.workspace, claim.target,
                            claim.before, claim.replacement, transactionId, journalId, effect, after)
  }

  lemma ConsumeTransits(s: State, p: nat, c: Caller, seen: seq<Artifact>) returns (c': Caller)
    requires Whole(s) && Quiet(s) && ListsStore(seen, s.store)
    requires c.at.Outside? && c.goal.Consuming? && SameBinding(c.claim, c.goal.consumption)
    requires c.claim.authorization in s.store && s.store[c.claim.authorization].base.payload == Claimed(c.claim)
    ensures c' == c.(at := Reopening, expected := c'.expected, envelope := c'.envelope)
    ensures c'.envelope.base == BaseEnvelope(|s.chain| + 1, s.disk.pointer.headDigest, Consumed(c.goal.consumption))
    ensures Repeats(Placed(s, p, c), Advance(p, seen), 11, Placed(Published(s, p, c'.envelope), p, c'))
    ensures Published(s, p, c'.envelope).disk.pointer.headDigest == OfEnvelope(c'.envelope)
    ensures s.disk.temporaries == 0
  {
    ConsumptionDecides(s, c, seen);
    QuietFits(s, Decided(s, c, seen).envelope);
    c' := Transits(s, p, c, seen);
  }

  lemma SettlesOne(b: State, p: nat, c: Caller, seen: seq<Artifact>)
    requires c.at.Reopening? && c.goal.Consuming? && b.disk.pointer.headDigest == OfEnvelope(c.envelope)
    ensures Repeats(Placed(b, p, c), Advance(p, seen), 1, Placed(b, p, c.(at := Settled)))
  {
    PlacedAgain(b, p, c, c.(at := Settled));
    RepeatsFirst(Placed(b, p, c), Advance(p, seen), Placed(b, p, c.(at := Settled)));
  }

  lemma ThenSettles(s: State, p: nat, m: State, c: Caller, seen: seq<Artifact>)
    requires c.at.Reopening? && c.goal.Consuming?
    requires Repeats(m, Advance(p, seen), 11, Placed(Published(s, p, c.envelope), p, c))
    ensures Repeats(m, Advance(p, seen), 12, Placed(Published(s, p, c.envelope), p, c.(at := Settled)))
  {
    var b := Published(s, p, c.envelope);
    SettlesOne(b, p, c, seen);
    RepeatsMore(m, Advance(p, seen), 11, Placed(b, p, c), 1, Placed(b, p, c.(at := Settled)));
  }

  lemma ConsumeSettles(s: State, p: nat, c: Caller, seen: seq<Artifact>) returns (s': State, e: Envelope)
    requires Whole(s) && Quiet(s) && ListsStore(seen, s.store)
    requires c.at.Outside? && c.goal.Consuming? && SameBinding(c.claim, c.goal.consumption)
    requires c.claim.authorization in s.store && s.store[c.claim.authorization].base.payload == Claimed(c.claim)
    ensures Repeats(Placed(s, p, c), Advance(p, seen), 12, s')
    ensures OneMore(s, s', p, e) && e.base.payload == Consumed(c.goal.consumption)
    ensures e.base.authorization == c.goal.consumption.authorization
    ensures s'.dispatches == s.dispatches && s'.callers[p].at.Settled?
  {
    var c1 := ConsumeTransits(s, p, c, seen);
    e := c1.envelope;
    s' := Placed(Published(s, p, e), p, c1.(at := Settled));
    ThenSettles(s, p, Placed(s, p, c), c1, seen);
    PublishedOne(s, p, e, c1.(at := Settled), s.dispatches);
  }

  /** The step by which a dispatched caller begins to consume. */
  function Step(p: nat, x: Consumption): DispatchProtocol.Event {
    Consume(p, x.transactionId, x.journalId, x.effect, x.manifestAfter)
  }

  lemma ConsumeBegins(s: State, p: nat, x: Consumption)
    requires p in s.callers && s.callers[p].at.Dispatched?
    requires x == ConsumptionOf(s.callers[p].claim, x.transactionId, x.journalId, x.effect, x.manifestAfter)
    ensures Enabled(s, Step(p, x))
    ensures Apply(s, Step(p, x)) == Placed(s, p, s.callers[p].(at := Outside, goal := Consuming(x)))
  {
  }

  // ---------------------------------------------------------------- over runs

  /** A caller that comes with an authorization the store does not hold, when no transition is outstanding, and then
      moves alone dispatches: it is recorded in the dispatches, its claim is the one transition added to the chain and
      committed, and its record is in the store. */
  lemma CleanClaim(run: seq<State>, k: nat, p: nat, claim: Claim, seen: seq<Artifact>) returns (s': State, e: Envelope)
    requires Run(run) && k < |run| && Quiet(run[k]) && ListsStore(seen, run[k].store)
    requires p !in run[k].callers && claim.authorization !in run[k].store
    ensures Enabled(run[k], Arrive(p, claim))
    ensures Repeats(Apply(run[k], Arrive(p, claim)), Advance(p, seen), 13, s')
    ensures OneMore(run[k], s', p, e) && e.base.payload == Claimed(claim)
    ensures s'.dispatches == run[k].dispatches + [p] && s'.store == run[k].store[claim.authorization := e]
    ensures s'.callers[p].at.Dispatched? && s'.callers[p].claim == claim
  {
    RunWhole(run, k);
    s', e := ClaimFrom(run[k], p, claim, seen);
  }

  /** A caller that has dispatched, when no transition is outstanding, and then consumes and moves alone settles: the
      consumption, bound to its claim, is the one transition added to the chain and committed, and takes the claim's
      place in the store. */
  lemma CleanConsume(run: seq<State>, k: nat, p: nat, x: Consumption, seen: seq<Artifact>)
    returns (s': State, e: Envelope)
    requires Run(run) && k < |run| && Quiet(run[k]) && ListsStore(seen, run[k].store)
    requires p in run[k].callers && run[k].callers[p].at.Dispatched?
    requires x == ConsumptionOf(run[k].callers[p].claim, x.transactionId, x.journalId, x.effect, x.manifestAfter)
    ensures e.base.authorization == x.authorization
    ensures Enabled(run[k], Step(p, x)) && Repeats(Apply(run[k], Step(p, x)), Advance(p, seen), 12, s')
    ensures OneMore(run[k], s', p, e) && e.base.payload == Consumed(x)
    ensures x.authorization in run[k].store && s'.store == run[k].store[x.authorization := e]
    ensures s'.dispatches == run[k].dispatches && s'.callers[p].at.Settled?
  {
    RunWhole(run, k);
    DispatchedHeld(run[k], p);
    ConsumeBegins(run[k], p, x);
    s', e := ConsumeSettles(run[k], p, run[k].callers[p].(at := Outside, goal := Consuming(x)), seen);
  }

  // ---------------------------------------------------------------- refusals

  /** The caller has stopped and nothing else has changed. */
  ghost predicate OnlyStopped(s: State, s': State, p: nat) {
    && SameFiles(s, s') && s'.makers == s.makers && s'.dispatches == s.dispatches
    && p in s'.callers && s'.callers == s.callers[p := s'.callers[p]] && s'.callers[p].at.Stopped?
  }

  lemma StopsUnsettled(b: State, p: nat, c: Caller, seen: seq<Artifact>)
    requires c.at.Outside? && LoadDisk(b.disk).None?
    ensures Repeats(Placed(b, p, c), Advance(p, seen), 2, Placed(b, p, c.(at := Stopped, expected := b.disk.pointer)))
  {
    var e, c1 := Advance(p, seen), c.(at := Loading, expected := b.disk.pointer);
    PlacedAgain(b, p, c, c1);
    PlacedAgain(b, p, c1, c1.(at := Stopped));
    RepeatsFirst(Placed(b, p, c), e, Placed(b, p, c1));
    RepeatsOne(Placed(b, p, c), e, 1, Placed(b, p, c1), Placed(b, p, c1.(at := Stopped)));
  }

  lemma PlacedStops(s: State, p: nat, c: Caller)
    requires c.at.Stopped?
    ensures OnlyStopped(s, Placed(s, p, c), p)
  {
  }

  lemma StopsHeld(s: State, p: nat, c: Caller, seen: seq<Artifact>) returns (s': State)
    requires Whole(s) && Quiet(s) && ListsStore(seen, s.store) && LoadDisk(s.disk).Some?
    requires c.at.Outside? && c.goal.Claiming? && c.claim.authorization in s.store
    ensures Repeats(Placed(s, p, c), Advance(p, seen), 3, s') && OnlyStopped(s, s', p)
  {
    ClaimDecides(s, c, seen);
    var c' := Decided(s, c, seen);
    s' := Placed(s, p, c');
    Scans(s, p, c, seen);
    PlacedStops(s, p, c');
  }

  /** In every other case it stops before it has created anything: while a transition is outstanding whatever it reads,
      and otherwise when the store holds the authorization. */
  lemma ClaimStops(run: seq<State>, k: nat, p: nat, claim: Claim, seen: seq<Artifact>) returns (s': State, n: nat)
    requires Run(run) && k < |run| && p !in run[k].callers
    requires !Quiet(run[k]) || (ListsStore(seen, run[k].store) && claim.authorization in run[k].store)
    ensures Enabled(run[k], Arrive(p, claim))
    ensures Repeats(Apply(run[k], Arrive(p, claim)), Advance(p, seen), n, s') && OnlyStopped(run[k], s', p)
  {
    RunWhole(run, k);
    var s, c := run[k], Arrived(claim);
    LoadsExactly(s.chain, s.disk);
    if Quiet(s) {
      n := 3;
      s' := StopsHeld(s, p, c, seen);
    } else {
      n := 2;
      s' := Placed(s, p, c.(at := Stopped, expected := s.disk.pointer));
      StopsUnsettled(s, p, c, seen);
    }
  }

  // ---------------------------------------------------------------- the whole course

  ghost predicate EndsIn(run: seq<State>, s: State) { Run(run) && run[|run| - 1] == s }

  lemma Extends(run: seq<State>, s: State, s': State) returns (more: seq<State>)
    requires EndsIn(run, s) && Next(s, s')
    ensures EndsIn(more, s') && run <= more
  {
    more := run + [s'];
    forall k | 0 <= k < |more| - 1 ensures Next(more[k], more[k + 1]) {
      if k < |run| - 1 { assert Next(run[k], run[k + 1]); }
    }
  }

  lemma ExtendsBy(run: seq<State>, s: State, e: DispatchProtocol.Event, s': State) returns (more: seq<State>)
    requires EndsIn(run, s) && By(e)(s) == Some(s')
    ensures EndsIn(more, s') && run <= more
  {
    assert Transition(s, e, s');
    more := Extends(run, s, s');
  }

  lemma {:induction false} RepeatsExtends(run: seq<State>, s: State, e: DispatchProtocol.Event, n: nat, s': State)
    returns (more: seq<State>)
    requires EndsIn(run, s) && Repeats(s, e, n, s')
    ensures EndsIn(more, s') && run <= more
    decreases n
  {
    if n == 0 {
      RepeatsNone(s, e, s');
      more := run;
    } else {
      var next := RepeatedFirst(By(e), s, n, s');
      var longer := ExtendsBy(run, s, e, next);
      more := RepeatsExtends(longer, next, e, n - 1, s');
    }
  }

  /** Two transitions on top of the chain. */
  ghost predicate TwoMore(s: State, s': State, p: nat, e: Envelope, e': Envelope) {
    && s'.chain == s.chain + [e, e'] && s'.disk.pointer.generation == |s'.chain|
    && e.base.authorization == e'.base.authorization && s'.store == s.store[e.base.authorization := e']
    && p in s'.callers
  }

  lemma OneAndOne(s: State, s1: State, s2: State, p: nat, e: Envelope, e': Envelope)
    requires OneMore(s, s1, p, e) && OneMore(s1, s2, p, e') && e.base.authorization == e'.base.authorization
    ensures TwoMore(s, s2, p, e, e')
  {
    assert s.store[e.base.authorization := e][e.base.authorization := e'] == s.store[e.base.authorization := e'];
  }

  lemma ClaimExtends(run: seq<State>, s: State, p: nat, claim: Claim) returns (more: seq<State>, s': State, e: Envelope)
    requires EndsIn(run, s) && Quiet(s) && p !in s.callers && claim.authorization !in s.store
    ensures EndsIn(more, s') && run <= more && OneMore(s, s', p, e)
    ensures e.base.payload == Claimed(claim) && e.base.authorization == claim.authorization
    ensures s'.dispatches == s.dispatches + [p] && s'.callers[p].at.Dispatched? && s'.callers[p].claim == claim
  {
    var seen := Listing(s.store);
    RunWhole(run, |run| - 1);
    s', e := ClaimFrom(s, p, claim, seen);
    var begun := ExtendsBy(run, s, Arrive(p, claim), Placed(s, p, Arrived(claim)));
    more := RepeatsExtends(begun, Placed(s, p, Arrived(claim)), Advance(p, seen), 13, s');
  }

  lemma ConsumeExtends(run: seq<State>, s: State, p: nat, x: Consumption)
    returns (more: seq<State>, s': State, e: Envelope)
    requires EndsIn(run, s) && Quiet(s) && p in s.callers && s.callers[p].at.Dispatched?
    requires x == ConsumptionOf(s.callers[p].claim, x.transactionId, x.journalId, x.effect, x.manifestAfter)
    ensures EndsIn(more, s') && run <= more && OneMore(s, s', p, e)
    ensures e.base.payload == Consumed(x) && e.base.authorization == x.authorization
    ensures s'.dispatches == s.dispatches && s'.callers[p].at.Settled?
  {
    var seen := Listing(s.store);
    var c := s.callers[p].(at := Outside, goal := Consuming(x));
    RunWhole(run, |run| - 1);
    DispatchedHeld(s, p);
    ConsumeBegins(s, p, x);
    s', e := ConsumeSettles(s, p, c, seen);
    var begun := ExtendsBy(run, s, Step(p, x), Placed(s, p, c));
    more := RepeatsExtends(begun, Placed(s, p, c), Advance(p, seen), 12, s');
  }

  /** From the end of any run without an outstanding transition, a fresh authorization is claimed, dispatched once and
      consumed by one caller moving alone: two transitions later its record is the consumption, and nothing is
      outstanding. */
  lemma ClaimedDispatchedConsumed(run: seq<State>, s: State, p: nat, claim: Claim, x: Consumption)
    returns (more: seq<State>, s': State, e: Envelope, e': Envelope)
    requires EndsIn(run, s) && Quiet(s) && p !in s.callers && claim.authorization !in s.store
    requires x == ConsumptionOf(claim, x.transactionId, x.journalId, x.effect, x.manifestAfter)
    ensures EndsIn(more, s') && run <= more && TwoMore(s, s', p, e, e')
    ensures e.base.payload == Claimed(claim) && e'.base.payload == Consumed(x)
    ensures s'.dispatches == s.dispatches + [p] && s'.callers[p].at.Settled?
  {
    var run1, s1, e1 := ClaimExtends(run, s, p, claim);
    e := e1;
    more, s', e' := ConsumeExtends(run1, s1, p, x);
    OneAndOne(s, s1, s', p, e, e');
  }
}
