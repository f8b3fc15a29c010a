/** Committing a prepared transition, and stopping anywhere on the way. */
module WitnessCommit {
  import opened Wrappers
  import opened StoreTransition
  import opened Witness

  datatype Disk = Disk(events: map<Slot, File>, pointer: Pointer, temporaries: nat)

  ghost predicate WellFiled(events: map<Slot, File>) {
    forall s :: s in events ==> events[s].Readable? && SlotOf(events[s].event) == s
  }

  ghost function Readings(events: map<Slot, File>): (log: Log)
    requires WellFiled(events)
    ensures log.Keys == events.Keys
  {
    map s | s in events :: events[s].event
  }

  /** What loading the witness directory answers. */
  ghost function LoadDisk(d: Disk): Option<Event> {
    if d.temporaries != 0 || d.events == map[] || !WellFiled(d.events) then None
    else LoadLog(d.pointer, Readings(d.events))
  }

  ghost predicate ListsEvents(files: seq<Entry>, events: map<Slot, File>) {
    && (forall j, k :: 0 <= j < k < |files| ==> files[j].name != files[k].name)
    && (forall k :: 0 <= k < |files| ==>
          files[k].name.EventName? && files[k].name.slot in events && events[files[k].name.slot] == files[k].content)
    && (forall s :: s in events ==> exists k :: 0 <= k < |files| && files[k].name == EventName(s))
  }

  lemma ListedOne(files: seq<Entry>, events: map<Slot, File>, s: Slot) returns (k: nat)
    requires ListsEvents(files, events) && s in events
    ensures k < |files| && files[k].name == EventName(s) && files[k].content == events[s]
  {
    k :| 0 <= k < |files| && files[k].name == EventName(s);
  }

  lemma UnambiguousListing(files: seq<Entry>, events: map<Slot, File>)
    requires ListsEvents(files, events)
    ensures Unambiguous(files) <==> WellFiled(events)
    ensures files == [] <==> events == map[]
  {
    if files != [] { assert files[0].name.slot in events; }
    if Unambiguous(files) {
      forall s | s in events ensures events[s].Readable? && SlotOf(events[s].event) == s {
        var k := ListedOne(files, events, s);
        assert Proper(files[k]);
      }
    }
    if events != map[] {
      var s :| s in events;
      var k := ListedOne(files, events, s);
    }
  }

  /** The load answers for the directory, whatever the order its files are listed in. */
  lemma AnyListing(files: seq<Entry>, d: Disk)
    requires ListsEvents(files, d.events)
    ensures Load(d.pointer, d.temporaries, files) == LoadDisk(d)
  {
    UnambiguousListing(files, d.events);
    if Unambiguous(files) {
      var log := LogOf(files);
      forall s ensures s in log <==> s in d.events {
        if s in d.events { var k := ListedOne(files, d.events, s); }
      }
      forall s | s in log ensures log[s] == d.events[s].event {
        var k := ListedOne(files, d.events, s);
        assert Proper(files[k]);
      }
      assert log == Readings(d.events);
    }
  }

  // ---------------------------------------------------------------- commit, stopped after `budget` file effects

  datatype Outcome = Done(pointer: Pointer) | Refused | Crashed

  function CommittedEvent(prepared: Event): Event { prepared.(phase := Committed) }

  /** The last part of a commit, once the COMMITTED file is in place: check it, write the pointer's temporary, rename
      it. */
  function PublishPointer(d: Disk, prepared: Event, budget: nat): (Disk, Outcome) {
    var slot := Slot(prepared.generation, Committed);
    if slot !in d.events || d.events[slot].Unreadable?
       || !SameTransition(d.events[slot].event, prepared) then (d, Refused)
    else
      var next := PointerTo(d.events[slot].event);
      if budget == 0 then (d, Crashed)
      else if budget == 1 then (d.(temporaries := d.temporaries + 1), Crashed)
      else (d.(pointer := next), Done(next))
  }

  function Commit(d: Disk, prepared: Event, budget: nat): (Disk, Outcome) {
    var slot := Slot(prepared.generation, Committed);
    if prepared.phase != Prepared then (d, Refused)
    else if d.pointer.generation == prepared.generation && d.pointer.headDigest == prepared.headDigest
         && d.pointer.storeRoot == prepared.storeRoot then
      if slot in d.events && d.events[slot].Readable? && OfEvent(d.events[slot].event) == d.pointer.eventDigest
      then (d, Done(d.pointer)) else (d, Refused)
    else if d.pointer.generation != prepared.generation - 1
            || d.pointer.headDigest != prepared.previousHead then (d, Refused)
    else if slot in d.events then PublishPointer(d, prepared, budget)
    else if budget == 0 then (d, Crashed)
    else if budget == 1 then (d.(events := d.events[slot := Unreadable]), Crashed)
    else PublishPointer(d.(events := d.events[slot := Readable(CommittedEvent(prepared))]), prepared, budget - 2)
  }

  class WitnessStore {
    var events: map<Slot, File>
    var pointer: Pointer
    var temporaries: nat

    ghost function AsDisk(): Disk
      reads this
    {
      Disk(events, pointer, temporaries)
    }

    /** The process stops after `budget` file effects. */
    method CommitPreparedTransition(prepared: Event, budget: nat) returns (r: Outcome)
      modifies this
      ensures (AsDisk(), r) == Commit(old(AsDisk()), prepared, budget)
    {
      var left := budget;
      var slot := Slot(prepared.generation, Committed);
      if prepared.phase != Prepared { return Refused; }
      if pointer.generation == prepared.generation && pointer.headDigest == prepared.headDigest
        && pointer.storeRoot == prepared.storeRoot {
        if slot !in events || events[slot].Unreadable? || OfEvent(events[slot].event) != pointer.eventDigest {
          return Refused;
        }
        return Done(pointer);
      }
      if pointer.generation != prepared.generation - 1 || pointer.headDigest != prepared.previousHead {
        return Refused;
      }
      if slot !in events {
        if left == 0 { return Crashed; }
        events := events[slot := Unreadable];
        left := left - 1;
        if left == 0 { return Crashed; }
        events := events[slot := Readable(CommittedEvent(prepared))];
        left := left - 1;
        assert events == old(events)[slot := Readable(CommittedEvent(prepared))];
      }
      if events[slot].Unreadable? { return Refused; }
      var persisted := events[slot].event;
      if !SameTransition(persisted, prepared) { return Refused; }
      var next := PointerTo(persisted);
      if left == 0 { return Crashed; }
      temporaries := temporaries + 1;
      left := left - 1;
      if left == 0 { return Crashed; }
      pointer := next;
      temporaries := temporaries - 1;
      r := Done(next);
    }
  }

  // ---------------------------------------------------------------- crash safety

  lemma {:induction false} WalkBounds(log: Log, g: nat, latest: Event)
    requires forall s :: s in log ==> SlotOf(log[s]) == s
    requires latest.generation < g && Walk(log, g, latest).Some?
    ensures var (end, last) := Walk(log, g, latest).value; g <= end && last.generation < end && !HasGroup(log, end)
    decreases |Remaining(log, g)|
  {
    if HasGroup(log, g) {
      WalkShrinks(log, g);
      WalkBounds(log, g + 1, CheckGeneration(log, g, latest).value);
    }
  }

  /** Adding events from the end of a walk on does not change the walk up to there. */
  lemma {:induction false} WalkExtended(log: Log, more: Log, g: nat, latest: Event, end: nat)
    requires Walk(log, g, latest).Some? && Walk(log, g, latest).value.0 == end
    requires forall s: Slot :: s.generation < end ==> Find(more, s) == Find(log, s)
    ensures Walk(more, g, latest) == Walk(more, end, Walk(log, g, latest).value.1)
    decreases |Remaining(log, g)|
  {
    if HasGroup(log, g) {
      WalkShrinks(log, g);
      var next := CheckGeneration(log, g, latest).value;
      WalkEnds(log, g + 1, next);
      assert Find(more, Slot(g, Prepared)) == Find(log, Slot(g, Prepared));
      assert Find(more, Slot(g, Committed)) == Find(log, Slot(g, Committed));
      assert Find(more, Slot(g, Aborted)) == Find(log, Slot(g, Aborted));
      WalkExtended(log, more, g + 1, next, end);
    }
  }

  lemma {:induction false} WalkEnds(log: Log, g: nat, latest: Event)
    requires Walk(log, g, latest).Some?
    ensures g <= Walk(log, g, latest).value.0
    decreases |Remaining(log, g)|
  {
    if HasGroup(log, g) {
      WalkShrinks(log, g);
      WalkEnds(log, g + 1, CheckGeneration(log, g, latest).value);
    }
  }

  /** `prepared` may be written next to the accepted state `d`. */
  ghost predicate Prepares(d: Disk, prepared: Event) {
    && LoadDisk(d).Some?
    && prepared.phase == Prepared
    && prepared.generation == LoadDisk(d).value.generation + 1
    && prepared.previousHead == LoadDisk(d).value.headDigest
    && SlotOf(prepared) !in d.events
  }

  ghost function WithPrepared(d: Disk, prepared: Event): map<Slot, File> {
    d.events[SlotOf(prepared) := Readable(prepared)]
  }

  ghost function WithCommitted(d: Disk, prepared: Event, f: File): map<Slot, File> {
    WithPrepared(d, prepared)[Slot(prepared.generation, Committed) := f]
  }

  /** Anywhere between the PREPARED write and the pointer replacement, after any number of stopped attempts. */
  ghost predicate InFlight(d: Disk, prepared: Event, x: Disk) {
    && x.pointer == d.pointer
    && (|| x.events == WithPrepared(d, prepared)
        || x.events == WithCommitted(d, prepared, Unreadable)
        || x.events == WithCommitted(d, prepared, Readable(CommittedEvent(prepared))))
  }

  ghost predicate Finished(d: Disk, prepared: Event, x: Disk) {
    && x.events == WithCommitted(d, prepared, Readable(CommittedEvent(prepared)))
    && x.pointer == PointerTo(CommittedEvent(prepared))
  }

  /** An accepted disk ends exactly at the generation about to be prepared. */
  lemma AcceptedShape(d: Disk, prepared: Event)
    requires Prepares(d, prepared)
    ensures var log := Readings(d.events);
            && Bootstrapped(log)
            && Walk(log, 1, log[Slot(0, Committed)]) == Some((prepared.generation, LoadDisk(d).value))
            && d.pointer.generation == prepared.generation - 1 && d.pointer.headDigest == prepared.previousHead
    ensures forall s :: s in d.events ==> s.generation < prepared.generation
  {
    var log := Readings(d.events);
    var g := prepared.generation;
    WalkBounds(log, 1, log[Slot(0, Committed)]);
    var (end, latest) := Walk(log, 1, log[Slot(0, Committed)]).value;
    if end > g {
      WalkPasses(log, 1, log[Slot(0, Committed)], g);
    }
  }

  /** A walk past generation g found it prepared. */
  lemma {:induction false} WalkPasses(log: Log, g: nat, latest: Event, k: nat)
    requires Walk(log, g, latest).Some? && g <= k < Walk(log, g, latest).value.0
    ensures Slot(k, Prepared) in log
    decreases |Remaining(log, g)|
  {
    if HasGroup(log, g) {
      WalkShrinks(log, g);
      if k > g { WalkPasses(log, g + 1, CheckGeneration(log, g, latest).value, k); }
    }
  }

  /** The walk over an accepted disk with more files at the next generation. */
  lemma WalkAtNext(d: Disk, prepared: Event, events: map<Slot, File>)
    requires Prepares(d, prepared) && WellFiled(events)
    requires forall s: Slot :: s.generation < prepared.generation ==>
               (s in events <==> s in d.events) && (s in d.events ==> events[s] == d.events[s])
    ensures Bootstrapped(Readings(events))
    ensures Walk(Readings(events), 1, Readings(events)[Slot(0, Committed)])
         == Walk(Readings(events), prepared.generation, LoadDisk(d).value)
  {
    AcceptedShape(d, prepared);
    var log, more := Readings(d.events), Readings(events);
    WalkExtended(log, more, 1, log[Slot(0, Committed)], prepared.generation);
  }

  lemma CommittedFiled(d: Disk, prepared: Event)
    requires Prepares(d, prepared)
    ensures var events := WithCommitted(d, prepared, Readable(CommittedEvent(prepared)));
            && WellFiled(events)
            && HasGroup(Readings(events), prepared.generation) && !HasGroup(Readings(events), prepared.generation + 1)
            && CheckGeneration(Readings(events), prepared.generation, LoadDisk(d).value)
               == Some(CommittedEvent(prepared))
            && forall s :: s in events ==> s.generation <= prepared.generation
  {
    AcceptedShape(d, prepared);
    var events := WithCommitted(d, prepared, Readable(CommittedEvent(prepared)));
    assert Slot(prepared.generation, Aborted) !in events;
  }

  /** With the COMMITTED event in place the walk takes one more step. */
  lemma WalkAtCommitted(d: Disk, prepared: Event)
    requires Prepares(d, prepared)
    ensures var events := WithCommitted(d, prepared, Readable(CommittedEvent(prepared)));
            && WellFiled(events) && Bootstrapped(Readings(events))
            && Walk(Readings(events), 1, Readings(events)[Slot(0, Committed)])
               == Some((prepared.generation + 1, CommittedEvent(prepared)))
            && forall s :: s in events ==> s.generation <= prepared.generation
  {
    AcceptedShape(d, prepared);
    var g, events := prepared.generation, WithCommitted(d, prepared, Readable(CommittedEvent(prepared)));
    CommittedFiled(d, prepared);
    WalkAtNext(d, prepared, events);
  }

  /** While a transition is in flight every load refuses authority. */
  lemma InFlightRefused(d: Disk, prepared: Event, x: Disk)
    requires Prepares(d, prepared) && InFlight(d, prepared, x)
    ensures LoadDisk(x) == None
  {
    AcceptedShape(d, prepared);
    if x.events == WithPrepared(d, prepared) {
      WalkAtNext(d, prepared, x.events);
      assert HasGroup(Readings(x.events), prepared.generation);
    } else if x.events == WithCommitted(d, prepared, Readable(CommittedEvent(prepared))) {
      WalkAtCommitted(d, prepared);
    } else {
      assert !x.events[Slot(prepared.generation, Committed)].Readable?;
    }
  }

  /** A finished commit is accepted exactly when no pointer temporary of a stopped process is left behind. */
  lemma FinishedAccepted(d: Disk, prepared: Event, x: Disk)
    requires Prepares(d, prepared) && Finished(d, prepared, x)
    ensures LoadDisk(x) == if x.temporaries == 0 then Some(CommittedEvent(prepared)) else None
  {
    WalkAtCommitted(d, prepared);
  }

  /** Committing again from any state in flight, stopping anywhere, stays in flight or finishes.  It is refused exactly
      when an earlier attempt stopped between creating and writing the COMMITTED file, and finishes whenever it is not
      refused and not stopped; finishing always yields the same events and pointer. */
  lemma CommitAgain(d: Disk, prepared: Event, x: Disk, budget: nat)
    requires Prepares(d, prepared) && InFlight(d, prepared, x)
    ensures var (y, r) := Commit(x, prepared, budget);
            && (r.Done? ==> Finished(d, prepared, y) && y.temporaries == x.temporaries)
            && (!r.Done? ==> InFlight(d, prepared, y))
            && (r.Refused? <==> x.events == WithCommitted(d, prepared, Unreadable))
            && (budget >= 4 ==> !r.Crashed?)
  {
    AcceptedShape(d, prepared);
    var slot := Slot(prepared.generation, Committed);
    assert slot !in WithPrepared(d, prepared);
    assert WithCommitted(d, prepared, Unreadable)[slot]
           != WithCommitted(d, prepared, Readable(CommittedEvent(prepared)))[slot];
  }

  /** Once finished, committing the same event again changes nothing and answers the same pointer. */
  lemma CommitIdempotent(d: Disk, prepared: Event, x: Disk, budget: nat)
    requires Prepares(d, prepared) && Finished(d, prepared, x)
    ensures Commit(x, prepared, budget) == (x, Done(PointerTo(CommittedEvent(prepared))))
  {
    assert x.events[Slot(prepared.generation, Committed)] == Readable(CommittedEvent(prepared));
  }

  /** The disk once the PREPARED event is written next to an accepted state. */
  ghost function Begun(d: Disk, prepared: Event): Disk { d.(events := WithPrepared(d, prepared)) }

  /** Both failing cases are reached from any accepted state.  A commit stopped after its first effect leaves a torn
      COMMITTED file: every later commit of the event is refused and every load too, for good. */
  lemma TornForGood(d: Disk, prepared: Event, budget: nat)
    requires Prepares(d, prepared)
    ensures var (torn, r) := Commit(Begun(d, prepared), prepared, 1);
            r.Crashed? && Commit(torn, prepared, budget) == (torn, Refused) && LoadDisk(torn) == None
  {
    AcceptedShape(d, prepared);
    var torn := Commit(Begun(d, prepared), prepared, 1).0;
    assert torn.events == WithCommitted(d, prepared, Unreadable);
    CommitAgain(d, prepared, torn, budget);
    InFlightRefused(d, prepared, torn);
  }

  /** One stopped after writing the pointer's temporary can be finished, and is then not accepted: the temporary
      stays. */
  lemma TemporaryRefused(d: Disk, prepared: Event)
    requires Prepares(d, prepared)
    ensures var (left, r) := Commit(Begun(d, prepared), prepared, 3);
            var (done, again) := Commit(left, prepared, 4);
            r.Crashed? && again.Done? && Finished(d, prepared, done) && done.temporaries == 1 && LoadDisk(done) == None
  {
    AcceptedShape(d, prepared);
    var left := Commit(Begun(d, prepared), prepared, 3).0;
    CommitAgain(d, prepared, Begun(d, prepared), 3);
    CommitAgain(d, prepared, left, 4);
    FinishedAccepted(d, prepared, Commit(left, prepared, 4).0);
  }
}
