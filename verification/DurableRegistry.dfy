/** The durable logical registry: one file replaced whole, one instance that remembers the generation it last wrote. */
module DurableRegistry {
  import opened Wrappers
  import opened LogicalRegistry

  const MAX_SAFE_INTEGER := 9007199254740991

  /** Comparing generation and integrity digest is comparing envelopes.  Generation 0 stands for the missing file. */
  datatype Envelope = Envelope(generation: nat, entries: seq<Entry>)

  const ABSENT := Envelope(0, [])

  predicate ValidRecord(e: Entry) { !e.state.Unlisted? && 1 <= e.sequence <= MAX_SAFE_INTEGER }

  predicate Ordered(a: Entry, b: Entry) {
    a.request.operation < b.request.operation && a.request.key != b.request.key && a.external != b.external
  }

  /** Strictly ascending by operation, no key and no external id twice. */
  predicate ValidEntries(entries: seq<Entry>) {
    && (forall k :: 0 <= k < |entries| ==> ValidRecord(entries[k]))
    && (forall j, k :: 0 <= j < k < |entries| ==> Ordered(entries[j], entries[k]))
  }

  predicate ValidFile(v: Envelope) {
    v == ABSENT || (1 <= v.generation <= MAX_SAFE_INTEGER && ValidEntries(v.entries))
  }

  method ValidateEntries(entries: seq<Entry>) returns (ok: bool)
    ensures ok <==> ValidEntries(entries)
  {
    var keys: set<string> := {};
    var externals: set<string> := {};
    for i := 0 to |entries|
      invariant ValidEntries(entries[..i])
      invariant forall x :: x in keys <==> exists j :: 0 <= j < i && entries[j].request.key == x
      invariant forall x :: x in externals <==> exists j :: 0 <= j < i && entries[j].external == x
    {
      var e := entries[i];
      if !ValidRecord(e) || (i > 0 && entries[i - 1].request.operation >= e.request.operation)
         || e.request.key in keys || e.external in externals {
        if i > 0 { assert Ordered(entries[i - 1], e) ==> entries[i - 1].request.operation < e.request.operation; }
        return false;
      }
      forall j | 0 <= j < i ensures Ordered(entries[j], e) {
        assert j < i - 1 ==> Ordered(entries[..i][j], entries[..i][i - 1]);
      }
      keys, externals := keys + {e.request.key}, externals + {e.external};
    }
    assert entries[..|entries|] == entries;
    ok := true;
  }

  ghost function TableOf(entries: seq<Entry>): Table {
    if entries == [] then map[]
    else TableOf(entries[..|entries| - 1])[entries[|entries| - 1].request.operation := entries[|entries| - 1]]
  }

  ghost predicate Contains(t: Table, e: Entry) { e.request.operation in t && t[e.request.operation] == e }

  lemma {:induction false} TableLists(entries: seq<Entry>)
    requires ValidEntries(entries)
    ensures forall k :: 0 <= k < |entries| ==> Contains(TableOf(entries), entries[k])
    ensures forall op :: op in TableOf(entries) ==>
              TableOf(entries)[op] in entries && TableOf(entries)[op].request.operation == op
  {
    if entries != [] {
      var n := |entries| - 1;
      var front, last := entries[..n], entries[n];
      TableLists(front);
      assert TableOf(entries) == TableOf(front)[last.request.operation := last];
      forall k | 0 <= k < |entries| ensures Contains(TableOf(entries), entries[k]) {
        if k < n { assert Contains(TableOf(front), front[k]) && Ordered(entries[k], last); }
      }
      forall op | op in TableOf(entries)
        ensures TableOf(entries)[op] in entries && TableOf(entries)[op].request.operation == op
      {
        if op != last.request.operation { assert TableOf(front)[op] in front && entries == front + [last]; }
      }
    }
  }

  lemma DifferentEntries(entries: seq<Entry>, j: nat, k: nat)
    requires ValidEntries(entries) && j < |entries| && k < |entries| && j != k
    ensures entries[j].request.key != entries[k].request.key && entries[j].external != entries[k].external
  {
    if j < k { assert Ordered(entries[j], entries[k]); } else { assert Ordered(entries[k], entries[j]); }
  }

  lemma TableIndexed(entries: seq<Entry>)
    requires ValidEntries(entries)
    ensures Indexed(TableOf(entries))
  {
    TableLists(entries);
    var t := TableOf(entries);
    forall a, b | a in t && b in t && a != b
      ensures t[a].request.key != t[b].request.key && t[a].external != t[b].external
    {
      var j :| 0 <= j < |entries| && entries[j] == t[a];
      var k :| 0 <= k < |entries| && entries[k] == t[b];
      DifferentEntries(entries, j, k);
    }
  }

  lemma NextInTable(entries: seq<Entry>, i: nat)
    requires ValidEntries(entries) && i < |entries|
    ensures entries[i].request.operation !in TableOf(entries[..i])
    ensures TableOf(entries[..i + 1]) == TableOf(entries[..i])[entries[i].request.operation := entries[i]]
  {
    assert entries[..i + 1][..i] == entries[..i];
    TableLists(entries[..i]);
    assert forall j :: 0 <= j < i ==> Ordered(entries[j], entries[i]);
  }

  /** The maps a call rebuilds from the committed entries. */
  method MapsOf(entries: seq<Entry>) returns (m: Maps)
    requires ValidEntries(entries)
    ensures Indexes(m, TableOf(entries))
  {
    m := Maps(map[], map[], map[]);
    for i := 0 to |entries|
      invariant Indexes(m, TableOf(entries[..i]))
    {
      NextInTable(entries, i);
      TableIndexed(entries[..i + 1]);
      FiledIndexes(m, TableOf(entries[..i]), entries[i]);
      m := Filed(m, entries[i]);
    }
    assert entries[..|entries|] == entries;
  }

  // ---------------------------------------------------------------- the next envelope

  /** The entries with one more, in order. */
  function Inserted(entries: seq<Entry>, e: Entry): seq<Entry> {
    if entries == [] || entries[|entries| - 1].request.operation < e.request.operation then entries + [e]
    else Inserted(entries[..|entries| - 1], e) + [entries[|entries| - 1]]
  }

  function Replaced(entries: seq<Entry>, e: Entry): seq<Entry> {
    seq(|entries|, k requires 0 <= k < |entries| =>
      if entries[k].request.operation == e.request.operation then e else entries[k])
  }

  lemma {:induction false} InsertedContents(entries: seq<Entry>, e: Entry)
    ensures |Inserted(entries, e)| == |entries| + 1
    ensures forall x :: x in Inserted(entries, e) <==> x == e || x in entries
  {
    if entries != [] && entries[|entries| - 1].request.operation >= e.request.operation {
      var n := |entries| - 1;
      InsertedContents(entries[..n], e);
      assert entries == entries[..n] + [entries[n]];
    }
  }

  lemma OrderedAppend(entries: seq<Entry>, e: Entry)
    requires ValidEntries(entries) && ValidRecord(e) && forall x :: x in entries ==> Ordered(x, e)
    ensures ValidEntries(entries + [e])
  {
  }

  predicate Distinct(a: Entry, b: Entry) {
    a.request.operation != b.request.operation && a.request.key != b.request.key && a.external != b.external
  }

  lemma Snoc(front: seq<Entry>, e: Entry)
    ensures TableOf(front + [e]) == TableOf(front)[e.request.operation := e]
  {
    assert (front + [e])[..|front|] == front;
  }

  lemma BelowLast(entries: seq<Entry>, x: Entry)
    requires ValidEntries(entries) && entries != [] && x in entries[..|entries| - 1]
    ensures Ordered(x, entries[|entries| - 1])
  {
    var k :| 0 <= k < |entries| - 1 && entries[k] == x;
  }

  lemma AppendsInOrder(entries: seq<Entry>, e: Entry)
    requires ValidEntries(entries) && ValidRecord(e) && forall x :: x in entries ==> Distinct(x, e)
    requires entries == [] || entries[|entries| - 1].request.operation < e.request.operation
    ensures ValidEntries(entries + [e])
  {
    forall x | x in entries ensures Ordered(x, e) {
      var k :| 0 <= k < |entries| && entries[k] == x;
      if k < |entries| - 1 { BelowLast(entries, x); }
    }
    OrderedAppend(entries, e);
  }

  lemma {:induction false} InsertedValid(entries: seq<Entry>, e: Entry)
    requires ValidEntries(entries) && ValidRecord(e) && forall x :: x in entries ==> Distinct(x, e)
    ensures ValidEntries(Inserted(entries, e))
  {
    var n := |entries| - 1;
    if entries == [] || entries[n].request.operation < e.request.operation {
      AppendsInOrder(entries, e);
    } else {
      var front, last := entries[..n], entries[n];
      assert Distinct(last, e) && forall x :: x in front ==> x in entries;
      InsertedValid(front, e);
      InsertedContents(front, e);
      forall x | x in Inserted(front, e) ensures Ordered(x, last) {
        if x in front { BelowLast(entries, x); }
      }
      OrderedAppend(Inserted(front, e), last);
    }
  }

  lemma FiledInEitherOrder(t: Table, a: Entry, b: Entry)
    requires a.request.operation != b.request.operation
    ensures t[a.request.operation := a][b.request.operation := b]
            == t[b.request.operation := b][a.request.operation := a]
  {
  }

  lemma {:induction false} InsertedTable(entries: seq<Entry>, e: Entry)
    requires forall x :: x in entries ==> Distinct(x, e)
    ensures TableOf(Inserted(entries, e)) == TableOf(entries)[e.request.operation := e]
  {
    var n := |entries| - 1;
    if entries == [] || entries[n].request.operation < e.request.operation {
      Snoc(entries, e);
    } else {
      var front, last := entries[..n], entries[n];
      assert Distinct(last, e) && forall x :: x in front ==> x in entries;
      InsertedTable(front, e);
      Snoc(Inserted(front, e), last);
      FiledInEitherOrder(TableOf(front), e, last);
    }
  }

  lemma ReplacedValid(entries: seq<Entry>, e: Entry)
    requires ValidEntries(entries) && ValidRecord(e)
    requires forall k :: 0 <= k < |entries| && entries[k].request.operation == e.request.operation ==>
               entries[k].request == e.request && entries[k].external == e.external
    ensures ValidEntries(Replaced(entries, e))
  {
    forall j, k | 0 <= j < k < |entries| ensures Ordered(Replaced(entries, e)[j], Replaced(entries, e)[k]) {
      assert Ordered(entries[j], entries[k]);
    }
  }

  lemma LastIsNew(entries: seq<Entry>)
    requires ValidEntries(entries) && entries != []
    ensures ValidEntries(entries[..|entries| - 1])
    ensures entries[|entries| - 1].request.operation !in TableOf(entries[..|entries| - 1])
  {
    var front := entries[..|entries| - 1];
    TableLists(front);
    forall x | x in front ensures Ordered(x, entries[|entries| - 1]) { BelowLast(entries, x); }
  }

  lemma {:induction false} ReplacedTable(entries: seq<Entry>, e: Entry)
    requires ValidEntries(entries)
    ensures TableOf(Replaced(entries, e)) ==
            if e.request.operation in TableOf(entries) then TableOf(entries)[e.request.operation := e]
            else TableOf(entries)
  {
    if entries == [] {
      assert Replaced(entries, e) == [];
    } else {
      var n := |entries| - 1;
      var front, last := entries[..n], entries[n];
      LastIsNew(entries);
      ReplacedTable(front, e);
      var x := if last.request.operation == e.request.operation then e else last;
      assert Replaced(entries, e) == Replaced(front, e) + [x];
      Snoc(Replaced(front, e), x);
      if last.request.operation != e.request.operation && e.request.operation in TableOf(front) {
        assert TableOf(front)[e.request.operation := e][last.request.operation := last]
            == TableOf(front)[last.request.operation := last][e.request.operation := e];
      }
    }
  }

  // ---------------------------------------------------------------- the durable instance

  datatype Fault = Clean | Unreadable | NoRoom | LostBeforeRename | LostAfterRename

  datatype Outcome = Answered(answer: Answer) | Thrown(error: Error)

  /** What an observer needs of an instance and its file: whether the instance is behind the file, and the file. */
  datatype World = World(stale: bool, generation: nat, table: Table)

  ghost predicate Recordable(t: Table) { forall op :: op in t ==> t[op].sequence <= MAX_SAFE_INTEGER }

  /** Serving a call whose step would leave `t` and answer `answer`. */
  ghost function Serving(w: World, t: Table, answer: Answer, fault: Fault): (World, Outcome) {
    if fault.Unreadable? then (w, Thrown(RegistryStorageFailure))
    else if w.stale then (w, Thrown(StaleRegistryGeneration))
    else if t == w.table then (w, Answered(answer))
    else if !Recordable(t) || w.generation >= MAX_SAFE_INTEGER then (w, Thrown(MalformedPersistentState))
    else if fault.NoRoom? || fault.LostBeforeRename? then (w, Thrown(RegistryStorageFailure))
    else if fault.LostAfterRename? then (World(true, w.generation + 1, t), Thrown(RegistryStorageFailure))
    else (World(false, w.generation + 1, t), Answered(answer))
  }

  /** How the durable registry serves one call, in terms of what the in-memory one would do. */
  ghost function Served(w: World, c: Call, fault: Fault): (World, Outcome) {
    Serving(w, Step(w.table, c).0, Step(w.table, c).1, fault)
  }

  class Storage {
    var file: Envelope

    constructor ()
      ensures file == ABSENT
    {
      file := ABSENT;
    }
  }

  class Durable {
    const storage: Storage
    var committed: Envelope

    ghost predicate Valid()
      reads this, storage
    {
      && ValidFile(committed) && ValidFile(storage.file)
      && (committed != storage.file ==> committed.generation < storage.file.generation)
    }

    ghost function View(): World
      reads this, storage
    {
      World(committed != storage.file, storage.file.generation, TableOf(storage.file.entries))
    }

    /** Opening, or opening again, reads the file. */
    constructor (storage: Storage)
      requires ValidFile(storage.file)
      ensures Valid() && this.storage == storage
              && View() == World(false, storage.file.generation, TableOf(storage.file.entries))
    {
      this.storage := storage;
      committed := storage.file;
    }

    method Persist(entries: seq<Entry>, fault: Fault) returns (error: Option<Error>)
      requires Valid() && committed == storage.file && !fault.Unreadable?
      modifies this`committed, storage
      ensures Valid()
      ensures !ValidEntries(entries) || old(committed.generation) >= MAX_SAFE_INTEGER ==>
                error == Some(MalformedPersistentState)
      ensures ValidEntries(entries) && old(committed.generation) < MAX_SAFE_INTEGER ==>
                error == if fault.Clean? then None else Some(RegistryStorageFailure)
      ensures var next := Envelope(old(committed.generation) + 1, entries);
              if error.None? then committed == storage.file == next
              else
                && committed == old(committed)
                && storage.file == if error == Some(RegistryStorageFailure) && fault.LostAfterRename? then next
                                   else old(storage.file)
    {
      var next := Envelope(committed.generation + 1, entries);
      var valid := ValidateEntries(entries);
      if !valid || next.generation > MAX_SAFE_INTEGER { return Some(MalformedPersistentState); }
      if fault.NoRoom? || fault.LostBeforeRename? { return Some(RegistryStorageFailure); }
      storage.file := next;
      if fault.LostAfterRename? { return Some(RegistryStorageFailure); }
      committed := next;
      error := None;
    }

    method Store(next: seq<Entry>, answer: Answer, fault: Fault) returns (o: Outcome)
      requires Valid() && committed == storage.file && !fault.Unreadable?
      requires ValidEntries(next) && Recordable(TableOf(next)) && TableOf(next) != TableOf(committed.entries)
      modifies this`committed, storage
      ensures Valid() && (View(), o) == Serving(old(View()), TableOf(next), answer, fault)
    {
      var failed := Persist(next, fault);
      o := if failed.Some? then Thrown(failed.value) else Answered(answer);
    }

    method Do(c: Call, fault: Fault) returns (o: Outcome)
      requires Valid()
      modifies this`committed, storage
      ensures Valid() && (View(), o) == Served(old(View()), c, fault)
    {
      if fault.Unreadable? { return Thrown(RegistryStorageFailure); }
      if storage.file != committed { return Thrown(StaleRegistryGeneration); }
      var maps := MapsOf(committed.entries);
      TableIndexed(committed.entries);
      DecidedSteps(maps, TableOf(committed.entries), c);
      var (filed, answer) := Decided(maps, c);
      if filed.None? { return Answered(answer); }
      NextEntries(committed.entries, maps, c, filed.value);
      if !ValidRecord(filed.value) { return Thrown(MalformedPersistentState); }
      o := Store(if c.Claim? then Inserted(committed.entries, filed.value)
                 else Replaced(committed.entries, filed.value), answer, fault);
    }
  }

  lemma ClaimDecided(maps: Maps, c: Call)
    requires c.Claim? && Decided(maps, c).0.Some?
    ensures Decided(maps, c).0 == Some(Fresh(c))
    ensures c.request.key !in maps.keys && c.request.operation !in maps.operations && c.external !in maps.externals
  {
  }

  lemma NewIsDistinct(t: Table, maps: Maps, e: Entry, x: Entry)
    requires Indexes(maps, t) && Contains(t, x)
    requires e.request.key !in maps.keys && e.request.operation !in maps.operations && e.external !in maps.externals
    ensures Distinct(x, e)
  {
  }

  lemma InTable(entries: seq<Entry>, x: Entry)
    requires ValidEntries(entries) && x in entries
    ensures Contains(TableOf(entries), x)
  {
    TableLists(entries);
    var k :| 0 <= k < |entries| && entries[k] == x;
  }

  lemma ClaimedEntries(entries: seq<Entry>, e: Entry)
    requires ValidEntries(entries) && ValidRecord(e) && forall x :: x in entries ==> Distinct(x, e)
    ensures ValidEntries(Inserted(entries, e)) && e.request.operation !in TableOf(entries)
    ensures TableOf(Inserted(entries, e)) == TableOf(entries)[e.request.operation := e]
  {
    InsertedValid(entries, e);
    InsertedTable(entries, e);
    TableLists(entries);
  }

  lemma ObserveDecided(entries: seq<Entry>, maps: Maps, c: Call, e: Entry)
    requires ValidEntries(entries) && Indexes(maps, TableOf(entries)) && !c.Claim? && Decided(maps, c).0 == Some(e)
    ensures var t, op := TableOf(entries), e.request.operation;
            op in t && e.sequence == t[op].sequence + 1 && e.request == t[op].request && e.external == t[op].external
    ensures !e.state.Unlisted?
  {
    TableIndexed(entries);
    DecidedSteps(maps, TableOf(entries), c);
  }

  lemma ObservedEntries(entries: seq<Entry>, e: Entry)
    requires ValidEntries(entries) && ValidRecord(e) && e.request.operation in TableOf(entries)
    requires var held := TableOf(entries)[e.request.operation]; e.request == held.request && e.external == held.external
    ensures ValidEntries(Replaced(entries, e))
            && TableOf(Replaced(entries, e)) == TableOf(entries)[e.request.operation := e]
  {
    TableLists(entries);
    ReplacedTable(entries, e);
    forall k | 0 <= k < |entries| && entries[k].request.operation == e.request.operation
      ensures entries[k].request == e.request && entries[k].external == e.external
    {
      assert Contains(TableOf(entries), entries[k]);
    }
    ReplacedValid(entries, e);
  }

  lemma RecordableOne(entries: seq<Entry>, e: Entry)
    requires ValidEntries(entries) && !e.state.Unlisted? && e.sequence >= 1
    ensures Recordable(TableOf(entries)[e.request.operation := e]) <==> ValidRecord(e)
  {
    TableLists(entries);
    var t := TableOf(entries);
    forall op | op in t ensures ValidRecord(t[op]) {
      var k :| 0 <= k < |entries| && entries[k] == t[op];
    }
    var t' := t[e.request.operation := e];
    assert e.request.operation in t' && t'[e.request.operation] == e;
  }

  /** `next` lists the table with `e` filed, which is another table; both are recordable exactly when `e` is. */
  ghost predicate Files(t: Table, next: seq<Entry>, e: Entry) {
    && t[e.request.operation := e] != t
    && (Recordable(t[e.request.operation := e]) <==> ValidRecord(e))
    && (ValidRecord(e) ==> ValidEntries(next) && TableOf(next) == t[e.request.operation := e])
  }

  lemma NextClaimed(entries: seq<Entry>, maps: Maps, c: Call, e: Entry)
    requires ValidEntries(entries) && Indexes(maps, TableOf(entries)) && Decided(maps, c).0 == Some(e) && c.Claim?
    ensures Files(TableOf(entries), Inserted(entries, e), e)
  {
    ClaimDecided(maps, c);
    NewFiles(entries, maps, e);
  }

  lemma NewFiles(entries: seq<Entry>, maps: Maps, e: Entry)
    requires ValidEntries(entries) && Indexes(maps, TableOf(entries)) && ValidRecord(e)
    requires e.request.key !in maps.keys && e.request.operation !in maps.operations && e.external !in maps.externals
    ensures Files(TableOf(entries), Inserted(entries, e), e)
  {
    forall x | x in entries ensures Distinct(x, e) {
      InTable(entries, x);
      NewIsDistinct(TableOf(entries), maps, e, x);
    }
    ClaimedEntries(entries, e);
    Changes(TableOf(entries), e);
    RecordableOne(entries, e);
  }

  lemma NextObserved(entries: seq<Entry>, maps: Maps, c: Call, e: Entry)
    requires ValidEntries(entries) && Indexes(maps, TableOf(entries)) && Decided(maps, c).0 == Some(e) && !c.Claim?
    ensures Files(TableOf(entries), Replaced(entries, e), e)
  {
    ObserveDecided(entries, maps, c, e);
    if ValidRecord(e) { ObservedEntries(entries, e); }
    Changes(TableOf(entries), e);
    RecordableOne(entries, e);
  }

  /** The entries a mutating call goes on to persist list the table the step leaves. */
  lemma NextEntries(entries: seq<Entry>, maps: Maps, c: Call, e: Entry)
    requires ValidEntries(entries) && Indexes(maps, TableOf(entries)) && Decided(maps, c).0 == Some(e)
    ensures Files(TableOf(entries), if c.Claim? then Inserted(entries, e) else Replaced(entries, e), e)
  {
    if c.Claim? { NextClaimed(entries, maps, c, e); } else { NextObserved(entries, maps, c, e); }
  }

  lemma Changes(t: Table, e: Entry)
    requires e.request.operation in t ==> t[e.request.operation].sequence != e.sequence
    ensures t[e.request.operation := e] != t
  {
    assert t[e.request.operation := e][e.request.operation] == e;
  }

  // ---------------------------------------------------------------- sequences of calls

  datatype Event = Serve(call: Call, fault: Fault) | Reopen

  ghost function Next(w: World, e: Event): World {
    match e case Serve(c, fault) => Served(w, c, fault).0 case Reopen => w.(stale := false)
  }

  /** The world after a sequence of calls, faults and reopenings. */
  ghost function Played(w: World, events: seq<Event>): World {
    if events == [] then w else Next(Played(w, events[..|events| - 1]), events[|events| - 1])
  }

  /** Whether the in-memory registry has to be given the call too: it was answered, or it failed after the rename. */
  ghost predicate Counts(w: World, e: Event) {
    e.Serve? && (Served(w, e.call, e.fault).1.Answered? || Served(w, e.call, e.fault).0 != w)
  }

  ghost function Counted(w: World, events: seq<Event>): seq<Call> {
    if events == [] then []
    else
      var front, last := events[..|events| - 1], events[|events| - 1];
      Counted(w, front) + (if Counts(Played(w, front), last) then [last.call] else [])
  }

  /** The plain in-memory registry given a sequence of calls. */
  ghost function Reference(t: Table, calls: seq<Call>): Table {
    if calls == [] then t else Step(Reference(t, calls[..|calls| - 1]), calls[|calls| - 1]).0
  }

  lemma NextCounts(w: World, e: Event)
    ensures Next(w, e).table == if Counts(w, e) then Step(w.table, e.call).0 else w.table
  {
  }

  lemma AnswersStep(w: World, c: Call, fault: Fault)
    ensures Served(w, c, fault).1.Answered? ==> Served(w, c, fault).1.answer == Step(w.table, c).1
  {
  }

  lemma ReferenceNext(t: Table, calls: seq<Call>, c: Call)
    ensures Reference(t, calls + [c]) == Step(Reference(t, calls), c).0
  {
    assert (calls + [c])[..|calls|] == calls;
  }

  lemma {:induction false} CountedLeads(w: World, events: seq<Event>)
    ensures Played(w, events).table == Reference(w.table, Counted(w, events))
  {
    if events != [] {
      var front, last := events[..|events| - 1], events[|events| - 1];
      CountedLeads(w, front);
      NextCounts(Played(w, front), last);
      if Counts(Played(w, front), last) { ReferenceNext(w.table, Counted(w, front), last.call); }
      else { assert Counted(w, front) + [] == Counted(w, front); }
    }
  }

  /** Refinement: after any sequence of calls, faults and reopenings the file holds what the in-memory registry holds
      after exactly the calls that counted, and any answer to a further call is the answer it would give. */
  lemma Refines(w: World, events: seq<Event>, c: Call, fault: Fault)
    ensures Played(w, events).table == Reference(w.table, Counted(w, events))
    ensures Served(Played(w, events), c, fault).1.Answered? ==>
              Served(Played(w, events), c, fault).1.answer == Step(Reference(w.table, Counted(w, events)), c).1
  {
    CountedLeads(w, events);
    AnswersStep(Played(w, events), c, fault);
  }

  /** With no fault, any call is answered as by the in-memory registry exactly when the instance is not stale and the
      call leaves the table as it is, or leaves one within the limits a generation and a sequence have. */
  lemma AnswersAsReference(w: World, events: seq<Event>, c: Call)
    ensures var now, next := Played(w, events), Step(Reference(w.table, Counted(w, events)), c);
            Served(now, c, Clean).1 == Answered(next.1) <==>
              !now.stale && (next.0 == now.table || (now.generation < MAX_SAFE_INTEGER && Recordable(next.0)))
  {
    Refines(w, events, c, Clean);
  }

  /** A persist that failed before its rename leaves no trace: whatever follows goes as if it had not been made. */
  lemma {:induction false} LostBeforeLeavesNoTrace(w: World, c: Call, events: seq<Event>)
    ensures Played(w, [Serve(c, LostBeforeRename)] + events) == Played(w, events)
    ensures Counted(w, [Serve(c, LostBeforeRename)] + events)
         == (if Served(w, c, LostBeforeRename).1.Answered? then [c] else []) + Counted(w, events)
  {
    var all := [Serve(c, LostBeforeRename)] + events;
    if events == [] {
      assert all[..0] == [];
      assert Played(w, all[..0]) == w;
    } else {
      var n := |events| - 1;
      LostBeforeLeavesNoTrace(w, c, events[..n]);
      assert all[..|all| - 1] == [Serve(c, LostBeforeRename)] + events[..n];
    }
  }

  /** After a persist that failed past its rename every call is refused as stale, until the registry is opened again. */
  lemma {:induction false} StaleUntilReopened(w: World, events: seq<Event>, c: Call, fault: Fault)
    requires w.stale && forall k :: 0 <= k < |events| ==> events[k].Serve?
    ensures Played(w, events) == w
    ensures Served(Played(w, events), c, fault).1
            == Thrown(if fault.Unreadable? then RegistryStorageFailure else StaleRegistryGeneration)
    ensures var reopened := Next(Played(w, events), Reopen); !reopened.stale && reopened.table == w.table
  {
    if events != [] { StaleUntilReopened(w, events[..|events| - 1], c, fault); }
  }
}
