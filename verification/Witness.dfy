/** The monotonic witness: a log of PREPARED and COMMITTED events, one file each, and a pointer to the last commit. */
module Witness {
  import opened Wrappers
  import opened StoreTransition

  datatype Slot = Slot(generation: nat, phase: Phase)

  /** An event file.  Unreadable covers a file created but not yet written, and content that fails to parse or
      validate. */
  datatype File = Unreadable | Readable(event: Event)

  datatype Name = EventName(slot: Slot) | OtherName(text: string)

  datatype Entry = Entry(name: Name, content: File)

  datatype Pointer = Pointer(generation: nat, headDigest: Digest, storeRoot: Digest, eventDigest: Digest)

  type Log = map<Slot, Event>

  function SlotOf(e: Event): Slot { Slot(e.generation, e.phase) }

  /** The fields a terminal event must share with its prepare. */
  predicate SameTransition(a: Event, b: Event) {
    && a.kind == b.kind && a.generation == b.generation && a.previousHead == b.previousHead
    && a.headDigest == b.headDigest && a.storeRoot == b.storeRoot && a.transitionDigest == b.transitionDigest
    && a.authorization == b.authorization && a.workspace == b.workspace
  }

  predicate PointsTo(p: Pointer, e: Event) {
    p.generation == e.generation && p.headDigest == e.headDigest && p.storeRoot == e.storeRoot
      && p.eventDigest == OfEvent(e)
  }

  function PointerTo(e: Event): Pointer { Pointer(e.generation, e.headDigest, e.storeRoot, OfEvent(e)) }

  // ---------------------------------------------------------------- what a load accepts

  predicate HasGroup(log: Log, g: nat) {
    Slot(g, Prepared) in log || Slot(g, Committed) in log || Slot(g, Aborted) in log
  }

  function Remaining(log: Log, g: nat): set<Slot> { set s | s in log && s.generation >= g }

  /** One generation checked against the last committed event; its own commit, or the unchanged last one if aborted. */
  function CheckGeneration(log: Log, g: nat, latest: Event): Option<Event> {
    var prepared, committed, aborted := Slot(g, Prepared), Slot(g, Committed), Slot(g, Aborted);
    if prepared !in log then None
    else if committed in log && aborted in log then None
    else if committed !in log && aborted !in log then None
    else if log[prepared].previousHead != latest.headDigest then None
    else
      var terminal := if committed in log then log[committed] else log[aborted];
      if !SameTransition(terminal, log[prepared]) then None
      else Some(if committed in log then log[committed] else latest)
  }

  /** The first missing generation from `g` on and the last committed event before it. */
  function Walk(log: Log, g: nat, latest: Event): Option<(nat, Event)>
    decreases |Remaining(log, g)|
  {
    if !HasGroup(log, g) then Some((g, latest))
    else
      var next := CheckGeneration(log, g, latest);
      if next.None? then None
      else
        WalkShrinks(log, g);
        Walk(log, g + 1, next.value)
  }

  lemma WalkShrinks(log: Log, g: nat)
    requires HasGroup(log, g)
    ensures |Remaining(log, g + 1)| < |Remaining(log, g)|
  {
    var s := if Slot(g, Prepared) in log then Slot(g, Prepared)
             else if Slot(g, Committed) in log then Slot(g, Committed) else Slot(g, Aborted);
    assert Remaining(log, g + 1) <= Remaining(log, g) - {s};
    Smaller(Remaining(log, g + 1), Remaining(log, g) - {s});
  }

  predicate Bootstrapped(log: Log) {
    && Slot(0, Committed) in log && Slot(0, Prepared) !in log && Slot(0, Aborted) !in log
    && log[Slot(0, Committed)].kind == BootstrapKind
  }

  function LoadLog(pointer: Pointer, log: Log): Option<Event> {
    if !Bootstrapped(log) then None
    else
      var walked := Walk(log, 1, log[Slot(0, Committed)]);
      if walked.None? then None
      else
        var (end, latest) := walked.value;
        if (exists s :: s in log && s.generation >= end) || !PointsTo(pointer, latest) then None else Some(latest)
  }

  // ---------------------------------------------------------------- the chain a load accepts

  /** The last generation before `g` that was committed. */
  ghost predicate CommittedBefore(log: Log, g: nat, h: nat) {
    h < g && Slot(h, Committed) in log && forall k :: h < k < g ==> Slot(k, Committed) !in log
  }

  /** A generation that was prepared on the head of the last commit before it and ended once, as it was prepared. */
  ghost predicate Settled(log: Log, g: nat) {
    && Slot(g, Prepared) in log && (Slot(g, Committed) in log <==> Slot(g, Aborted) !in log)
    && (Slot(g, Committed) in log ==> SameTransition(log[Slot(g, Committed)], log[Slot(g, Prepared)]))
    && (Slot(g, Aborted) in log ==> SameTransition(log[Slot(g, Aborted)], log[Slot(g, Prepared)]))
    && (forall h :: CommittedBefore(log, g, h) ==>
          log[Slot(g, Prepared)].previousHead == log[Slot(h, Committed)].headDigest)
  }

  ghost predicate AllSettled(log: Log, from: nat, end: nat) { forall g :: from <= g < end ==> Settled(log, g) }

  lemma OneBefore(log: Log, g: nat, h: nat, k: nat)
    requires CommittedBefore(log, g, h) && CommittedBefore(log, g, k)
    ensures h == k
  {
  }

  /** Checking one generation is asking whether it is settled. */
  lemma CheckMeans(log: Log, g: nat, h: nat) returns (next: nat)
    requires CommittedBefore(log, g, h)
    ensures CheckGeneration(log, g, log[Slot(h, Committed)]).Some? <==> Settled(log, g)
    ensures CommittedBefore(log, g + 1, next)
    ensures Settled(log, g) ==>
              CheckGeneration(log, g, log[Slot(h, Committed)]) == Some(log[Slot(next, Committed)])
  {
    next := if Slot(g, Committed) in log then g else h;
    forall k | CommittedBefore(log, g, k) ensures k == h { OneBefore(log, g, h, k); }
  }

  lemma {:induction false} WalkSettles(log: Log, g: nat, h: nat) returns (last: nat)
    requires CommittedBefore(log, g, h) && Walk(log, g, log[Slot(h, Committed)]).Some?
    ensures var (end, latest) := Walk(log, g, log[Slot(h, Committed)]).value;
            && g <= end && AllSettled(log, g, end) && !HasGroup(log, end)
            && CommittedBefore(log, end, last) && latest == log[Slot(last, Committed)]
    decreases |Remaining(log, g)|
  {
    if HasGroup(log, g) {
      WalkShrinks(log, g);
      var next := CheckMeans(log, g, h);
      last := WalkSettles(log, g + 1, next);
    } else {
      last := h;
    }
  }

  lemma {:induction false} SettledWalks(log: Log, g: nat, h: nat, end: nat)
    requires CommittedBefore(log, g, h) && g <= end && AllSettled(log, g, end) && !HasGroup(log, end)
    ensures Walk(log, g, log[Slot(h, Committed)]).Some? && Walk(log, g, log[Slot(h, Committed)]).value.0 == end
    decreases end - g
  {
    if g < end {
      assert Settled(log, g) && HasGroup(log, g);
      WalkShrinks(log, g);
      var next := CheckMeans(log, g, h);
      SettledWalks(log, g + 1, next, end);
    }
  }

  /** The whole log is one gap-free chain of `end` generations from the bootstrap on. */
  ghost predicate Chained(log: Log, end: nat) {
    end >= 1 && Bootstrapped(log) && AllSettled(log, 1, end) && forall s :: s in log ==> s.generation < end
  }

  /** A load is granted exactly when the log is such a chain and its last committed event is the one pointed to, which
      it answers. */
  lemma LoadMeans(pointer: Pointer, log: Log, e: Event)
    ensures LoadLog(pointer, log) == Some(e) <==>
              exists end, last :: Chained(log, end) && CommittedBefore(log, end, last)
                                  && e == log[Slot(last, Committed)] && PointsTo(pointer, e)
  {
    if Bootstrapped(log) {
      assert CommittedBefore(log, 1, 0);
      if LoadLog(pointer, log) == Some(e) {
        var last := WalkSettles(log, 1, 0);
        var end := Walk(log, 1, log[Slot(0, Committed)]).value.0;
        assert Chained(log, end) && CommittedBefore(log, end, last);
      }
      if end, last :| Chained(log, end) && CommittedBefore(log, end, last)
                      && e == log[Slot(last, Committed)] && PointsTo(pointer, e) {
        SettledWalks(log, 1, 0, end);
        var found := WalkSettles(log, 1, 0);
        OneBefore(log, end, last, found);
      }
    }
  }

  predicate Proper(e: Entry) {
    e.name.EventName? && e.content.Readable? && SlotOf(e.content.event) == e.name.slot
  }

  predicate Unambiguous(files: seq<Entry>) {
    && (forall k :: 0 <= k < |files| ==> Proper(files[k]))
    && (forall j, k :: 0 <= j < k < |files| ==> files[j].name != files[k].name)
  }

  ghost function LogOf(files: seq<Entry>): (log: Log)
    requires Unambiguous(files)
    ensures forall k :: 0 <= k < |files| ==>
              files[k].name.slot in log && log[files[k].name.slot] == files[k].content.event
    ensures forall s :: s in log ==> exists k :: 0 <= k < |files| && files[k].name.slot == s
  {
    if files == [] then map[]
    else
      var n := |files| - 1;
      LogOf(files[..n])[files[n].name.slot := files[n].content.event]
  }

  /** `temporaries` counts the other artifacts in the witness root, such as pointer temporaries of crashed processes. */
  ghost function Load(pointer: Pointer, temporaries: nat, files: seq<Entry>): Option<Event> {
    if temporaries != 0 || files == [] || !Unambiguous(files) then None else LoadLog(pointer, LogOf(files))
  }

  // ---------------------------------------------------------------- the load itself

  datatype Group = Group(prepared: Option<Event>, committed: Option<Event>, aborted: Option<Event>)

  const NO_EVENTS := Group(None, None, None)

  function GroupAt(groups: map<nat, Group>, g: nat): Group {
    if g in groups then groups[g] else NO_EVENTS
  }

  function At(g: Group, phase: Phase): Option<Event> {
    match phase case Prepared => g.prepared case Committed => g.committed case Aborted => g.aborted
  }

  function Put(g: Group, e: Event): Group {
    match e.phase
    case Prepared => g.(prepared := Some(e))
    case Committed => g.(committed := Some(e))
    case Aborted => g.(aborted := Some(e))
  }

  function Find(log: Log, s: Slot): Option<Event> { if s in log then Some(log[s]) else None }

  function AtSlot(groups: map<nat, Group>, s: Slot): Option<Event> { At(GroupAt(groups, s.generation), s.phase) }

  ghost predicate Groups(groups: map<nat, Group>, log: Log) {
    && (forall s: Slot :: AtSlot(groups, s) == Find(log, s))
    && (forall g :: g in groups <==> HasGroup(log, g))
  }

  lemma PutGroups(groups: map<nat, Group>, log: Log, e: Event)
    requires Groups(groups, log)
    ensures Groups(groups[e.generation := Put(GroupAt(groups, e.generation), e)], log[SlotOf(e) := e])
  {
    var groups', log' := groups[e.generation := Put(GroupAt(groups, e.generation), e)], log[SlotOf(e) := e];
    forall s: Slot ensures AtSlot(groups', s) == Find(log', s) {
      assert AtSlot(groups, s) == Find(log, s);
    }
  }

  lemma LogSnoc(files: seq<Entry>, i: nat)
    requires i < |files| && Unambiguous(files[..i]) && Proper(files[i])
    ensures Unambiguous(files[..i + 1]) <==> files[i].name.slot !in LogOf(files[..i])
    ensures Unambiguous(files[..i + 1]) ==>
              LogOf(files[..i + 1]) == LogOf(files[..i])[files[i].name.slot := files[i].content.event]
  {
    var front, all := files[..i], files[..i + 1];
    assert all == front + [files[i]];
    assert all[..i] == front;
    if files[i].name.slot in LogOf(front) {
      var k :| 0 <= k < |front| && front[k].name.slot == files[i].name.slot;
      assert all[k].name == all[i].name;
    }
  }

  lemma AmbiguousStays(files: seq<Entry>, i: nat)
    requires i <= |files| && !Unambiguous(files[..i])
    ensures !Unambiguous(files)
  {
    assert forall k :: 0 <= k < i ==> files[..i][k] == files[k];
  }

  /** The log grouped by generation; None for an unreadable, misfiled or competing event. */
  method GroupEvents(files: seq<Entry>) returns (r: Option<map<nat, Group>>)
    ensures r.Some? <==> Unambiguous(files)
    ensures r.Some? ==> Groups(r.value, LogOf(files))
  {
    var groups: map<nat, Group> := map[];
    for i := 0 to |files|
      invariant Unambiguous(files[..i]) && Groups(groups, LogOf(files[..i]))
    {
      if !Proper(files[i]) { return None; }
      LogSnoc(files, i);
      var event := files[i].content.event;
      var group := GroupAt(groups, event.generation);
      assert AtSlot(groups, SlotOf(event)) == Find(LogOf(files[..i]), SlotOf(event));
      if At(group, event.phase).Some? {
        AmbiguousStays(files, i + 1);
        return None;
      }
      PutGroups(groups, LogOf(files[..i]), event);
      groups := groups[event.generation := Put(group, event)];
    }
    assert files[..|files|] == files;
    r := Some(groups);
  }

  lemma GroupPhases(groups: map<nat, Group>, log: Log, g: nat)
    requires Groups(groups, log)
    ensures GroupAt(groups, g).prepared == Find(log, Slot(g, Prepared))
    ensures GroupAt(groups, g).committed == Find(log, Slot(g, Committed))
    ensures GroupAt(groups, g).aborted == Find(log, Slot(g, Aborted))
  {
    assert AtSlot(groups, Slot(g, Prepared)) == Find(log, Slot(g, Prepared));
    assert AtSlot(groups, Slot(g, Committed)) == Find(log, Slot(g, Committed));
    assert AtSlot(groups, Slot(g, Aborted)) == Find(log, Slot(g, Aborted));
  }

  method WalkGroups(groups: map<nat, Group>, bootstrap: Event, ghost log: Log) returns (r: Option<(nat, Event)>)
    requires Groups(groups, log)
    ensures r == Walk(log, 1, bootstrap)
  {
    var latest, expected := bootstrap, 1;
    while expected in groups
      invariant expected >= 1
      invariant Walk(log, 1, bootstrap) == Walk(log, expected, latest)
      decreases |Remaining(log, expected)|
    {
      GroupPhases(groups, log, expected);
      WalkShrinks(log, expected);
      var group := groups[expected];
      if group.prepared.None? { return None; }
      if group.committed.Some? && group.aborted.Some? { return None; }
      if group.committed.None? && group.aborted.None? { return None; }
      if group.prepared.value.previousHead != latest.headDigest { return None; }
      var terminal := if group.committed.Some? then group.committed.value else group.aborted.value;
      if !SameTransition(terminal, group.prepared.value) { return None; }
      if group.committed.Some? { latest := group.committed.value; }
      expected := expected + 1;
    }
    r := Some((expected, latest));
  }

  lemma NoLaterGroups(groups: map<nat, Group>, log: Log, end: nat)
    requires Groups(groups, log)
    ensures (exists g :: g in groups && g >= end) <==> exists s :: s in log && s.generation >= end
  {
    if s :| s in log && s.generation >= end {
      assert s == Slot(s.generation, s.phase) && (s.phase.Prepared? || s.phase.Committed? || s.phase.Aborted?);
      assert HasGroup(log, s.generation);
    }
    if g :| g in groups && g >= end {
      assert HasGroup(log, g);
      var s := if Slot(g, Prepared) in log then Slot(g, Prepared)
               else if Slot(g, Committed) in log then Slot(g, Committed) else Slot(g, Aborted);
      assert s in log && s.generation >= end;
    }
  }

  method LoadCommittedState(pointer: Pointer, temporaries: nat, files: seq<Entry>) returns (r: Option<Event>)
    ensures r == Load(pointer, temporaries, files)
  {
    if temporaries != 0 || files == [] { return None; }
    var grouped := GroupEvents(files);
    if grouped.None? { return None; }
    var groups := grouped.value;
    ghost var log := LogOf(files);
    GroupPhases(groups, log, 0);
    var bootstrap := GroupAt(groups, 0);
    if bootstrap.committed.None? || bootstrap.prepared.Some? || bootstrap.aborted.Some?
      || bootstrap.committed.value.kind != BootstrapKind {
      return None;
    }
    var walked := WalkGroups(groups, bootstrap.committed.value, log);
    if walked.None? { return None; }
    var (end, latest) := walked.value;
    NoLaterGroups(groups, log, end);
    if exists g :: g in groups && g >= end { return None; }
    if !PointsTo(pointer, latest) { return None; }
    r := Some(latest);
  }
}
