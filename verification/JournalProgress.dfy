/** A worker that is left alone does to the journal, and answers, what the call does on its own. */
module JournalProgress {
  import opened Wrappers
  import opened Repetition
  import opened MutationTransaction
  import opened MutationJournal
  import opened JournalAppend
  import opened JournalProtocol

  ghost function By(e: Event): State -> Option<State> {
    (s: State) => if Enabled(s, e) then Some(Apply(s, e)) else None
  }

  /** `w` takes `n` steps in a row, each succeeding. */
  ghost predicate Moves(s: State, w: nat, n: nat, s': State) { Repeated(By(Progress(w, true)), s, n, s') }

  lemma MovesOne(s: State, w: nat, n: nat, m: State, s': State)
    requires Moves(s, w, n, m) && w in m.workers
    requires s' == if m.workers[w].at.Linking? then LinkStep(m, w, true) else ReadStep(m, w, true)
    ensures Moves(s, w, n + 1, s')
  {
    RepeatedOnce(By(Progress(w, true)), s, n, m, s');
  }

  lemma PlacedAgain(s: State, w: nat, worker: Worker, next: Worker)
    ensures Placed(Placed(s, w, worker), w, next) == Placed(s, w, next)
  {
    assert s.workers[w := worker][w := next] == s.workers[w := next];
  }

  /** A step that only moves the worker. */
  lemma Reads(b: State, w: nat, worker: Worker, s: State, n: nat, next: Worker)
    requires Moves(s, w, n, Placed(b, w, worker)) && !worker.at.Linking? && (worker.at.Making? ==> b.made)
    requires next == Reader(b.made, b.files, worker, true)
    ensures Moves(s, w, n + 1, Placed(b, w, next))
  {
    PlacedAgain(b, w, worker, next);
    MovesOne(s, w, n, Placed(b, w, worker), Placed(b, w, next));
  }

  /** A worker that has ended stays as it is. */
  lemma {:induction false} Rests(b: State, w: nat, worker: Worker, s: State, n: nat, k: nat)
    requires Moves(s, w, n, Placed(b, w, worker)) && (worker.at.Returned? || worker.at.Failed?)
    ensures Moves(s, w, n + k, Placed(b, w, worker))
    decreases k
  {
    if k > 0 {
      Reads(b, w, worker, s, n, worker);
      Rests(b, w, worker, s, n + 1, k - 1);
    }
  }

  /** The state with one more record, linked by `w`. */
  function WithRecord(b: State, w: nat, r: Record): State {
    b.(files := b.files[r.base.sequence := r], makers := b.makers[r.base.sequence := w])
  }

  lemma Links(b: State, w: nat, worker: Worker, s: State, n: nat)
    requires Moves(s, w, n, Placed(b, w, worker)) && worker.at.Linking? && worker.record.base.sequence !in b.files
    ensures Moves(s, w, n + 1, Placed(WithRecord(b, w, worker.record), w, worker.(at := Confirming)))
  {
    PlacedAgain(b, w, worker, worker.(at := Confirming));
    MovesOne(s, w, n, Placed(b, w, worker), Placed(WithRecord(b, w, worker.record), w, worker.(at := Confirming)));
  }

  /** Once linked, the worker returns exactly when it can read the journal back. */
  lemma Answers(b: State, w: nat, worker: Worker, s: State, n: nat) returns (last: Worker)
    requires Moves(s, w, n, Placed(b, w, worker)) && worker.at.Confirming?
    ensures Moves(s, w, n + 2, Placed(b, w, last))
    ensures last == worker.(at := if ReadFiles(b.files, worker.candidate).Some? then Returned else Failed)
  {
    Reads(b, w, worker, s, n, worker.(at := Answering));
    last := worker.(at := if ReadFiles(b.files, worker.candidate).Some? then Returned else Failed);
    Reads(b, w, worker.(at := Answering), s, n + 1, last);
  }

  lemma LinksAndAnswers(b: State, w: nat, worker: Worker, s: State, n: nat) returns (last: Worker)
    requires Moves(s, w, n, Placed(b, w, worker)) && worker.at.Linking? && worker.record.base.sequence !in b.files
    ensures var b' := WithRecord(b, w, worker.record);
            && Moves(s, w, n + 3, Placed(b', w, last))
            && last == worker.(at := if ReadFiles(b'.files, worker.candidate).Some? then Returned else Failed)
  {
    Links(b, w, worker, s, n);
    last := Answers(WithRecord(b, w, worker.record), w, worker.(at := Confirming), s, n + 1);
  }

  lemma ListedNext(files: map<nat, Record>, n: nat, r: Record)
    requires Numbered(files, n)
    ensures var more := files[n + 1 := r]; Numbered(more, n + 1) && Listed(more) == Some(Contents(files, n) + [r])
  {
    var more := files[n + 1 := r];
    ContentsKept(files, more, n);
    ListedIs(more, n + 1);
  }

  /** What the call of one worker leaves: the records, the worker's answer, and nobody else moved. */
  ghost predicate Leaves(s: State, s': State, w: nat, records: seq<Record>, answered: bool) {
    && s'.id == s.id && Listed(s'.files) == Some(records)
    && w in s'.workers && s'.workers == s.workers[w := s'.workers[w]]
    && s'.workers[w].at == if answered then Returned else Failed
  }

  /** The worker of a new call, before its first step. */
  lemma Begins(s: State, w: nat, worker: Worker)
    ensures Moves(Placed(s, w, worker), w, 0, Placed(s, w, worker))
  {
    RepeatedNone(By(Progress(w, true)), Placed(s, w, worker));
  }

  lemma Publishable(files: map<nat, Record>, n: nat, c: Transaction, r: Record)
    requires Numbered(files, n) && PlanFor(Contents(files, n), c) == Publish(r)
    ensures r.base.sequence == n + 1 && n + 1 !in files
  {
    PublishedSucceeds(Contents(files, n), c);
    ReadVersion(Contents(files, n));
  }

  function Planned(c: Transaction, plan: Plan): Worker {
    match plan
    case Refuse => Worker(c, Failed, NO_RECORD)
    case Converge => Worker(c, Settling, NO_RECORD)
    case Publish(r) => Worker(c, Linking, r)
  }

  lemma PlanRead(s: State, n: nat, c: Transaction)
    requires Numbered(s.files, n)
    ensures Reader(s.made, s.files, Worker(c, Reading, NO_RECORD), true)
         == Planned(c, PlanFor(Contents(s.files, n), c))
  {
    ListedIs(s.files, n);
  }

  /** The first step of an append. */
  lemma Plans(s: State, w: nat, c: Transaction, next: Worker)
    requires next == Reader(s.made, s.files, Worker(c, Reading, NO_RECORD), true)
    ensures Moves(Placed(s, w, Worker(c, Reading, NO_RECORD)), w, 1, Placed(s, w, next))
  {
    var begun := Worker(c, Reading, NO_RECORD);
    Begins(s, w, begun);
    Reads(s, w, begun, Placed(s, w, begun), 0, next);
  }

  lemma RecordLeft(s: State, n: nat, w: nat, worker: Worker, r: Record)
    requires Numbered(s.files, n) && r.base.sequence == n + 1 && (worker.at.Returned? || worker.at.Failed?)
    ensures Leaves(s, Placed(WithRecord(s, w, r), w, worker), w, Contents(s.files, n) + [r], worker.at.Returned?)
    ensures Listed(s.files[n + 1 := r]) == Some(Contents(s.files, n) + [r])
  {
    ListedNext(s.files, n, r);
  }

  lemma LinksAlone(s: State, n: nat, w: nat, worker: Worker, m: State) returns (s': State)
    requires Numbered(s.files, n) && worker.at.Linking? && worker.record.base.sequence == n + 1
    requires Moves(m, w, 1, Placed(s, w, worker))
    ensures Moves(m, w, 4, s')
    ensures var more := Contents(s.files, n) + [worker.record];
            Leaves(s, s', w, more, Read(more, worker.candidate).Some?)
  {
    assert n + 1 in s.files <==> 1 <= n + 1 <= n;
    var last := LinksAndAnswers(s, w, worker, m, 1);
    RecordLeft(s, n, w, last, worker.record);
    s' := Placed(WithRecord(s, w, worker.record), w, last);
  }

  lemma PublishAlone(s: State, n: nat, w: nat, c: Transaction, r: Record) returns (s': State)
    requires FilesInv(s, n) && PlanFor(Contents(s.files, n), c) == Publish(r)
    ensures Moves(Placed(s, w, Worker(c, Reading, NO_RECORD)), w, 4, s')
    ensures Leaves(s, s', w, Contents(s.files, n) + [r], Read(Contents(s.files, n) + [r], c).Some?)
  {
    PlanRead(s, n, c);
    Plans(s, w, c, Worker(c, Linking, r));
    Publishable(s.files, n, c, r);
    s' := LinksAlone(s, n, w, Worker(c, Linking, r), Placed(s, w, Worker(c, Reading, NO_RECORD)));
  }

  /** A worker whose candidate the journal already stands for returns, and stays. */
  lemma Settles(b: State, w: nat, worker: Worker, s: State, n: nat, k: nat)
    requires Moves(s, w, n, Placed(b, w, worker)) && worker.at.Settling?
    ensures Moves(s, w, n + 1 + k, Placed(b, w, worker.(at := Returned)))
  {
    Reads(b, w, worker, s, n, worker.(at := Returned));
    Rests(b, w, worker.(at := Returned), s, n + 1, k);
  }

  /** A worker that is refused stays so. */
  lemma Fails(b: State, w: nat, worker: Worker, s: State, n: nat, k: nat)
    requires Moves(s, w, n, Placed(b, w, worker)) && worker.at.Meeting?
    requires Reader(b.made, b.files, worker, true) == worker.(at := Failed)
    ensures Moves(s, w, n + 1 + k, Placed(b, w, worker.(at := Failed)))
  {
    Reads(b, w, worker, s, n, worker.(at := Failed));
    Rests(b, w, worker.(at := Failed), s, n + 1, k);
  }

  lemma RefusedAlone(s: State, n: nat, w: nat, c: Transaction)
    requires FilesInv(s, n) && PlanFor(Contents(s.files, n), c).Refuse?
    ensures Moves(Placed(s, w, Worker(c, Reading, NO_RECORD)), w, 4, Placed(s, w, Worker(c, Failed, NO_RECORD)))
  {
    PlanRead(s, n, c);
    Plans(s, w, c, Worker(c, Failed, NO_RECORD));
    Rests(s, w, Worker(c, Failed, NO_RECORD), Placed(s, w, Worker(c, Reading, NO_RECORD)), 1, 3);
  }

  lemma ConvergesAlone(s: State, n: nat, w: nat, c: Transaction)
    requires FilesInv(s, n) && PlanFor(Contents(s.files, n), c).Converge?
    ensures Moves(Placed(s, w, Worker(c, Reading, NO_RECORD)), w, 4, Placed(s, w, Worker(c, Returned, NO_RECORD)))
  {
    PlanRead(s, n, c);
    Plans(s, w, c, Worker(c, Settling, NO_RECORD));
    Settles(s, w, Worker(c, Settling, NO_RECORD), Placed(s, w, Worker(c, Reading, NO_RECORD)), 1, 2);
  }

  lemma AppendFrom(s: State, n: nat, w: nat, c: Transaction) returns (s': State)
    requires FilesInv(s, n)
    ensures Moves(Placed(s, w, Worker(c, Reading, NO_RECORD)), w, 4, s')
    ensures var (records, answer) := Appended(Contents(s.files, n), c, Clean);
            Leaves(s, s', w, records, answer.Some?)
  {
    ListedIs(s.files, n);
    match PlanFor(Contents(s.files, n), c)
    case Publish(r) => s' := PublishAlone(s, n, w, c, r);
    case Converge =>
      s' := Placed(s, w, Worker(c, Returned, NO_RECORD));
      ConvergesAlone(s, n, w, c);
    case Refuse =>
      s' := Placed(s, w, Worker(c, Failed, NO_RECORD));
      RefusedAlone(s, n, w, c);
  }

  /** In any state of a run, an append that is left alone, every step succeeding, leaves the records and gives the
      answer of the sequential call. */
  lemma AppendsAlone(run: seq<State>, k: nat, w: nat, c: Transaction) returns (s': State)
    requires Run(run) && k < |run| && Enabled(run[k], BeginAppend(w, c))
    ensures Moves(Apply(run[k], BeginAppend(w, c)), w, 4, s') && Listed(run[k].files).Some?
    ensures var (records, answer) := Appended(Listed(run[k].files).value, c, Clean);
            Leaves(run[k], s', w, records, answer.Some?)
  {
    var n := RunKeeps(run, k);
    ListedIs(run[k].files, n);
    s' := AppendFrom(run[k], n, w, c);
  }

  /** Making the directory. */
  lemma Makes(s: State, w: nat, c: Transaction)
    requires !s.made
    ensures Moves(Placed(s, w, Worker(c, Making, NO_RECORD)), w, 1,
                  Placed(s.(made := true), w, Worker(c, Linking, RecordFor(c, ZeroHash))))
  {
    var begun, linking := Worker(c, Making, NO_RECORD), Worker(c, Linking, RecordFor(c, ZeroHash));
    Begins(s, w, begun);
    PlacedAgain(s, w, begun, linking);
    MovesOne(Placed(s, w, begun), w, 0, Placed(s, w, begun), Placed(s.(made := true), w, linking));
  }

  lemma FirstReads(files: map<nat, Record>, c: Transaction)
    requires Numbered(files, 0) && WellFormed(c) && c.stage.Prepared? && c.version == 1
    ensures var r := RecordFor(c, ZeroHash);
            1 !in files && Listed(files[1 := r]) == Some([r]) && ReadFiles(files[1 := r], c) == Some(c)
  {
    var r := RecordFor(c, ZeroHash);
    assert 1 in files <==> 1 <= 1 <= 0;
    ListedNext(files, 0, r);
    assert Contents(files, 0) + [r] == [r];
    FirstStands(files[1 := r], c);
    assert Contents(files[1 := r], 1) == [r];
  }

  lemma CreateFirst(s: State, w: nat, c: Transaction) returns (s': State)
    requires FilesInv(s, 0) && !s.made && WellFormed(c) && c.stage.Prepared? && c.version == 1
    ensures Moves(Placed(s, w, Worker(c, Making, NO_RECORD)), w, 4, s') && s'.made
    ensures Leaves(s, s', w, [RecordFor(c, ZeroHash)], true)
  {
    var r := RecordFor(c, ZeroHash);
    Makes(s, w, c);
    FirstReads(s.files, c);
    var last := LinksAndAnswers(s.(made := true), w, Worker(c, Linking, r),
                                Placed(s, w, Worker(c, Making, NO_RECORD)), 1);
    s' := Placed(WithRecord(s.(made := true), w, r), w, last);
  }

  /** The journal has just one record. */
  lemma JustOne(files: map<nat, Record>, n: nat)
    requires Numbered(files, n)
    ensures Numbered(files, 1) <==> n == 1
  {
    if Numbered(files, 1) {
      assert 1 in files <==> 1 <= 1 <= n;
      assert n in files <==> 1 <= n <= 1;
    }
  }

  lemma Meets(b: State, w: nat, worker: Worker, s: State, answered: bool) returns (last: Worker)
    requires Moves(s, w, 1, Placed(b, w, worker)) && worker.at.Meeting?
    requires answered == (Numbered(b.files, 1) && ReadFiles(b.files, worker.candidate).Some?)
    ensures Moves(s, w, 4, Placed(b, w, last)) && last == worker.(at := if answered then Returned else Failed)
  {
    last := worker.(at := if answered then Returned else Failed);
    if answered {
      Reads(b, w, worker, s, 1, worker.(at := Settling));
      Settles(b, w, worker.(at := Settling), s, 2, 1);
    } else {
      Fails(b, w, worker, s, 1, 2);
    }
  }

  lemma CreateAgain(s: State, n: nat, w: nat, c: Transaction) returns (s': State)
    requires FilesInv(s, n) && s.made
    ensures Moves(Placed(s, w, Worker(c, Making, NO_RECORD)), w, 4, s')
    ensures Leaves(s, s', w, Contents(s.files, n), n == 1 && Read(Contents(s.files, n), c).Some?)
  {
    var begun := Worker(c, Making, NO_RECORD);
    ListedIs(s.files, n);
    JustOne(s.files, n);
    Begins(s, w, begun);
    Reads(s, w, begun, Placed(s, w, begun), 0, begun.(at := Meeting));
    var last := Meets(s, w, begun.(at := Meeting), Placed(s, w, begun),
                      n == 1 && Read(Contents(s.files, n), c).Some?);
    s' := Placed(s, w, last);
  }

  /** A creation that is left alone links the first record of a new journal; of one that is there it changes nothing,
      and answers exactly when that holds one record standing for the same transaction identity. */
  lemma CreatesAlone(run: seq<State>, k: nat, w: nat, c: Transaction) returns (s': State)
    requires Run(run) && k < |run| && Enabled(run[k], BeginCreate(w, c))
    ensures Moves(Apply(run[k], BeginCreate(w, c)), w, 4, s') && Listed(run[k].files).Some?
    ensures var records := Listed(run[k].files).value;
            if run[k].made then Leaves(run[k], s', w, records, |records| == 1 && Read(records, c).Some?)
            else records == [] && Leaves(run[k], s', w, [RecordFor(c, ZeroHash)], true)
  {
    var s := run[k];
    var n := RunKeeps(run, k);
    ListedIs(s.files, n);
    if s.made { s' := CreateAgain(s, n, w, c); } else { s' := CreateFirst(s, w, c); }
  }
}
