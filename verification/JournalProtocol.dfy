/** Any number of workers creating and appending to the journal of one transaction identity, one file per sequence.  A
    record file is linked whole and exclusively and is never changed or removed, so listing the directory and then
    reading its files reads one moment; every other step touches at most one shared file. */
module JournalProtocol {
  import opened Wrappers
  import opened MutationTransaction
  import opened MutationJournal
  import opened JournalAppend

  datatype Position =
    | Making       // create: about to make the directory
    | Meeting      // create: the directory was there; about to read it
    | Reading      // append: about to read the journal
    | Linking      // about to link the record under its sequence
    | Confirming   // linked; durability not yet confirmed
    | Answering    // about to read the journal back
    | Converging   // the sequence was taken; about to read the winner
    | Settling     // the journal already stands for the candidate; durability not yet confirmed
    | Returned
    | Failed

  datatype Worker = Worker(candidate: Transaction, at: Position, record: Record)

  /** `makers` only records which worker linked each sequence. */
  datatype State = State(id: TransactionId, made: bool, files: map<nat, Record>, makers: map<nat, nat>,
                         workers: map<nat, Worker>)

  datatype Event =
    | BeginCreate(w: nat, candidate: Transaction)
    | BeginAppend(w: nat, candidate: Transaction)
    | Progress(w: nat, success: bool)
    | Stop(w: nat)

  ghost predicate Init(s: State) { !s.made && s.files == map[] && s.makers == map[] && s.workers == map[] }

  ghost predicate Numbered(files: map<nat, Record>, n: nat) { forall k: nat :: k in files <==> 1 <= k <= n }

  /** The first n files in order. */
  ghost function Contents(files: map<nat, Record>, n: nat): (records: seq<Record>)
    requires forall k :: 1 <= k <= n ==> k in files
    ensures |records| == n && forall k :: 0 <= k < n ==> records[k] == files[k + 1]
  {
    if n == 0 then [] else Contents(files, n - 1) + [files[n]]
  }

  /** The records a directory lists, unless one is missing. */
  ghost function Listed(files: map<nat, Record>): Option<seq<Record>> {
    if n: nat :| Numbered(files, n) then Some(Contents(files, n)) else None
  }

  ghost function ReadFiles(files: map<nat, Record>, c: Transaction): Option<Transaction> {
    if Listed(files).None? then None else Read(Listed(files).value, c)
  }

  function Placed(s: State, w: nat, worker: Worker): State { s.(workers := s.workers[w := worker]) }

  function Moved(s: State, w: nat, at: Position): State
    requires w in s.workers
  {
    Placed(s, w, s.workers[w].(at := at))
  }

  /** What a worker does at any position but linking, given the directory and its files. */
  ghost function Reader(made: bool, files: map<nat, Record>, worker: Worker, success: bool): Worker
    requires !worker.at.Linking?
  {
    var c := worker.candidate;
    match worker.at
    case Making =>
      if made then worker.(at := Meeting)
      else if !success then worker.(at := Failed)
      else worker.(at := Linking, record := RecordFor(c, ZeroHash))
    case Meeting => worker.(at := if Numbered(files, 1) && ReadFiles(files, c).Some? then Settling else Failed)
    case Reading =>
      if Listed(files).None? then worker.(at := Failed)
      else
        (match PlanFor(Listed(files).value, c)
         case Refuse => worker.(at := Failed)
         case Converge => worker.(at := Settling)
         case Publish(r) => worker.(at := Linking, record := r))
    case Confirming => worker.(at := if success then Answering else Failed)
    case Answering => worker.(at := if ReadFiles(files, c).Some? then Returned else Failed)
    case Converging => worker.(at := if ReadFiles(files, c) == Some(c) then Settling else Failed)
    case Settling => worker.(at := if success then Returned else Failed)
    case _ => worker
  }

  /** Such a step changes no file; only making the directory changes anything shared. */
  ghost function ReadStep(s: State, w: nat, success: bool): State
    requires w in s.workers && !s.workers[w].at.Linking?
  {
    Placed(s, w, Reader(s.made, s.files, s.workers[w], success)).(
      made := s.made || (s.workers[w].at.Making? && success))
  }

  /** Publishing: the exclusive link under the record's sequence. */
  function LinkStep(s: State, w: nat, success: bool): State
    requires w in s.workers && s.workers[w].at.Linking?
  {
    var r := s.workers[w].record;
    if !success then Moved(s, w, Failed)
    else if r.base.sequence in s.files then Moved(s, w, Converging)
    else Moved(s, w, Confirming).(files := s.files[r.base.sequence := r], makers := s.makers[r.base.sequence := w])
  }

  ghost predicate Enabled(s: State, e: Event) {
    match e
    case BeginCreate(w, c) =>
      w !in s.workers && c.transactionId == s.id && WellFormed(c) && c.stage.Prepared? && c.version == 1
    case BeginAppend(w, c) => w !in s.workers && c.transactionId == s.id && WellFormed(c)
    case Progress(w, _) => w in s.workers
    case Stop(w) => w in s.workers
  }

  const NO_RECORD :=
    Record(
      Base(Identity(ForgedId(""), Subject("", "", "", "", "", "", "", "")), 0, Prepared, EmptyPayload, ZeroHash),
      ZeroHash)

  ghost function Apply(s: State, e: Event): State
    requires Enabled(s, e)
  {
    match e
    case BeginCreate(w, c) => Placed(s, w, Worker(c, Making, NO_RECORD))
    case BeginAppend(w, c) => Placed(s, w, Worker(c, Reading, NO_RECORD))
    case Progress(w, success) => if s.workers[w].at.Linking? then LinkStep(s, w, success) else ReadStep(s, w, success)
    case Stop(w) => if s.workers[w].at.Returned? then s else Moved(s, w, Failed)
  }

  ghost predicate Transits(s: State, e: Event, s': State) { Enabled(s, e) && s' == Apply(s, e) }

  ghost predicate Next(s: State, s': State) { exists e :: Transits(s, e, s') }

  ghost predicate Run(run: seq<State>) {
    |run| > 0 && Init(run[0]) && forall k :: 0 <= k < |run| - 1 ==> Next(run[k], run[k + 1])
  }

  // ---------------------------------------------------------------- the invariant

  /** The worker's candidate is what the journal stood for when it had that version. */
  ghost predicate Agreed(files: map<nat, Record>, n: nat, c: Transaction) {
    && c.version <= n && (forall k :: 1 <= k <= n ==> k in files)
    && Reconstructed(Contents(files, c.version)) == Some(c)
  }

  /** The record is the candidate's, linked to the record before it, and the candidate succeeds what they stand for. */
  ghost predicate Fits(files: map<nat, Record>, n: nat, c: Transaction, r: Record) {
    && 1 <= c.version <= n + 1 && (forall k :: 1 <= k <= n ==> k in files)
    && r == RecordFor(c, if c.version == 1 then ZeroHash else files[c.version - 1].recordHash)
    && (if c.version == 1 then c.stage.Prepared?
        else
          Reconstructed(Contents(files, c.version - 1)).Some?
          && Succeeds(Reconstructed(Contents(files, c.version - 1)).value, c))
  }

  /** The worker linked the record under its candidate's version. */
  ghost predicate Owns(s: State, w: nat, c: Transaction) { c.version in s.makers && s.makers[c.version] == w }

  ghost predicate Linked(s: State, n: nat, c: Transaction) {
    c.version <= n && c.version in s.files && Fits(s.files, n, c, s.files[c.version])
  }

  ghost predicate WorkerInv(s: State, n: nat, w: nat, worker: Worker) {
    var c := worker.candidate;
    && c.transactionId == s.id && WellFormed(c)
    && (worker.at.Making? || worker.at.Meeting? ==> c.stage.Prepared?)
    && (worker.at.Linking? ==> s.made && Fits(s.files, n, c, worker.record))
    && (worker.at.Confirming? || worker.at.Answering? ==> Owns(s, w, c))
    && (worker.at.Settling? ==> Agreed(s.files, n, c))
    && (worker.at.Returned? ==> Owns(s, w, c) || Agreed(s.files, n, c))
    && (Owns(s, w, c) ==> Linked(s, n, c))
  }

  ghost predicate FilesInv(s: State, n: nat) {
    && Numbered(s.files, n) && (n > 0 ==> s.made) && s.makers.Keys == s.files.Keys
    && forall i :: i in s.makers ==> s.makers[i] in s.workers
  }

  ghost predicate Inv(s: State, n: nat) {
    FilesInv(s, n) && forall w :: w in s.workers ==> WorkerInv(s, n, w, s.workers[w])
  }

  lemma ListedIs(files: map<nat, Record>, n: nat)
    requires Numbered(files, n)
    ensures Listed(files) == Some(Contents(files, n))
  {
    forall m: nat | Numbered(files, m) ensures m == n {
      assert m in files <==> 1 <= m <= n;
      assert n in files <==> 1 <= n <= m;
    }
  }

  lemma {:induction false} ContentsPrefix(files: map<nat, Record>, n: nat, k: nat)
    requires k <= n && forall i :: 1 <= i <= n ==> i in files
    ensures Contents(files, k) == Contents(files, n)[..k]
  {
  }

  lemma {:induction false} ContentsKept(files: map<nat, Record>, more: map<nat, Record>, n: nat)
    requires forall i :: 1 <= i <= n ==> i in files && i in more && more[i] == files[i]
    ensures Contents(more, n) == Contents(files, n)
  {
  }

  /** Files and makers only grow. */
  ghost predicate Grows(s: State, s': State, n: nat, n': nat) {
    && n <= n' && s'.id == s.id && (s.made ==> s'.made)
    && (forall i :: 1 <= i <= n ==> i in s.files && i in s'.files && s'.files[i] == s.files[i])
    && (forall i :: 1 <= i <= n' ==> i in s'.files)
    && (forall i :: i in s.makers ==> i in s'.makers && s'.makers[i] == s.makers[i])
  }

  lemma AgreedKept(s: State, s': State, n: nat, n': nat, c: Transaction)
    requires Grows(s, s', n, n') && Agreed(s.files, n, c)
    ensures Agreed(s'.files, n', c)
  {
    ContentsKept(s.files, s'.files, c.version);
  }

  lemma FitsKept(s: State, s': State, n: nat, n': nat, c: Transaction, r: Record)
    requires Grows(s, s', n, n') && Fits(s.files, n, c, r)
    ensures Fits(s'.files, n', c, r)
  {
    if c.version > 1 { ContentsKept(s.files, s'.files, c.version - 1); }
  }

  lemma LinkedKept(s: State, s': State, n: nat, n': nat, c: Transaction)
    requires Grows(s, s', n, n') && Linked(s, n, c)
    ensures Linked(s', n', c)
  {
    FitsKept(s, s', n, n', c, s.files[c.version]);
  }

  lemma WorkerKept(s: State, s': State, n: nat, n': nat, w: nat, worker: Worker)
    requires Grows(s, s', n, n') && WorkerInv(s, n, w, worker)
    requires Owns(s', w, worker.candidate) <==> Owns(s, w, worker.candidate)
    ensures WorkerInv(s', n', w, worker)
  {
    var c := worker.candidate;
    if Agreed(s.files, n, c) { AgreedKept(s, s', n, n', c); }
    if worker.at.Linking? { FitsKept(s, s', n, n', c, worker.record); }
    if Linked(s, n, c) { LinkedKept(s, s', n, n', c); }
  }

  /** Every worker but one is as before. */
  lemma OthersKept(s: State, s': State, n: nat, n': nat, w: nat)
    requires Inv(s, n) && Grows(s, s', n, n') && FilesInv(s', n')
    requires w in s'.workers && s'.workers == s.workers[w := s'.workers[w]] && WorkerInv(s', n', w, s'.workers[w])
    requires forall i :: i in s'.makers ==> (i in s.makers && s'.makers[i] == s.makers[i]) || s'.makers[i] == w
    ensures Inv(s', n')
  {
    forall v | v in s'.workers ensures WorkerInv(s', n', v, s'.workers[v]) {
      if v != w { WorkerKept(s, s', n, n', v, s.workers[v]); }
    }
  }

  lemma ReadKeeps(s: State, n: nat, w: nat, next: Worker, made: bool)
    requires Inv(s, n) && w in s.workers && (s.made ==> made)
    requires WorkerInv(Placed(s, w, next).(made := made), n, w, next)
    ensures Inv(Placed(s, w, next).(made := made), n)
  {
    OthersKept(s, Placed(s, w, next).(made := made), n, n, w);
  }

  lemma ReadAgrees(files: map<nat, Record>, n: nat, c: Transaction)
    requires Numbered(files, n) && ReadFiles(files, c) == Some(c)
    ensures Agreed(files, n, c)
  {
    ListedIs(files, n);
    ReadVersion(Contents(files, n));
  }

  /** A journal of one record under this identity stands for the created transaction itself. */
  lemma FirstRecordAgrees(files: map<nat, Record>, c: Transaction)
    requires Numbered(files, 1) && ReadFiles(files, c).Some? && WellFormed(c) && c.stage.Prepared?
    ensures ReadFiles(files, c) == Some(c)
  {
    ListedIs(files, 1);
    PreparedIsFresh(c);
  }

  lemma ConvergeAgrees(files: map<nat, Record>, n: nat, c: Transaction)
    requires Numbered(files, n) && PlanFor(Contents(files, n), c).Converge?
    ensures Agreed(files, n, c)
  {
    ListedIs(files, n);
    ReadVersion(Contents(files, n));
  }

  lemma PublishFits(files: map<nat, Record>, n: nat, c: Transaction)
    requires Numbered(files, n) && PlanFor(Contents(files, n), c).Publish?
    ensures Fits(files, n, c, PlanFor(Contents(files, n), c).record) && n > 0
  {
    var records := Contents(files, n);
    PublishedSucceeds(records, c);
    ReadVersion(records);
  }

  lemma ReadingWorker(s: State, n: nat, w: nat, success: bool)
    requires FilesInv(s, n) && w in s.workers && WorkerInv(s, n, w, s.workers[w]) && s.workers[w].at.Reading?
    ensures WorkerInv(ReadStep(s, w, success), n, w, ReadStep(s, w, success).workers[w])
  {
    var c := s.workers[w].candidate;
    ListedIs(s.files, n);
    match PlanFor(Contents(s.files, n), c)
    case Refuse =>
    case Converge => ConvergeAgrees(s.files, n, c);
    case Publish(_) => PublishFits(s.files, n, c);
  }

  lemma MeetingWorker(s: State, n: nat, w: nat, success: bool)
    requires FilesInv(s, n) && w in s.workers && WorkerInv(s, n, w, s.workers[w])
    requires s.workers[w].at.Meeting? || s.workers[w].at.Converging?
    ensures WorkerInv(ReadStep(s, w, success), n, w, ReadStep(s, w, success).workers[w])
  {
    var c := s.workers[w].candidate;
    if s.workers[w].at.Meeting? && Numbered(s.files, 1) && ReadFiles(s.files, c).Some? {
      FirstRecordAgrees(s.files, c);
    }
    if ReadFiles(s.files, c) == Some(c) { ReadAgrees(s.files, n, c); }
  }

  lemma MakingWorker(s: State, n: nat, w: nat, success: bool)
    requires FilesInv(s, n) && w in s.workers && WorkerInv(s, n, w, s.workers[w]) && s.workers[w].at.Making?
    ensures WorkerInv(ReadStep(s, w, success), n, w, ReadStep(s, w, success).workers[w])
  {
    PreparedIsFresh(s.workers[w].candidate);
  }

  lemma PlainWorker(s: State, n: nat, w: nat, success: bool)
    requires FilesInv(s, n) && w in s.workers && WorkerInv(s, n, w, s.workers[w])
    requires var at := s.workers[w].at; !at.Linking? && !at.Reading? && !at.Making? && !at.Meeting? && !at.Converging?
    ensures WorkerInv(ReadStep(s, w, success), n, w, ReadStep(s, w, success).workers[w])
  {
  }

  lemma LinkLoses(s: State, n: nat, w: nat, success: bool)
    requires Inv(s, n) && w in s.workers && s.workers[w].at.Linking?
    requires !success || s.workers[w].record.base.sequence in s.files
    ensures Inv(LinkStep(s, w, success), n)
  {
    assert WorkerInv(s, n, w, s.workers[w]);
    OthersKept(s, LinkStep(s, w, success), n, n, w);
  }

  lemma LinkNumber(s: State, n: nat, w: nat, worker: Worker)
    requires FilesInv(s, n) && WorkerInv(s, n, w, worker) && worker.at.Linking?
             && worker.record.base.sequence !in s.files
    ensures worker.candidate.version == worker.record.base.sequence == n + 1 && s.made
  {
  }

  lemma LinkShape(s: State, w: nat)
    requires w in s.workers && s.workers[w].at.Linking? && s.workers[w].record.base.sequence !in s.files
    ensures var worker := s.workers[w];
            var v := worker.record.base.sequence;
            LinkStep(s, w, true)
              == Placed(s, w, worker.(at := Confirming)).(
                   files := s.files[v := worker.record], makers := s.makers[v := w])
  {
  }

  lemma LinkedKeeps(s: State, s': State, n: nat, w: nat, worker: Worker)
    requires Inv(s, n) && w in s.workers && worker == s.workers[w] && WorkerInv(s', n + 1, w, worker.(at := Confirming))
    requires s'.workers == s.workers[w := worker.(at := Confirming)] && s'.makers == s.makers[n + 1 := w]
    requires FilesInv(s', n + 1) && Grows(s, s', n, n + 1)
    ensures Inv(s', n + 1)
  {
    OthersKept(s, s', n, n + 1, w);
  }

  lemma LinkWins(s: State, n: nat, w: nat, worker: Worker)
    requires Inv(s, n) && w in s.workers && worker == s.workers[w] && worker.at.Linking?
    requires WorkerInv(s, n, w, worker) && worker.record.base.sequence !in s.files
    ensures Inv(LinkStep(s, w, true), n + 1)
  {
    LinkNumber(s, n, w, worker);
    LinkShape(s, w);
    var s' := Placed(s, w, worker.(at := Confirming)).(
      files := s.files[n + 1 := worker.record], makers := s.makers[n + 1 := w]);
    LinkedFiles(s, s', n, w);
    LinkedWorker(s, s', n, w, worker);
    LinkedKeeps(s, s', n, w, worker);
  }

  lemma LinkedWorker(s: State, s': State, n: nat, w: nat, worker: Worker)
    requires WorkerInv(s, n, w, worker) && worker.at.Linking? && worker.candidate.version == n + 1
    requires Grows(s, s', n, n + 1) && s'.files[n + 1] == worker.record && n + 1 in s'.makers && s'.makers[n + 1] == w
    ensures WorkerInv(s', n + 1, w, worker.(at := Confirming))
  {
    FitsKept(s, s', n, n + 1, worker.candidate, worker.record);
  }

  lemma LinkedFiles(s: State, s': State, n: nat, w: nat)
    requires FilesInv(s, n) && s.made && w in s.workers
    requires s'.files.Keys == s.files.Keys + {n + 1} && s'.makers == s.makers[n + 1 := w] && s'.made && s'.id == s.id
    requires s'.workers.Keys == s.workers.Keys && forall i :: i in s.files ==> s'.files[i] == s.files[i]
    ensures FilesInv(s', n + 1) && Grows(s, s', n, n + 1)
  {
    assert n + 1 !in s.files;
  }

  lemma ProgressKeeps(s: State, n: nat, w: nat, success: bool)
    requires Inv(s, n) && w in s.workers && !s.workers[w].at.Linking?
    ensures Inv(ReadStep(s, w, success), n)
  {
    var at := s.workers[w].at;
    assert WorkerInv(s, n, w, s.workers[w]);
    if at.Reading? { ReadingWorker(s, n, w, success); }
    else if at.Making? { MakingWorker(s, n, w, success); }
    else if at.Meeting? || at.Converging? { MeetingWorker(s, n, w, success); }
    else { PlainWorker(s, n, w, success); }
    ReadKeeps(s, n, w, Reader(s.made, s.files, s.workers[w], success), s.made || (at.Making? && success));
  }

  lemma BeginKeeps(s: State, n: nat, w: nat, worker: Worker)
    requires Inv(s, n) && w !in s.workers && worker.candidate.transactionId == s.id && WellFormed(worker.candidate)
    requires worker.at.Reading? || (worker.at.Making? && worker.candidate.stage.Prepared?)
    ensures Inv(Placed(s, w, worker), n)
  {
    OthersKept(s, Placed(s, w, worker), n, n, w);
  }

  lemma StopKeeps(s: State, n: nat, w: nat)
    requires Inv(s, n) && w in s.workers
    ensures Inv(Moved(s, w, Failed), n)
  {
    assert WorkerInv(s, n, w, s.workers[w]);
    OthersKept(s, Moved(s, w, Failed), n, n, w);
  }

  lemma StepKeeps(s: State, n: nat, e: Event) returns (n': nat)
    requires Inv(s, n) && Enabled(s, e)
    ensures Inv(Apply(s, e), n')
  {
    n' := n;
    match e
    case BeginCreate(w, c) => BeginKeeps(s, n, w, Worker(c, Making, NO_RECORD));
    case BeginAppend(w, c) => BeginKeeps(s, n, w, Worker(c, Reading, NO_RECORD));
    case Stop(w) => StopKeeps(s, n, w);
    case Progress(w, success) =>
      if !s.workers[w].at.Linking? { ProgressKeeps(s, n, w, success); }
      else if success && s.workers[w].record.base.sequence !in s.files {
        assert WorkerInv(s, n, w, s.workers[w]);
        LinkWins(s, n, w, s.workers[w]);
        n' := n + 1;
      }
      else { LinkLoses(s, n, w, success); }
  }

  lemma {:induction false} RunKeeps(run: seq<State>, k: nat) returns (n: nat)
    requires Run(run) && k < |run|
    ensures Inv(run[k], n)
  {
    if k == 0 {
      n := 0;
    } else {
      var m := RunKeeps(run, k - 1);
      assert Next(run[k - 1], run[(k - 1) + 1]);
      var e :| Transits(run[k - 1], e, run[k]);
      n := StepKeeps(run[k - 1], m, e);
    }
  }

  // ---------------------------------------------------------------- what runs guarantee

  lemma StepExtends(s: State, e: Event)
    requires Enabled(s, e)
    ensures forall i :: i in s.files ==> i in Apply(s, e).files && Apply(s, e).files[i] == s.files[i]
  {
  }

  /** One record per sequence: once linked, a sequence keeps its record for the rest of the run. */
  lemma {:induction false} OneRecordPerSequence(run: seq<State>, j: nat, k: nat, i: nat)
    requires Run(run) && j <= k < |run| && i in run[j].files
    ensures i in run[k].files && run[k].files[i] == run[j].files[i]
    decreases k - j
  {
    if j < k {
      OneRecordPerSequence(run, j, k - 1, i);
      assert Next(run[k - 1], run[(k - 1) + 1]);
      var e :| Transits(run[k - 1], e, run[k]);
      StepExtends(run[k - 1], e);
    }
  }

  /** The files are always numbered 1 to n without a gap. */
  lemma NoGap(run: seq<State>, k: nat)
    requires Run(run) && k < |run|
    ensures Listed(run[k].files).Some? && |Listed(run[k].files).value| == |run[k].files|
  {
    var n := RunKeeps(run, k);
    ListedIs(run[k].files, n);
    var keys := set i | i in run[k].files;
    assert keys == run[k].files.Keys;
    NumberedSize(n, run[k].files.Keys);
  }

  lemma {:induction false} NumberedSize(n: nat, keys: set<nat>)
    requires forall i: nat :: i in keys <==> 1 <= i <= n
    ensures |keys| == n
  {
    if n == 0 {
      assert keys == {};
    } else {
      NumberedSize(n - 1, keys - {n});
      assert keys == (keys - {n}) + {n};
    }
  }

  /** What the journal stood for at the candidate's version is the candidate. */
  ghost predicate StandsFor(files: map<nat, Record>, c: Transaction) {
    (forall i :: 1 <= i <= c.version ==> i in files) && Reconstructed(Contents(files, c.version)) == Some(c)
  }

  /** The record of the candidate's version carries what it added to the transaction before. */
  ghost predicate Faithful(files: map<nat, Record>, c: Transaction) {
    || c.version == 1
    || (&& c.version > 1 && c.history != [] && (forall i :: 1 <= i < c.version ==> i in files)
        && Reconstructed(Contents(files, c.version - 1)).Some?
        && Carries(Reconstructed(Contents(files, c.version - 1)).value, c))
  }

  /** Whoever returns either linked the record of its version itself or has a candidate equal to what the journal
      stands for at that version. */
  lemma ReturnedMeans(run: seq<State>, k: nat, w: nat)
    requires Run(run) && k < |run| && w in run[k].workers && run[k].workers[w].at.Returned?
    ensures var c := run[k].workers[w].candidate; Owns(run[k], w, c) || StandsFor(run[k].files, c)
  {
    var n := RunKeeps(run, k);
    assert WorkerInv(run[k], n, w, run[k].workers[w]);
  }

  lemma FirstStands(files: map<nat, Record>, c: Transaction)
    requires WellFormed(c) && c.version == 1 && c.stage.Prepared? && 1 in files && files[1] == RecordFor(c, ZeroHash)
    ensures Reconstructed(Contents(files, 1)) == Some(c)
  {
    PreparedIsFresh(c);
    assert Contents(files, 1) == [files[1]];
  }

  lemma LaterStands(files: map<nat, Record>, v: nat, c: Transaction)
    requires c.version == v > 1 && (forall i :: 1 <= i <= v ==> i in files) && c.history != []
    requires files[v] == RecordFor(c, files[v - 1].recordHash)
    requires Reconstructed(Contents(files, v - 1)).Some? && Succeeds(Reconstructed(Contents(files, v - 1)).value, c)
    ensures Reconstructed(Contents(files, v)) == Some(c) <==> Carries(Reconstructed(Contents(files, v - 1)).value, c)
  {
    var front := Contents(files, v - 1);
    assert Contents(files, v) == front + [files[v]];
    assert front[|front| - 1] == files[v - 1];
    WinnerStep(front, files[v], c);
  }

  lemma WinnerStands(files: map<nat, Record>, n: nat, c: Transaction)
    requires WellFormed(c) && c.version <= n && c.version in files && Fits(files, n, c, files[c.version])
    ensures StandsFor(files, c) <==> Faithful(files, c)
  {
    if c.version == 1 { FirstStands(files, c); } else { LaterWinner(files, n, c); }
  }

  lemma LaterWinner(files: map<nat, Record>, n: nat, c: Transaction)
    requires 1 < c.version <= n && c.version in files && Fits(files, n, c, files[c.version])
    ensures StandsFor(files, c) <==> Faithful(files, c)
  {
    LaterStands(files, c.version, c);
  }

  lemma WinnerStep(front: seq<Record>, r: Record, c: Transaction)
    requires |front| > 0 && Reconstructed(front).Some? && Succeeds(Reconstructed(front).value, c)
    requires r == RecordFor(c, front[|front| - 1].recordHash)
    ensures Reconstructed(front + [r]) == Some(c) <==> Carries(Reconstructed(front).value, c)
  {
    ReadVersion(front);
    OneMore(front, r);
    ReplaysExactly(Reconstructed(front).value, c, front[|front| - 1].recordHash);
  }

  /** For the worker that linked a record, returned or not, the journal stands for its candidate exactly when the
      record carries it. */
  lemma WinnerAgrees(run: seq<State>, k: nat, w: nat)
    requires Run(run) && k < |run| && w in run[k].workers && Owns(run[k], w, run[k].workers[w].candidate)
    ensures StandsFor(run[k].files, run[k].workers[w].candidate) <==>
              Faithful(run[k].files, run[k].workers[w].candidate)
  {
    var n := RunKeeps(run, k);
    assert WorkerInv(run[k], n, w, run[k].workers[w]);
    WinnerStands(run[k].files, n, run[k].workers[w].candidate);
  }

  /** A loser returns only with the winner's transaction, unless the winner's record does not carry that transaction;
      and two losers that return with one version always have the same candidate. */
  lemma LosersAgree(run: seq<State>, k: nat, a: nat, b: nat)
    requires Run(run) && k < |run| && a in run[k].workers && b in run[k].workers
    requires run[k].workers[b].at.Returned? && !Owns(run[k], b, run[k].workers[b].candidate)
    requires run[k].workers[a].candidate.version == run[k].workers[b].candidate.version
    ensures Owns(run[k], a, run[k].workers[a].candidate) ==>
              (run[k].workers[b].candidate == run[k].workers[a].candidate <==>
                 Faithful(run[k].files, run[k].workers[a].candidate))
    ensures !Owns(run[k], a, run[k].workers[a].candidate) && run[k].workers[a].at.Returned? ==>
              run[k].workers[b].candidate == run[k].workers[a].candidate
  {
    ReturnedMeans(run, k, b);
    if Owns(run[k], a, run[k].workers[a].candidate) { WinnerAgrees(run, k, a); }
    else if run[k].workers[a].at.Returned? { ReturnedMeans(run, k, a); }
  }

  lemma ReadAs(files: map<nat, Record>, n: nat, c: Transaction)
    requires Numbered(files, n) && ReadFiles(files, c).Some?
    ensures n > 0 && ReadFiles(files, c) == Reconstructed(Contents(files, n))
  {
    ListedIs(files, n);
    ReadVersion(Contents(files, n));
  }

  lemma GrownReads(files: map<nat, Record>, more: map<nat, Record>, m: nat, n: nat)
    requires Numbered(files, m) && Numbered(more, n) && m > 0
    requires forall i :: 1 <= i <= m ==> i in more && more[i] == files[i]
    requires Reconstructed(Contents(more, n)).Some?
    ensures Reconstructed(Contents(files, m)).Some?
    ensures Reconstructed(Contents(files, m)).value.history <= Reconstructed(Contents(more, n)).value.history
  {
    assert m in more;
    ContentsKept(files, more, m);
    ContentsPrefix(more, n, m);
    PrefixReconstructs(Contents(more, n), m);
  }

  lemma FilesNumbered(run: seq<State>, k: nat) returns (n: nat)
    requires Run(run) && k < |run|
    ensures Numbered(run[k].files, n)
  {
    n := RunKeeps(run, k);
  }

  /** Later answers extend earlier ones: the log every reader sees is one growing history. */
  lemma ReadsExtend(run: seq<State>, j: nat, k: nat, c: Transaction, d: Transaction)
    requires Run(run) && j <= k < |run|
    ensures ReadFiles(run[j].files, c).Some? && ReadFiles(run[k].files, d).Some? ==>
              ReadFiles(run[j].files, c).value.history <= ReadFiles(run[k].files, d).value.history
  {
    var m := FilesNumbered(run, j);
    var n := FilesNumbered(run, k);
    forall i | 1 <= i <= m
      ensures i in run[k].files && run[k].files[i] == run[j].files[i]
    {
      OneRecordPerSequence(run, j, k, i);
    }
    if ReadFiles(run[j].files, c).Some? && ReadFiles(run[k].files, d).Some? {
      ReadAs(run[j].files, m, c);
      ReadAs(run[k].files, n, d);
      GrownReads(run[j].files, run[k].files, m, n);
    }
  }
}
