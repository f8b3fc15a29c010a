/** Consuming one authorization under its linearization lock, by any number of callers.  Committing to the store is one
    step here: whether it takes effect, and whether it reports so, are independent. */
module LinearizableConsumption {
  import opened Repetition
  import opened Wrappers

  datatype Record = NoRecord | ClaimedOnly | ConsumedAs(consumption: string)

  datatype Position =
    | Acquiring    // about to create the lock file exclusively
    | Loading      // lock created; about to load the record
    | Committing   // a record was loaded; about to commit the consumption
    | Reloading    // committed; about to load again and compare
    | Releasing    // about to read the lock back
    | Unlocking    // read back as its own
    | Answered     // returned its receipt, or threw

  datatype Caller = Caller(consumption: string, at: Position, receipt: bool)

  datatype State = State(record: Record, lock: Option<nat>, callers: map<nat, Caller>)

  datatype Event =
    | ClaimIt
    | Call(p: nat, consumption: string)
    | Advance(p: nat, ok: bool, effect: bool)
    | Crash(p: nat)

  ghost predicate Init(s: State) { s == State(NoRecord, None, map[]) }

  predicate Inside(at: Position) { !at.Acquiring? && !at.Answered? }

  function Put(s: State, p: nat, c: Caller): State { s.(callers := s.callers[p := c]) }

  /** What committing leaves: only a claim can be replaced, and committing what is already there changes nothing. */
  function Committed(record: Record, consumption: string, effect: bool): Record {
    if record.ClaimedOnly? && effect then ConsumedAs(consumption) else record
  }

  /** The next step of a call.  `ok` is false when the step itself fails; `effect` is whether it took place. */
  function Advanced(s: State, p: nat, ok: bool, effect: bool): State
    requires p in s.callers
  {
    var c := s.callers[p];
    match c.at
    case Acquiring =>
      if s.lock.Some? then Put(s, p, c.(at := Answered))
      else if !effect then Put(s, p, c.(at := Answered))
      else Put(s, p, c.(at := if ok then Loading else Answered)).(lock := Some(p))
    case Loading => Put(s, p, c.(at := if ok && !s.record.NoRecord? then Committing else Releasing))
    case Committing =>
      var accepted := s.record.ClaimedOnly? || s.record == ConsumedAs(c.consumption);
      Put(s, p, c.(at := if accepted && ok && effect then Reloading else Releasing)).(
        record := Committed(s.record, c.consumption, effect))
    case Reloading => Put(s, p, c.(at := Releasing, receipt := ok && s.record == ConsumedAs(c.consumption)))
    case Releasing =>
      Put(s, p, if ok && s.lock == Some(p) then c.(at := Unlocking) else c.(at := Answered, receipt := false))
    case Unlocking =>
      Put(s, p, c.(at := Answered, receipt := c.receipt && ok)).(lock := if effect then None else s.lock)
    case Answered => s
  }

  ghost predicate Enabled(s: State, e: Event) {
    match e
    case ClaimIt => s.record.NoRecord?
    case Call(p, _) => p !in s.callers
    case Advance(p, _, _) => p in s.callers
    case Crash(p) => p in s.callers && !s.callers[p].at.Answered?
  }

  ghost function Apply(s: State, e: Event): State
    requires Enabled(s, e)
  {
    match e
    case ClaimIt => s.(record := ClaimedOnly)
    case Call(p, consumption) => Put(s, p, Caller(consumption, Acquiring, false))
    case Advance(p, ok, effect) => Advanced(s, p, ok, effect)
    case Crash(p) => Put(s, p, s.callers[p].(at := Answered, receipt := false))
  }

  ghost predicate Step(s: State, e: Event, s': State) { Enabled(s, e) && s' == Apply(s, e) }

  ghost predicate Next(s: State, s': State) { exists e :: Step(s, e, s') }

  ghost predicate Run(run: seq<State>) {
    |run| > 0 && Init(run[0]) && forall k :: 0 <= k < |run| - 1 ==> Next(run[k], run[k + 1])
  }

  ghost predicate CallerInv(s: State, p: nat, c: Caller) {
    && (Inside(c.at) ==> s.lock == Some(p))
    && (c.receipt ==> s.record == ConsumedAs(c.consumption))
    && (c.at.Acquiring? ==> s.lock != Some(p))
  }

  ghost predicate Inv(s: State) {
    && (s.lock.Some? ==> s.lock.value in s.callers)
    && forall p :: p in s.callers ==> CallerInv(s, p, s.callers[p])
  }

  /** A consumption, once recorded, is never replaced. */
  predicate Follows(a: Record, b: Record) {
    match a case NoRecord => true case ClaimedOnly => !b.NoRecord? case ConsumedAs(_) => b == a
  }

  lemma StepKeeps(s: State, e: Event)
    requires Inv(s) && Enabled(s, e)
    ensures Inv(Apply(s, e)) && Follows(s.record, Apply(s, e).record)
  {
    var s' := Apply(s, e);
    forall p | p in s'.callers ensures CallerInv(s', p, s'.callers[p]) {
      if p in s.callers { assert CallerInv(s, p, s.callers[p]); }
      if e.Advance? { assert CallerInv(s, e.p, s.callers[e.p]); }
      if e.Crash? { assert CallerInv(s, e.p, s.callers[e.p]); }
    }
  }

  lemma {:induction false} RunKeeps(run: seq<State>, k: nat)
    requires Run(run) && k < |run|
    ensures Inv(run[k])
  {
    if k > 0 {
      RunKeeps(run, k - 1);
      assert Next(run[k - 1], run[(k - 1) + 1]);
      var e :| Step(run[k - 1], e, run[k]);
      StepKeeps(run[k - 1], e);
    }
  }

  /** At most one caller is between acquiring and releasing, and the lock is its own. */
  lemma OneInside(run: seq<State>, k: nat, p: nat, q: nat)
    requires Run(run) && k < |run|
    requires p in run[k].callers && Inside(run[k].callers[p].at) && q in run[k].callers && Inside(run[k].callers[q].at)
    ensures p == q && run[k].lock == Some(p)
  {
    RunKeeps(run, k);
    assert CallerInv(run[k], p, run[k].callers[p]) && CallerInv(run[k], q, run[k].callers[q]);
  }

  lemma {:induction false} RecordFollows(run: seq<State>, j: nat, k: nat)
    requires Run(run) && j <= k < |run|
    ensures Follows(run[j].record, run[k].record)
    decreases k - j
  {
    if j < k {
      RecordFollows(run, j, k - 1);
      RunKeeps(run, k - 1);
      assert Next(run[k - 1], run[(k - 1) + 1]);
      var e :| Step(run[k - 1], e, run[k]);
      StepKeeps(run[k - 1], e);
    }
  }

  /** A receipt says what is durable, for good: its consumption is recorded at every later point of the run, so all
      receipts ever returned for the authorization name one consumption. */
  lemma ReceiptsAgree(run: seq<State>, j: nat, k: nat, p: nat, q: nat)
    requires Run(run) && j <= k < |run|
    requires p in run[j].callers && run[j].callers[p].at.Answered? && run[j].callers[p].receipt
    ensures run[k].record == ConsumedAs(run[j].callers[p].consumption)
    ensures q in run[k].callers && run[k].callers[q].receipt ==>
              run[k].callers[q].consumption == run[j].callers[p].consumption
  {
    RunKeeps(run, j);
    RunKeeps(run, k);
    assert CallerInv(run[j], p, run[j].callers[p]);
    RecordFollows(run, j, k);
    if q in run[k].callers { assert CallerInv(run[k], q, run[k].callers[q]); }
  }

  lemma AbandonedStep(s: State, e: Event, p: nat)
    requires Inv(s) && Enabled(s, e) && s.lock == Some(p) && p in s.callers && s.callers[p].at.Answered?
    ensures Apply(s, e).lock == Some(p) && p in Apply(s, e).callers && Apply(s, e).callers[p].at.Answered?
  {
    if e.Advance? { assert CallerInv(s, e.p, s.callers[e.p]); }
  }

  /** A lock left behind is never reclaimed: once its caller is gone no call gets inside again. */
  lemma {:induction false} AbandonedForGood(run: seq<State>, j: nat, k: nat, p: nat, q: nat)
    requires Run(run) && j <= k < |run|
    requires run[j].lock == Some(p) && p in run[j].callers && run[j].callers[p].at.Answered?
    ensures run[k].lock == Some(p) && p in run[k].callers && run[k].callers[p].at.Answered?
    ensures q in run[k].callers ==> !Inside(run[k].callers[q].at)
    decreases k - j
  {
    if j < k {
      AbandonedForGood(run, j, k - 1, p, q);
      RunKeeps(run, k - 1);
      assert Next(run[k - 1], run[(k - 1) + 1]);
      var e :| Step(run[k - 1], e, run[k]);
      AbandonedStep(run[k - 1], e, p);
    }
    RunKeeps(run, k);
    if q in run[k].callers { assert CallerInv(run[k], q, run[k].callers[q]); }
  }

  // ---------------------------------------------------------------- a call left alone

  ghost function By(e: Event): State -> Option<State> {
    (s: State) => if Enabled(s, e) then Some(Apply(s, e)) else None
  }

  /** `p` takes `n` steps in a row, each succeeding. */
  ghost predicate Moves(s: State, p: nat, n: nat, s': State) { Repeated(By(Advance(p, true, true)), s, n, s') }

  /** The state in which caller `p` has come to `c`. */
  function Come(s: State, p: nat, c: Caller, record: Record, lock: Option<nat>): State {
    State(record, lock, s.callers[p := c])
  }

  lemma MovesOne(s: State, p: nat, c: Caller, c': Caller, record: Record, record': Record, lock: Option<nat>,
      lock': Option<nat>, m: State, n: nat)
    requires Moves(m, p, n, Come(s, p, c, record, lock))
    requires Advanced(Come(s, p, c, record, lock), p, true, true) == Put(Come(s, p, c, record', lock'), p, c')
    ensures Moves(m, p, n + 1, Come(s, p, c', record', lock'))
  {
    assert s.callers[p := c][p := c'] == s.callers[p := c'];
    RepeatedOnce(By(Advance(p, true, true)), m, n, Come(s, p, c, record, lock), Come(s, p, c', record', lock'));
  }

  /** Committing was accepted: the record is a claim, or already this consumption. */
  predicate Accepts(record: Record, consumption: string) {
    record.ClaimedOnly? || record == ConsumedAs(consumption)
  }

  lemma Enters(s: State, p: nat, c: Caller)
    requires c.at.Acquiring? && s.lock.None?
    ensures Moves(Come(s, p, c, s.record, None), p, 2,
                  Come(s, p, c.(at := if s.record.NoRecord? then Releasing else Committing), s.record, Some(p)))
  {
    var m := Come(s, p, c, s.record, None);
    RepeatedNone(By(Advance(p, true, true)), m);
    MovesOne(s, p, c, c.(at := Loading), s.record, s.record, None, Some(p), m, 0);
    MovesOne(s, p, c.(at := Loading), c.(at := if s.record.NoRecord? then Releasing else Committing),
             s.record, s.record, Some(p), Some(p), m, 1);
  }

  /** Giving the lock back; a call that has answered stays as it is. */
  lemma {:induction false} Leaves(s: State, p: nat, c: Caller, record: Record, m: State, n: nat, k: nat)
    requires Moves(m, p, n, Come(s, p, c, record, if c.at.Answered? then None else Some(p)))
    requires c.at.Releasing? || c.at.Unlocking? || c.at.Answered?
    requires k >= (if c.at.Releasing? then 2 else if c.at.Unlocking? then 1 else 0)
    ensures Moves(m, p, n + k, Come(s, p, c.(at := Answered), record, None))
    decreases k
  {
    if k > 0 {
      if c.at.Releasing? {
        MovesOne(s, p, c, c.(at := Unlocking), record, record, Some(p), Some(p), m, n);
        Leaves(s, p, c.(at := Unlocking), record, m, n + 1, k - 1);
      } else if c.at.Unlocking? {
        MovesOne(s, p, c, c.(at := Answered), record, record, Some(p), None, m, n);
        Leaves(s, p, c.(at := Answered), record, m, n + 1, k - 1);
      } else {
        MovesOne(s, p, c, c, record, record, None, None, m, n);
        Leaves(s, p, c, record, m, n + 1, k - 1);
      }
    }
  }

  lemma CommitsAlone(s: State, p: nat, c: Caller, m: State)
    requires Moves(m, p, 2, Come(s, p, c, s.record, Some(p))) && c.at.Committing? && !c.receipt
    ensures var record := Committed(s.record, c.consumption, true);
            Moves(m, p, 6, Come(s, p, c.(at := Answered, receipt := Accepts(s.record, c.consumption)), record, None))
  {
    var record := Committed(s.record, c.consumption, true);
    if Accepts(s.record, c.consumption) {
      MovesOne(s, p, c, c.(at := Reloading), s.record, record, Some(p), Some(p), m, 2);
      MovesOne(s, p, c.(at := Reloading), c.(at := Releasing, receipt := true), record, record, Some(p), Some(p), m, 3);
      Leaves(s, p, c.(at := Releasing, receipt := true), record, m, 4, 2);
    } else {
      MovesOne(s, p, c, c.(at := Releasing), s.record, record, Some(p), Some(p), m, 2);
      Leaves(s, p, c.(at := Releasing), record, m, 3, 3);
    }
  }

  /** A call that finds no lock and is left alone, every step succeeding, answers and gives its lock back; it answers
      with a receipt exactly when the authorization was claimed or already consumed as it asks, and then it is. */
  lemma CallFinishes(s: State, p: nat, consumption: string) returns (s': State)
    requires s.lock.None? && p !in s.callers
    ensures Enabled(s, Call(p, consumption)) && Moves(Apply(s, Call(p, consumption)), p, 6, s') && s'.lock.None?
    ensures p in s'.callers && s'.callers == s.callers[p := s'.callers[p]] && s'.callers[p].at.Answered?
    ensures s'.callers[p].receipt <==> s.record.ClaimedOnly? || s.record == ConsumedAs(consumption)
    ensures s'.callers[p].receipt <==> s'.record == ConsumedAs(consumption)
    ensures !s'.callers[p].receipt ==> s'.record == s.record
  {
    var c := Caller(consumption, Acquiring, false);
    var m := Come(s, p, c, s.record, None);
    Enters(s, p, c);
    if s.record.NoRecord? {
      s' := Come(s, p, c.(at := Answered), s.record, None);
      Leaves(s, p, c.(at := Releasing), s.record, m, 2, 4);
    } else {
      s' := Come(s, p, c.(at := Answered, receipt := Accepts(s.record, consumption)),
                 Committed(s.record, consumption, true), None);
      CommitsAlone(s, p, c.(at := Committing), m);
    }
  }
}
