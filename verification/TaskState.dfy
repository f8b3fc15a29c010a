/** The durable task log: an immutable state that every transition replaces, and the exact set of logs it can hold. */
module TaskState {
  import opened Wrappers

  datatype Kind = Progress | EffectCommitted | Stopped | Resumed | Completed | Failed | Unqualified(text: string)

  datatype Status = Active | IsStopped | IsCompleted | IsFailed

  datatype Boundary = AuthorizedTaskEnvelope | HumanResumeRequired | TerminalBoundary

  const MAX_TRANSITIONS := 256
  const RESUME_SUMMARY := "Exact durable task state resumed under verified unexpired authority."

  /** Digests are injective: the digest of a body is that body. */
  datatype Digest = OfTransition(transition: Body) | OfState(state: Content) | Forged(text: string)

  datatype Body = Body(
    taskId: string, sequence: nat, kind: Kind, summary: string, at: int, effect: Option<string>,
    previous: Option<Digest>)

  datatype Transition = Transition(body: Body, fingerprint: Digest)

  datatype Authorization = Authorization(fingerprint: string, proposal: string, workspace: string, expiresAt: int)

  /** What a log starts from; times are milliseconds of canonical timestamps. */
  datatype Creation = Creation(taskId: string, authorization: Authorization, createdAt: int)

  datatype Content = Content(
    origin: Creation, status: Status, updatedAt: int, resumeCount: nat, transitions: seq<Transition>,
    effects: seq<string>, boundary: Boundary)

  datatype State = State(content: Content, fingerprint: Digest)

  /** A field is None where its own shape check fails; an absent effect is Some(None). */
  datatype Input = Input(kind: Kind, at: Option<int>, summary: Option<string>, effect: Option<Option<string>>)

  predicate Terminal(s: Status) { s.IsCompleted? || s.IsFailed? }

  predicate Valid(s: State) { |s.content.transitions| <= MAX_TRANSITIONS && s.fingerprint == OfState(s.content) }

  function Sealed(c: Content): State { State(c, OfState(c)) }

  function Created(c: Creation): State {
    Sealed(Content(c, Active, c.createdAt, 0, [], [], AuthorizedTaskEnvelope))
  }

  function After(kind: Kind): Status {
    match kind case Stopped => IsStopped case Completed => IsCompleted case Failed => IsFailed case _ => Active
  }

  function NextBoundary(kind: Kind, current: Boundary): Boundary {
    match kind
    case Stopped => HumanResumeRequired
    case Resumed => AuthorizedTaskEnvelope
    case Completed => TerminalBoundary
    case Failed => TerminalBoundary
    case _ => current
  }

  /** `appendTransition`; None is any thrown error. */
  function Append(s: State, input: Input, resumeVerified: bool): Option<State> {
    var c := s.content;
    if !Valid(s) || Terminal(c.status) || |c.transitions| >= MAX_TRANSITIONS then None
    else if input.kind.Unqualified? || (input.kind.Resumed? && !resumeVerified) then None
    else if input.at.None? || input.at.value < c.updatedAt || input.summary.None? || input.effect.None? then None
    else
      var effect := input.effect.value;
      if input.kind.EffectCommitted? != effect.Some? || (effect.Some? && effect.value in c.effects) then None
      else
        var sequence := |c.transitions| + 1;
        var previous := if sequence == 1 then None else Some(c.transitions[sequence - 2].fingerprint);
        var body := Body(c.origin.taskId, sequence, input.kind, input.summary.value, input.at.value, effect, previous);
        Some(Sealed(Content(
          c.origin, After(input.kind), input.at.value, c.resumeCount + (if input.kind.Resumed? then 1 else 0),
          c.transitions + [Transition(body, OfTransition(body))],
          if effect.Some? then c.effects + [effect.value] else c.effects,
          NextBoundary(input.kind, c.boundary))))
  }

  function Resume(s: State, authorization: Authorization, workspace: string, at: Option<int>): Option<State> {
    var o := s.content.origin.authorization;
    if !Valid(s) || at.None? || s.content.status != IsStopped then None
    else if workspace != o.workspace || authorization.workspace != o.workspace then None
    else if authorization.fingerprint != o.fingerprint || authorization.proposal != o.proposal then None
    else if at.value >= o.expiresAt then None
    else Append(s, Input(Resumed, at, Some(RESUME_SUMMARY), Some(None)), true)
  }

  // ---------------------------------------------------------------- what a log determines

  function BoundaryOf(log: seq<Transition>): Boundary {
    if log == [] then AuthorizedTaskEnvelope
    else NextBoundary(log[|log| - 1].body.kind, BoundaryOf(log[..|log| - 1]))
  }

  function EffectsOf(log: seq<Transition>): seq<string> {
    if log == [] then []
    else
      var effect := log[|log| - 1].body.effect;
      if effect.Some? then EffectsOf(log[..|log| - 1]) + [effect.value] else EffectsOf(log[..|log| - 1])
  }

  function ResumesOf(log: seq<Transition>): nat {
    if log == [] then 0 else ResumesOf(log[..|log| - 1]) + (if log[|log| - 1].body.kind.Resumed? then 1 else 0)
  }

  function StatusOf(log: seq<Transition>): Status {
    if log == [] then Active else After(log[|log| - 1].body.kind)
  }

  function LastTime(c: Creation, log: seq<Transition>): int {
    if log == [] then c.createdAt else log[|log| - 1].body.at
  }

  /** The state a log stands for. */
  function Folded(c: Creation, log: seq<Transition>): State {
    Sealed(Content(c, StatusOf(log), LastTime(c, log), ResumesOf(log), log, EffectsOf(log), BoundaryOf(log)))
  }

  /** What the transition at `k` must be, given the ones before: numbered and linked without a gap, no earlier than the
      one before, no effect twice, nothing after a terminal one, and a RESUMED only directly after a STOPPED and before
      the authorization expires. */
  predicate LawfulAt(c: Creation, log: seq<Transition>, k: nat)
    requires k < |log|
  {
    var b := log[k].body;
    && log[k].fingerprint == OfTransition(b) && b.taskId == c.taskId && b.sequence == k + 1
    && b.previous == (if k == 0 then None else Some(log[k - 1].fingerprint))
    && b.at >= LastTime(c, log[..k]) && !b.kind.Unqualified?
    && !Terminal(StatusOf(log[..k]))
    && (b.effect.Some? <==> b.kind.EffectCommitted?)
    && (b.effect.Some? ==> b.effect.value !in EffectsOf(log[..k]))
    && (b.kind.Resumed? ==>
          k > 0 && log[k - 1].body.kind.Stopped? && b.at < c.authorization.expiresAt && b.summary == RESUME_SUMMARY)
  }

  ghost predicate Lawful(c: Creation, log: seq<Transition>) {
    |log| <= MAX_TRANSITIONS && forall k :: 0 <= k < |log| ==> LawfulAt(c, log, k)
  }

  // ---------------------------------------------------------------- reachable states

  datatype Step =
    | Appending(input: Input)
    | Resuming(authorization: Authorization, workspace: string, at: Option<int>)

  function Taken(s: State, step: Step): Option<State> {
    match step
    case Appending(input) => Append(s, input, false)
    case Resuming(authorization, workspace, at) => Resume(s, authorization, workspace, at)
  }

  /** The state after a sequence of steps of which the refused ones changed nothing. */
  function Reached(c: Creation, steps: seq<Step>): State {
    if steps == [] then Created(c)
    else
      var s := Reached(c, steps[..|steps| - 1]);
      var t := Taken(s, steps[|steps| - 1]);
      if t.Some? then t.value else s
  }

  lemma LawfulSnoc(c: Creation, log: seq<Transition>, t: Transition)
    requires Lawful(c, log) && |log| < MAX_TRANSITIONS
    ensures Lawful(c, log + [t]) <==> LawfulAt(c, log + [t], |log|)
  {
    forall k | 0 <= k < |log| ensures LawfulAt(c, log + [t], k) {
      assert LawfulAt(c, log, k);
      assert (log + [t])[..k] == log[..k];
    }
  }

  /** A step that is taken adds one transition to the log and leaves the state that log stands for. */
  lemma TakenFolds(c: Creation, log: seq<Transition>, step: Step)
    requires Lawful(c, log) && Taken(Folded(c, log), step).Some?
    ensures var t := Taken(Folded(c, log), step).value;
            && |t.content.transitions| == |log| + 1 && t.content.transitions[..|log|] == log
            && Lawful(c, t.content.transitions) && t == Folded(c, t.content.transitions)
  {
    var t := Taken(Folded(c, log), step).value;
    var last := t.content.transitions[|log|];
    assert t.content.transitions == log + [last];
    assert (log + [last])[..|log|] == log;
    LawfulSnoc(c, log, last);
  }

  /** Every reachable state is the fold of its own log, and that log is lawful. */
  lemma {:induction false} ReachedIsFolded(c: Creation, steps: seq<Step>)
    ensures Lawful(c, Reached(c, steps).content.transitions)
    ensures Reached(c, steps) == Folded(c, Reached(c, steps).content.transitions)
  {
    if steps != [] {
      var front := steps[..|steps| - 1];
      ReachedIsFolded(c, front);
      if Taken(Reached(c, front), steps[|steps| - 1]).Some? {
        TakenFolds(c, Reached(c, front).content.transitions, steps[|steps| - 1]);
      }
    }
  }

  /** The step that writes a given transition. */
  function StepFor(c: Creation, t: Transition): Step {
    var b := t.body;
    if b.kind.Resumed? then Resuming(c.authorization, c.authorization.workspace, Some(b.at))
    else Appending(Input(b.kind, Some(b.at), Some(b.summary), Some(b.effect)))
  }

  lemma StepWrites(c: Creation, log: seq<Transition>, t: Transition)
    requires |log| < MAX_TRANSITIONS && LawfulAt(c, log + [t], |log|)
    ensures Taken(Folded(c, log), StepFor(c, t)) == Some(Folded(c, log + [t]))
  {
    assert (log + [t])[..|log|] == log;
  }

  lemma LawfulFront(c: Creation, log: seq<Transition>)
    requires Lawful(c, log) && log != []
    ensures Lawful(c, log[..|log| - 1]) && LawfulAt(c, log, |log| - 1)
  {
    var front := log[..|log| - 1];
    forall k | 0 <= k < |front| ensures LawfulAt(c, front, k) {
      assert LawfulAt(c, log, k);
      assert front[..k] == log[..k];
    }
  }

  lemma ReachedNext(c: Creation, steps: seq<Step>, step: Step)
    requires Taken(Reached(c, steps), step).Some?
    ensures Reached(c, steps + [step]) == Taken(Reached(c, steps), step).value
  {
    assert (steps + [step])[..|steps|] == steps;
  }

  /** Conversely every lawful log is reached, by writing its transitions one after the other. */
  lemma {:induction false} LawfulIsReached(c: Creation, log: seq<Transition>)
    requires Lawful(c, log)
    ensures Reached(c, StepsFor(c, log)) == Folded(c, log)
  {
    if log != [] {
      var front, t := log[..|log| - 1], log[|log| - 1];
      LawfulFront(c, log);
      LawfulIsReached(c, front);
      assert front + [t] == log;
      StepWrites(c, front, t);
      ReachedNext(c, StepsFor(c, front), StepFor(c, t));
    }
  }

  function StepsFor(c: Creation, log: seq<Transition>): (steps: seq<Step>)
    ensures |steps| == |log|
  {
    if log == [] then [] else StepsFor(c, log[..|log| - 1]) + [StepFor(c, log[|log| - 1])]
  }

  // ---------------------------------------------------------------- what a state says of its log

  predicate EndsWith(log: seq<Transition>, kind: Kind) { log != [] && log[|log| - 1].body.kind == kind }

  /** The status tells how the log ends, and a log that ended takes no further step. */
  lemma StatusMeans(c: Creation, steps: seq<Step>, step: Step)
    ensures var s := Reached(c, steps).content;
            && (s.status.IsCompleted? <==> EndsWith(s.transitions, Completed))
            && (s.status.IsFailed? <==> EndsWith(s.transitions, Failed))
            && (s.status.IsStopped? <==> EndsWith(s.transitions, Stopped))
    ensures var s := Reached(c, steps);
            EndsWith(s.content.transitions, Completed) || EndsWith(s.content.transitions, Failed) ==>
              Taken(s, step).None? && s.content.boundary.TerminalBoundary?
  {
    ReachedIsFolded(c, steps);
  }

  predicate MovesBoundary(kind: Kind) { kind.Stopped? || kind.Resumed? || kind.Completed? || kind.Failed? }

  /** The last transition that moves the boundary is a STOPPED one. */
  predicate Halted(log: seq<Transition>) {
    exists k :: 0 <= k < |log| && log[k].body.kind.Stopped?
                && forall j :: k < j < |log| ==> !MovesBoundary(log[j].body.kind)
  }

  lemma {:induction false} HaltedMeans(log: seq<Transition>)
    ensures BoundaryOf(log).HumanResumeRequired? <==> Halted(log)
  {
    if log != [] {
      var n := |log| - 1;
      HaltedMeans(log[..n]);
      if MovesBoundary(log[n].body.kind) {
        if Halted(log) {
          var k :| 0 <= k < |log| && log[k].body.kind.Stopped?
                   && forall j :: k < j < |log| ==> !MovesBoundary(log[j].body.kind);
          assert k == n;
        }
      } else {
        if Halted(log) {
          var k :| 0 <= k < |log| && log[k].body.kind.Stopped?
                   && forall j :: k < j < |log| ==> !MovesBoundary(log[j].body.kind);
          assert log[..n][k].body.kind.Stopped?;
        }
        if Halted(log[..n]) {
          var k :| 0 <= k < n && log[..n][k].body.kind.Stopped?
                   && forall j :: k < j < n ==> !MovesBoundary(log[..n][j].body.kind);
          assert forall j :: k < j < n ==> log[..n][j] == log[j];
          assert log[k].body.kind.Stopped?;
        }
      }
    }
  }

  /** A human is asked to resume exactly while a STOPPED transition has no RESUMED or final one after it. */
  lemma BoundaryMeans(c: Creation, steps: seq<Step>)
    ensures var s := Reached(c, steps).content;
            s.boundary.HumanResumeRequired? <==> Halted(s.transitions)
  {
    ReachedIsFolded(c, steps);
    HaltedMeans(Reached(c, steps).content.transitions);
  }

  // ---------------------------------------------------------------- consequences

  lemma {:induction false} EffectsListed(log: seq<Transition>, f: string)
    ensures f in EffectsOf(log) <==> exists k :: 0 <= k < |log| && log[k].body.effect == Some(f)
  {
    if log != [] {
      var n := |log| - 1;
      EffectsListed(log[..n], f);
      if f in EffectsOf(log[..n]) {
        var k :| 0 <= k < n && log[..n][k].body.effect == Some(f);
        assert log[k].body.effect == Some(f);
      }
      if k :| 0 <= k < |log| && log[k].body.effect == Some(f) {
        if k < n { assert log[..n][k].body.effect == Some(f); }
      }
    }
  }

  /** No effect is committed twice, in any reachable log. */
  lemma NoEffectTwice(c: Creation, steps: seq<Step>, j: nat, k: nat)
    requires var log := Reached(c, steps).content.transitions;
             j < k < |log| && log[j].body.effect.Some? && log[k].body.effect.Some?
    ensures var log := Reached(c, steps).content.transitions; log[j].body.effect != log[k].body.effect
  {
    ReachedIsFolded(c, steps);
    var log := Reached(c, steps).content.transitions;
    assert LawfulAt(c, log, k);
    EffectsListed(log[..k], log[k].body.effect.value);
    assert log[..k][j] == log[j];
  }

  /** A committed effect is exactly one that some transition of the log committed. */
  lemma CommittedMeans(c: Creation, steps: seq<Step>, f: string)
    ensures var s := Reached(c, steps).content;
            f in s.effects <==> exists k :: 0 <= k < |s.transitions| && s.transitions[k].body.effect == Some(f)
  {
    ReachedIsFolded(c, steps);
    EffectsListed(Reached(c, steps).content.transitions, f);
  }

  /** Times never go back along a reachable log. */
  lemma {:induction false} TimesAscend(c: Creation, log: seq<Transition>, j: nat, k: nat)
    requires Lawful(c, log) && j <= k < |log|
    ensures c.createdAt <= log[j].body.at <= log[k].body.at
    decreases k
  {
    assert LawfulAt(c, log, k);
    if k > 0 {
      assert log[..k][k - 1] == log[k - 1];
      TimesAscend(c, log, if j == k then k - 1 else j, k - 1);
    }
  }
}
