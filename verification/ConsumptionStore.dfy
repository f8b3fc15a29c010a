/** Loading the authorization store under the witness, and replaying the committed chain. */
module ConsumptionStore {
  import opened Wrappers
  import opened StoreTransition
  import opened Witness

  /** One artifact in the store directory.  Unreadable covers unsafe files and content that does not parse. */
  datatype Artifact =
    | LockDirectory
    | Record(position: Fingerprint, envelope: Envelope)
    | UnreadableRecord(position: Fingerprint)
    | Foreign(name: string)

  /** The checks on one record against its position and the committed generation. */
  predicate Verifies(a: Artifact, committed: Pointer) {
    match a
    case LockDirectory => true
    case Record(position, e) =>
      && ShapeOk(e.base) && e.base.authorization == position
      && e.signature == Signed(e.base, e.storeRoot)
      && e.base.generation <= committed.generation
    case _ => false
  }

  function Bases(entries: seq<Artifact>): seq<Base> {
    if entries == [] then []
    else
      var n := |entries| - 1;
      var front := Bases(entries[..n]);
      if entries[n].Record? then front + [entries[n].envelope.base] else front
  }

  predicate DistinctGenerations(bases: seq<Base>) {
    forall j, k :: 0 <= j < k < |bases| ==> bases[j].generation != bases[k].generation
  }

  ghost predicate HoldsGeneration(bases: seq<Base>, g: nat) {
    exists k :: 0 <= k < |bases| && bases[k].generation == g
  }

  lemma HoldsMore(bases: seq<Base>, base: Base)
    ensures forall g :: HoldsGeneration(bases + [base], g) <==> HoldsGeneration(bases, g) || g == base.generation
    ensures !HoldsGeneration(bases, base.generation) && DistinctGenerations(bases) ==>
              DistinctGenerations(bases + [base])
  {
    var all := bases + [base];
    forall g ensures HoldsGeneration(all, g) <==> HoldsGeneration(bases, g) || g == base.generation {
      if HoldsGeneration(bases, g) {
        var k :| 0 <= k < |bases| && bases[k].generation == g;
        assert all[k].generation == g;
      }
      if g == base.generation { assert all[|bases|].generation == g; }
      if HoldsGeneration(all, g) && g != base.generation {
        var k :| 0 <= k < |all| && all[k].generation == g;
        assert bases[k].generation == g;
      }
    }
  }

  /** What a load accepts. */
  predicate Accepted(entries: seq<Artifact>, committed: Pointer) {
    && (forall k :: 0 <= k < |entries| ==> Verifies(entries[k], committed))
    && DistinctGenerations(Bases(entries))
    && ComputeStoreRoot(Bases(entries)) == Some(committed.storeRoot)
  }

  lemma {:induction false} BasesFront(entries: seq<Artifact>, i: nat)
    requires i <= |entries|
    ensures Bases(entries[..i]) <= Bases(entries)
    decreases |entries| - i
  {
    if i < |entries| {
      BasesFront(entries, i + 1);
      assert entries[..i + 1][..i] == entries[..i];
    } else {
      assert entries[..i] == entries;
    }
  }

  method LoadVerifiedStore(committed: Pointer, entries: seq<Artifact>) returns (r: Option<seq<Base>>)
    ensures r == if Accepted(entries, committed) then Some(Bases(entries)) else None
  {
    var bases: seq<Base> := [];
    var generations: set<nat> := {};
    for i := 0 to |entries|
      invariant forall k :: 0 <= k < i ==> Verifies(entries[k], committed)
      invariant bases == Bases(entries[..i]) && DistinctGenerations(bases)
      invariant forall g :: g in generations <==> HoldsGeneration(bases, g)
    {
      assert entries[..i + 1][..i] == entries[..i];
      BasesFront(entries, i + 1);
      if !Verifies(entries[i], committed) { return None; }
      if entries[i].Record? {
        var base := entries[i].envelope.base;
        assert Bases(entries[..i + 1]) == bases + [base];
        if base.generation in generations {
          assert HoldsGeneration(bases, base.generation);
          var k :| 0 <= k < |bases| && bases[k].generation == base.generation;
          assert Bases(entries)[k] == bases[k] && Bases(entries)[|bases|] == base;
          return None;
        }
        HoldsMore(bases, base);
        bases := bases + [base];
        generations := generations + {base.generation};
      }
    }
    assert entries[..|entries|] == entries;
    if ComputeStoreRoot(bases) != Some(committed.storeRoot) { return None; }
    r := Some(bases);
  }

  // ---------------------------------------------------------------- the committed chain

  /** The directory after publishing the transitions in order. */
  ghost function Replay(chain: seq<Envelope>): Directory {
    if chain == [] then map[]
    else
      var last := chain[|chain| - 1].base;
      Replay(chain[..|chain| - 1])[last.authorization := last]
  }

  ghost function HeadOf(chain: seq<Envelope>): Digest {
    if chain == [] then ZeroHead else OfEnvelope(chain[|chain| - 1])
  }

  const EMPTY_ROOT := OfRoot([])

  const BOOTSTRAP := Event(Committed, BootstrapKind, 0, ZeroHead, ZeroHead, EMPTY_ROOT, ZeroHead, 0, "")

  function PreparedEvent(e: Envelope): Event {
    Event(Prepared, e.base.kind, e.base.generation, e.base.previousHead, OfEnvelope(e), e.storeRoot, OfEnvelope(e),
          e.base.authorization, e.base.workspace)
  }

  function CommittedEventOf(e: Envelope): Event { PreparedEvent(e).(phase := Committed) }

  /** The pointer once every transition of `chain` is committed. */
  function PointerAfter(chain: seq<Envelope>): Pointer {
    if chain == [] then PointerTo(BOOTSTRAP) else PointerTo(CommittedEventOf(chain[|chain| - 1]))
  }

  predicate SameBinding(c: Claim, x: Consumption) {
    && x.claimFingerprint == OfClaim(c) && x.authorization == c.authorization && x.operationId == c.operationId
    && x.workspace == c.workspace && x.target == c.target && x.before == c.before && x.replacement == c.replacement
  }

  /** A claim takes a fresh position; a consumption replaces exactly its claim. */
  predicate Legal(d: Directory, p: Payload) {
    match p
    case Claimed(c) => c.authorization !in d
    case Consumed(x) =>
      x.authorization in d && d[x.authorization].payload.Claimed? && SameBinding(d[x.authorization].payload.claim, x)
  }

  ghost predicate Link(before: seq<Envelope>, e: Envelope) {
    && e.base == BaseEnvelope(|before| + 1, HeadOf(before), e.base.payload)
    && e.signature == Signed(e.base, e.storeRoot)
    && Legal(Replay(before), e.base.payload)
    && RootsTo(Replay(before)[e.base.authorization := e.base], e.storeRoot)
  }

  ghost predicate Chain(chain: seq<Envelope>) {
    forall k :: 0 <= k < |chain| ==> Link(chain[..k], chain[k])
  }

  lemma ChainFront(chain: seq<Envelope>, k: nat)
    requires Chain(chain) && k <= |chain|
    ensures Chain(chain[..k])
  {
    forall j | 0 <= j < k ensures Link(chain[..k][..j], chain[..k][j]) {
      assert chain[..k][..j] == chain[..j];
    }
  }

  lemma ChainRoot(chain: seq<Envelope>)
    requires Chain(chain)
    ensures RootsTo(Replay(chain), PointerAfter(chain).storeRoot)
  {
    if chain == [] {
      assert Lists([], map[]) && Commitments([]) == [];
      assert ComputeStoreRoot([]) == Some(EMPTY_ROOT);
    } else {
      assert Link(chain[..|chain| - 1], chain[|chain| - 1]);
    }
  }

  lemma ListsSomething(bases: seq<Base>) returns (d: Directory)
    requires DistinctPositions(bases)
    ensures Lists(bases, d)
  {
    d := map b | b in bases :: b.authorization := b;
  }

  /** Whenever a store loads under the pointer of a committed chain, its records are exactly the replay of the chain's
      transitions, whatever the directory held and whenever its files were read; an older or edited directory does not
      load. */
  lemma LoadedIsReplay(chain: seq<Envelope>, entries: seq<Artifact>)
    requires Chain(chain) && Accepted(entries, PointerAfter(chain))
    ensures Lists(Bases(entries), Replay(chain))
  {
    var bases := Bases(entries);
    RootDefined(bases);
    ChainRoot(chain);
    var d := ListsSomething(bases);
    assert RootsTo(d, PointerAfter(chain).storeRoot);
    RootsToUnique(d, Replay(chain), PointerAfter(chain).storeRoot);
  }

  // ---------------------------------------------------------------- lifecycle of one authorization

  /** Replaying keeps a record at its position unless a later transition of the same authorization replaces it. */
  lemma {:induction false} ReplayKeeps(chain: seq<Envelope>, k: nat)
    requires k < |chain|
    ensures chain[k].base.authorization in Replay(chain)
    ensures (forall j :: k < j < |chain| ==> chain[j].base.authorization != chain[k].base.authorization)
            ==> Replay(chain)[chain[k].base.authorization] == chain[k].base
  {
    var n := |chain| - 1;
    if k < n {
      assert forall j :: k < j < n ==> chain[..n][j] == chain[j];
      ReplayKeeps(chain[..n], k);
    }
  }

  /** Every record in a replay was put there by the last transition of its authorization. */
  lemma {:induction false} ReplayFrom(chain: seq<Envelope>, f: Fingerprint) returns (k: nat)
    requires f in Replay(chain)
    ensures k < |chain| && chain[k].base == Replay(chain)[f] && chain[k].base.authorization == f
    ensures forall j :: k < j < |chain| ==> chain[j].base.authorization != f
  {
    var n := |chain| - 1;
    if chain[n].base.authorization == f {
      k := n;
    } else {
      k := ReplayFrom(chain[..n], f);
    }
  }

  /** An authorization is claimed at most once in a chain. */
  lemma ClaimedOnce(chain: seq<Envelope>, j: nat, k: nat)
    requires Chain(chain) && j < k < |chain|
    requires chain[j].base.authorization == chain[k].base.authorization
    ensures chain[k].base.payload.Consumed?
  {
    assert Link(chain[..k], chain[k]);
    assert Link(chain[..j], chain[j]);
    ChainFront(chain, k);
    ReplayKeeps(chain[..k], j);
  }

  /** A record only moves from absent to claimed to consumed: two transitions of one authorization are a claim and then
      a consumption carrying exactly the claim's seven bound fields, and there is no third. */
  lemma Lifecycle(chain: seq<Envelope>, j: nat, k: nat)
    requires Chain(chain) && j < k < |chain|
    requires chain[j].base.authorization == chain[k].base.authorization
    ensures chain[j].base.payload.Claimed? && chain[k].base.payload.Consumed?
    ensures SameBinding(chain[j].base.payload.claim, chain[k].base.payload.consumption)
    ensures forall i :: 0 <= i < |chain| && chain[i].base.authorization == chain[j].base.authorization ==>
              i == j || i == k
  {
    var f := chain[j].base.authorization;
    ConsumesItsClaim(chain, j, k);
    forall i | 0 <= i < |chain| && chain[i].base.authorization == f ensures i == j || i == k {
      if i < j { ConsumesItsClaim(chain, i, j); }
      if j < i < k { ConsumesItsClaim(chain, i, k); ConsumesItsClaim(chain, j, i); }
      if k < i { ConsumesItsClaim(chain, k, i); }
    }
  }

  /** No record is consumed that was not claimed: every consumption has its claim before it. */
  lemma HasClaim(chain: seq<Envelope>, k: nat) returns (j: nat)
    requires Chain(chain) && k < |chain| && chain[k].base.payload.Consumed?
    ensures j < k && chain[j].base.authorization == chain[k].base.authorization
    ensures chain[j].base.payload.Claimed?
    ensures SameBinding(chain[j].base.payload.claim, chain[k].base.payload.consumption)
  {
    assert Link(chain[..k], chain[k]);
    j := ReplayFrom(chain[..k], chain[k].base.authorization);
    ConsumesItsClaim(chain, j, k);
  }

  lemma {:induction false} ConsumesItsClaim(chain: seq<Envelope>, j: nat, k: nat)
    requires Chain(chain) && j < k < |chain|
    requires chain[j].base.authorization == chain[k].base.authorization
    ensures chain[j].base.payload.Claimed? && chain[k].base.payload.Consumed?
    ensures SameBinding(chain[j].base.payload.claim, chain[k].base.payload.consumption)
    decreases k - j
  {
    var f := chain[k].base.authorization;
    ClaimedOnce(chain, j, k);
    assert Link(chain[..k], chain[k]);
    ChainFront(chain, k);
    ReplayKeeps(chain[..k], j);
    var last := ReplayFrom(chain[..k], f);
    if last != j {
      assert chain[..k][j].base.authorization == f;
      ConsumesItsClaim(chain, j, last);
    }
  }
}
