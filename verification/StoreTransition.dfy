/** Records, digests and the whole-store root of the authorization store.

    A digest is injective: a `Digest` holds the value it was taken of.  Context constants (schemas, store id, epoch,
    repository, key id) are the same in every record and every check compares them to themselves, so they are not
    fields here; neither are fields that the program derives from the payload alone (payload digest, lifecycle state,
    human-authority reference). */
module StoreTransition {
  import opened Wrappers

  /** A 64-digit hexadecimal fingerprint, ordered as a number. */
  type Fingerprint = nat

  datatype Claim = Claim(
    authorization: Fingerprint, operationId: string, workspace: string, target: string,
    before: string, replacement: string)

  datatype Consumption = Consumption(
    claimFingerprint: Digest, authorization: Fingerprint, operationId: string, workspace: string, target: string,
    before: string, replacement: string,
    transactionId: string, journalId: string, effect: string, manifestAfter: string)

  datatype Payload = Claimed(claim: Claim) | Consumed(consumption: Consumption)

  datatype Kind = BootstrapKind | ClaimKind | ConsumeKind

  /** An envelope without its store root and signature. */
  datatype Base = Base(
    generation: nat, previousHead: Digest, workspace: string, authorization: Fingerprint, kind: Kind, payload: Payload)

  datatype Signature = Signed(base: Base, storeRoot: Digest) | Forged(text: string)

  datatype Envelope = Envelope(base: Base, storeRoot: Digest, signature: Signature)

  datatype Phase = Prepared | Committed | Aborted

  datatype Event = Event(
    phase: Phase, kind: Kind, generation: nat, previousHead: Digest, headDigest: Digest, storeRoot: Digest,
    transitionDigest: Digest, authorization: Fingerprint, workspace: string)

  datatype RootEntry = RootEntry(authorization: Fingerprint, commitment: Digest)

  datatype Digest =
    | ZeroHead
    | OfClaim(claim: Claim)
    | OfBase(base: Base)
    | OfEnvelope(envelope: Envelope)
    | OfEvent(event: Event)
    | OfRoot(entries: seq<RootEntry>)

  function AuthorizationOf(p: Payload): Fingerprint {
    match p case Claimed(c) => c.authorization case Consumed(c) => c.authorization
  }

  function WorkspaceOf(p: Payload): string {
    match p case Claimed(c) => c.workspace case Consumed(c) => c.workspace
  }

  function KindOf(p: Payload): Kind {
    match p case Claimed(_) => ClaimKind case Consumed(_) => ConsumeKind
  }

  function BaseEnvelope(generation: nat, previousHead: Digest, payload: Payload): Base {
    Base(generation, previousHead, WorkspaceOf(payload), AuthorizationOf(payload), KindOf(payload), payload)
  }

  predicate ShapeOk(b: Base) {
    && b.generation >= 1
    && AuthorizationOf(b.payload) == b.authorization && WorkspaceOf(b.payload) == b.workspace
    && KindOf(b.payload) == b.kind
  }

  // ---------------------------------------------------------------- the whole-store root

  function Insert(e: RootEntry, sorted: seq<RootEntry>): seq<RootEntry> {
    if sorted == [] then [e]
    else if e.authorization < sorted[0].authorization then [e] + sorted
    else [sorted[0]] + Insert(e, sorted[1..])
  }

  /** The entries by fingerprint; equal fingerprints keep their order. */
  function Sort(entries: seq<RootEntry>): seq<RootEntry> {
    if entries == [] then [] else Insert(entries[|entries| - 1], Sort(entries[..|entries| - 1]))
  }

  function Commitment(b: Base): RootEntry { RootEntry(b.authorization, OfBase(b)) }

  function Commitments(bases: seq<Base>): (r: seq<RootEntry>)
    ensures |r| == |bases| && forall k :: 0 <= k < |r| ==> r[k] == Commitment(bases[k])
  {
    seq(|bases|, k requires 0 <= k < |bases| => Commitment(bases[k]))
  }

  predicate DistinctNeighbours(sorted: seq<RootEntry>) {
    forall k :: 0 < k < |sorted| ==> sorted[k - 1].authorization != sorted[k].authorization
  }

  /** None where the program rejects duplicate authorization positions. */
  function ComputeStoreRoot(bases: seq<Base>): Option<Digest> {
    var sorted := Sort(Commitments(bases));
    if DistinctNeighbours(sorted) then Some(OfRoot(sorted)) else None
  }

  predicate Ascending(s: seq<RootEntry>) {
    forall j, k :: 0 <= j < k < |s| ==> s[j].authorization <= s[k].authorization
  }

  lemma {:induction false} InsertKeeps(e: RootEntry, s: seq<RootEntry>)
    ensures multiset(Insert(e, s)) == multiset(s) + multiset{e}
  {
    if s == [] || e.authorization < s[0].authorization {
    } else {
      InsertKeeps(e, s[1..]);
      assert s == [s[0]] + s[1..];
    }
  }

  lemma {:induction false} InsertSorts(e: RootEntry, s: seq<RootEntry>)
    requires Ascending(s)
    ensures Ascending(Insert(e, s))
  {
    if s == [] || e.authorization < s[0].authorization {
    } else {
      var t := Insert(e, s[1..]);
      InsertSorts(e, s[1..]);
      InsertKeeps(e, s[1..]);
      forall k | 0 <= k < |t| ensures s[0].authorization <= t[k].authorization {
        assert t[k] in multiset(t);
        if t[k] != e {
          assert t[k] in s[1..];
        }
      }
    }
  }

  lemma {:induction false} SortKeeps(s: seq<RootEntry>)
    ensures multiset(Sort(s)) == multiset(s)
  {
    if s != [] {
      var n := |s| - 1;
      SortKeeps(s[..n]);
      InsertKeeps(s[n], Sort(s[..n]));
      assert s == s[..n] + [s[n]];
    }
  }

  lemma {:induction false} SortAscends(s: seq<RootEntry>)
    ensures Ascending(Sort(s))
  {
    if s != [] {
      SortAscends(s[..|s| - 1]);
      InsertSorts(s[|s| - 1], Sort(s[..|s| - 1]));
    }
  }

  lemma SortSorts(s: seq<RootEntry>)
    ensures Ascending(Sort(s)) && multiset(Sort(s)) == multiset(s)
  {
    SortAscends(s);
    SortKeeps(s);
  }

  predicate Strict(s: seq<RootEntry>) {
    forall j, k :: 0 <= j < k < |s| ==> s[j].authorization < s[k].authorization
  }

  lemma {:induction false} NeighboursSuffice(s: seq<RootEntry>)
    requires Ascending(s)
    ensures DistinctNeighbours(s) <==> Strict(s)
  {
    if DistinctNeighbours(s) {
      forall j, k | 0 <= j < k < |s| ensures s[j].authorization < s[k].authorization {
        assert s[k - 1].authorization < s[k].authorization;
      }
    }
  }

  lemma LeastFirst(s: seq<RootEntry>, t: seq<RootEntry>)
    requires Strict(s) && Strict(t) && s != []
    requires forall e :: e in s <==> e in t
    ensures t != [] && s[0] == t[0]
    ensures forall e :: e in s[1..] <==> e in t[1..]
  {
    assert s[0] in s && s[0] in t;
    assert t[0] in t && t[0] in s;
    var a :| 0 <= a < |t| && t[a] == s[0];
    var b :| 0 <= b < |s| && s[b] == t[0];
    assert s[0] == t[0];
    forall e ensures e in s[1..] <==> e in s && e != s[0] {}
    forall e ensures e in t[1..] <==> e in t && e != t[0] {}
  }

  /** There is one strictly ascending sequence of given entries. */
  lemma {:induction false} StrictUnique(s: seq<RootEntry>, t: seq<RootEntry>)
    requires Strict(s) && Strict(t)
    requires forall e :: e in s <==> e in t
    ensures s == t
  {
    if s != [] {
      LeastFirst(s, t);
      StrictUnique(s[1..], t[1..]);
      assert s == [s[0]] + s[1..] && t == [t[0]] + t[1..];
    } else if t != [] {
      LeastFirst(t, s);
    }
  }

  lemma SortedContents(bases: seq<Base>)
    requires ComputeStoreRoot(bases).Some?
    ensures Strict(Sort(Commitments(bases)))
    ensures forall b :: b in bases <==> Commitment(b) in Sort(Commitments(bases))
    ensures forall e :: e in Sort(Commitments(bases)) ==> e.commitment.OfBase? && e == Commitment(e.commitment.base)
  {
    var c := Commitments(bases);
    SortSorts(c);
    NeighboursSuffice(Sort(c));
    forall e ensures e in Sort(c) <==> e in c {
      assert e in Sort(c) <==> e in multiset(Sort(c));
      assert e in c <==> e in multiset(c);
    }
    forall b | b in bases ensures Commitment(b) in c {
      var k :| 0 <= k < |bases| && bases[k] == b;
      assert c[k] == Commitment(b);
    }
  }

  predicate DistinctPositions(bases: seq<Base>) {
    forall j, k :: 0 <= j < k < |bases| ==> bases[j].authorization != bases[k].authorization
  }

  type Directory = map<Fingerprint, Base>

  /** `bases` is the directory's contents in some order, each record once. */
  ghost predicate Lists(bases: seq<Base>, d: Directory) {
    && (DistinctPositions(bases))
    && (forall k :: 0 <= k < |bases| ==> bases[k].authorization in d && d[bases[k].authorization] == bases[k])
    && (forall f :: f in d ==> d[f] in bases && d[f].authorization == f)
  }

  lemma RootDefined(bases: seq<Base>)
    ensures ComputeStoreRoot(bases).Some?
       <==> DistinctPositions(bases)
  {
    var c := Commitments(bases);
    SortSorts(c);
    var s := Sort(c);
    NeighboursSuffice(s);
    if Strict(s) {
      forall j, k | 0 <= j < k < |bases| ensures bases[j].authorization != bases[k].authorization {
        if bases[j].authorization == bases[k].authorization { assert Twice(c, j, k); Rearranged(c, s, j, k); }
      }
    } else {
      var a, b :| 0 <= a < b < |s| && s[a].authorization >= s[b].authorization;
      assert Twice(s, a, b);
      Rearranged(s, c, a, b);
    }
  }

  lemma SplitAt(s: seq<RootEntry>, j: nat, k: nat)
    requires j < k < |s|
    ensures multiset(s)
            == multiset(s[..j]) + multiset{s[j]} + multiset(s[j + 1..k]) + multiset{s[k]} + multiset(s[k + 1..])
  {
    assert s == s[..j] + [s[j]] + s[j + 1..k] + [s[k]] + s[k + 1..];
  }

  ghost predicate Twice(s: seq<RootEntry>, j: nat, k: nat) {
    j < k < |s| && s[j].authorization == s[k].authorization
  }

  /** Rearranging does not separate two entries with one fingerprint. */
  lemma Rearranged(s: seq<RootEntry>, t: seq<RootEntry>, j: nat, k: nat)
    requires multiset(s) == multiset(t) && Twice(s, j, k)
    ensures exists a: nat, b: nat :: Twice(t, a, b)
  {
    SplitAt(s, j, k);
    if s[j] == s[k] {
      assert multiset(t)[s[j]] >= 2;
      TwoIndices(t, s[j]);
    } else {
      assert s[j] in multiset(t) && s[k] in multiset(t);
      var a :| 0 <= a < |t| && t[a] == s[j];
      var b :| 0 <= b < |t| && t[b] == s[k];
      assert if a < b then Twice(t, a, b) else Twice(t, b, a);
    }
  }

  lemma TwoIndices(t: seq<RootEntry>, e: RootEntry)
    requires multiset(t)[e] >= 2
    ensures exists a: nat, b: nat :: Twice(t, a, b)
  {
    var a :| 0 <= a < |t| && t[a] == e;
    assert t == t[..a] + [e] + t[a + 1..];
    assert multiset(t) == multiset(t[..a]) + multiset{e} + multiset(t[a + 1..]);
    if e in multiset(t[..a]) {
      var b :| 0 <= b < a && t[..a][b] == e;
      assert Twice(t, b, a);
    } else {
      assert e in multiset(t[a + 1..]);
      var b :| 0 <= b < |t[a + 1..]| && t[a + 1..][b] == e;
      assert Twice(t, a, a + 1 + b);
    }
  }

  /** The root does not depend on the order in which the directory is read. */
  lemma RootIgnoresOrder(d: Directory, l: seq<Base>, m: seq<Base>)
    requires Lists(l, d) && Lists(m, d)
    ensures ComputeStoreRoot(l).Some? && ComputeStoreRoot(l) == ComputeStoreRoot(m)
  {
    RootDefined(l);
    RootDefined(m);
    SortedContents(l);
    SortedContents(m);
    forall e ensures e in Sort(Commitments(l)) <==> e in Sort(Commitments(m)) {
      if e.commitment.OfBase? { assert e.commitment.base in l <==> e.commitment.base in m; }
    }
    StrictUnique(Sort(Commitments(l)), Sort(Commitments(m)));
  }

  /** Equal roots come from equal directories. */
  lemma RootBindsContents(d: Directory, l: seq<Base>, e: Directory, m: seq<Base>)
    requires Lists(l, d) && Lists(m, e)
    requires ComputeStoreRoot(l) == ComputeStoreRoot(m)
    ensures d == e
  {
    RootDefined(l);
    SortedContents(l);
    SortedContents(m);
    forall b ensures b in l <==> b in m {
      assert b in l <==> Commitment(b) in Sort(Commitments(l));
    }
    forall f ensures f in d <==> f in e {
      if f in d { assert d[f] in l && d[f] in m; }
      if f in e { assert e[f] in m && e[f] in l; }
    }
    forall f | f in d ensures d[f] == e[f] { assert d[f] in l && d[f] in m; }
  }

  /** `root` is the whole-store root of directory `d`. */
  ghost predicate RootsTo(d: Directory, root: Digest) {
    exists l :: Lists(l, d) && ComputeStoreRoot(l) == Some(root)
  }

  lemma RootsToUnique(d: Directory, e: Directory, root: Digest)
    requires RootsTo(d, root) && RootsTo(e, root)
    ensures d == e
  {
    var l :| Lists(l, d) && ComputeStoreRoot(l) == Some(root);
    var m :| Lists(m, e) && ComputeStoreRoot(m) == Some(root);
    RootBindsContents(d, l, e, m);
  }

  // ---------------------------------------------------------------- building a transition

  function Without(bases: seq<Base>, f: Fingerprint): (r: seq<Base>)
    ensures forall b :: b in r <==> b in bases && b.authorization != f
  {
    if bases == [] then []
    else if bases[0].authorization == f then Without(bases[1..], f)
    else [bases[0]] + Without(bases[1..], f)
  }

  /** `buildEnvelope`: the signed transition that adds `payload` to the verified records, or replaces the record at
      `replacing`; None where the duplicate position is rejected. */
  function BuildEnvelope(bases: seq<Base>, generation: nat, head: Digest, payload: Payload,
      replacing: Option<Fingerprint>)
    : Option<Envelope>
  {
    var base := BaseEnvelope(generation + 1, head, payload);
    var kept := if replacing.Some? then Without(bases, replacing.value) else bases;
    var root := ComputeStoreRoot(kept + [base]);
    if root.None? then None else Some(Envelope(base, root.value, Signed(base, root.value)))
  }

  lemma {:induction false} WithoutLists(bases: seq<Base>, d: Directory, f: Fingerprint)
    requires Lists(bases, d)
    ensures Lists(Without(bases, f), d - {f})
  {
    WithoutDistinct(bases, f);
    var r := Without(bases, f);
    forall k | 0 <= k < |r| ensures r[k].authorization in d - {f} && (d - {f})[r[k].authorization] == r[k] {
      assert r[k] in r && r[k] in bases;
    }
  }

  lemma {:induction false} WithoutDistinct(bases: seq<Base>, f: Fingerprint)
    requires DistinctPositions(bases)
    ensures DistinctPositions(Without(bases, f))
  {
    if bases != [] {
      WithoutDistinct(bases[1..], f);
      var rest := Without(bases[1..], f);
      forall k | 0 <= k < |rest| ensures rest[k].authorization != bases[0].authorization {
        assert rest[k] in rest && rest[k] in bases[1..];
        var j :| 0 <= j < |bases[1..]| && bases[1..][j] == rest[k];
        assert bases[j + 1].authorization != bases[0].authorization;
      }
    }
  }

  lemma ListsMore(bases: seq<Base>, d: Directory, b: Base)
    requires Lists(bases, d) && b.authorization !in d
    ensures Lists(bases + [b], d[b.authorization := b])
  {
    var all := bases + [b];
    forall f | f in d ensures d[f] in all { assert d[f] in bases; }
    assert all[|bases|] == b;
  }

  lemma DuplicateRejected(bases: seq<Base>, d: Directory, b: Base)
    requires Lists(bases, d) && b.authorization in d
    ensures ComputeStoreRoot(bases + [b]).None?
  {
    var all := bases + [b];
    RootDefined(all);
    var k :| 0 <= k < |bases| && bases[k] == d[b.authorization];
    assert all[k].authorization == all[|bases|].authorization;
  }

  /** The root written into a transition is the root of the directory its publication leaves: computed over the
      unsigned base, it is what recomputing it from the published files yields. */
  lemma BuiltRoot(bases: seq<Base>, d: Directory, generation: nat, head: Digest, payload: Payload,
      replacing: Option<Fingerprint>)
    requires Lists(bases, d)
    requires replacing == None || replacing == Some(AuthorizationOf(payload))
    ensures var built := BuildEnvelope(bases, generation, head, payload, replacing);
            var f := AuthorizationOf(payload);
            && (built.None? <==> replacing.None? && f in d)
            && (built.Some? ==> RootsTo(d[f := built.value.base], built.value.storeRoot))
  {
    var f := AuthorizationOf(payload);
    var base := BaseEnvelope(generation + 1, head, payload);
    var kept := if replacing.Some? then Without(bases, f) else bases;
    var rest := if replacing.Some? then d - {f} else d;
    if replacing.Some? { WithoutLists(bases, d, f); }
    if f in rest {
      DuplicateRejected(kept, rest, base);
    } else {
      ListsMore(kept, rest, base);
      assert rest[f := base] == d[f := base];
      RootDefined(kept + [base]);
    }
  }
}
