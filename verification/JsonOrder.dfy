/** The order of members in canonical text. */
module JsonOrder {
  import opened Json
  import opened JsonLaws

  /** At the first unit in which they differ `a` has ended or is the smaller one (section 3.2.3 of RFC 8785). */
  ghost predicate DiffersAt(a: Text, b: Text, k: nat) {
    && k <= |a| && k < |b| && a[..k] == b[..k] && (k == |a| || a[k] < b[k])
  }

  ghost predicate Precedes(a: Text, b: Text) { exists k: nat :: DiffersAt(a, b, k) }

  lemma {:induction false} BelowPrecedes(a: Text, b: Text)
    ensures Below(a, b) <==> Precedes(a, b)
  {
    if b == [] || a == [] || a[0] != b[0] {
      if Below(a, b) { assert DiffersAt(a, b, 0); }
      if Precedes(a, b) {
        var k: nat :| DiffersAt(a, b, k);
        if k > 0 { assert a[..k][0] == b[..k][0]; }
      }
    } else {
      BelowPrecedes(a[1..], b[1..]);
      if Below(a, b) {
        var k: nat :| DiffersAt(a[1..], b[1..], k);
        assert a[..k + 1] == [a[0]] + a[1..][..k] && b[..k + 1] == [b[0]] + b[1..][..k];
        assert DiffersAt(a, b, k + 1);
      }
      if Precedes(a, b) {
        var k: nat :| DiffersAt(a, b, k);
        assert a[1..][..k - 1] == a[..k][1..] && b[1..][..k - 1] == b[..k][1..];
        assert DiffersAt(a[1..], b[1..], k - 1);
      }
    }
  }

  function KeyAt(fields: Fields, i: nat): Text
    requires i < Size(fields)
  {
    if i == 0 then fields.key else KeyAt(fields.rest, i - 1)
  }

  lemma {:induction false} KeyIn(fields: Fields, i: nat)
    requires i < Size(fields)
    ensures Has(fields, KeyAt(fields, i))
  {
    if i > 0 { KeyIn(fields.rest, i - 1); }
  }

  lemma {:induction false} AscendingAt(fields: Fields, i: nat, j: nat)
    requires Ascending(fields) && i < j < Size(fields)
    ensures Below(KeyAt(fields, i), KeyAt(fields, j))
  {
    if i == 0 {
      KeyIn(fields.rest, j - 1);
      AboveFirst(fields, KeyAt(fields, j));
    } else {
      AscendingAt(fields.rest, i - 1, j - 1);
    }
  }

  /** The members that canonical text prints are those of the object, each once, in the order of RFC 8785. */
  lemma KeysInOrder(fields: Fields, i: nat, j: nat)
    requires ProperFields(fields) && i < j < Size(fields)
    ensures Size(NormalFields(fields)) == Size(fields)
    ensures Precedes(KeyAt(NormalFields(fields), i), KeyAt(NormalFields(fields), j))
  {
    NormalHas(fields, []);
    NormalAscends(fields);
    AscendingAt(NormalFields(fields), i, j);
    BelowPrecedes(KeyAt(NormalFields(fields), i), KeyAt(NormalFields(fields), j));
  }
}
