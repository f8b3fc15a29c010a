/** A step taken several times in a row. */
module Repetition {
  import opened Wrappers

  ghost predicate Takes<S>(next: S -> Option<S>, path: seq<S>, i: nat)
    requires i + 1 < |path|
  {
    next(path[i]) == Some(path[i + 1])
  }

  ghost predicate IsPath<S>(next: S -> Option<S>, path: seq<S>, s: S, n: nat, s': S) {
    && |path| == n + 1 && path[0] == s && path[n] == s'
    && forall i :: 0 <= i < n ==> Takes(next, path, i)
  }

  /** `n` steps of `next`, each of them possible, lead from `s` to `s'`. */
  ghost predicate Repeated<S(!new)>(next: S -> Option<S>, s: S, n: nat, s': S) {
    exists path :: IsPath(next, path, s, n, s')
  }

  lemma RepeatedNone<S(!new)>(next: S -> Option<S>, s: S)
    ensures Repeated(next, s, 0, s)
  {
    assert IsPath(next, [s], s, 0, s);
  }

  lemma RepeatedMore<S(!new)>(next: S -> Option<S>, s: S, n: nat, m: S, k: nat, s': S)
    requires Repeated(next, s, n, m) && Repeated(next, m, k, s')
    ensures Repeated(next, s, n + k, s')
  {
    var a :| IsPath(next, a, s, n, m);
    var b :| IsPath(next, b, m, k, s');
    var path := a + b[1..];
    forall i | 0 <= i < n + k ensures Takes(next, path, i) {
      if i < n { assert Takes(next, a, i); } else { assert Takes(next, b, i - n); }
    }
    assert IsPath(next, path, s, n + k, s');
  }

  lemma RepeatedOnce<S(!new)>(next: S -> Option<S>, s: S, n: nat, m: S, s': S)
    requires Repeated(next, s, n, m) && next(m) == Some(s')
    ensures Repeated(next, s, n + 1, s')
  {
    var a :| IsPath(next, a, s, n, m);
    var path := a + [s'];
    forall i | 0 <= i < n + 1 ensures Takes(next, path, i) {
      if i < n { assert Takes(next, a, i); }
    }
    assert IsPath(next, path, s, n + 1, s');
  }

  lemma RepeatedSingle<S(!new)>(next: S -> Option<S>, s: S, s': S)
    requires next(s) == Some(s')
    ensures Repeated(next, s, 1, s')
  {
    RepeatedNone(next, s);
    RepeatedOnce(next, s, 0, s, s');
  }

  /** The first of the steps and the rest of them. */
  lemma RepeatedFirst<S(!new)>(next: S -> Option<S>, s: S, n: nat, s': S) returns (m: S)
    requires Repeated(next, s, n, s') && n > 0
    ensures next(s) == Some(m) && Repeated(next, m, n - 1, s')
  {
    var a :| IsPath(next, a, s, n, s');
    m := a[1];
    assert Takes(next, a, 0);
    forall i | 0 <= i < n - 1 ensures Takes(next, a[1..], i) { assert Takes(next, a, i + 1); }
    assert IsPath(next, a[1..], m, n - 1, s');
  }
}
