/** The order Python's `sorted` puts strings in: lexicographic by code point,
    a proper prefix first. `SortedFromSet` is `sorted(list(s))` for a set of
    strings. */
module StringOrder {

  /** `a` comes no later than `b`. */
  predicate NoLater(a: string, b: string)
    decreases |a|
  {
    a == [] || (b != [] && (a[0] < b[0] || (a[0] == b[0] && NoLater(a[1..], b[1..]))))
  }

  /** `a` comes strictly before `b`. */
  predicate Before(a: string, b: string) {
    NoLater(a, b) && a != b
  }

  /** A sequence of strings in strictly ascending order (sorted, no duplicates). */
  predicate StrictlyAscending(s: seq<string>) {
    forall i, j :: 0 <= i < j < |s| ==> Before(s[i], s[j])
  }

  lemma {:induction false} NoLaterTotal(a: string, b: string)
    ensures NoLater(a, b) || NoLater(b, a)
    decreases |a|
  {
    if a != [] && b != [] && a[0] == b[0] {
      NoLaterTotal(a[1..], b[1..]);
    }
  }

  lemma {:induction false} NoLaterTransitive(a: string, b: string, c: string)
    requires NoLater(a, b) && NoLater(b, c)
    ensures NoLater(a, c)
    decreases |a|
  {
    if a != [] && a[0] == b[0] && b[0] == c[0] {
      NoLaterTransitive(a[1..], b[1..], c[1..]);
    }
  }

  lemma {:induction false} NoLaterAntisymmetric(a: string, b: string)
    requires NoLater(a, b) && NoLater(b, a)
    ensures a == b
    decreases |a|
  {
    if a != [] {
      NoLaterAntisymmetric(a[1..], b[1..]);
      assert a == [a[0]] + a[1..] && b == [b[0]] + b[1..];
    }
  }

  /** Every non-empty finite set of strings has a least element. */
  lemma {:induction false} LeastExists(t: set<string>)
    requires t != {}
    ensures exists m :: m in t && forall y :: y in t ==> NoLater(m, y)
    decreases |t|
  {
    var x :| x in t;
    var rest := t - {x};
    if rest == {} {
      assert t == {x};
      assert NoLater(x, x) by { NoLaterTotal(x, x); }
    } else {
      LeastExists(rest);
      var m :| m in rest && forall y :: y in rest ==> NoLater(m, y);
      NoLaterTotal(m, x);
      if NoLater(m, x) {
        assert forall y :: y in t ==> NoLater(m, y);
      } else {
        forall y | y in t ensures NoLater(x, y) {
          if y != x {
            NoLaterTransitive(x, m, y);
          } else {
            NoLaterTotal(x, x);
          }
        }
      }
    }
  }

  /** `sorted(list(s))`: the members of `s`, each once, in ascending order. */
  method SortedFromSet(s: set<string>) returns (r: seq<string>)
    ensures StrictlyAscending(r)
    ensures forall x :: x in r <==> x in s
    ensures |r| == |s|
  {
    var rest := s;
    r := [];
    while rest != {}
      invariant rest <= s
      invariant forall x :: x in r <==> x in s && x !in rest
      invariant StrictlyAscending(r)
      invariant forall i, y :: 0 <= i < |r| && y in rest ==> Before(r[i], y)
      invariant |r| + |rest| == |s|
      decreases |rest|
    {
      LeastExists(rest);
      var m :| m in rest && forall y :: y in rest ==> NoLater(m, y);
      r := r + [m];
      rest := rest - {m};
    }
  }
}
