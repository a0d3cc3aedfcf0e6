/** Iteration order of a `std::map` keyed by strings. */
module SortedKeys {

  /** Lexicographic order by character code. */
  predicate Before(a: string, b: string) {
    b != "" && (a == "" || a[0] < b[0] || (a[0] == b[0] && Before(a[1..], b[1..])))
  }

  lemma {:induction false} BeforeTotal(a: string, b: string)
    ensures a == b || Before(a, b) || Before(b, a)
    ensures !(Before(a, b) && Before(b, a)) && !Before(a, a)
    decreases |a|
  {
    if a != "" {
      BeforeTotal(a[1..], a[1..]);
      if b != "" {
        BeforeTotal(a[1..], b[1..]);
        assert a == [a[0]] + a[1..] && b == [b[0]] + b[1..];
      }
    }
  }

  lemma {:induction false} BeforeTransitive(a: string, b: string, c: string)
    requires Before(a, b) && Before(b, c)
    ensures Before(a, c)
    decreases |a|
  {
    if a != "" && a[0] == b[0] == c[0] {
      BeforeTransitive(a[1..], b[1..], c[1..]);
    }
  }

  predicate IsFirst(k: string, keys: set<string>) {
    k in keys && forall j :: j in keys && j != k ==> Before(k, j)
  }

  lemma {:induction false} FirstExists(keys: set<string>) returns (k: string)
    requires keys != {}
    ensures IsFirst(k, keys)
    decreases |keys|
  {
    var x :| x in keys;
    var rest := keys - {x};
    assert forall j :: j in keys && j != x ==> j in rest;
    if rest == {} {
      k := x;
    } else {
      assert |rest| < |keys|;
      var y := FirstExists(rest);
      BeforeTotal(x, y);
      if Before(x, y) {
        forall j | j in keys && j != x ensures Before(x, j) {
          if j != y { BeforeTransitive(x, y, j); }
        }
        k := x;
      } else {
        k := y;
      }
    }
  }

  lemma HasFirst(keys: set<string>)
    requires keys != {}
    ensures exists k :: IsFirst(k, keys)
  {
    var k := FirstExists(keys);
  }

  lemma FirstUnique(keys: set<string>)
    ensures forall j, k :: IsFirst(j, keys) && IsFirst(k, keys) ==> j == k
  {
    forall j, k | IsFirst(j, keys) && IsFirst(k, keys) ensures j == k {
      BeforeTotal(j, k);
    }
  }

  /** The keys in iteration order: each once, ascending. */
  function Sorted(keys: set<string>): (r: seq<string>)
    ensures forall k :: k in r <==> k in keys
    ensures forall i, j :: 0 <= i < j < |r| ==> Before(r[i], r[j])
    ensures |r| == |keys|
    decreases |keys|
  {
    if keys == {} then []
    else
      HasFirst(keys);
      FirstUnique(keys);
      var f :| IsFirst(f, keys);
      [f] + Sorted(keys - {f})
  }

  lemma SortedDistinct(keys: set<string>, i: nat, j: nat)
    requires i < |Sorted(keys)| && j < |Sorted(keys)| && i != j
    ensures Sorted(keys)[i] != Sorted(keys)[j]
  {
    BeforeTotal(Sorted(keys)[i], Sorted(keys)[j]);
  }
}
