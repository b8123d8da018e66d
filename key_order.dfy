/**
 * A lexicographic order on names, and the listing of a set of names in
 * that order. Used where the source lists the keys of a hash map, whose
 * order Rust leaves unspecified: the model fixes one admissible order.
 */
module KeyOrder {
  /** `a` comes no later than `b`, character by character. */
  predicate LessEq(a: string, b: string)
    decreases |a|
  {
    |a| == 0 || (|b| > 0 && (a[0] < b[0] || (a[0] == b[0] && LessEq(a[1..], b[1..]))))
  }

  lemma {:induction false} Total(a: string, b: string)
    ensures LessEq(a, b) || LessEq(b, a)
    decreases |a|
  {
    if |a| > 0 && |b| > 0 && a[0] == b[0] {
      Total(a[1..], b[1..]);
    }
  }

  lemma {:induction false} Antisymmetric(a: string, b: string)
    requires LessEq(a, b) && LessEq(b, a)
    ensures a == b
    decreases |a|
  {
    if |a| > 0 {
      Antisymmetric(a[1..], b[1..]);
      assert a == [a[0]] + a[1..] && b == [b[0]] + b[1..];
    }
  }

  lemma {:induction false} Transitive(a: string, b: string, c: string)
    requires LessEq(a, b) && LessEq(b, c)
    ensures LessEq(a, c)
    decreases |a|
  {
    if |a| > 0 && a[0] == b[0] && b[0] == c[0] {
      Transitive(a[1..], b[1..], c[1..]);
    }
  }

  /** A non-empty finite set of names has a least element. */
  lemma {:induction false} LeastExists(s: set<string>)
    requires s != {}
    ensures exists m :: m in s && forall x :: x in s ==> LessEq(m, x)
    decreases |s|
  {
    var y :| y in s;
    if s == {y} {
      Total(y, y);
    } else {
      LeastExists(s - {y});
      var m :| m in s - {y} && forall x :: x in s - {y} ==> LessEq(m, x);
      Total(m, y);
      if LessEq(m, y) {
        assert forall x :: x in s ==> LessEq(m, x);
      } else {
        forall x | x in s ensures LessEq(y, x) {
          if x != y {
            Transitive(y, m, x);
          } else {
            Total(y, y);
          }
        }
      }
    }
  }

  /** The names of `s`, each once, in increasing order. */
  function Sorted(s: set<string>): (r: seq<string>)
    ensures |r| == |s|
    ensures forall k :: k in r <==> k in s
    ensures forall i, j :: 0 <= i < j < |r| ==> LessEq(r[i], r[j]) && r[i] != r[j]
    decreases |s|
  {
    if s == {} then []
    else
      LeastExists(s);
      assert forall a, b :: a in s && b in s && LessEq(a, b) && LessEq(b, a) ==> a == b by {
        forall a, b | a in s && b in s && LessEq(a, b) && LessEq(b, a) ensures a == b {
          Antisymmetric(a, b);
        }
      }
      var m :| m in s && forall x :: x in s ==> LessEq(m, x);
      [m] + Sorted(s - {m})
  }
}
