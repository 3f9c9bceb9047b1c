/** Where a value occurs in a sequence: the reference definition behind both early-exit counting loops. */
module Counting {

  ghost function Positions<T>(s: seq<T>, x: T): set<nat> {
    set i: nat | i < |s| && s[i] == x
  }

  /** Some element of `s` occurs at `n` or more positions. */
  ghost predicate Repeats<T>(s: seq<T>, n: nat) {
    exists i :: 0 <= i < |s| && |Positions(s, s[i])| >= n
  }

  lemma PositionsPush<T>(s: seq<T>, y: T, x: T)
    ensures |Positions(s + [y], x)| == |Positions(s, x)| + (if y == x then 1 else 0)
  {
    var before, after := Positions(s, x), Positions(s + [y], x);
    if y == x {
      assert after == before + {|s|};
    } else {
      assert after == before;
    }
  }

  /** One step of a loop that counts occurrences element by element. */
  lemma PositionsStep<T>(s: seq<T>, n: nat, x: T)
    requires n < |s|
    ensures |Positions(s[..n + 1], x)| == |Positions(s[..n], x)| + (if s[n] == x then 1 else 0)
  {
    assert s[..n + 1] == s[..n] + [s[n]];
    PositionsPush(s[..n], s[n], x);
  }

  lemma PositionsPrefix<T>(s: seq<T>, n: nat, x: T)
    requires n <= |s|
    ensures |Positions(s[..n], x)| <= |Positions(s, x)|
    decreases |s| - n
  {
    if n < |s| {
      PositionsStep(s, n, x);
      PositionsPrefix(s, n + 1, x);
    } else {
      assert s[..n] == s;
    }
  }

  ghost predicate Triple<T>(s: seq<T>, i: int, j: int, k: int) {
    0 <= i < j < k < |s| && s[i] == s[j] == s[k]
  }

  /** Three or more occurrences means three increasing indices holding the same value. */
  lemma ThreePositions<T>(s: seq<T>)
    ensures Repeats(s, 3) <==> exists i, j, k :: Triple(s, i, j, k)
  {
    if Repeats(s, 3) {
      var i :| 0 <= i < |s| && |Positions(s, s[i])| >= 3;
      var a, b, c := ThreeElements(Positions(s, s[i]));
      assert Triple(s, a, b, c);
    }
    if i, j, k :| Triple(s, i, j, k) {
      SubsetSize({i, j, k}, Positions(s, s[i]));
    }
  }

  lemma ThreeElements(p: set<nat>) returns (a: nat, b: nat, c: nat)
    requires |p| >= 3
    ensures a < b < c && {a, b, c} <= p
  {
    a := Least(p);
    var q := p - {a};
    assert p == q + {a} && |q| >= 2;
    b := Least(q);
    var r := q - {b};
    assert q == r + {b} && |r| >= 1;
    c := Least(r);
  }

  lemma Least(p: set<nat>) returns (m: nat)
    requires p != {}
    ensures m in p && forall x :: x in p ==> m <= x
  {
    var x :| x in p;
    if p == {x} {
      m := x;
    } else {
      var rest := p - {x};
      assert p == rest + {x};
      m := Least(rest);
      m := if x < m then x else m;
    }
  }

  lemma SubsetSize<T>(a: set<T>, b: set<T>)
    requires a <= b
    ensures |a| <= |b|
  {
    assert b == a + (b - a);
  }
}
