/** Sets, maps and sequences: membership, cardinality, sums, concatenation. */
module Collections {

  ghost function Pick<T>(dom: set<T>): (x: T)
    requires dom != {}
    ensures x in dom
  {
    var y :| y in dom; y
  }

  method TakeOne<T>(s: set<T>) returns (x: T)
    requires s != {}
    ensures x in s
  {
    x :| x in s;
  }

  /** The sum of `f` over `dom`. */
  ghost function SumOver(dom: set<int>, f: int -> int): int
  {
    if dom == {} then 0 else
      var x := Pick(dom);
      f(x) + SumOver(dom - {x}, f)
  }

  lemma {:induction false} SumBounded(dom: set<int>, f: int -> int, bound: int)
    requires forall x :: x in dom ==> f(x) <= bound
    ensures SumOver(dom, f) <= bound * |dom|
  {
    if dom != {} {
      var x := Pick(dom);
      SumBounded(dom - {x}, f, bound);
      assert |dom - {x}| == |dom| - 1;
    }
  }

  lemma {:induction false} SumNonNegative(dom: set<int>, f: int -> int)
    requires forall x :: x in dom ==> f(x) >= 0
    ensures SumOver(dom, f) >= 0
  {
    if dom != {} {
      SumNonNegative(dom - {Pick(dom)}, f);
    }
  }

  lemma {:induction false} SumZero(dom: set<int>, f: int -> int)
    requires forall x :: x in dom ==> f(x) == 0
    ensures SumOver(dom, f) == 0
  {
    if dom != {} {
      SumZero(dom - {Pick(dom)}, f);
    }
  }

  /** Raising one summand by `v` raises the sum by `v`. */
  lemma {:induction false} SumBump(dom: set<int>, f: int -> int, g: int -> int, at: int, v: int)
    requires forall x :: x in dom ==> g(x) == f(x) + if x == at then v else 0
    ensures SumOver(dom, g) == SumOver(dom, f) + if at in dom then v else 0
  {
    if dom != {} {
      SumBump(dom - {Pick(dom)}, f, g, at, v);
    }
  }

  /** If `g` drops by at least one on `hit` and nowhere rises, the sum drops by at least `|hit|`. */
  lemma {:induction false} SumDrops(dom: set<int>, f: int -> int, g: int -> int, hit: set<int>)
    requires hit <= dom
    requires forall x :: x in dom ==> g(x) + (if x in hit then 1 else 0) <= f(x)
    ensures SumOver(dom, g) + |hit| <= SumOver(dom, f)
  {
    if dom != {} {
      var x := Pick(dom);
      SumDrops(dom - {x}, f, g, hit - {x});
      if x in hit {
        assert |hit - {x}| == |hit| - 1;
      } else {
        assert hit - {x} == hit;
      }
    }
  }

  /** A subset is no larger than its superset. */
  lemma {:induction false} SubsetCard<T>(a: set<T>, b: set<T>)
    requires a <= b
    ensures |a| <= |b|
  {
    assert b == a + (b - a);
    assert |b| == |a| + |b - a|;
  }

  /** Finding new members of `all` leaves fewer to find. */
  lemma FewerLeft<T>(all: set<T>, found: set<T>, next: set<T>)
    requires next <= all && next !! found && next != {}
    ensures |all - (found + next)| < |all - found|
  {
    assert all - found == (all - (found + next)) + next;
  }

  lemma {:induction false} Least(dom: set<int>) returns (x: int)
    requires dom != {}
    ensures x in dom && forall y :: y in dom ==> x <= y
    decreases |dom|
  {
    x := Pick(dom);
    var rest := dom - {x};
    assert forall y :: y in dom ==> y == x || y in rest;
    if rest != {} {
      var other := Least(rest);
      if other < x { x := other; }
    }
  }

  /** A set without members is the empty set. */
  lemma NoMembers<T(!new)>(s: set<T>)
    requires forall x :: x !in s
    ensures s == {}
  {
  }

  /** Maps with the same keys and values are equal. */
  lemma SameMap<K, V>(m: map<K, V>, n: map<K, V>)
    requires m.Keys == n.Keys
    requires forall k :: k in m ==> m[k] == n[k]
    ensures m == n
  {
  }

  /** The same, with the keys compared one by one. */
  lemma SameEntries<K(!new), V>(m: map<K, V>, n: map<K, V>)
    requires forall k :: k in m <==> k in n
    requires forall k :: k in m ==> m[k] == n[k]
    ensures m == n
  {
  }

  /** Sequences with the same elements are equal. */
  lemma SameSeq<T>(a: seq<T>, b: seq<T>)
    requires |a| == |b|
    requires forall i :: 0 <= i < |a| ==> a[i] == b[i]
    ensures a == b
  {
  }

  lemma Assoc<T>(a: seq<T>, b: seq<T>, c: seq<T>)
    ensures (a + b) + c == a + (b + c)
  {
  }

  /** The last element taken off one end can be put back there. */
  lemma FrontLast<T>(s: seq<T>)
    requires s != []
    ensures s == s[..|s| - 1] + [s[|s| - 1]]
  {
  }

  lemma TakeNext<T>(s: seq<T>, k: nat)
    requires k < |s|
    ensures s[..k + 1] == s[..k] + [s[k]]
  {
  }
}
