/**
  The two recursive queries of the queue (who is doomed by a failure, who is revived by a retry)
  over the graph in which each row names at most one parent row.
 */
module JobGraph {
  import opened Wrappers
  import Collections

  type Graph = map<int, Option<int>>

  /** Rows of `allowed` whose parent is in `frontier`. */
  function Children(parents: Graph, allowed: set<int>, frontier: set<int>): set<int>
  {
    set s | s in allowed && s in parents && parents[s].Some? && parents[s].value in frontier
  }

  /**
    WITH RECURSIVE ... UNION, as PostgreSQL evaluates it: join the rows found last with their
    children, drop those already found, and stop when nothing new turns up.
   */
  function Grow(parents: Graph, allowed: set<int>, frontier: set<int>, found: set<int>): set<int>
    decreases |allowed - found|
  {
    var next := Children(parents, allowed, frontier) - found;
    if next == {} then found
    else
      Collections.FewerLeft(allowed, found, next);
      Grow(parents, allowed, next, found + next)
  }

  function Recursive(parents: Graph, allowed: set<int>, base: set<int>): set<int>
  {
    Grow(parents, allowed, base, base)
  }

  // ---------------------------------------------------------------- the graph meaning

  /** Following `k` parent links from `s`, through rows of `allowed`, arrives in `base`. */
  predicate Climbs(parents: Graph, allowed: set<int>, base: set<int>, s: int, k: nat)
    decreases k
  {
    if k == 0 then s in base
    else s in allowed && s in parents && parents[s].Some? && Climbs(parents, allowed, base, parents[s].value, k - 1)
  }

  ghost predicate Reaches(parents: Graph, allowed: set<int>, base: set<int>, s: int)
  {
    exists k: nat :: Climbs(parents, allowed, base, s, k)
  }

  lemma ReachesBase(parents: Graph, allowed: set<int>, base: set<int>, s: int)
    requires s in base
    ensures Reaches(parents, allowed, base, s)
  {
    assert Climbs(parents, allowed, base, s, 0);
  }

  lemma ReachesStep(parents: Graph, allowed: set<int>, base: set<int>, s: int)
    requires s in allowed && s in parents && parents[s].Some?
    requires Reaches(parents, allowed, base, parents[s].value)
    ensures Reaches(parents, allowed, base, s)
  {
    var k: nat :| Climbs(parents, allowed, base, parents[s].value, k);
    assert Climbs(parents, allowed, base, s, k + 1);
  }

  /** Everything the query finds is reachable. */
  lemma {:induction false} GrowSound(parents: Graph, allowed: set<int>, base: set<int>, frontier: set<int>, found: set<int>)
    requires frontier <= found
    requires forall s :: s in found ==> Reaches(parents, allowed, base, s)
    ensures forall s :: s in Grow(parents, allowed, frontier, found) ==> Reaches(parents, allowed, base, s)
    decreases |allowed - found|
  {
    var next := Children(parents, allowed, frontier) - found;
    if next != {} {
      Collections.FewerLeft(allowed, found, next);
      forall s | s in found + next ensures Reaches(parents, allowed, base, s) {
        if s in next {
          ReachesStep(parents, allowed, base, s);
        }
      }
      GrowSound(parents, allowed, base, next, found + next);
    }
  }

  /** What the query finds is closed under taking children. */
  lemma {:induction false} GrowClosed(parents: Graph, allowed: set<int>, frontier: set<int>, found: set<int>)
    requires frontier <= found
    requires Children(parents, allowed, found - frontier) <= found
    ensures found <= Grow(parents, allowed, frontier, found)
    ensures Children(parents, allowed, Grow(parents, allowed, frontier, found)) <= Grow(parents, allowed, frontier, found)
    decreases |allowed - found|
  {
    var next := Children(parents, allowed, frontier) - found;
    if next == {} {
      assert Children(parents, allowed, found)
          <= Children(parents, allowed, found - frontier) + Children(parents, allowed, frontier);
    } else {
      Collections.FewerLeft(allowed, found, next);
      assert (found + next) - next == found;
      assert Children(parents, allowed, found)
          <= Children(parents, allowed, found - frontier) + Children(parents, allowed, frontier);
      GrowClosed(parents, allowed, next, found + next);
    }
  }

  lemma {:induction false} ClosedContainsClimbs(parents: Graph, allowed: set<int>, base: set<int>, closed: set<int>, s: int, k: nat)
    requires base <= closed && Children(parents, allowed, closed) <= closed
    requires Climbs(parents, allowed, base, s, k)
    ensures s in closed
    decreases k
  {
    if k > 0 {
      ClosedContainsClimbs(parents, allowed, base, closed, parents[s].value, k - 1);
      assert s in Children(parents, allowed, closed);
    }
  }

  /** The recursive query computes exactly graph reachability. */
  lemma RecursiveIsReachability(parents: Graph, allowed: set<int>, base: set<int>, s: int)
    ensures s in Recursive(parents, allowed, base) <==> Reaches(parents, allowed, base, s)
  {
    forall t | t in base ensures Reaches(parents, allowed, base, t) {
      ReachesBase(parents, allowed, base, t);
    }
    GrowSound(parents, allowed, base, base, base);
    GrowClosed(parents, allowed, base, base);
    if Reaches(parents, allowed, base, s) {
      var k: nat :| Climbs(parents, allowed, base, s, k);
      ClosedContainsClimbs(parents, allowed, base, Recursive(parents, allowed, base), s, k);
    }
  }

  // ---------------------------------------------------------------- ancestors

  /** `a` is `k + 1` parent links above `s`. */
  predicate Above(parents: Graph, a: int, s: int, k: nat)
    decreases k
  {
    && s in parents
    && parents[s].Some?
    && (if k == 0 then parents[s].value == a else Above(parents, a, parents[s].value, k - 1))
  }

  ghost predicate ProperAncestor(parents: Graph, a: int, s: int)
  {
    exists k: nat :: Above(parents, a, s, k)
  }

  /** Every dependency names an earlier row of the same batch. */
  ghost predicate WellFormed(parents: Graph)
  {
    forall s :: s in parents && parents[s].Some? ==> parents[s].value in parents && parents[s].value < s
  }

  /** A row with a parent has exactly its parent and its parent's ancestors above it. */
  lemma AncestorUnfold(parents: Graph, a: int, s: int)
    ensures ProperAncestor(parents, a, s) <==>
            s in parents && parents[s].Some? &&
            (parents[s].value == a || ProperAncestor(parents, a, parents[s].value))
  {
    if ProperAncestor(parents, a, s) {
      var k: nat :| Above(parents, a, s, k);
      if k > 0 {
        assert Above(parents, a, parents[s].value, k - 1);
      }
    }
    if s in parents && parents[s].Some? {
      if parents[s].value == a {
        assert Above(parents, a, s, 0);
      } else if ProperAncestor(parents, a, parents[s].value) {
        var k: nat :| Above(parents, a, parents[s].value, k);
        assert Above(parents, a, s, k + 1);
      }
    }
  }

  lemma {:induction false} ClimbIsAbove(parents: Graph, roots: set<int>, s: int, k: nat)
    requires Climbs(parents, parents.Keys, Children(parents, parents.Keys, roots), s, k)
    ensures exists a :: a in roots && ProperAncestor(parents, a, s)
    decreases k
  {
    if k == 0 {
      AncestorUnfold(parents, parents[s].value, s);
    } else {
      ClimbIsAbove(parents, roots, parents[s].value, k - 1);
      var a :| a in roots && ProperAncestor(parents, a, parents[s].value);
      AncestorUnfold(parents, a, s);
    }
  }

  lemma {:induction false} AboveIsClimb(parents: Graph, roots: set<int>, a: int, s: int, k: nat)
    requires a in roots && Above(parents, a, s, k)
    ensures Climbs(parents, parents.Keys, Children(parents, parents.Keys, roots), s, k)
    decreases k
  {
    if k > 0 {
      AboveIsClimb(parents, roots, a, parents[s].value, k - 1);
    }
  }

  /** The doomed query returns exactly the rows with a proper ancestor among the roots. */
  lemma DoomedAreDescendants(parents: Graph, roots: set<int>, s: int)
    ensures s in Recursive(parents, parents.Keys, Children(parents, parents.Keys, roots)) <==>
            exists a :: a in roots && ProperAncestor(parents, a, s)
  {
    var base := Children(parents, parents.Keys, roots);
    RecursiveIsReachability(parents, parents.Keys, base, s);
    if Reaches(parents, parents.Keys, base, s) {
      var k: nat :| Climbs(parents, parents.Keys, base, s, k);
      ClimbIsAbove(parents, roots, s, k);
    }
    if a :| a in roots && ProperAncestor(parents, a, s) {
      var k: nat :| Above(parents, a, s, k);
      AboveIsClimb(parents, roots, a, s, k);
    }
  }

  // ---------------------------------------------------------------- one-step unfoldings

  lemma RecursiveUnfold(parents: Graph, allowed: set<int>, base: set<int>)
    ensures forall s :: s in Recursive(parents, allowed, base) <==>
              s in base ||
              (s in allowed && s in parents && parents[s].Some? && parents[s].value in Recursive(parents, allowed, base))
  {
    var all := Recursive(parents, allowed, base);
    forall s
      ensures s in all <==>
              s in base || (s in allowed && s in parents && parents[s].Some? && parents[s].value in all)
    {
      RecursiveIsReachability(parents, allowed, base, s);
      if s in parents && parents[s].Some? {
        RecursiveIsReachability(parents, allowed, base, parents[s].value);
      }
      if s in all {
        var k: nat :| Climbs(parents, allowed, base, s, k);
        if k > 0 {
          assert Climbs(parents, allowed, base, parents[s].value, k - 1);
        }
      } else if s in base {
        ReachesBase(parents, allowed, base, s);
      } else if s in allowed && s in parents && parents[s].Some? && parents[s].value in all {
        ReachesStep(parents, allowed, base, s);
      }
    }
  }
}
