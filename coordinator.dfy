/** The child list every navigation coordinator keeps. */
module Coordinators {
  import opened Common

  class Coordinator {
    var childCoordinators: seq<Coordinator>

    constructor ()
      ensures childCoordinators == []
    {
      childCoordinators := [];
    }

    /** Appends `c`, keeping every child already present in place. */
    method AddChildCoordinator(c: Coordinator)
      modifies this`childCoordinators
      ensures childCoordinators == old(childCoordinators) + [c]
      ensures |childCoordinators| == |old(childCoordinators)| + 1
    {
      childCoordinators := childCoordinators + [c];
    }

    /** Keeps every child that is not the very object `c` (`!==`). */
    method RemoveChildCoordinator(c: Coordinator)
      modifies this`childCoordinators
      ensures childCoordinators == Without(old(childCoordinators), c)
    {
      childCoordinators := Filter(childCoordinators, x => x != c);
    }
  }

  /** The list with every reference to `c` dropped. */
  function Without(children: seq<Coordinator>, c: Coordinator): (r: seq<Coordinator>)
    ensures c !in r
    ensures Subsequence(r, children)
    ensures forall i :: 0 <= i < |r| ==> r[i] in children
  {
    Filter(children, x => x != c)
  }

  /** Every other child keeps its number of occurrences; `c` has none left. */
  lemma RemoveKeepsOthers(children: seq<Coordinator>, c: Coordinator, x: Coordinator)
    ensures multiset(Without(children, c))[x] == if x == c then 0 else multiset(children)[x]
  {
    FilterCount(children, y => y != c, x);
  }

  /** Removing a coordinator that is not a child changes nothing. */
  lemma RemoveAbsent(children: seq<Coordinator>, c: Coordinator)
    requires c !in children
    ensures Without(children, c) == children
  {
    FilterAllKept(children, x => x != c);
  }

  /** Adding a child and removing it again leaves the list as it was, if `c` was not a child before. */
  lemma AddThenRemove(children: seq<Coordinator>, c: Coordinator)
    requires c !in children
    ensures Without(children + [c], c) == children
  {
    var f := x => x != c;
    FilterAllKept(children, f);
    FilterSnoc(children, c, f);
  }
}
