/**
 The processes a measurement covers (`children_of` in `benchmarks/resources.py`): what is found by
 walking the table of parents until nothing changes, whatever the table says, cycles included.
 */
module ProcessTree {
  type Pid = nat

  /** Within `steps` parents of `pid`, itself included, is one of `roots`. */
  ghost predicate Climbs(parent: map<Pid, Pid>, roots: set<Pid>, pid: Pid, steps: nat)
    decreases steps
  {
    pid in roots || (steps > 0 && pid in parent && Climbs(parent, roots, parent[pid], steps - 1))
  }

  /** The chain of parents of `pid` reaches one of `roots`, which has at least itself. */
  ghost predicate Under(parent: map<Pid, Pid>, roots: set<Pid>, pid: Pid) {
    exists steps: nat :: Climbs(parent, roots, pid, steps)
  }

  lemma ChildIsUnder(parent: map<Pid, Pid>, roots: set<Pid>, pid: Pid)
    requires pid in parent && Under(parent, roots, parent[pid])
    ensures Under(parent, roots, pid)
  {
    var steps: nat :| Climbs(parent, roots, parent[pid], steps);
    assert Climbs(parent, roots, pid, steps + 1);
  }

  /** A set that has the roots and the children of all it has, has everything under the roots. */
  lemma {:induction false} ClosedHasAll(parent: map<Pid, Pid>, roots: set<Pid>, tree: set<Pid>, pid: Pid, steps: nat)
    requires roots <= tree && Climbs(parent, roots, pid, steps)
    requires forall p :: p in parent && parent[p] in tree ==> p in tree
    ensures pid in tree
    decreases steps
  {
    if pid !in roots {
      ClosedHasAll(parent, roots, tree, parent[pid], steps - 1);
    }
  }

  /** `children_of`. */
  method ChildrenOf(parent: map<Pid, Pid>, roots: set<Pid>) returns (tree: set<Pid>)
    ensures forall pid :: pid in tree <==> Under(parent, roots, pid)
    ensures roots <= tree <= roots + parent.Keys
  {
    tree := roots;
    forall pid | pid in roots ensures Under(parent, roots, pid) {
      assert Climbs(parent, roots, pid, 0);
    }
    var changed := true;
    while changed
      invariant roots <= tree <= roots + parent.Keys
      invariant forall pid :: pid in tree ==> Under(parent, roots, pid)
      invariant !changed ==> forall p :: p in parent && parent[p] in tree ==> p in tree
      decreases parent.Keys - tree, changed
    {
      tree, changed := Sweep(parent, roots, tree);
    }
    forall pid | Under(parent, roots, pid) ensures pid in tree {
      var steps: nat :| Climbs(parent, roots, pid, steps);
      ClosedHasAll(parent, roots, tree, pid, steps);
    }
  }

  /** One pass over the table, in whatever order it lists its processes. */
  method Sweep(parent: map<Pid, Pid>, roots: set<Pid>, before: set<Pid>) returns (tree: set<Pid>, changed: bool)
    requires forall pid :: pid in before ==> Under(parent, roots, pid)
    ensures before <= tree <= before + parent.Keys
    ensures forall pid :: pid in tree ==> Under(parent, roots, pid)
    ensures changed <==> tree != before
    ensures !changed ==> forall p :: p in parent && parent[p] in tree ==> p in tree
    ensures changed ==> parent.Keys - tree < parent.Keys - before
  {
    tree, changed := before, false;
    var rest := parent.Keys;
    while rest != {}
      invariant rest <= parent.Keys && before <= tree <= before + parent.Keys
      invariant forall pid :: pid in tree ==> Under(parent, roots, pid)
      invariant changed <==> tree != before
      invariant forall p :: p in parent && p !in rest && parent[p] in before ==> p in tree
      invariant changed ==> exists p :: p in parent && p in tree && p !in before
    {
      var pid :| pid in rest;
      rest := rest - {pid};
      if parent[pid] in tree && pid !in tree {
        ChildIsUnder(parent, roots, pid);
        tree := tree + {pid};
        changed := true;
      }
    }
    if changed {
      var p :| p in parent && p in tree && p !in before;
      assert p in parent.Keys - before && p !in parent.Keys - tree;
    }
  }
}
