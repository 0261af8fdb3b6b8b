/** The topology oracle and the GHOSTDAG recurrence see the same merge sets. */
module MergeAgreement {
  import opened Ids
  import opened Dag
  import opened Ghostdag
  import GhostdagOracle
  import GhostdagTheorems
  import Sums
  import Topology

  /** The closure of a block's parents is its proper past. */
  lemma FrontierClosure(b: Blocks, n: Id)
    requires Grounded(b, n)
    ensures Topology.Closure(Links(b), b[n].parents) == ProperPast(b, n)
  {
    PastUnfold(Links(b), n);
    PastSelf(Links(b), n);
  }

  /** Nodes of an admissible DAG pass the topology oracle's checks. */
  lemma NodeAccepted(b: Blocks, k: int, x: Id)
    requires GhostdagOracle.Admissible(b, k) && x in b
    ensures Topology.NodeOk(Links(b), x) && LoopFree(Links(b), x)
  {
    hide Past;
    assert GhostdagOracle.WellFormed(b, x);
    forall p | p in b[x].parents
      ensures p != ""
    {
      assert GhostdagOracle.WellFormed(b, p);
    }
  }

  /** The parent count, the size of the past and its number of edges keep the topology oracle's limits. */
  ghost predicate WithinLimits(b: Blocks, n: Id)
    requires Grounded(b, n)
  {
    && |b[n].parents| <= Topology.MAX_ROOTS
    && |ProperPast(b, n)| <= Topology.MAX_HEADERS
    && Sums.SetSum(Topology.Degrees(Links(b)), ProperPast(b, n)) <= Topology.MAX_EDGES
  }

  /** The frontier of an admissible block is accepted exactly when it keeps the three limits. */
  lemma FrontierAccepted(b: Blocks, k: int, n: Id)
    requires GhostdagOracle.Admissible(b, k) && n in b && n != GENESIS
    ensures Grounded(b, n)
    ensures Topology.Acceptable(Links(b), b[n].parents) <==> WithinLimits(b, n)
  {
    GhostdagOracle.WellFormedRooted(b);
    PastInKeys(Links(b), n);
    FrontierClosure(b, n);
    hide Past, Topology.Closure;
    assert GhostdagOracle.WellFormed(b, n);
    forall x | x in ProperPast(b, n)
      ensures Topology.NodeOk(Links(b), x) && LoopFree(Links(b), x)
    {
      NodeAccepted(b, k, x);
    }
  }

  /**
   * For the frontier of `n` and its selected parent, the topology oracle's merge
   * set holds exactly the merge blues and merge reds, and in an admissible DAG
   * the oracle refuses the frontier only beyond its limits.
   */
  lemma MergeSetsAgree(b: Blocks, k: int, n: Id)
    requires Grounded(b, n) && n != GENESIS
    ensures var i := Color(b, k, n);
            && i.chosen.Some? && i.chosen.value in b[n].parents
            && Topology.Closure(Links(b), b[n].parents) - Past(Links(b), i.chosen.value)
               == Elems(i.blues) + Elems(i.reds)
    ensures GhostdagOracle.Admissible(b, k) ==>
              (Topology.Acceptable(Links(b), b[n].parents) <==> WithinLimits(b, n))
  {
    hide Color;
    if GhostdagOracle.Admissible(b, k) {
      FrontierAccepted(b, k, n);
    }
    FrontierClosure(b, n);
    GhostdagTheorems.MergePartition(b, k, n);
  }
}
