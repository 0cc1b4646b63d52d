/** The instances of the fleet and their order. */
module FleetTargets {
  import Sorting
  import Text

  datatype Target = Target(cluster: string, instance: string)

  predicate TargetLe(a: Target, b: Target) {
    Text.LexLe(a.cluster, b.cluster) && (a.cluster == b.cluster ==> Text.LexLe(a.instance, b.instance))
  }

  /** By cluster, then by instance, each at the first character that differs. */
  predicate AtOrBefore(a: Target, b: Target) {
    if a.cluster == b.cluster then a.instance == b.instance || Text.Precedes(a.instance, b.instance)
    else Text.Precedes(a.cluster, b.cluster)
  }

  lemma TargetLeIs(a: Target, b: Target)
    ensures TargetLe(a, b) <==> AtOrBefore(a, b)
  {
    Text.LexIsFirstDifference(a.cluster, b.cluster);
    Text.LexIsFirstDifference(a.instance, b.instance);
  }

  lemma TargetOrder()
    ensures Sorting.TotalPreorder(TargetLe)
    ensures forall x, y :: TargetLe(x, y) && TargetLe(y, x) ==> x == y
  {
    Text.LexOrder();
    forall x, y, z | TargetLe(x, y) && TargetLe(y, z) ensures TargetLe(x, z) {
      assert Text.LexLe(x.cluster, z.cluster);
    }
  }
}
