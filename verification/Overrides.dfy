/** Tighten-only override maps and the monotonicity test of the policy writer. */
module Overrides {
  import opened Options

  // One action's override: each field may be absent.
  datatype Override = Override(allow: Option<bool>, requiresApproval: Option<bool>, minLevel: Option<int>)

  type OverrideMap = map<string, Override>

  // The three conjuncts of the SQL test for one action that the old map overrides.
  predicate Tightens(o: Override, n: Override) {
    && (o.allow.Some? ==> n.allow == Some(false))
    && (o.requiresApproval.Some? ==> n.requiresApproval == Some(true))
    && (o.minLevel.Some? ==> n.minLevel.Some? && o.minLevel.value <= n.minLevel.value)
  }

  predicate IsMonotonic(o: OverrideMap, n: OverrideMap) {
    forall action :: action in o ==> action in n && Tightens(o[action], n[action])
  }

  // The only values the application lets into a map: disable, require approval.
  predicate WellFormed(m: OverrideMap) {
    forall action :: action in m ==>
      && (m[action].allow.Some? ==> !m[action].allow.value)
      && (m[action].requiresApproval.Some? ==> m[action].requiresApproval.value)
  }

  /** The test is transitive on all maps. */
  lemma MonotonicIsTransitive(a: OverrideMap, b: OverrideMap, c: OverrideMap)
    requires IsMonotonic(a, b) && IsMonotonic(b, c)
    ensures IsMonotonic(a, c)
  {
    forall action | action in a ensures action in c && Tightens(a[action], c[action]) {
      assert action in b && Tightens(b[action], c[action]);
    }
  }

  /** It is reflexive exactly on the well-formed ones: a stored `allow: true` or
      `requires_approval: false` cannot be written back by a tighten. */
  lemma MonotonicIsReflexiveIffWellFormed(m: OverrideMap)
    ensures IsMonotonic(m, m) <==> WellFormed(m)
  {
    if IsMonotonic(m, m) {
      assert forall action :: action in m ==> Tightens(m[action], m[action]);
    } else {
      assert exists action :: action in m && !Tightens(m[action], m[action]);
    }
  }
}
