/** Sizes and products. */
module Counting {

  lemma {:induction false} SubsetSize(a: set<nat>, b: set<nat>)
    requires a <= b
    ensures |a| <= |b|
  {
    if a != {} {
      var x :| x in a;
      SubsetSize(a - {x}, b - {x});
    }
  }

  lemma TimesMonotone(a: nat, b: nat, limit: nat)
    requires a <= b
    ensures a * limit <= b * limit
  {
  }

  lemma DivisionBound(x: nat, limit: nat, budget: nat)
    requires limit > 0 && x * limit <= budget
    ensures x <= budget / limit
  {
    var q := budget / limit;
    assert budget == q * limit + budget % limit;
    if x > q {
      assert (q + 1) * limit == q * limit + limit;
      TimesMonotone(q + 1, x, limit);
    }
  }
}
