// ORDER BY at, id LIMIT 1.
module Ordering {
  // The member of ids that comes first.
  method Earliest(ids: set<nat>, at: map<nat, int>) returns (first: nat)
    requires ids != {} && ids <= at.Keys
    ensures first in ids
    ensures forall g <- ids :: at[first] < at[g] || (at[first] == at[g] && first <= g)
  {
    first :| first in ids;
    var rest := ids - {first};
    while rest != {}
      invariant rest <= ids && first in ids
      invariant forall g <- ids - rest :: at[first] < at[g] || (at[first] == at[g] && first <= g)
      decreases rest
    {
      var g :| g in rest;
      if at[g] < at[first] || (at[g] == at[first] && g < first) {
        first := g;
      }
      rest := rest - {g};
    }
  }
}
