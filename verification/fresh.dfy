/** There is always another number: how the models come by ids that nobody has used. */
module Fresh {

  lemma {:induction false} Above(used: set<nat>) returns (bound: nat)
    ensures forall x | x in used :: x < bound
    decreases used
  {
    bound := 0;
    if used != {} {
      var x :| x in used;
      bound := Above(used - {x});
      if bound <= x {
        bound := x + 1;
      }
      assert forall y | y in used :: y == x || y in used - {x};
    }
  }
}
