/** Sizes of finite sets. */
module FiniteSets {

  ghost function NatsBelow(n: nat): set<nat> {
    if n == 0 then {} else NatsBelow(n - 1) + {n - 1}
  }

  lemma {:induction false} NatsBelowSize(n: nat)
    ensures |NatsBelow(n)| == n && forall x: nat :: x in NatsBelow(n) <==> x < n
  {
    if n > 0 {
      NatsBelowSize(n - 1);
    }
  }

  lemma {:induction false} SubsetSize<A>(a: set<A>, b: set<A>)
    requires a <= b
    ensures |a| <= |b|
  {
    if a != {} {
      var x :| x in a;
      SubsetSize(a - {x}, b - {x});
    }
  }
}
