/** How much TRX to delegate for a missing amount of energy or bandwidth, at the network's current ratio. */
module Delegation {
  import opened Prelude

  const SUN := 1_000_000
  const MAX_INT64 := 0x7fff_ffff_ffff_ffff

  /** limit units of the resource are shared by weight TRX; the amount is in sun, rounded up. */
  function DelegationAmount(missing: int, limit: int, weight: int): Option<int> {
    if missing <= 0 || limit <= 0 || weight <= 0 then None
    else
      var amount := Max((missing * weight * SUN + limit - 1) / limit, SUN);
      if amount > MAX_INT64 then None else Some(amount)
  }

  /** The amount buys what is missing. */
  predicate Covers(amount: int, missing: int, limit: int, weight: int) {
    amount * limit >= missing * weight * SUN
  }

  lemma RoundedUp(n: int, d: int, x: int)
    requires d > 0
    ensures x * d >= n <==> x >= (n + d - 1) / d
  {
    var q := (n + d - 1) / d;
    assert q * d <= n + d - 1 < q * d + d;
    if x >= q {
      assert x * d >= q * d by { Scales(q, x, d); }
    } else {
      assert x * d <= (q - 1) * d by { Scales(x, q - 1, d); }
      assert (q - 1) * d == q * d - d;
    }
  }

  lemma Scales(a: int, b: int, d: int)
    requires a <= b && d > 0
    ensures a * d <= b * d
  {
    assert (b - a) * d >= 0;
  }

  /**
   The delegated amount is the least one that covers the missing units and meets the network's minimum of one
   TRX; there is none exactly when the ratio is unusable or that least amount does not fit the wire format.
   */
  lemma LeastSufficientDelegation(missing: int, limit: int, weight: int, amount: int)
    ensures DelegationAmount(missing, limit, weight) == Some(amount)
            <==> && missing > 0 && limit > 0 && weight > 0
                 && SUN <= amount <= MAX_INT64 && Covers(amount, missing, limit, weight)
                 && forall less :: SUN <= less < amount ==> !Covers(less, missing, limit, weight)
  {
    if missing > 0 && limit > 0 && weight > 0 {
      var n := missing * weight * SUN;
      var least := Max((n + limit - 1) / limit, SUN);
      forall x ensures Covers(x, missing, limit, weight) <==> x >= (n + limit - 1) / limit {
        RoundedUp(n, limit, x);
      }
      if SUN <= amount && Covers(amount, missing, limit, weight) && amount > least {
        assert Covers(least, missing, limit, weight);
      }
    }
  }
}
