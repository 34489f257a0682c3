/**
 * Properties of the forge validator that hold for every basket and every
 * quantity vector, each relating the verdict to the basket's weights.
 */
module ForgeProperties {
  import opened Baskets
  import opened Deviation
  import opened ForgeLib

  lemma MulPositive(a: nat, b: nat)
    requires 0 < a && 0 < b
    ensures 0 < a * b
  {
  }

  lemma MulMonotone(a: nat, b: nat, c: nat)
    requires a <= b
    ensures a * c <= b * c
  {
  }

  lemma MulCancelLess(a: nat, b: nat, k: nat)
    requires 0 < k
    ensures k * a < k * b <==> a < b
  {
    if a < b {
      assert k * b == k * a + k * (b - a);
    } else {
      assert k * a == k * b + k * (a - b);
    }
  }

  lemma MulCancelLessEq(a: nat, b: nat, k: nat)
    requires 0 < k
    ensures k * a <= k * b <==> a <= b
  {
    MulCancelLess(b, a, k);
  }

  lemma DistributeLeft(k: nat, a: nat, b: nat)
    ensures k * a + k * b == k * (a + b)
  {
  }

  lemma {:induction false} TotalDevScale(bal: seq<nat>, tgt: seq<nat>, total: nat, k: nat)
    requires |bal| == |tgt|
    ensures TotalDev(Scale(bal, k), tgt, k * total) == k * TotalDev(bal, tgt, total)
    decreases |bal|
  {
    if bal != [] {
      var s := Scale(bal, k);
      assert s[1..] == Scale(bal[1..], k);
      var head := Dev(bal[0], tgt[0], total);
      var rest := TotalDev(bal[1..], tgt[1..], total);
      TotalDevScale(bal[1..], tgt[1..], total, k);
      DevScale(bal[0], tgt[0], total, k);
      calc {
        TotalDev(s, tgt, k * total);
        Dev(s[0], tgt[0], k * total) + TotalDev(s[1..], tgt[1..], k * total);
        k * head + k * rest;
        { DistributeLeft(k, head, rest); }
        k * (head + rest);
      }
    }
  }

  /**
   * Minting nothing is accepted exactly when the basket already sits on
   * target or within its grace band: an off-target basket outside grace does
   * not move closer, so an all-zero mint into it is rejected.
   */
  lemma MintNothing(basket: Basket, quantities: seq<nat>)
    requires |quantities| == |basket.bassets|
    requires forall i :: 0 <= i < |quantities| ==> quantities[i] == 0
    ensures ValidateMint(basket, quantities) == Ok(true) <==>
              OnTarget(Balances(basket.bassets), Targets(basket.bassets)) ||
              WithinGrace(Balances(basket.bassets), Targets(basket.bassets), basket.grace)
    ensures ValidateMint(basket, quantities) != Ok(true) ==>
              ValidateMint(basket, quantities) == Err(MovesAwayFromTarget)
  {
    var pre := Balances(basket.bassets);
    var tgt := Targets(basket.bassets);
    assert Deposit(pre, quantities) == pre;
    if Sum(pre) == 0 {
      EmptyIsOnTarget(pre, tgt);
    }
  }

  /** Depositing into a basset that sits on target leaves exactly the deposit's own deviation. */
  lemma DevAfterDeposit(b: nat, q: nat, t: nat, total: nat, added: nat)
    requires b * Unit == t * total
    ensures Dev(b + q, t, total + added) == Dev(q, t, added)
  {
    assert (b + q) * Unit == b * Unit + q * Unit;
    assert t * (total + added) == t * total + t * added;
  }

  /**
   * On a basket that sits on target, grace plays no part: a mint is accepted
   * exactly when the minted quantities are themselves in the target
   * proportions, and is otherwise rejected as off the optimal weightings.
   */
  lemma MintOnTarget(basket: Basket, quantities: seq<nat>)
    requires |quantities| == |basket.bassets|
    requires OnTarget(Balances(basket.bassets), Targets(basket.bassets))
    ensures ValidateMint(basket, quantities) == Ok(true) <==>
              OnTarget(quantities, Targets(basket.bassets))
    ensures ValidateMint(basket, quantities) != Ok(true) ==>
              ValidateMint(basket, quantities) == Err(OffOptimalWeighting)
  {
    var pre := Balances(basket.bassets);
    var tgt := Targets(basket.bassets);
    var post := Deposit(pre, quantities);
    SumDeposit(pre, quantities);
    if Sum(post) == 0 {
      assert Sum(quantities) == 0;
      EmptyIsOnTarget(quantities, tgt);
    } else {
      forall i | 0 <= i < |post|
        ensures Dev(post[i], tgt[i], Sum(post)) == Dev(quantities[i], tgt[i], Sum(quantities))
      {
        DevAfterDeposit(pre[i], quantities[i], tgt[i], Sum(pre), Sum(quantities));
      }
      assert OnTarget(post, tgt) <==> OnTarget(quantities, tgt);
    }
  }

  /** Baskets whose bassets deviate pointwise alike have the same basket-wide deviation. */
  lemma {:induction false} TotalDevPointwise(a: seq<nat>, b: seq<nat>, tgt: seq<nat>, ta: nat, tb: nat)
    requires |a| == |tgt| && |b| == |tgt|
    requires forall i :: 0 <= i < |tgt| ==> Dev(a[i], tgt[i], ta) == Dev(b[i], tgt[i], tb)
    ensures TotalDev(a, tgt, ta) == TotalDev(b, tgt, tb)
    decreases |tgt|
  {
    if tgt != [] {
      assert forall i :: 0 <= i < |tgt| - 1 ==> a[1..][i] == a[i + 1] && b[1..][i] == b[i + 1] && tgt[1..][i] == tgt[i + 1];
      TotalDevPointwise(a[1..], b[1..], tgt[1..], ta, tb);
    }
  }

  /**
   * A non-zero mint whose quantities are themselves in the target
   * proportions is accepted from any basket. On target, the basket stays on
   * target; off target, every basset keeps its absolute deviation while the
   * total grows, so the basket-wide deviation ratio falls.
   */
  lemma MintInTargetProportions(basket: Basket, quantities: seq<nat>)
    requires |quantities| == |basket.bassets|
    requires OnTarget(quantities, Targets(basket.bassets))
    requires 0 < Sum(quantities)
    ensures ValidateMint(basket, quantities) == Ok(true)
  {
    var pre := Balances(basket.bassets);
    var tgt := Targets(basket.bassets);
    var post := Deposit(pre, quantities);
    if OnTarget(pre, tgt) {
      MintOnTarget(basket, quantities);
    } else {
      SumDeposit(pre, quantities);
      forall i | 0 <= i < |tgt|
        ensures Dev(post[i], tgt[i], Sum(post)) == Dev(pre[i], tgt[i], Sum(pre))
      {
        DevAfterDeposit(quantities[i], pre[i], tgt[i], Sum(quantities), Sum(pre));
        assert post[i] == quantities[i] + pre[i];
      }
      TotalDevPointwise(post, pre, tgt, Sum(post), Sum(pre));
      var d := TotalDev(pre, tgt, Sum(pre));
      assert 0 < d;
      MulCancelLess(Sum(pre), Sum(post), d);
      assert MovesCloser(pre, post, tgt);
    }
  }

  /**
   * On an off-target basket, a mint is accepted exactly when every basset
   * ends within the grace band or the basket-wide deviation strictly
   * decreases, and is otherwise rejected as moving away from the target.
   */
  lemma MintOffTarget(basket: Basket, quantities: seq<nat>)
    requires |quantities| == |basket.bassets|
    requires !OnTarget(Balances(basket.bassets), Targets(basket.bassets))
    ensures var pre := Balances(basket.bassets);
            var tgt := Targets(basket.bassets);
            var post := Deposit(pre, quantities);
            ValidateMint(basket, quantities) == Ok(true) <==>
              WithinGrace(post, tgt, basket.grace) || MovesCloser(pre, post, tgt)
    ensures ValidateMint(basket, quantities) != Ok(true) ==>
              ValidateMint(basket, quantities) == Err(MovesAwayFromTarget)
  {
    var pre := Balances(basket.bassets);
    SumDeposit(pre, quantities);
    if Sum(pre) == 0 {
      EmptyIsOnTarget(pre, Targets(basket.bassets));
      assert false;
    }
  }

  /**
   * Without grace, the band admits only an exact hit, so on an off-target
   * basket a mint is accepted exactly when the basket-wide deviation
   * strictly decreases.
   */
  lemma MintOffTargetNoGrace(basket: Basket, quantities: seq<nat>)
    requires |quantities| == |basket.bassets|
    requires !OnTarget(Balances(basket.bassets), Targets(basket.bassets))
    requires basket.grace == 0
    ensures ValidateMint(basket, quantities) == Ok(true) <==>
              MovesCloser(Balances(basket.bassets),
                          Deposit(Balances(basket.bassets), quantities),
                          Targets(basket.bassets))
    ensures ValidateMint(basket, quantities) != Ok(true) ==>
              ValidateMint(basket, quantities) == Err(MovesAwayFromTarget)
  {
    var pre := Balances(basket.bassets);
    var post := Deposit(pre, quantities);
    MintOffTarget(basket, quantities);
    SumDeposit(pre, quantities);
    if Sum(pre) == 0 {
      EmptyIsOnTarget(pre, Targets(basket.bassets));
      assert false;
    }
  }

  /** Widening the grace band never turns an accepted mint into a rejected one. */
  lemma MintGraceMonotone(basket: Basket, quantities: seq<nat>, wider: nat)
    requires basket.grace <= wider
    requires ValidateMint(basket, quantities) == Ok(true)
    ensures ValidateMint(basket.(grace := wider), quantities) == Ok(true)
  {
    if |quantities| == |basket.bassets| {
      var pre := Balances(basket.bassets);
      var tgt := Targets(basket.bassets);
      var post := Deposit(pre, quantities);
      if WithinGrace(post, tgt, basket.grace) {
        forall i | 0 <= i < |post|
          ensures Dev(post[i], tgt[i], Sum(post)) <= wider * Sum(post)
        {
          MulMonotone(basket.grace, wider, Sum(post));
        }
      }
    }
  }

  /** A deviation and its grace band scale together, so the comparison is unchanged. */
  lemma BandScale(d: nat, grace: nat, total: nat, k: nat)
    requires 0 < k
    ensures k * d <= grace * (k * total) <==> d <= grace * total
  {
    assert grace * (k * total) == k * (grace * total);
    MulCancelLessEq(d, grace * total, k);
  }

  /** Scaling all four factors of a cross-multiplied comparison by k leaves it unchanged. */
  lemma CrossScale(a: nat, b: nat, c: nat, d: nat, k: nat)
    requires 0 < k
    ensures (k * a) * (k * b) < (k * c) * (k * d) <==> a * b < c * d
  {
    assert (k * a) * (k * b) == (k * k) * (a * b);
    assert (k * c) * (k * d) == (k * k) * (c * d);
    MulPositive(k, k);
    MulCancelLess(a * b, c * d, k * k);
  }

  lemma OnTargetScale(bal: seq<nat>, tgt: seq<nat>, k: nat)
    requires |bal| == |tgt| && 0 < k
    ensures OnTarget(Scale(bal, k), tgt) <==> OnTarget(bal, tgt)
  {
    var s := Scale(bal, k);
    SumScale(bal, k);
    forall i | 0 <= i < |bal|
      ensures Dev(s[i], tgt[i], Sum(s)) == k * Dev(bal[i], tgt[i], Sum(bal))
    {
      DevScale(bal[i], tgt[i], Sum(bal), k);
    }
  }

  lemma WithinGraceScale(bal: seq<nat>, tgt: seq<nat>, grace: nat, k: nat)
    requires |bal| == |tgt| && 0 < k
    ensures WithinGrace(Scale(bal, k), tgt, grace) <==> WithinGrace(bal, tgt, grace)
  {
    var s := Scale(bal, k);
    SumScale(bal, k);
    forall i | 0 <= i < |bal|
      ensures Dev(s[i], tgt[i], Sum(s)) <= grace * Sum(s) <==>
              Dev(bal[i], tgt[i], Sum(bal)) <= grace * Sum(bal)
    {
      DevScale(bal[i], tgt[i], Sum(bal), k);
      BandScale(Dev(bal[i], tgt[i], Sum(bal)), grace, Sum(bal), k);
    }
  }

  lemma MovesCloserScale(pre: seq<nat>, post: seq<nat>, tgt: seq<nat>, k: nat)
    requires |pre| == |tgt| && |post| == |tgt| && 0 < k
    ensures MovesCloser(Scale(pre, k), Scale(post, k), tgt) <==> MovesCloser(pre, post, tgt)
  {
    var pre', post' := Scale(pre, k), Scale(post, k);
    SumScale(pre, k);
    SumScale(post, k);
    TotalDevScale(pre, tgt, Sum(pre), k);
    TotalDevScale(post, tgt, Sum(post), k);
    CrossScale(TotalDev(post, tgt, Sum(post)), Sum(pre), TotalDev(pre, tgt, Sum(pre)), Sum(post), k);
  }

  lemma CheckWeightsScale(tgt: seq<nat>, grace: nat, pre: seq<nat>, post: seq<nat>, k: nat)
    requires |pre| == |tgt| && |post| == |tgt| && 0 < k
    ensures CheckWeights(tgt, grace, Scale(pre, k), Scale(post, k)) == CheckWeights(tgt, grace, pre, post)
  {
    SumScale(post, k);
    OnTargetScale(pre, tgt, k);
    OnTargetScale(post, tgt, k);
    WithinGraceScale(post, tgt, grace, k);
    MovesCloserScale(pre, post, tgt, k);
  }

  /**
   * The verdict does not depend on the unit balances are counted in:
   * expressing every balance and quantity k times finer (as a change of
   * decimals does) leaves the answer unchanged.
   */
  lemma MintScaleInvariant(basket: Basket, quantities: seq<nat>, k: nat)
    requires 0 < k
    ensures ValidateMint(ScaleBasket(basket, k), Scale(quantities, k)) == ValidateMint(basket, quantities)
  {
    if |quantities| == |basket.bassets| {
      var pre := Balances(basket.bassets);
      var post := Deposit(pre, quantities);
      assert Deposit(Scale(pre, k), Scale(quantities, k)) == Scale(post, k);
      CheckWeightsScale(Targets(basket.bassets), basket.grace, pre, post, k);
    }
  }

  /** Redeeming nothing is accepted from any basket. */
  lemma RedeemNothing(basket: Basket, quantities: seq<nat>)
    requires |quantities| == |basket.bassets|
    requires forall i :: 0 <= i < |quantities| ==> quantities[i] == 0
    ensures ValidateRedemption(basket, quantities) == Ok(true)
  {
  }
}
