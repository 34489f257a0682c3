/**
 * The fixture baskets of the ForgeLib test suite and one lemma per asserted
 * outcome. Balances and quantities are in whole normalised units; targets
 * and grace are fixed-point weights.
 */
module ForgeLibScenarios {
  import opened Baskets
  import opened Deviation
  import opened ForgeLib

  // Evaluation of sums, deviations and the weight predicates on short literal sequences.

  lemma Sum2(a: nat, b: nat)
    ensures Sum([a, b]) == a + b
  {
    assert [a, b][1..] == [b];
    assert [b][1..] == [];
    calc {
      Sum([a, b]);
      a + Sum([b]);
      a + (b + Sum([]));
    }
  }

  lemma Sum3(a: nat, b: nat, c: nat)
    ensures Sum([a, b, c]) == a + b + c
  {
    assert [a, b, c][1..] == [b, c];
    Sum2(b, c);
  }

  lemma TotalDev3(a: nat, b: nat, c: nat, x: nat, y: nat, z: nat, total: nat)
    ensures TotalDev([a, b, c], [x, y, z], total) == Dev(a, x, total) + Dev(b, y, total) + Dev(c, z, total)
  {
    assert [a, b, c][1..] == [b, c] && [x, y, z][1..] == [y, z];
    assert [b, c][1..] == [c] && [y, z][1..] == [z];
    assert [c][1..] == [] && [z][1..] == [];
    calc {
      TotalDev([a, b, c], [x, y, z], total);
      Dev(a, x, total) + TotalDev([b, c], [y, z], total);
      Dev(a, x, total) + (Dev(b, y, total) + TotalDev([c], [z], total));
      Dev(a, x, total) + (Dev(b, y, total) + (Dev(c, z, total) + TotalDev([], [], total)));
    }
  }

  lemma OnTarget2(a: nat, b: nat, x: nat, y: nat)
    ensures OnTarget([a, b], [x, y]) <==> Dev(a, x, a + b) == 0 && Dev(b, y, a + b) == 0
  {
    var s, t := [a, b], [x, y];
    Sum2(a, b);
    assert Dev(s[0], t[0], Sum(s)) == Dev(a, x, a + b) && Dev(s[1], t[1], Sum(s)) == Dev(b, y, a + b);
    if Dev(a, x, a + b) == 0 && Dev(b, y, a + b) == 0 {
      forall i | 0 <= i < 2 ensures Dev(s[i], t[i], Sum(s)) == 0 {
        if i == 0 {} else {}
      }
    }
  }

  lemma OnTarget3(a: nat, b: nat, c: nat, x: nat, y: nat, z: nat)
    ensures OnTarget([a, b, c], [x, y, z]) <==>
              Dev(a, x, a + b + c) == 0 && Dev(b, y, a + b + c) == 0 && Dev(c, z, a + b + c) == 0
  {
    var s, t := [a, b, c], [x, y, z];
    Sum3(a, b, c);
    assert Dev(s[0], t[0], Sum(s)) == Dev(a, x, a + b + c) && Dev(s[1], t[1], Sum(s)) == Dev(b, y, a + b + c);
    assert Dev(s[2], t[2], Sum(s)) == Dev(c, z, a + b + c);
    if Dev(a, x, a + b + c) == 0 && Dev(b, y, a + b + c) == 0 && Dev(c, z, a + b + c) == 0 {
      forall i | 0 <= i < 3 ensures Dev(s[i], t[i], Sum(s)) == 0 {
        if i == 0 {} else if i == 1 {} else {}
      }
    }
  }

  lemma WithinGrace3(a: nat, b: nat, c: nat, x: nat, y: nat, z: nat, grace: nat)
    ensures var band := grace * (a + b + c);
            WithinGrace([a, b, c], [x, y, z], grace) <==>
              Dev(a, x, a + b + c) <= band && Dev(b, y, a + b + c) <= band && Dev(c, z, a + b + c) <= band
  {
    var s, t := [a, b, c], [x, y, z];
    var band := grace * (a + b + c);
    Sum3(a, b, c);
    assert Dev(s[0], t[0], Sum(s)) == Dev(a, x, a + b + c) && Dev(s[1], t[1], Sum(s)) == Dev(b, y, a + b + c);
    assert Dev(s[2], t[2], Sum(s)) == Dev(c, z, a + b + c);
    if Dev(a, x, a + b + c) <= band && Dev(b, y, a + b + c) <= band && Dev(c, z, a + b + c) <= band {
      forall i | 0 <= i < 3 ensures Dev(s[i], t[i], Sum(s)) <= grace * Sum(s) {
        if i == 0 {} else if i == 1 {} else {}
      }
    }
  }

  lemma Deposit2(a: nat, b: nat, p: nat, q: nat)
    ensures Deposit([a, b], [p, q]) == [a + p, b + q]
  {
  }

  lemma Deposit3(a: nat, b: nat, c: nat, p: nat, q: nat, r: nat)
    ensures Deposit([a, b, c], [p, q, r]) == [a + p, b + q, c + r]
  {
  }

  /** Targets 50/50, nothing in either vault. */
  function EmptyBasket(): (b: Basket)
    ensures Balances(b.bassets) == [0, 0]
    ensures Targets(b.bassets) == [PercentToWeight(50), PercentToWeight(50)]
    ensures b.grace == 0 && WellFormed(b) && TotalVault(b) == 0
    ensures OnTarget(Balances(b.bassets), Targets(b.bassets))
  {
    var b := Basket([Basset(PercentToWeight(50), 0), Basset(PercentToWeight(50), 0)], 0);
    assert Balances(b.bassets) == [0, 0];
    assert Targets(b.bassets) == [PercentToWeight(50), PercentToWeight(50)];
    Sum2(0, 0);
    Sum2(PercentToWeight(50), PercentToWeight(50));
    OnTarget2(0, 0, PercentToWeight(50), PercentToWeight(50));
    b
  }

  /** Targets 40/40/20, balances exactly on target. */
  function StandardBasket(): (b: Basket)
    ensures Balances(b.bassets) == [4000, 4000, 2000]
    ensures Targets(b.bassets) == [PercentToWeight(40), PercentToWeight(40), PercentToWeight(20)]
    ensures b.grace == 0 && WellFormed(b) && TotalVault(b) == 10000
    ensures OnTarget(Balances(b.bassets), Targets(b.bassets))
  {
    var b := Basket([Basset(PercentToWeight(40), 4000), Basset(PercentToWeight(40), 4000),
                     Basset(PercentToWeight(20), 2000)], 0);
    assert Balances(b.bassets) == [4000, 4000, 2000];
    assert Targets(b.bassets) == [PercentToWeight(40), PercentToWeight(40), PercentToWeight(20)];
    Sum3(4000, 4000, 2000);
    Sum3(PercentToWeight(40), PercentToWeight(40), PercentToWeight(20));
    OnTarget3(4000, 4000, 2000, PercentToWeight(40), PercentToWeight(40), PercentToWeight(20));
    b
  }

  /** Targets 40/40/20, balances 32/36/32 percent, no grace. */
  function AdjustingBasket(): (b: Basket)
    ensures Balances(b.bassets) == [3200, 3600, 3200]
    ensures Targets(b.bassets) == [PercentToWeight(40), PercentToWeight(40), PercentToWeight(20)]
    ensures b.grace == 0 && WellFormed(b) && TotalVault(b) == 10000
    ensures !OnTarget(Balances(b.bassets), Targets(b.bassets))
  {
    var b := Basket([Basset(PercentToWeight(40), 3200), Basset(PercentToWeight(40), 3600),
                     Basset(PercentToWeight(20), 3200)], 0);
    assert Balances(b.bassets) == [3200, 3600, 3200];
    assert Targets(b.bassets) == [PercentToWeight(40), PercentToWeight(40), PercentToWeight(20)];
    Sum3(3200, 3600, 3200);
    Sum3(PercentToWeight(40), PercentToWeight(40), PercentToWeight(20));
    OnTarget3(3200, 3600, 3200, PercentToWeight(40), PercentToWeight(40), PercentToWeight(20));
    b
  }

  /** Targets 40/40/20, balances 40.1/40/19.9 percent, grace 0.5%. */
  function AdjustingBasketWithGrace(): (b: Basket)
    ensures Balances(b.bassets) == [4010, 4000, 1990]
    ensures Targets(b.bassets) == [PercentToWeight(40), PercentToWeight(40), PercentToWeight(20)]
    ensures b.grace * 200 == Unit && WellFormed(b) && TotalVault(b) == 10000
    ensures !OnTarget(Balances(b.bassets), Targets(b.bassets))
  {
    var b := Basket([Basset(PercentToWeight(40), 4010), Basset(PercentToWeight(40), 4000),
                     Basset(PercentToWeight(20), 1990)], Percent / 2);
    assert Balances(b.bassets) == [4010, 4000, 1990];
    assert Targets(b.bassets) == [PercentToWeight(40), PercentToWeight(40), PercentToWeight(20)];
    Sum3(4010, 4000, 1990);
    Sum3(PercentToWeight(40), PercentToWeight(40), PercentToWeight(20));
    OnTarget3(4010, 4000, 1990, PercentToWeight(40), PercentToWeight(40), PercentToWeight(20));
    b
  }

  /**
   * The reading under which every basset must individually move closer to
   * its target. The fixtures below accept mints that break it, which is why
   * the validator compares the basket-wide deviation instead.
   */
  predicate EveryBassetCloser(pre: seq<nat>, post: seq<nat>, tgt: seq<nat>)
    requires |pre| == |tgt| && |post| == |tgt|
  {
    forall i :: 0 <= i < |tgt| ==>
      Dev(post[i], tgt[i], Sum(post)) * Sum(pre) < Dev(pre[i], tgt[i], Sum(pre)) * Sum(post)
  }

  lemma MintMissingBasset()
    ensures ValidateMint(StandardBasket(), [200, 200]) == Err(MissingBasset)
    ensures MissingBasset.Message() == "Must provide values for all Bassets in system"
  {
  }

  lemma MintExtraBasset()
    ensures ValidateMint(StandardBasket(), [1000, 1000, 500, 0]) == Err(MissingBasset)
    ensures MissingBasset.Message() == "Must provide values for all Bassets in system"
  {
  }

  lemma MintEmptyBasketOffTarget()
    ensures ValidateMint(EmptyBasket(), [10000, 200]) == Err(OffOptimalWeighting)
    ensures OffOptimalWeighting.Message() == "Basket should not deviate from the optimal weightings"
  {
    var w := PercentToWeight(50);
    Deposit2(0, 0, 10000, 200);
    OnTarget2(10000, 200, w, w);
    assert Dev(10000, w, 10200) != 0;
    Sum2(10000, 200);
  }

  lemma MintEmptyBasketOnTarget()
    ensures ValidateMint(EmptyBasket(), [500, 500]) == Ok(true)
  {
    var w := PercentToWeight(50);
    Deposit2(0, 0, 500, 500);
    OnTarget2(500, 500, w, w);
  }

  lemma MintEmptyBasketNothing()
    ensures ValidateMint(EmptyBasket(), [0, 0]) == Ok(true)
  {
    Deposit2(0, 0, 0, 0);
    Sum2(0, 0);
  }

  lemma MintStandardOnTarget()
    ensures ValidateMint(StandardBasket(), [1000, 1000, 500]) == Ok(true)
  {
    var w40, w20 := PercentToWeight(40), PercentToWeight(20);
    Deposit3(4000, 4000, 2000, 1000, 1000, 500);
    OnTarget3(5000, 5000, 2500, w40, w40, w20);
  }

  lemma MintStandardOffTarget()
    ensures ValidateMint(StandardBasket(), [1000, 1000, 501]) == Err(OffOptimalWeighting)
    ensures OffOptimalWeighting.Message() == "Basket should not deviate from the optimal weightings"
  {
    var w40, w20 := PercentToWeight(40), PercentToWeight(20);
    Deposit3(4000, 4000, 2000, 1000, 1000, 501);
    OnTarget3(5000, 5000, 2501, w40, w40, w20);
    assert Dev(2501, w20, 12501) != 0;
    Sum3(5000, 5000, 2501);
  }

  lemma MintStandardOffTargetWithGrace()
    ensures ValidateMint(StandardBasket().(grace := PercentToWeight(50)), [1000, 1000, 501])
            == Err(OffOptimalWeighting)
    ensures OffOptimalWeighting.Message() == "Basket should not deviate from the optimal weightings"
  {
    var w40, w20 := PercentToWeight(40), PercentToWeight(20);
    var b := StandardBasket().(grace := PercentToWeight(50));
    assert Balances(b.bassets) == [4000, 4000, 2000];
    assert Targets(b.bassets) == [w40, w40, w20];
    Deposit3(4000, 4000, 2000, 1000, 1000, 501);
    OnTarget3(5000, 5000, 2501, w40, w40, w20);
    assert Dev(2501, w20, 12501) != 0;
    Sum3(5000, 5000, 2501);
  }

  /** Basket-wide deviation 0.24 before; 2400 / 15000 = 0.16 after. */
  lemma MintAdjustingOnTargetWeights()
    ensures ValidateMint(AdjustingBasket(), [2000, 2000, 1000]) == Ok(true)
  {
    Deposit3(3200, 3600, 3200, 2000, 2000, 1000);
    Sum3(5200, 5600, 4200);
    AdjustingOnTargetWeightsFigures();
  }

  lemma AdjustingOnTargetWeightsFigures()
    ensures var w40, w20 := PercentToWeight(40), PercentToWeight(20);
            MovesCloser([3200, 3600, 3200], [5200, 5600, 4200], [w40, w40, w20])
  {
    var w40, w20 := PercentToWeight(40), PercentToWeight(20);
    Sum3(3200, 3600, 3200);
    Sum3(5200, 5600, 4200);
    TotalDev3(3200, 3600, 3200, w40, w40, w20, 10000);
    TotalDev3(5200, 5600, 4200, w40, w40, w20, 15000);
    assert TotalDev([3200, 3600, 3200], [w40, w40, w20], 10000) == 2400 * Unit;
    assert TotalDev([5200, 5600, 4200], [w40, w40, w20], 15000) == 2400 * Unit;
  }

  /** Accepted although the second basset drifts from 4% to about 5.7% below target. */
  lemma MintAdjustingCloser()
    ensures ValidateMint(AdjustingBasket(), [500, 0, 0]) == Ok(true)
    ensures var pre := Balances(AdjustingBasket().bassets);
            !EveryBassetCloser(pre, Deposit(pre, [500, 0, 0]), Targets(AdjustingBasket().bassets))
  {
    Deposit3(3200, 3600, 3200, 500, 0, 0);
    Sum3(3700, 3600, 3200);
    AdjustingCloserFigures();
  }

  /** The basket-wide deviation falls from 2400 / 10000 to 2200 / 10500; the second basset's grows. */
  lemma AdjustingCloserFigures()
    ensures var w40, w20 := PercentToWeight(40), PercentToWeight(20);
            MovesCloser([3200, 3600, 3200], [3700, 3600, 3200], [w40, w40, w20]) &&
            Dev(3600, w40, 10000) == 400 * Unit && Dev(3600, w40, 10500) == 600 * Unit
  {
    var w40, w20 := PercentToWeight(40), PercentToWeight(20);
    Sum3(3200, 3600, 3200);
    Sum3(3700, 3600, 3200);
    TotalDev3(3200, 3600, 3200, w40, w40, w20, 10000);
    TotalDev3(3700, 3600, 3200, w40, w40, w20, 10500);
    assert TotalDev([3200, 3600, 3200], [w40, w40, w20], 10000) == 2400 * Unit;
    assert TotalDev([3700, 3600, 3200], [w40, w40, w20], 10500) == 2200 * Unit;
  }

  /** Accepted although the second basset drifts from 4% to about 4.8% below target. */
  lemma MintAdjustingCloserOverall()
    ensures ValidateMint(AdjustingBasket(), [3000, 1500, 0]) == Ok(true)
    ensures var pre := Balances(AdjustingBasket().bassets);
            !EveryBassetCloser(pre, Deposit(pre, [3000, 1500, 0]), Targets(AdjustingBasket().bassets))
  {
    Deposit3(3200, 3600, 3200, 3000, 1500, 0);
    Sum3(6200, 5100, 3200);
    AdjustingCloserOverallFigures();
  }

  /** The basket-wide deviation falls from 2400 / 10000 to 1400 / 14500; the second basset's grows. */
  lemma AdjustingCloserOverallFigures()
    ensures var w40, w20 := PercentToWeight(40), PercentToWeight(20);
            MovesCloser([3200, 3600, 3200], [6200, 5100, 3200], [w40, w40, w20]) &&
            Dev(3600, w40, 10000) == 400 * Unit && Dev(5100, w40, 14500) == 700 * Unit
  {
    var w40, w20 := PercentToWeight(40), PercentToWeight(20);
    Sum3(3200, 3600, 3200);
    Sum3(6200, 5100, 3200);
    TotalDev3(3200, 3600, 3200, w40, w40, w20, 10000);
    TotalDev3(6200, 5100, 3200, w40, w40, w20, 14500);
    assert TotalDev([3200, 3600, 3200], [w40, w40, w20], 10000) == 2400 * Unit;
    assert TotalDev([6200, 5100, 3200], [w40, w40, w20], 14500) == 1400 * Unit;
  }

  /**
   * Rejected: the basket-wide deviation goes from 2400 / 10000 = 0.24 to
   * 2425.6 / 10101, about 0.24013.
   */
  lemma MintAdjustingFurther()
    ensures ValidateMint(AdjustingBasket(), [32, 36, 33]) == Err(MovesAwayFromTarget)
    ensures MovesAwayFromTarget.Message() == "Forge must move Basket weightings towards the target"
    ensures var pre := Balances(AdjustingBasket().bassets);
            var post := Deposit(pre, [32, 36, 33]);
            var tgt := Targets(AdjustingBasket().bassets);
            Sum(pre) == 10000 && TotalDev(pre, tgt, Sum(pre)) == 2400 * Unit &&
            Sum(post) == 10101 && TotalDev(post, tgt, Sum(post)) * 10 == 24256 * Unit
  {
    Deposit3(3200, 3600, 3200, 32, 36, 33);
    Sum3(3232, 3636, 3233);
    AdjustingFurtherFigures();
    var w40, w20 := PercentToWeight(40), PercentToWeight(20);
    assert !OnTarget([3232, 3636, 3233], [w40, w40, w20]);
  }

  /** The basket-wide deviation of the 32/36/33 mint, before and after. */
  lemma AdjustingFurtherFigures()
    ensures var w40, w20 := PercentToWeight(40), PercentToWeight(20);
            var pre, post, tgt := [3200, 3600, 3200], [3232, 3636, 3233], [w40, w40, w20];
            Sum(pre) == 10000 && TotalDev(pre, tgt, Sum(pre)) == 2400 * Unit &&
            Sum(post) == 10101 && TotalDev(post, tgt, Sum(post)) * 10 == 24256 * Unit &&
            !MovesCloser(pre, post, tgt)
  {
    var w40, w20 := PercentToWeight(40), PercentToWeight(20);
    Sum3(3200, 3600, 3200);
    Sum3(3232, 3636, 3233);
    TotalDev3(3200, 3600, 3200, w40, w40, w20, 10000);
    TotalDev3(3232, 3636, 3233, w40, w40, w20, 10101);
    assert TotalDev([3200, 3600, 3200], [w40, w40, w20], 10000) == 2400 * Unit;
    assert TotalDev([3232, 3636, 3233], [w40, w40, w20], 10101) * 10 == 24256 * Unit;
  }

  /** Rejected: the basket-wide deviation goes from 0.24 to 4800 / 15000 = 0.32. */
  lemma MintAdjustingWayOver()
    ensures ValidateMint(AdjustingBasket(), [5000, 0, 0]) == Err(MovesAwayFromTarget)
    ensures MovesAwayFromTarget.Message() == "Forge must move Basket weightings towards the target"
  {
    Deposit3(3200, 3600, 3200, 5000, 0, 0);
    Sum3(8200, 3600, 3200);
    AdjustingWayOverFigures();
  }

  /** The basket-wide deviation grows from 2400 / 10000 to 4800 / 15000, and the first basset is off target. */
  lemma AdjustingWayOverFigures()
    ensures var w40, w20 := PercentToWeight(40), PercentToWeight(20);
            var pre, post, tgt := [3200, 3600, 3200], [8200, 3600, 3200], [w40, w40, w20];
            !OnTarget(post, tgt) && !MovesCloser(pre, post, tgt)
  {
    var w40, w20 := PercentToWeight(40), PercentToWeight(20);
    Sum3(3200, 3600, 3200);
    Sum3(8200, 3600, 3200);
    TotalDev3(3200, 3600, 3200, w40, w40, w20, 10000);
    TotalDev3(8200, 3600, 3200, w40, w40, w20, 15000);
    OnTarget3(8200, 3600, 3200, w40, w40, w20);
    assert Dev(8200, w40, 15000) != 0;
    assert TotalDev([3200, 3600, 3200], [w40, w40, w20], 10000) == 2400 * Unit;
    assert TotalDev([8200, 3600, 3200], [w40, w40, w20], 15000) == 4800 * Unit;
  }

  /**
   * Accepted by the grace band alone: every basset ends within 0.5% of its
   * target, though the basket-wide deviation grows from 20 / 10000 to 40 / 11000.
   */
  lemma MintGraceWithinBand()
    ensures ValidateMint(AdjustingBasketWithGrace(), [410, 400, 190]) == Ok(true)
    ensures var pre := Balances(AdjustingBasketWithGrace().bassets);
            !MovesCloser(pre, Deposit(pre, [410, 400, 190]), Targets(AdjustingBasketWithGrace().bassets))
  {
    Deposit3(4010, 4000, 1990, 410, 400, 190);
    Sum3(4420, 4400, 2180);
    GraceWithinBandFigures(AdjustingBasketWithGrace().grace);
  }

  /** Every basset of 4420/4400/2180 is within 0.5% of 40/40/20, but 40 / 11000 exceeds 20 / 10000. */
  lemma GraceWithinBandFigures(grace: nat)
    requires grace * 200 == Unit
    ensures var w40, w20 := PercentToWeight(40), PercentToWeight(20);
            var pre, post, tgt := [4010, 4000, 1990], [4420, 4400, 2180], [w40, w40, w20];
            WithinGrace(post, tgt, grace) && !MovesCloser(pre, post, tgt)
  {
    var w40, w20 := PercentToWeight(40), PercentToWeight(20);
    Sum3(4010, 4000, 1990);
    Sum3(4420, 4400, 2180);
    TotalDev3(4010, 4000, 1990, w40, w40, w20, 10000);
    TotalDev3(4420, 4400, 2180, w40, w40, w20, 11000);
    WithinGrace3(4420, 4400, 2180, w40, w40, w20, grace);
    assert grace * 11000 == 55 * Unit;
    assert TotalDev([4010, 4000, 1990], [w40, w40, w20], 10000) == 20 * Unit;
    assert TotalDev([4420, 4400, 2180], [w40, w40, w20], 11000) == 40 * Unit;
  }

  /** Rejected: the first basset ends about 0.52% above target, outside the 0.5% band. */
  lemma MintGraceOutsideBand()
    ensures ValidateMint(AdjustingBasketWithGrace(), [480, 400, 200]) == Err(MovesAwayFromTarget)
    ensures MovesAwayFromTarget.Message() == "Forge must move Basket weightings towards the target"
  {
    Deposit3(4010, 4000, 1990, 480, 400, 200);
    Sum3(4490, 4400, 2190);
    GraceOutsideBandFigures(AdjustingBasketWithGrace().grace);
  }

  /** The first basset of 4490/4400/2190 is 58 / 11080 above 40%, past the band of 55.4 / 11080. */
  lemma GraceOutsideBandFigures(grace: nat)
    requires grace * 200 == Unit
    ensures var w40, w20 := PercentToWeight(40), PercentToWeight(20);
            var pre, post, tgt := [4010, 4000, 1990], [4490, 4400, 2190], [w40, w40, w20];
            !WithinGrace(post, tgt, grace) && !MovesCloser(pre, post, tgt)
  {
    var w40, w20 := PercentToWeight(40), PercentToWeight(20);
    Sum3(4010, 4000, 1990);
    Sum3(4490, 4400, 2190);
    TotalDev3(4010, 4000, 1990, w40, w40, w20, 10000);
    TotalDev3(4490, 4400, 2190, w40, w40, w20, 11080);
    WithinGrace3(4490, 4400, 2190, w40, w40, w20, grace);
    assert grace * 11080 == 554 * Unit / 10;
    assert Dev(4490, w40, 11080) == 58 * Unit;
    assert TotalDev([4010, 4000, 1990], [w40, w40, w20], 10000) == 20 * Unit;
    assert TotalDev([4490, 4400, 2190], [w40, w40, w20], 11080) == 116 * Unit;
  }

  lemma RedeemEmptyBasketInsufficient()
    ensures ValidateRedemption(EmptyBasket(), [100, 100]) == Err(InsufficientVaultBalance)
    ensures InsufficientVaultBalance.Message() == "Vault must have sufficient balance to redeem"
  {
  }

  lemma RedeemEmptyBasketNothing()
    ensures ValidateRedemption(EmptyBasket(), [0, 0]) == Ok(true)
  {
  }

  lemma RedeemMissingBasset()
    ensures ValidateRedemption(StandardBasket(), [200, 200]) == Err(MissingBasset)
    ensures MissingBasset.Message() == "Must provide values for all Bassets in system"
  {
  }
}
