/**
 * The forge validator: decides whether a proposed mint or redemption against
 * a basket is allowed. Both checks are pure: they read a basket snapshot and a
 * quantity vector (one entry per basset, in basket order) and answer either
 * Ok(true) or one of four rejection reasons. The basket is never changed.
 */
module ForgeLib {
  import opened Baskets
  import opened Deviation

  datatype Reason =
    | MissingBasset
    | OffOptimalWeighting
    | MovesAwayFromTarget
    | InsufficientVaultBalance
  {
    /** The revert message a caller sees for this reason. */
    function Message(): (m: string)
    {
      match this
      case MissingBasset => "Must provide values for all Bassets in system"
      case OffOptimalWeighting => "Basket should not deviate from the optimal weightings"
      case MovesAwayFromTarget => "Forge must move Basket weightings towards the target"
      case InsufficientVaultBalance => "Vault must have sufficient balance to redeem"
    }
  }

  /** The rejection reason a revert message reports, as a caller matching on messages reads it. */
  function ReasonOf(m: string): (r: Option<Reason>)
    ensures r.Some? ==> r.value.Message() == m
  {
    if m == "Must provide values for all Bassets in system" then Some(MissingBasset)
    else if m == "Basket should not deviate from the optimal weightings" then Some(OffOptimalWeighting)
    else if m == "Forge must move Basket weightings towards the target" then Some(MovesAwayFromTarget)
    else if m == "Vault must have sufficient balance to redeem" then Some(InsufficientVaultBalance)
    else None
  }

  /** Each reason's message reads back as that reason, so callers can tell the four apart. */
  lemma MessageIdentifiesReason(r: Reason)
    ensures ReasonOf(r.Message()) == Some(r)
  {
  }

  /**
   * The weight rule, applied to the balances before (pre) and after (post)
   * the operation:
   *  - nothing left to weigh (post total 0): accepted;
   *  - pre on target: post must be exactly on target; grace plays no part;
   *  - pre off target: accepted when every basset ends within grace of its
   *    target, or else when the basket-wide deviation strictly decreases.
   * Only two test cases pin how grace combines with the basket-wide rule; this
   * is the simplest reading that agrees with both.
   */
  function CheckWeights(tgt: seq<nat>, grace: nat, pre: seq<nat>, post: seq<nat>): (r: Result<bool, Reason>)
    requires |pre| == |tgt| && |post| == |tgt|
    ensures r.Ok? ==> r.value
    ensures r.Err? ==> r.error == OffOptimalWeighting || r.error == MovesAwayFromTarget
    ensures r == Err(OffOptimalWeighting) ==> OnTarget(pre, tgt) && !OnTarget(post, tgt)
    ensures r == Err(MovesAwayFromTarget) ==>
              !OnTarget(pre, tgt) && !WithinGrace(post, tgt, grace) && !MovesCloser(pre, post, tgt)
    ensures OnTarget(pre, tgt) ==>
              (r == Ok(true) <==> Sum(post) == 0 || OnTarget(post, tgt))
    ensures !OnTarget(pre, tgt) && 0 < Sum(post) ==>
              (r == Ok(true) <==> WithinGrace(post, tgt, grace) || MovesCloser(pre, post, tgt))
  {
    if Sum(post) == 0 then Ok(true)
    else if OnTarget(pre, tgt) then
      if OnTarget(post, tgt) then Ok(true) else Err(OffOptimalWeighting)
    else if WithinGrace(post, tgt, grace) || MovesCloser(pre, post, tgt) then Ok(true)
    else Err(MovesAwayFromTarget)
  }

  /** Whether depositing quantities into the basket's vaults is an allowed mint. */
  function ValidateMint(basket: Basket, quantities: seq<nat>): (r: Result<bool, Reason>)
    ensures r.Ok? ==> r.value
    ensures r == Err(MissingBasset) <==> |quantities| != |basket.bassets|
    ensures r != Err(InsufficientVaultBalance)
  {
    var bs := basket.bassets;
    if |quantities| != |bs| then Err(MissingBasset)
    else
      var pre := Balances(bs);
      CheckWeights(Targets(bs), basket.grace, pre, Deposit(pre, quantities))
  }

  /** The first basset, from index i on, whose requested quantity exceeds its vault balance. */
  function FirstShortfall(bal: seq<nat>, q: seq<nat>, i: nat): (r: Option<nat>)
    requires |bal| == |q| && i <= |bal|
    ensures r.None? <==> forall j :: i <= j < |bal| ==> q[j] <= bal[j]
    ensures r.Some? ==> i <= r.value < |bal| && bal[r.value] < q[r.value]
    ensures r.Some? ==> forall j :: i <= j < r.value ==> q[j] <= bal[j]
    decreases |bal| - i
  {
    if i == |bal| then None
    else if bal[i] < q[i] then Some(i)
    else FirstShortfall(bal, q, i + 1)
  }

  /**
   * Whether withdrawing quantities from the basket's vaults is an allowed
   * redemption. Only the shape and solvency checks are modelled: once they
   * pass, the redemption is accepted.
   */
  function ValidateRedemption(basket: Basket, quantities: seq<nat>): (r: Result<bool, Reason>)
    ensures r.Ok? ==> r.value
    ensures r == Err(MissingBasset) <==> |quantities| != |basket.bassets|
    ensures |quantities| == |basket.bassets| ==>
              (r == Ok(true) <==>
                 forall i :: 0 <= i < |quantities| ==> quantities[i] <= basket.bassets[i].vaultBalance)
    ensures |quantities| == |basket.bassets| && r.Err? ==>
              r.error == InsufficientVaultBalance &&
              exists i :: 0 <= i < |quantities| && basket.bassets[i].vaultBalance < quantities[i]
  {
    var bs := basket.bassets;
    if |quantities| != |bs| then Err(MissingBasset)
    else if FirstShortfall(Balances(bs), quantities, 0).Some? then Err(InsufficientVaultBalance)
    else Ok(true)
  }
}
