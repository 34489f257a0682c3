/**
 * Weight and deviation arithmetic shared by the mint and redemption paths.
 *
 * A basset with balance b in a basket of total T has weight b / T; its target
 * weight t is a fixed-point ratio, t / Unit. Division is avoided by scaling
 * every comparison by T * Unit, so that the deviation of a basset,
 * |b / T - t / Unit|, is carried as the exact integer |b * Unit - t * T|.
 */
module Deviation {
  import opened Baskets

  function Abs(x: int): (r: nat)
  {
    if x < 0 then -x else x
  }

  /** |b / total - t / Unit|, scaled by total * Unit. */
  function Dev(b: nat, t: nat, total: nat): (d: nat)
  {
    Abs(b * Unit - t * total)
  }

  /** The basket-wide deviation: the sum of every basset's absolute deviation, scaled by total * Unit. */
  function TotalDev(bal: seq<nat>, tgt: seq<nat>, total: nat): (r: nat)
    requires |bal| == |tgt|
    ensures r == 0 <==> forall i :: 0 <= i < |bal| ==> Dev(bal[i], tgt[i], total) == 0
    decreases |bal|
  {
    if bal == [] then 0
    else
      var rest := TotalDev(bal[1..], tgt[1..], total);
      assert forall i :: 1 <= i < |bal| ==> bal[i] == bal[1..][i - 1] && tgt[i] == tgt[1..][i - 1];
      Dev(bal[0], tgt[0], total) + rest
  }

  /**
   * Every basset's weight equals its target weight exactly; equivalently,
   * the basket-wide deviation is zero.
   */
  predicate OnTarget(bal: seq<nat>, tgt: seq<nat>)
    requires |bal| == |tgt|
    ensures OnTarget(bal, tgt) <==> TotalDev(bal, tgt, Sum(bal)) == 0
  {
    forall i :: 0 <= i < |bal| ==> Dev(bal[i], tgt[i], Sum(bal)) == 0
  }

  /**
   * Every basset's weight lies within grace of its target (the band's edge
   * included). A basket on target is within any band, and a zero band admits
   * only a basket on target.
   */
  predicate WithinGrace(bal: seq<nat>, tgt: seq<nat>, grace: nat)
    requires |bal| == |tgt|
    ensures OnTarget(bal, tgt) ==> WithinGrace(bal, tgt, grace)
    ensures grace == 0 ==> (WithinGrace(bal, tgt, grace) <==> OnTarget(bal, tgt))
  {
    forall i :: 0 <= i < |bal| ==> Dev(bal[i], tgt[i], Sum(bal)) <= grace * Sum(bal)
  }

  /**
   * The basket-wide deviation after the operation is strictly smaller than
   * before: TotalDev(post) / (T' * Unit) < TotalDev(pre) / (T * Unit),
   * cross-multiplied by T * T' * Unit. Nothing moves closer from a basket
   * already on target, and reaching the target from off it always does.
   */
  predicate MovesCloser(pre: seq<nat>, post: seq<nat>, tgt: seq<nat>)
    requires |pre| == |tgt| && |post| == |tgt|
    ensures MovesCloser(pre, post, tgt) ==> !OnTarget(pre, tgt)
    ensures !OnTarget(pre, tgt) && OnTarget(post, tgt) && 0 < Sum(post) ==> MovesCloser(pre, post, tgt)
  {
    TotalDev(post, tgt, Sum(post)) * Sum(pre) < TotalDev(pre, tgt, Sum(pre)) * Sum(post)
  }

  /** An empty basket (all vaults zero) is trivially on target. */
  lemma EmptyIsOnTarget(bal: seq<nat>, tgt: seq<nat>)
    requires |bal| == |tgt|
    requires Sum(bal) == 0
    ensures OnTarget(bal, tgt)
  {
    SumZero(bal);
  }

  /** Expressing balances in a unit k times finer multiplies a deviation by k. */
  lemma DevScale(b: nat, t: nat, total: nat, k: nat)
    ensures Dev(k * b, t, k * total) == k * Dev(b, t, total)
  {
    assert k * b * Unit - t * (k * total) == k * (b * Unit - t * total);
  }
}
