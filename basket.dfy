/**
 * The basket data model: a basket is an ordered list of bassets (collateral
 * assets), each with a target weight and a vault balance, plus a grace
 * tolerance. Weights are 18-decimal fixed-point ratios (Unit is 100%);
 * balances and quantities are already in one common normalised unit.
 */
module Baskets {

  /** 1.0 as an 18-decimal fixed-point ratio. */
  const Unit: nat := 1_000_000_000_000_000_000

  /** 1% as a fixed-point ratio. */
  const Percent: nat := 10_000_000_000_000_000

  datatype Result<+T, +E> = Ok(value: T) | Err(error: E)

  datatype Option<+T> = None | Some(value: T)

  /** One collateral asset: its target share of the basket and what its vault holds. */
  datatype Basset = Basset(targetWeight: nat, vaultBalance: nat)

  /** The bassets, in the order a quantity vector must follow, and the grace band. */
  datatype Basket = Basket(bassets: seq<Basset>, grace: nat)

  /** Converts a whole percentage into a fixed-point weight. */
  function PercentToWeight(p: nat): (w: nat)
    ensures w * 100 == p * Unit
  {
    p * Percent
  }

  function Sum(s: seq<nat>): (total: nat)
  {
    if s == [] then 0 else s[0] + Sum(s[1..])
  }

  function Balances(bs: seq<Basset>): (r: seq<nat>)
    ensures |r| == |bs|
  {
    seq(|bs|, i requires 0 <= i < |bs| => bs[i].vaultBalance)
  }

  function Targets(bs: seq<Basset>): (r: seq<nat>)
    ensures |r| == |bs|
  {
    seq(|bs|, i requires 0 <= i < |bs| => bs[i].targetWeight)
  }

  /** Total value held by the basket's vaults. */
  function TotalVault(b: Basket): (total: nat)
  {
    Sum(Balances(b.bassets))
  }

  /** A basket as construction admits it: targets add up to 100% and grace is a ratio. */
  predicate WellFormed(b: Basket)
  {
    Sum(Targets(b.bassets)) == Unit && b.grace <= Unit
  }

  /** Balances after a mint: each vault receives its quantity. */
  function Deposit(bal: seq<nat>, q: seq<nat>): (r: seq<nat>)
    requires |bal| == |q|
    ensures |r| == |bal|
  {
    seq(|bal|, i requires 0 <= i < |bal| => bal[i] + q[i])
  }

  /** Multiplies every entry by k (a change of unit). */
  function Scale(s: seq<nat>, k: nat): (r: seq<nat>)
    ensures |r| == |s|
  {
    seq(|s|, i requires 0 <= i < |s| => k * s[i])
  }

  /** The same basket with every vault balance expressed k times finer. */
  function ScaleBasket(b: Basket, k: nat): (r: Basket)
    ensures r.grace == b.grace
    ensures Targets(r.bassets) == Targets(b.bassets)
    ensures Balances(r.bassets) == Scale(Balances(b.bassets), k)
  {
    Basket(seq(|b.bassets|, i requires 0 <= i < |b.bassets| =>
                 Basset(b.bassets[i].targetWeight, k * b.bassets[i].vaultBalance)),
           b.grace)
  }

  lemma {:induction false} SumDeposit(bal: seq<nat>, q: seq<nat>)
    requires |bal| == |q|
    ensures Sum(Deposit(bal, q)) == Sum(bal) + Sum(q)
  {
    if bal != [] {
      assert Deposit(bal, q)[1..] == Deposit(bal[1..], q[1..]);
      SumDeposit(bal[1..], q[1..]);
    }
  }

  lemma {:induction false} SumScale(s: seq<nat>, k: nat)
    ensures Sum(Scale(s, k)) == k * Sum(s)
  {
    if s != [] {
      assert Scale(s, k)[1..] == Scale(s[1..], k);
      SumScale(s[1..], k);
      assert k * Sum(s) == k * s[0] + k * Sum(s[1..]);
    }
  }

  /** A sum of naturals is zero exactly when every entry is. */
  lemma {:induction false} SumZero(s: seq<nat>)
    ensures Sum(s) == 0 <==> forall i :: 0 <= i < |s| ==> s[i] == 0
  {
    if s != [] {
      SumZero(s[1..]);
      assert forall i :: 1 <= i < |s| ==> s[i] == s[1..][i - 1];
    }
  }
}
