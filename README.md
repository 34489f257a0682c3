# Forge validator of a multi-collateral basket

A basket holds several collateral assets ("bassets"). Each basset has a target weight, its share of the basket's value, and a vault balance. The forge validator (`ForgeLib`) decides whether a proposed mint or redemption against the basket is allowed. A mint deposits one quantity per basset; a redemption withdraws one. The answer is either acceptance or one of four rejection reasons, each with a fixed message:

- `MissingBasset`: "Must provide values for all Bassets in system"
- `OffOptimalWeighting`: "Basket should not deviate from the optimal weightings"
- `MovesAwayFromTarget`: "Forge must move Basket weightings towards the target"
- `InsufficientVaultBalance`: "Vault must have sufficient balance to redeem"

The Solidity source of the library `ForgeLib` is not reproduced here. Its decision rule is rebuilt from the fixtures and asserted outcomes in `test/masset/masset/TestForgeLibV1.spec.ts`. The rule below agrees with every case there:

1. A quantity vector whose length differs from the number of bassets is rejected with `MissingBasset`.
2. For a redemption, a quantity above its vault balance is rejected with `InsufficientVaultBalance`.
3. A mint that leaves the basket empty (post total 0) is accepted.
4. If the basket sits exactly on target before the mint, the mint must leave it exactly on target. An empty basket counts as on target. Grace plays no part here, and a failure is `OffOptimalWeighting`.
5. Otherwise the mint is accepted when every basset ends within `grace` of its target. Failing that, it is accepted when the basket-wide deviation Σ|bᵢ/T − tᵢ| strictly decreases. A failure is `MovesAwayFromTarget`.

Weights are 18-decimal fixed-point ratios: `Unit` is 100%. Balances and quantities are whole numbers in one common normalised unit. Every comparison is cross-multiplied, so the arithmetic is exact integer arithmetic with no division.

Modules:

- `Baskets` (basket.dfy): the data model, sums and balance updates.
- `Deviation` (deviation.dfy): per-basset and basket-wide deviation, "on target", "within grace" and "moves closer".
- `ForgeLib` (forge_lib.dfy): the reasons and their messages, `ValidateMint` and `ValidateRedemption`.
- `ForgeProperties` (forge_properties.dfy): properties that hold for every basket and quantity vector.
- `ForgeLibScenarios` (forge_lib_scenarios.dfy): the four fixture baskets, and one lemma per asserted outcome of the test suite.

The model follows the tests on four points where another reading of the validator is possible:

- One reading is per basset: every basset must individually move closer to its target. That reading is contradicted by the accepted mints at `TestForgeLibV1.spec.ts:161-177`. In the first, the second basset drifts from 4% to about 5.7% below target; in the second, from 4% to about 4.8%. `ForgeLibScenarios.MintAdjustingCloser` and `MintAdjustingCloserOverall` prove that those mints break the per-basset rule and are accepted. The model compares the basket-wide deviation instead.
- The basket-wide measure itself is one of several the tests allow. The sum of absolute deviations Σ|bᵢ/T − tᵢ| is what the model uses. The largest single deviation max|bᵢ/T − tᵢ|, or the sum of squared deviations, would give the same verdict on all six off-target cases at `:152-224`.
- Only two test cases (`:202-224`), on one fixture, pin how grace combines with the basket-wide rule. The model takes the simplest reading that fits both: "every basset within grace" is an alternative to "moves closer overall".
- Under this rule an all-zero mint is accepted only when the basket is on target or within grace (`ForgeProperties.MintNothing`). The tests exercise the all-zero mint only on the empty basket.

## Model

| member | source | states |
|---|---|---|
| `Baskets.PercentToWeight` | test/masset/masset/TestForgeLibV1.spec.ts:138 | a whole percentage p becomes the fixed-point weight w with w / Unit = p / 100 |
| `Deviation.TotalDev` | test/masset/masset/TestForgeLibV1.spec.ts:151-199 | the basket-wide deviation is zero exactly when every basset's weight equals its target |
| `Deviation.OnTarget` | test/masset/masset/TestForgeLibV1.spec.ts:89-148 | a basket is on target exactly when every basset's weight equals its target weight, which is exactly when the basket-wide deviation is zero |
| `Deviation.WithinGrace` | test/masset/masset/TestForgeLibV1.spec.ts:202-224 | every basset's weight lies within grace of its target, band edge included; a basket on target is within any band, and a zero band admits only a basket on target |
| `Deviation.MovesCloser` | test/masset/masset/TestForgeLibV1.spec.ts:151-199 | the basket-wide deviation, as a ratio of the basket total, strictly decreases; nothing moves closer from a basket on target, and reaching the target from off it (with a non-empty result) always does |
| `Deviation.EmptyIsOnTarget` | test/masset/masset/TestForgeLibV1.spec.ts:88-113 | a basket whose vaults are all empty counts as on target, so a mint into it is held to the target proportions |
| `ForgeLib.MessageIdentifiesReason` | test/masset/masset/TestForgeLibV1.spec.ts:65-275 | each of the four revert messages the tests assert (:71, :95, :186, :253) reads back as its rejection reason, so the four messages are pairwise distinct |
| `ForgeLib.ReasonOf` | test/masset/masset/TestForgeLibV1.spec.ts:65-275 | a revert message that names a reason is exactly that reason's message |
| `ForgeLib.CheckWeights` | test/masset/masset/TestForgeLibV1.spec.ts:89-224 | acceptance carries true; from a pre-state on target, accepted exactly when the post-state is empty or on target, else `OffOptimalWeighting`; from a pre-state off target with a non-empty post-state, accepted exactly when every basset ends within grace or the basket-wide deviation decreases, else `MovesAwayFromTarget` |
| `ForgeLib.ValidateMint` | test/masset/masset/TestForgeLibV1.spec.ts:65-85 | a mint is rejected with `MissingBasset` exactly when the quantity vector is shorter or longer than the basset list; a mint is never rejected for vault balance |
| `ForgeLib.FirstShortfall` | test/masset/masset/TestForgeLibV1.spec.ts:247-255 | finds nothing exactly when every quantity is within its vault balance; otherwise finds the first basset whose quantity exceeds its balance |
| `ForgeLib.ValidateRedemption` | test/masset/masset/TestForgeLibV1.spec.ts:247-275 | rejected with `MissingBasset` exactly on a length mismatch; with the right length, accepted exactly when every quantity is within its vault balance, and otherwise rejected with `InsufficientVaultBalance` |
| `ForgeProperties.MintNothing` | test/masset/masset/TestForgeLibV1.spec.ts:107-113 | an all-zero mint is accepted exactly when the basket is on target or within grace, and is otherwise rejected with `MovesAwayFromTarget` |
| `ForgeProperties.MintOnTarget` | test/masset/masset/TestForgeLibV1.spec.ts:89-148 | on a basket that sits on target, a mint is accepted exactly when the quantities are themselves in target proportions, whatever the grace; otherwise it is rejected with `OffOptimalWeighting` |
| `ForgeProperties.MintInTargetProportions` | test/masset/masset/TestForgeLibV1.spec.ts:99-159 | a non-zero mint whose quantities are in the target proportions is accepted from any basket, on target or not (the cases at :99-105, :117-124 and :152-159) |
| `ForgeProperties.MintOffTarget` | test/masset/masset/TestForgeLibV1.spec.ts:151-224 | on an off-target basket, with any grace, a mint is accepted exactly when every basset ends within grace or the basket-wide deviation strictly decreases; otherwise it is rejected with `MovesAwayFromTarget` |
| `ForgeProperties.MintOffTargetNoGrace` | test/masset/masset/TestForgeLibV1.spec.ts:151-199 | on an off-target basket with zero grace, a mint is accepted exactly when the basket-wide deviation strictly decreases; otherwise it is rejected with `MovesAwayFromTarget` |
| `ForgeProperties.MintGraceMonotone` | test/masset/masset/TestForgeLibV1.spec.ts:202-224 | widening the grace band never turns an accepted mint into a rejected one |
| `ForgeProperties.MintScaleInvariant` | test/masset/masset/TestForgeLibV1.spec.ts:39-57 | counting every balance and quantity in a unit k times finer leaves the verdict unchanged, so whole normalised units decide as 18-decimal amounts do |
| `ForgeProperties.RedeemNothing` | test/masset/masset/TestForgeLibV1.spec.ts:257-263 | redeeming nothing is accepted from any basket |
| `ForgeLibScenarios.EmptyBasket` | test/masset/masset/TestForgeLibV1.spec.ts:36-37 | two bassets with 50/50 targets and empty vaults, zero grace; well formed and on target |
| `ForgeLibScenarios.StandardBasket` | test/masset/masset/TestForgeLibV1.spec.ts:39-44 | balances 4000/4000/2000 against 40/40/20 targets, zero grace; well formed, total 10000 and on target |
| `ForgeLibScenarios.AdjustingBasket` | test/masset/masset/TestForgeLibV1.spec.ts:46-50 | balances 3200/3600/3200 against 40/40/20 targets, zero grace; well formed, total 10000 and off target |
| `ForgeLibScenarios.AdjustingBasketWithGrace` | test/masset/masset/TestForgeLibV1.spec.ts:52-57 | balances 4010/4000/1990 against 40/40/20 targets, grace 0.5%; well formed, total 10000 and off target |
| `ForgeLibScenarios.MintMissingBasset` | test/masset/masset/TestForgeLibV1.spec.ts:65-73 | two quantities for the three-basset standard basket are rejected as missing a basset, with that message |
| `ForgeLibScenarios.MintExtraBasset` | test/masset/masset/TestForgeLibV1.spec.ts:75-85 | four quantities for the standard basket are rejected as missing a basset, with that message |
| `ForgeLibScenarios.MintEmptyBasketOffTarget` | test/masset/masset/TestForgeLibV1.spec.ts:89-97 | minting 10000/200 into the empty 50/50 basket is rejected as off the optimal weightings |
| `ForgeLibScenarios.MintEmptyBasketOnTarget` | test/masset/masset/TestForgeLibV1.spec.ts:99-105 | minting 500/500 into the empty 50/50 basket is accepted |
| `ForgeLibScenarios.MintEmptyBasketNothing` | test/masset/masset/TestForgeLibV1.spec.ts:107-113 | minting 0/0 into the empty basket is accepted |
| `ForgeLibScenarios.MintStandardOnTarget` | test/masset/masset/TestForgeLibV1.spec.ts:117-124 | minting 1000/1000/500 into the 4000/4000/2000 basket is accepted |
| `ForgeLibScenarios.MintStandardOffTarget` | test/masset/masset/TestForgeLibV1.spec.ts:126-135 | minting 1000/1000/501 into the 4000/4000/2000 basket is rejected as off the optimal weightings |
| `ForgeLibScenarios.MintStandardOffTargetWithGrace` | test/masset/masset/TestForgeLibV1.spec.ts:137-148 | the same mint is still rejected as off the optimal weightings with grace set to 50% |
| `ForgeLibScenarios.MintAdjustingOnTargetWeights` | test/masset/masset/TestForgeLibV1.spec.ts:152-159 | minting 2000/2000/1000 into the 3200/3600/3200 basket is accepted |
| `ForgeLibScenarios.MintAdjustingCloser` | test/masset/masset/TestForgeLibV1.spec.ts:161-168 | minting 500/0/0 into the 3200/3600/3200 basket is accepted although the second basset moves further from its target |
| `ForgeLibScenarios.MintAdjustingCloserOverall` | test/masset/masset/TestForgeLibV1.spec.ts:170-177 | minting 3000/1500/0 is accepted although the second basset moves further from its target |
| `ForgeLibScenarios.MintAdjustingFurther` | test/masset/masset/TestForgeLibV1.spec.ts:179-188 | minting 32/36/33 into the 3200/3600/3200 basket is rejected as moving away from the target; the basket-wide deviation goes from 2400 / 10000 = 0.24 to 2425.6 / 10101, about 0.24013 |
| `ForgeLibScenarios.MintAdjustingWayOver` | test/masset/masset/TestForgeLibV1.spec.ts:190-199 | minting 5000/0/0 into the 3200/3600/3200 basket is rejected as moving away from the target |
| `ForgeLibScenarios.MintGraceWithinBand` | test/masset/masset/TestForgeLibV1.spec.ts:203-213 | minting 410/400/190 into the 4010/4000/1990 basket with 0.5% grace is accepted, although the basket-wide deviation grows |
| `ForgeLibScenarios.MintGraceOutsideBand` | test/masset/masset/TestForgeLibV1.spec.ts:215-224 | minting 480/400/200 into that basket is rejected as moving away from the target |
| `ForgeLibScenarios.RedeemEmptyBasketInsufficient` | test/masset/masset/TestForgeLibV1.spec.ts:247-255 | redeeming 100/100 from the empty basket is rejected for insufficient vault balance |
| `ForgeLibScenarios.RedeemEmptyBasketNothing` | test/masset/masset/TestForgeLibV1.spec.ts:257-263 | redeeming 0/0 from the empty basket is accepted |
| `ForgeLibScenarios.RedeemMissingBasset` | test/masset/masset/TestForgeLibV1.spec.ts:267-275 | two quantities for the standard basket are rejected as missing a basset |

## Left out

- ValidateRedemption: the weight-movement rule for redemptions is not modelled; every well-shaped, solvent redemption is accepted. The tests that would fix that rule are empty placeholders (`TestForgeLibV1.spec.ts:277-290`).
- Native decimals and their conversion (`createBasset(…, decimals)`, `simpleToExactAmount`): balances and quantities are taken as already normalised. `MintScaleInvariant` shows that a common change of unit does not change a verdict.
- ValidateMint: balances, quantities and the cross-multiplied products are unbounded integers; the source's uint256 bounds, and the reverts on overflow they would cause, are not modelled.
- ValidateRedemption: likewise, no uint256 bound or overflow revert is modelled.
- Fixed-point rounding inside `ForgeLib` and its math library is not part of this model; the arithmetic is exact.
- Basset status (isolated, under-peg, over-peg) and re-collateralisation: the tests are pending and have no bodies (`TestForgeLibV1.spec.ts:227-242`).
- Negative quantities cannot be expressed: quantities are `nat`, as unsigned amounts are in the source.
- Contract deployment, library linking and module registration (`test-utils/machines/systemMachine.ts`) are glue with no decision logic, and are not modelled.
- The test harness itself (contract artifacts, the `shouldFail` helper, the per-test fixture rebuild) is not modelled; each fixture is a function returning a fresh basket value.
