# SharkTank protocol metrics — Dafny model

This project models the part of the SharkTank front end that computes
protocol metrics. `loadAppDetails` reads token supplies, pool reserves,
staking-epoch data and per-bond treasury figures. It turns them into one
snapshot: market price, market cap, staked value (TVL), treasury balance,
risk-free value (RFV), rebase, five-day rate, APY, index and runway. The
`app` store slice keeps that snapshot together with a `loading` flag. Two
small helpers sit beside it: the pool's reserve ratio (`getMarketPrice`) and
the token-image URL lookup (`getTokenUrl`).

Modules, one per source file plus two shared ones:

- `Wrappers`: `Option` and `Result`. The program's exceptions become `Failure` values.
- `JsNumber`: JavaScript numbers. A `Num` is a finite real or `NonFinite`, which
  stands for NaN and both infinities. Division by zero and the logarithm of a
  non-positive number give `NonFinite`. This matches the source, which never
  throws on a degenerate divisor, so no operation of the model has a
  nonzero-divisor precondition. `Math.pow` with a natural exponent is `Pow`.
- `MarketPrice` (`src/helpers/get-market-price.ts`): the reserve ratio, with the two reserves as inputs.
- `TokenImage` (`src/helpers/get-token-image.tsx`): `toUrl` and `getTokenUrl`.
  The page origin and the two asset paths are parameters.
- `AppDetails` (`src/store/slices/app-slice.ts`, lines 16-83): the
  derivation as a pure function `Derive` from a `Reads` record to a `Snapshot`.
  The three `reduce` folds are `Sum`, a left fold from 0 over each bond's column.
- `AppSlice` (`src/store/slices/app-slice.ts`, lines 85-131): the slice as the
  class `AppStore`. It has a `loading` field and a `state` map from slice keys to
  numbers. Each reducer is a method that updates those fields in place.
  `setAll` is `SetAll`, which overwrites each key present in the payload.

Three behaviours of the code are kept as written:

- The runway divides the bonds' risk-free amount (`rfvTreasury`) by the
  circulating supply (app-slice.ts:62).
- The rebase divides by the raw circulating supply from a second contract read
  (app-slice.ts:54-55). The model keeps the two reads as two inputs,
  `rawCircSupply` and `rawCirc`.
- A failed fetch only clears `loading`. The previous snapshot stays in place,
  and the store keeps no record of the error.

## Model

| member | source | states |
|---|---|---|
| JsNumber.Add | src/store/slices/app-slice.ts:56-57 | `1 + rebase` is finite exactly when the rebase is, and is then the real sum |
| JsNumber.Sub | src/store/slices/app-slice.ts:48 | a difference is finite exactly when both operands are, and is then the real difference |
| JsNumber.Mul | src/store/slices/app-slice.ts:34-35 | a product is finite exactly when both operands are (so `Infinity * 0` is non-finite), and is then the real product |
| JsNumber.Div | src/store/slices/app-slice.ts:50 | a quotient is finite exactly when both operands are finite and the divisor is nonzero, and then times the divisor it gives the dividend; otherwise it is NaN/Infinity, never an exception |
| JsNumber.PowNum | src/store/slices/app-slice.ts:56-57 | `Math.pow` with exponent 0 is 1; with a positive exponent it is finite exactly when the base is |
| JsNumber.Log | src/store/slices/app-slice.ts:63 | `Math.log` is finite exactly for a finite positive argument (0 gives -Infinity, negatives NaN) |
| JsNumber.PowAtLeastOne | src/store/slices/app-slice.ts:56-57 | a base of at least 1 raised to any natural power is at least 1 |
| JsNumber.PowMonotone | src/store/slices/app-slice.ts:56-57 | for a base of at least 1, a larger exponent never gives a smaller power, which orders the 15-rebase rate below the 1095-rebase APY |
| JsNumber.PowOfOne | src/store/slices/app-slice.ts:56-57 | 1 raised to any power is 1, so a zero rebase compounds to zero growth |
| MarketPrice.ReservePrice | src/helpers/get-market-price.ts:10-11 | the price is finite exactly when reserve 1 is nonzero, and then price × reserve 1 = reserve 0 (reserve 0 is the numerator, no further scaling) |
| MarketPrice.ReservePriceNonNegative | src/helpers/get-market-price.ts:10-11 | with reserve 1 > 0 the price is finite and ≥ 0 |
| MarketPrice.ReservePriceSwap | src/helpers/get-market-price.ts:10 | swapping two nonzero reserves gives the reciprocal price |
| MarketPrice.ReservePriceScale | src/helpers/get-market-price.ts:10 | scaling both reserves by the same positive factor leaves the price unchanged |
| MarketPrice.ReservePriceExample | src/helpers/get-market-price.ts:10 | reserves 300000 and 100000 give the price 3 |
| TokenImage.ToUrl | src/helpers/get-token-image.tsx:4-7 | the URL is the host, then one `/`, then the asset path, and nothing else |
| TokenImage.ToUrlInjective | src/helpers/get-token-image.tsx:4-7 | for one host, distinct asset paths give distinct URLs |
| TokenImage.GetTokenUrl | src/helpers/get-token-image.tsx:9-19 | succeeds exactly for the names "shrk" and "sshrk", with the URL of the SHRK and sSHRK image respectively; any other name fails with "Token url doesn't support: " followed by the name |
| TokenImage.GetTokenUrlPrefix | src/helpers/get-token-image.tsx:4-16 | every URL returned starts with the host followed by `/` |
| TokenImage.UpperCaseNameRejected | src/helpers/get-token-image.tsx:10-18 | the match is case-sensitive: "SHRK" is refused with its error message |
| AppDetails.Sum | src/store/slices/app-slice.ts:39 | a fold from 0 over non-negative amounts is non-negative |
| AppDetails.SumAppend | src/store/slices/app-slice.ts:39 | the fold of a concatenation is the sum of the two folds |
| AppDetails.BondTotalAppend | src/store/slices/app-slice.ts:37-47 | a bond total over two lists joined is the sum of their totals |
| AppDetails.BondTotalPermutation | src/store/slices/app-slice.ts:37-47 | a bond total does not depend on the order of the bond list |
| AppDetails.Derive | src/store/slices/app-slice.ts:16-83 | total and circulating supply are the raw reads divided by 10^9; market cap = total supply × price and TVL = circulating supply × price; the price is finite iff reserve 1 ≠ 0, the rebase iff the second supply read ≠ 0, RFV iff total supply ≠ bond-held SHRK; index = raw index / 10^9 / 4.5; block, block time and next rebase (epoch end) pass through |
| AppDetails.DeriveBondOrderIrrelevant | src/store/slices/app-slice.ts:37-50 | permuting the bond list leaves the whole snapshot unchanged |
| AppDetails.DeriveBondTotals | src/store/slices/app-slice.ts:37-50 | the treasury balance is the sum of the bonds' balances; with no bonds it is 0, and so is the RFV when the total supply is nonzero |
| AppDetails.DeriveMarketPrice | src/store/slices/app-slice.ts:29-35 | with reserve 1 ≠ 0: price = (reserve 0 / reserve 1) / 10^9 × MIM price; with a non-negative MIM price the price, market cap and TVL are finite and ≥ 0 |
| AppDetails.DeriveRfv | src/store/slices/app-slice.ts:31-50 | RFV is defined exactly when total supply ≠ bond-held SHRK, and then RFV × (total supply − bond-held SHRK) = the bonds' risk-free amount |
| AppDetails.DeriveRates | src/store/slices/app-slice.ts:52-57 | with r = distribute / raw circulating supply: rebase = r ≥ 0, five-day rate = (1+r)^15 − 1, APY = (1+r)^1095 − 1, and 0 ≤ five-day rate ≤ APY |
| AppDetails.DeriveZeroDistribution | src/store/slices/app-slice.ts:52-57 | with a nonzero raw circulating supply, an epoch distributing nothing gives a five-day rate and APY of 0 |
| AppDetails.DeriveZeroCirculating | src/store/slices/app-slice.ts:54-57 | a zero raw circulating supply makes the rebase, five-day rate and APY non-finite |
| AppDetails.DeriveRebaseIgnoresFirstRead | src/store/slices/app-slice.ts:32-57 | the rebase and both rates depend on the second supply read only, not on the normalised first one |
| AppDetails.DeriveRunway | src/store/slices/app-slice.ts:62-63 | runway = ln(risk-free amount / circulating supply) / ln(1 + rebase) / 3 whenever these are finite |
| AppDetails.DeriveRunwayWithoutBonds | src/store/slices/app-slice.ts:41-63 | with no bonds the risk-free amount is 0 and the runway is non-finite |
| AppSlice.ToPayload | src/store/slices/app-slice.ts:65-81 | the resolved payload fills exactly the fifteen snapshot keys (not `networkID`) |
| AppSlice.SetAll | src/store/slices/app-slice.ts:114 | the result has the old keys and the payload keys; payload keys take the payload's value, every other key keeps its old value |
| AppSlice.PayloadRoundTrip | src/store/slices/app-slice.ts:65-81 | the snapshot read back from its own payload is the snapshot itself, block numbers and times included |
| AppSlice.SetAllSnapshot | src/store/slices/app-slice.ts:122-125 | writing a whole snapshot over any earlier state reads back as exactly that snapshot: no field of an earlier pass survives |
| AppSlice.AppStore.constructor | src/store/slices/app-slice.ts:85-87 | the initial state is loading with no snapshot field |
| AppSlice.AppStore.FetchAppSuccess | src/store/slices/app-slice.ts:113-115 | the payload's keys are copied in, the loading flag is untouched |
| AppSlice.AppStore.Pending | src/store/slices/app-slice.ts:119-121 | loading becomes true; every snapshot field, and so the held snapshot, is unchanged |
| AppSlice.AppStore.Fulfilled | src/store/slices/app-slice.ts:122-125 | every payload key is overwritten, loading becomes false, and the held snapshot is exactly the payload |
| AppSlice.AppStore.Rejected | src/store/slices/app-slice.ts:126-129 | loading becomes false; every snapshot field, and so the prior snapshot, is kept |

## Left out

- Contract and RPC reads are not modelled: `getBlockNumber`, `getBlock`, the `ethers.Contract` calls, `getReserves`, `getAddresses` and `getAddressForReserve`. They are I/O; their results are the fields of `AppDetails.Reads` and the arguments of `MarketPrice.ReservePrice`.
- The MIM price and every bond value are assumed to be finite numbers: a NaN or `undefined` returned by `getTokenPrice("MIM")` (called without `await`) or by a bond getter is not modelled. Such a value would make the market price, market cap and TVL, or the bond totals, non-finite whatever the reserves.
- `getTokenPrice("MIM")` and the bond implementations (`getTreasuryBalance`, `getTokenAmount`, `getShrkAmount`) are not part of this model. Their results are the input `mimPrice` and the per-bond `Bond` records.
- `Promise.all` and the order of the awaits are not modelled. The model takes all reads as already resolved. A failing read only shows up as the store's `Rejected` transition.
- IEEE-754 rounding and overflow are not modelled: finite numbers are exact reals. For example, `(1+r)^1095` never overflows to Infinity in the model.
- NaN, +Infinity and -Infinity are one value, `NonFinite`. The model therefore does not capture JavaScript results that come back finite from an infinite operand. An example is a runway of 0 when the rebase is infinite, because `Math.log(1 + Infinity)` is `Infinity` and a finite logarithm divided by it is 0. Only `runway` can reach such a case.
- AppDetails.DeriveRunway: states the runway only when every logarithm is finite and `ln(1 + rebase)` is nonzero. The natural logarithm itself is a parameter `ln`, because `Math.log` has no exact real counterpart here.
- `ethers.utils.formatUnits(…, "gwei")` and `Number(…)` are modelled as exact division by 10^9. The string formatting is not modelled.
- `window.location.origin` and the bundled image paths are parameters of `TokenImage`.
- `console.log` of the rejection error, the identity selector `getAppState` and Redux's action dispatch are not modelled.
- AppSlice.AppStore.FetchAppSuccess: the payload is a map over the slice's snapshot keys and `networkID`. A payload that carries `loading` or keys outside the slice's interface is not modelled.
- `src/views/Landing/components/Header/index.tsx` is presentation only (a popper with social links) and is not part of this model.
