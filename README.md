# Gas price resolution

A Dafny model of the gas-price helper of an airdrop tool for Polygon. The
helper reads a gas-oracle reply, builds a price table with three entries
(`safeLow`, `standard`, `fast`), picks one entry from a speed name, rounds
its maximum fee up to a whole number of gwei and converts that to the
chain's base unit (1 gwei = 10^9 base units).

Files:

- `wrappers.dfy`: module `Wrappers`, the `Option` and `Result` types.
- `gas_price.dfy`: module `GasPrice`, the model. It has the seven speed names,
  the table and its construction from a reply, speed resolution, gwei
  scaling and the entry point `GetGasPrice`.
- `gas_price_examples.dfy`: module `GasPriceExamples`, concrete replies and
  the prices they lead to.

Modelling decisions:

- JavaScript numbers are exact reals. `parseFloat` results are reals and
  the `parseInt` result is an integer. Float addition is exact addition.
- The fetch is not modelled. `GetGasPrice` takes the parsed reply body as a
  parameter: `None` is a falsy body, and `Some(OracleResponse(status, result))`
  is an object body. The `result` object may be missing.
- A reply with status "1" whose `result` is absent or null makes the code
  throw a TypeError when it reads `result.SafeGasPrice`. The model returns
  `Err(ResultMissing)` for it, apart from the "Failed to fetch gas prices"
  error (`Err(FetchFailed)`).
- Within this file `parseGwei` receives only whole numbers: the ceiling from
  `fromSpeed` (line 87) and the literal 30 (line 53). So it is modelled on
  `int` as multiplication by 10^9.
- A speed outside the seven names cannot be written: `Speed` is the
  string-literal type of `gasSpeed`, and `SpeedsAreGasSpeedNames` proves that
  the two agree. So the switch in `fromSpeed` always returns a value.
- The code has no separate error for a missing or unparsable numeric field.
  An absent field becomes NaN and flows through the table unchecked. The
  model follows the code and, since its numbers are exact, has no NaN. See
  "Left out".

## Model

| member | source | states |
|---|---|---|
| `GasPrice.SpeedsAreGasSpeedNames` | src/utils/getGasPrice.ts:24-27 | `gasSpeed` has seven names; every `Speed` has its name in it; every name in it belongs to some speed; no two speeds share a name |
| `GasPrice.Ceil` | src/utils/getGasPrice.ts:37 | `Math.ceil(x)` is an integer `r` with `x <= r < x + 1` |
| `GasPrice.FromSpeed` | src/utils/getGasPrice.ts:32-47 | a speed resolves to the ceiling of the maximum fee of its alias group's entry (`safe`/`safeLow`/`low` read `safeLow`, `std`/`standard` read `standard`, `fast`/`fastest` read `fast`); the price is never below that fee and is less than one gwei above it |
| `GasPrice.SamePriceIffSameGroup` | src/utils/getGasPrice.ts:33-45 | two speeds give equal prices on every table if and only if they are in the same alias group |
| `GasPrice.BuildPrices` | src/utils/getGasPrice.ts:62-83 | a missing body or a status other than "1" gives the fetch error, and no table is built; a missing `result` gives an error; otherwise each entry's priority fee is its oracle suggestion, its maximum fee is that plus `suggestBaseFee`, the estimated base fee is `suggestBaseFee`, the block time is 0 and the block number is `LastBlock` |
| `GasPrice.MaxFeeCoversBaseFee` | src/utils/getGasPrice.ts:67-80 | when the suggestions are non-negative, every entry's maximum fee is at least the estimated base fee |
| `GasPrice.ParseGwei` | src/utils/getGasPrice.ts:49-51 | the base-unit amount is a multiple of 10^9 and divides back to the gwei amount |
| `GasPrice.MinMaticGasPriceIsThirtyGwei` | src/utils/getGasPrice.ts:53 | `MIN_MATIC_GAS_PRICE` equals 30 * 10^9 base units |
| `GasPrice.GetGasPrice` | src/utils/getGasPrice.ts:55-91 | the call fails exactly when the table construction fails, with the same error; otherwise it returns the ceiling of the selected entry's maximum fee times 10^9, which lies in `[fee * 10^9, (fee + 1) * 10^9)` |
| `GasPrice.DefaultSpeedIsStandard` | src/utils/getGasPrice.ts:86 | an absent or null speed gives the same outcome as `standard` |
| `GasPrice.BoundsAreIgnored` | src/utils/getGasPrice.ts:26-30 | the outcome does not depend on `maxGasPrice` or `minGasPrice` |
| `GasPriceExamples.SampleReplyPrices` | src/utils/getGasPrice.ts:67-87 | for suggestions 30.5, 33 and 41 over base fee 170, the `standard` maximum fee is 203; `fast` gives 211 gwei, the default gives 203 gwei and `low` gives 201 gwei (ceiling of 200.5) |
| `GasPriceExamples.FailedReplies` | src/utils/getGasPrice.ts:62-64 | status "0" or no body gives the fetch error; status "1" without `result` gives the missing-result error |
| `GasPriceExamples.RoundsUp` | src/utils/getGasPrice.ts:37 | 201.020433986 rounds up to 202, and 203 stays 203 |

## Left out

- The HTTP request and `req.json()`, and the `async`/`await` flow: network I/O. The parsed body is a parameter instead.
- `parseFloat` and `parseInt` on the oracle's strings, NaN for an absent or unparsable field (or for every field when `result` is a primitive such as a string), and IEEE-754 rounding of the sums: floating point. The model's numbers are exact reals and integers. When the selected entry is NaN, the code throws from `parseUnits("NaN")`; the model has no such case.
- A JSON `status` that is not a string: it is never equal to "1", so any string other than "1" stands for it. A truthy body that is not an object has no status "1" either and ends in the same error as `None`.
- `ParseGwei`: does not model the internals of `parseUnits` and `BigNumber` (foreign library code). In particular it does not model that `String(n)` uses exponent notation from 10^21 on, which `parseUnits` rejects. Only the integer scaling used for whole gwei is modelled.
- `maxGasPrice` and `minGasPrice` are accepted but never read by the code, so the model applies no clamping (`BoundsAreIgnored`).
- The unused `provider` import.
