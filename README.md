# EVM ante handler: gas and fee admission helpers

This project models the gas and fee helpers of the EVM ante handler in
`ante/evm/08_gas_consume.go`. It proves properties of that model in Dafny.
They are the admission steps a transaction passes before its messages run:

- **UpdateCumulativeGasWanted** adds one message's wanted gas to the
  transaction's running total. In CheckTx (mempool) mode with a non-zero
  `maxTxGasWanted` it adds at most that cap. The addition is Go's `uint64`
  `+=`, which wraps modulo 2^64. The model writes out that wrap
  (`GoTypes.AddUint64`) and needs no precondition against overflow.
- **deductFees / ConsumeFeesAndEmitEvent** debit the fee payer through the
  EVM keeper and emit one `tx` event whose `fee` attribute is the fee
  string. The keeper is an object holding a log of every ledger call. Two
  oracles fix how it answers a debit. Each is a function of the calls made
  so far and the requested debit. One gives the keeper's error, if any. The
  other gives the events the debit itself emits into the context's event
  manager. The event manager is an object holding the
  event sequence. The context refers to it, just as copies of an SDK
  context share one event manager.
- **GetMsgPriority** clamps the transaction's fee-market priority from
  above by `minPriority`.
- **CheckBlockGasLimit** rejects a transaction whose wanted gas exceeds the
  block gas limit. Otherwise it returns a context copy with a new gas meter
  limited to the wanted gas and with the given priority.

Modules: `GoTypes` (Go integer widths, wrapping add), `SdkTypes` (coins,
events, the event manager, the context), `EthCommon` (`BytesToAddress`),
`AnteInterfaces` (the EVM keeper), `GasConsume` (the core file).

In two places the code does not do what it is meant to do. The Findings
section below describes both. The model follows the code, and it also gives
the intended behaviour as separate members.

## Model

| member | source | states |
|---|---|---|
| `GoTypes.AddUint64` | ante/evm/08_gas_consume.go:28-33 | Go's `uint64` `+=`: the result is the sum modulo 2^64; it equals the sum when that fits, and is below both operands when it wraps |
| `GoTypes.MinUint64` | ante/evm/08_gas_consume.go:27-31 | the result is at most both arguments and equals one of them |
| `GasConsume.CountedGas` | ante/evm/08_gas_consume.go:25-34 | the gas one message contributes: never more than it wants; in CheckTx mode with a non-zero cap, at most the cap and equal to the message's gas or the cap; otherwise exactly the message's gas |
| `GasConsume.UpdateCumulativeGasWanted` | ante/evm/08_gas_consume.go:19-36 | in CheckTx mode with a non-zero cap the new total is `(cumulative + min(msgGasWanted, maxTxGasWanted)) mod 2^64`; otherwise `(cumulative + msgGasWanted) mod 2^64` |
| `GasConsume.UpdateAddsCountedGas` | ante/evm/08_gas_consume.go:25-35 | the update equals the wrapping addition of the counted gas to the running total |
| `GasConsume.CheckTxAddsCappedGas` | ante/evm/08_gas_consume.go:25-31 | in CheckTx mode with a non-zero cap, and absent overflow, the total grows by exactly `min(msgGasWanted, maxTxGasWanted)` |
| `GasConsume.UncappedIgnoresCap` | ante/evm/08_gas_consume.go:25-34 | outside CheckTx mode, any two cap values give the same total; in CheckTx mode it covers only the case where both caps are zero |
| `GasConsume.ZeroGasKeepsTotal` | ante/evm/08_gas_consume.go:19-36 | a message wanting zero gas leaves the total unchanged, in every mode |
| `GasConsume.UpdateMonotone` | ante/evm/08_gas_consume.go:19-36 | when adding the counted gas does not overflow, the total never decreases and grows by at most the message's wanted gas |
| `GasConsume.UpdateWrapsOnOverflow` | ante/evm/08_gas_consume.go:33 | when the message's gas is added whole (outside CheckTx mode, or with a zero cap) and the sum overflows, the returned total is smaller than the running total passed in |
| `GasConsume.AccumulateDeliverIsSum` | ante/evm/08_gas_consume.go:32-34 | feeding a transaction's messages through the update in DeliverTx mode yields the start plus the exact sum of their wanted gas, when that fits in 64 bits |
| `GasConsume.AccumulateCheckTxBounded` | ante/evm/08_gas_consume.go:25-31 | in CheckTx mode with cap `C > 0`, provided `start + n * C` fits in 64 bits, `n` messages raise the total by at least 0 and at most `n * C`, however much gas they declare |
| `GasConsume.OverflowPassesBlockGasLimit` | ante/evm/08_gas_consume.go:33 | two DeliverTx messages of 2^63 gas each accumulate to 0, and 0 passes the block gas check whatever the limit |
| `GasConsume.UpdateCumulativeGasWantedChecked` | ante/evm/08_gas_consume.go:19-36 | the intended update: it fails exactly when adding the counted gas would overflow; otherwise it returns the running total plus the counted gas, which is no smaller than the running total and equals what the code returns |
| `GasConsume.AccumulateCheckedDeliverIsSum` | ante/evm/08_gas_consume.go:32-34 | in DeliverTx mode the checked accumulation succeeds exactly when start plus the sum fits in 64 bits, and then returns that sum |
| `GasConsume.AccumulateCheckedAgrees` | ante/evm/08_gas_consume.go:19-36 | whenever the checked accumulation succeeds, it equals the code's accumulation and is no smaller than the start |
| `GasConsume.AccumulateCheckTxIsCappedSum` | ante/evm/08_gas_consume.go:25-31 | in CheckTx mode with cap `C > 0`, provided the result fits in 64 bits, the total is the start plus the sum of `min(m_i, C)` over the messages |
| `SdkTypes.DecimalString` | ante/evm/08_gas_consume.go:57 | the amount part of the fee string is a non-empty string of decimal digits |
| `SdkTypes.DecimalStringDenotes` | ante/evm/08_gas_consume.go:57 | the amount's digits denote the amount, with no leading zero: the canonical decimal form |
| `SdkTypes.EventManager.EmitEvent` | ante/evm/08_gas_consume.go:54-59 | appends exactly the given event to the event sequence |
| `EthCommon.BytesToAddress` | ante/evm/08_gas_consume.go:77 | keeps the last 20 bytes of a longer account address; left-pads a shorter one with zero bytes |
| `EthCommon.BytesToAddressIdentity` | ante/evm/08_gas_consume.go:77 | a 20-byte account address converts to itself |
| `AnteInterfaces.EvmKeeper.DeductTxCostsFromUserBalance` | ante/evm/08_gas_consume.go:74-78 | returns the ledger's verdict on this debit, given the earlier calls; the call log grows by exactly this call and its outcome; the context's events grow by exactly what the debit emits |
| `GasConsume.DeductFees` | ante/evm/08_gas_consume.go:64-83 | zero fees succeed with no ledger call and no event; other fees make exactly one ledger call, to `BytesToAddress(feePayer)`, and add only the debit's own events; a keeper error comes back wrapped as a fee-deduction failure, otherwise success |
| `GasConsume.ConsumeFeesAndEmitEvent` | ante/evm/08_gas_consume.go:39-61 | the ledger behaviour of `DeductFees`; on success, the debit's own events followed by exactly one fee event are appended (zero fees included, with no debit events); on failure only the debit's own events are appended |
| `GasConsume.ConsumeNonZeroFeesAndEmitEvent` | ante/evm/08_gas_consume.go:39-61 | the intended behaviour: zero fees leave the call log and the events unchanged; non-zero fees behave exactly as `ConsumeFeesAndEmitEvent` |
| `GasConsume.GetMsgPriority` | ante/evm/08_gas_consume.go:86-97 | the result is at most `minPriority`, at most the transaction's own priority, and equal to one of the two |
| `GasConsume.PriorityMonotoneInClamp` | ante/evm/08_gas_consume.go:91-96 | raising `minPriority` never lowers the resulting priority |
| `GasConsume.CheckBlockGasLimit` | ante/evm/08_gas_consume.go:100-128 | fails with `OutOfGas` iff the wanted gas exceeds the block gas limit, and then returns the context unchanged; on success, the meter limit is the wanted gas, the priority is `minPriority`, and the mode, block gas limit and event manager are unchanged |
| `GasConsume.BlockGasLimitBoundary` | ante/evm/08_gas_consume.go:108 | wanting exactly the block gas limit passes; one unit more fails with `OutOfGas` and the context unchanged |
| `GasConsume.CheckBlockGasLimitIdempotent` | ante/evm/08_gas_consume.go:123-125 | re-checking the returned context with the same inputs succeeds and returns that context unchanged |
| `GasConsume.DeliverScenario` | ante/evm/08_gas_consume.go:19-128 | messages wanting 100 and 150 gas in DeliverTx mode total 250; with a block gas limit of 1000 the check passes and installs a meter limited to 250 |
| `GasConsume.CheckTxScenario` | ante/evm/08_gas_consume.go:25-31 | the same messages in CheckTx mode with a cap of 120 total 220 |

These are plain definitions, with no contract of their own:

- `GasConsume.Accumulate` stands for the caller's loop over a transaction's
  messages. That loop is in a file that is not part of this model.
- `GasConsume.AccumulateChecked` is the same loop run with
  `UpdateCumulativeGasWantedChecked`. It stops at the first overflow.
- `GasConsume.Sum` and `GasConsume.CappedSum` are the sums the lemmas
  above compare against.
- `SdkTypes.CoinString`, `SdkTypes.CoinsString` and `SdkTypes.CoinsIsZero`
  define the SDK's `Coin.String`, `Coins.String` (line 57) and `Coins.IsZero`
  (line 70).
  - `Coin.String` is the amount followed by the denomination.
  - `Coins.String` is the coins' strings joined by commas.
  - `Coins.IsZero` means every amount is zero.
- `GasConsume.FeeEvent` builds the `tx` event with the single `fee`
  attribute that `ConsumeFeesAndEmitEvent` appends (lines 54-59).

`GasConsume.FeeScenario` is a client method. It walks through three calls:
a zero fee and then a 500-unit fee that the keeper accepts, both through
the code as written, and then a zero fee through the intended variant.

## Findings

| source | as written | input that shows it | evidently intended | confidence | as-written member | corrected member |
|---|---|---|---|---|---|---|
| ante/evm/08_gas_consume.go:28-33 | the running gas total is updated with `uint64` `+=`, which wraps silently modulo 2^64 | DeliverTx mode, running total 0, two messages wanting 2^63 gas each: the total becomes 0, which passes the block gas check | overflow fails instead of wrapping, so the total never falls below the running total | medium; not executed, and whether a caller can pass such gas values is not modelled | `GasConsume.OverflowPassesBlockGasLimit` | `GasConsume.UpdateCumulativeGasWantedChecked` |
| ante/evm/08_gas_consume.go:54-59 | the fee event is emitted whenever `deductFees` succeeds, including for zero fees, where `deductFees` returns early at lines 70-72 | fees `[0aevmos]`: no ledger call, and one `tx` event with `fee = "0aevmos"` | a zero fee emits no event | low; not executed, the code's comments do not say, and the intent rests on the design documentation alone | `GasConsume.ConsumeFeesAndEmitEvent` | `GasConsume.ConsumeNonZeroFeesAndEmitEvent` |

## Left out

- `evmtypes.GetTxPriority`: its fee-market `big.Int` arithmetic is not part of this model. `GetMsgPriority` takes it as a function parameter, so the result is proved for every possible priority function.
- `DeductTxCostsFromUserBalance` internals: the keeper's balance store is not part of this model. The model keeps three things: the outcome of each debit, chosen by the keeper's `verdict` oracle; the events the debit emits, chosen by its `debitEvents` oracle; and a log of the calls.
- `types.BlockGasLimit(ctx)`: how the limit is read from the block gas meter or the consensus parameters is not modelled. The limit is a context field.
- `types.NewInfiniteGasMeterWithLimit`: the meter's consumption accounting is not modelled. Only its limit is recorded.
- Error-message text of `errorsmod.Wrapf` (lines 79 and 109-114): only the error category is kept (`OutOfGas`, or `FeeDeductionFailed` carrying the keeper's error).
- `sdktypes.Coins`: amounts are natural numbers. The validation that rules out negative amounts is elsewhere in the SDK, and `IsZero` is modelled as "every amount is zero".
- Rollback of a failed attempt's state is done by the surrounding transaction context, outside this file. It is not modelled.
