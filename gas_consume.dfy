/** The EVM ante handler's gas and fee admission helpers: accumulating the gas
    a transaction's messages want, deducting the fee and emitting the fee
    event, clamping a message's priority, and checking the wanted gas against
    the block gas limit. */
module GasConsume {
  import opened GoTypes
  import opened SdkTypes
  import opened EthCommon
  import opened AnteInterfaces

  /** Error categories this stage returns. */
  datatype AnteError =
    | OutOfGas
    | FeeDeductionFailed(cause: KeeperError)

  // ---------------------------------------------------------------------------
  // Cumulative gas wanted

  /** The amount one message adds to the running total: in CheckTx mode with a
      non-zero cap the message's wanted gas is capped, otherwise it is taken
      whole. */
  function CountedGas(isCheckTx: bool, msgGasWanted: uint64, maxTxGasWanted: uint64): (g: uint64)
    ensures g <= msgGasWanted
    ensures isCheckTx && maxTxGasWanted != 0 ==> g <= maxTxGasWanted
    ensures isCheckTx && maxTxGasWanted != 0 ==> g == msgGasWanted || g == maxTxGasWanted
    ensures !isCheckTx || maxTxGasWanted == 0 ==> g == msgGasWanted
  {
    if isCheckTx && maxTxGasWanted != 0 then MinUint64(msgGasWanted, maxTxGasWanted)
    else msgGasWanted
  }

  /** `UpdateCumulativeGasWanted`: adds one message's counted gas to the
      running total with Go's wrapping `uint64` addition. */
  function UpdateCumulativeGasWanted(
    ctx: Context, msgGasWanted: uint64, maxTxGasWanted: uint64, cumulativeGasWanted: uint64): (r: uint64)
    ensures ctx.isCheckTx && maxTxGasWanted != 0 ==>
      r as int == (cumulativeGasWanted as int + MinUint64(msgGasWanted, maxTxGasWanted) as int) % TWO_TO_THE_64
    ensures !ctx.isCheckTx || maxTxGasWanted == 0 ==>
      r as int == (cumulativeGasWanted as int + msgGasWanted as int) % TWO_TO_THE_64
  {
    if ctx.isCheckTx && maxTxGasWanted != 0 then
      if msgGasWanted > maxTxGasWanted then AddUint64(cumulativeGasWanted, maxTxGasWanted)
      else AddUint64(cumulativeGasWanted, msgGasWanted)
    else AddUint64(cumulativeGasWanted, msgGasWanted)
  }

  /** The update adds exactly the counted gas, modulo 2^64. */
  lemma UpdateAddsCountedGas(ctx: Context, msgGasWanted: uint64, maxTxGasWanted: uint64, cumulative: uint64)
    ensures UpdateCumulativeGasWanted(ctx, msgGasWanted, maxTxGasWanted, cumulative)
         == AddUint64(cumulative, CountedGas(ctx.isCheckTx, msgGasWanted, maxTxGasWanted))
  {
  }

  /** In CheckTx mode with a non-zero cap the total grows by
      `min(msgGasWanted, maxTxGasWanted)`, when that does not wrap. */
  lemma CheckTxAddsCappedGas(ctx: Context, msgGasWanted: uint64, maxTxGasWanted: uint64, cumulative: uint64)
    requires ctx.isCheckTx && maxTxGasWanted != 0
    requires NoOverflow(cumulative, MinUint64(msgGasWanted, maxTxGasWanted))
    ensures UpdateCumulativeGasWanted(ctx, msgGasWanted, maxTxGasWanted, cumulative) as int
         == cumulative as int + MinUint64(msgGasWanted, maxTxGasWanted) as int
  {
  }

  /** Outside CheckTx mode, or with a zero cap, the cap value does not matter. */
  lemma UncappedIgnoresCap(ctx: Context, msgGasWanted: uint64, cap1: uint64, cap2: uint64, cumulative: uint64)
    requires !ctx.isCheckTx || (cap1 == 0 && cap2 == 0)
    ensures UpdateCumulativeGasWanted(ctx, msgGasWanted, cap1, cumulative)
         == UpdateCumulativeGasWanted(ctx, msgGasWanted, cap2, cumulative)
  {
  }

  /** A message wanting no gas leaves the total unchanged. */
  lemma ZeroGasKeepsTotal(ctx: Context, maxTxGasWanted: uint64, cumulative: uint64)
    ensures UpdateCumulativeGasWanted(ctx, 0, maxTxGasWanted, cumulative) == cumulative
  {
  }

  /** When adding the counted gas does not wrap, the total never decreases
      and grows by at most the message's wanted gas. */
  lemma UpdateMonotone(ctx: Context, msgGasWanted: uint64, maxTxGasWanted: uint64, cumulative: uint64)
    requires NoOverflow(cumulative, CountedGas(ctx.isCheckTx, msgGasWanted, maxTxGasWanted))
    ensures cumulative <= UpdateCumulativeGasWanted(ctx, msgGasWanted, maxTxGasWanted, cumulative)
    ensures UpdateCumulativeGasWanted(ctx, msgGasWanted, maxTxGasWanted, cumulative) as int
         <= cumulative as int + msgGasWanted as int
  {
  }

  /** With wrap-around, which Go's `+=` does silently, the total drops below
      the running total it started from whenever the message's gas is added
      whole. */
  lemma UpdateWrapsOnOverflow(ctx: Context, msgGasWanted: uint64, maxTxGasWanted: uint64, cumulative: uint64)
    requires !ctx.isCheckTx || maxTxGasWanted == 0
    requires !NoOverflow(cumulative, msgGasWanted)
    ensures UpdateCumulativeGasWanted(ctx, msgGasWanted, maxTxGasWanted, cumulative) < cumulative
  {
  }

  /** The total after feeding the messages' wanted gas, one after another,
      through `UpdateCumulativeGasWanted` (what the ante handler's caller does
      for the messages of one transaction). */
  ghost function Accumulate(ctx: Context, msgs: seq<uint64>, maxTxGasWanted: uint64, start: uint64): uint64
    decreases |msgs|
  {
    if |msgs| == 0 then start
    else Accumulate(ctx, msgs[1..], maxTxGasWanted, UpdateCumulativeGasWanted(ctx, msgs[0], maxTxGasWanted, start))
  }

  /** Sum of a sequence of gas amounts, in unbounded arithmetic. */
  ghost function Sum(msgs: seq<uint64>): nat
    decreases |msgs|
  {
    if |msgs| == 0 then 0 else msgs[0] as int + Sum(msgs[1..])
  }

  /** In DeliverTx mode the messages' wanted gas is summed exactly, as long as
      the sum fits in 64 bits. */
  lemma {:induction false} AccumulateDeliverIsSum(ctx: Context, msgs: seq<uint64>, maxTxGasWanted: uint64, start: uint64)
    requires !ctx.isCheckTx
    requires start as int + Sum(msgs) <= UINT64_MAX
    ensures Accumulate(ctx, msgs, maxTxGasWanted, start) as int == start as int + Sum(msgs)
    decreases |msgs|
  {
    if |msgs| > 0 {
      var next := UpdateCumulativeGasWanted(ctx, msgs[0], maxTxGasWanted, start);
      assert next as int == start as int + msgs[0] as int;
      AccumulateDeliverIsSum(ctx, msgs[1..], maxTxGasWanted, next);
    }
  }

  /** In CheckTx mode with a cap `C`, `n` messages raise the total by at most
      `n * C` however much gas they declare, as long as that fits in 64 bits. */
  lemma {:induction false} AccumulateCheckTxBounded(ctx: Context, msgs: seq<uint64>, maxTxGasWanted: uint64, start: uint64)
    requires ctx.isCheckTx && maxTxGasWanted != 0
    requires start as int + |msgs| * maxTxGasWanted as int <= UINT64_MAX
    ensures start <= Accumulate(ctx, msgs, maxTxGasWanted, start)
    ensures Accumulate(ctx, msgs, maxTxGasWanted, start) as int <= start as int + |msgs| * maxTxGasWanted as int
    decreases |msgs|
  {
    if |msgs| > 0 {
      var next := UpdateCumulativeGasWanted(ctx, msgs[0], maxTxGasWanted, start);
      assert start <= next && next as int <= start as int + maxTxGasWanted as int;
      assert |msgs| * maxTxGasWanted as int == |msgs[1..]| * maxTxGasWanted as int + maxTxGasWanted as int;
      AccumulateCheckTxBounded(ctx, msgs[1..], maxTxGasWanted, next);
    }
  }

  /** Sum of the messages' wanted gas, each capped at `cap`. */
  ghost function CappedSum(msgs: seq<uint64>, cap: uint64): nat
    decreases |msgs|
  {
    if |msgs| == 0 then 0 else MinUint64(msgs[0], cap) as int + CappedSum(msgs[1..], cap)
  }

  /** In CheckTx mode with a non-zero cap the total is the start plus the
      capped sum of the messages' wanted gas, as long as that fits in 64 bits. */
  lemma {:induction false} AccumulateCheckTxIsCappedSum(ctx: Context, msgs: seq<uint64>, maxTxGasWanted: uint64, start: uint64)
    requires ctx.isCheckTx && maxTxGasWanted != 0
    requires start as int + CappedSum(msgs, maxTxGasWanted) <= UINT64_MAX
    ensures Accumulate(ctx, msgs, maxTxGasWanted, start) as int == start as int + CappedSum(msgs, maxTxGasWanted)
    decreases |msgs|
  {
    if |msgs| > 0 {
      var next := UpdateCumulativeGasWanted(ctx, msgs[0], maxTxGasWanted, start);
      assert next as int == start as int + MinUint64(msgs[0], maxTxGasWanted) as int;
      AccumulateCheckTxIsCappedSum(ctx, msgs[1..], maxTxGasWanted, next);
    }
  }

  /** Two DeliverTx messages of 2^63 gas each wrap the total to zero, and a
      total of zero then passes any block gas limit: the wrap lets the
      transaction's declared gas escape the block gas check. */
  lemma OverflowPassesBlockGasLimit(ctx: Context, maxTxGasWanted: uint64, minPriority: int64)
    requires !ctx.isCheckTx
    ensures Accumulate(ctx, [0x8000_0000_0000_0000, 0x8000_0000_0000_0000], maxTxGasWanted, 0) == 0
    ensures CheckBlockGasLimit(ctx, 0, minPriority).err == None
  {
    var msgs: seq<uint64> := [0x8000_0000_0000_0000, 0x8000_0000_0000_0000];
    assert msgs[1..][1..] == [];
  }

  /** The update as intended: adding the counted gas fails instead of
      wrapping, so a returned total is never below the running total. */
  function UpdateCumulativeGasWantedChecked(
    ctx: Context, msgGasWanted: uint64, maxTxGasWanted: uint64, cumulativeGasWanted: uint64): (r: Option<uint64>)
    ensures r.Some? <==> NoOverflow(cumulativeGasWanted, CountedGas(ctx.isCheckTx, msgGasWanted, maxTxGasWanted))
    ensures r.Some? ==> cumulativeGasWanted <= r.value
    ensures r.Some? ==>
      r.value as int == cumulativeGasWanted as int + CountedGas(ctx.isCheckTx, msgGasWanted, maxTxGasWanted) as int
    ensures r.Some? ==> r.value == UpdateCumulativeGasWanted(ctx, msgGasWanted, maxTxGasWanted, cumulativeGasWanted)
  {
    var counted := CountedGas(ctx.isCheckTx, msgGasWanted, maxTxGasWanted);
    if NoOverflow(cumulativeGasWanted, counted) then Some(AddUint64(cumulativeGasWanted, counted))
    else None
  }

  /** The checked update fed through a transaction's messages; the first
      overflow fails the whole transaction. */
  ghost function AccumulateChecked(ctx: Context, msgs: seq<uint64>, maxTxGasWanted: uint64, start: uint64): Option<uint64>
    decreases |msgs|
  {
    if |msgs| == 0 then Some(start)
    else match UpdateCumulativeGasWantedChecked(ctx, msgs[0], maxTxGasWanted, start)
      case None => None
      case Some(next) => AccumulateChecked(ctx, msgs[1..], maxTxGasWanted, next)
  }

  /** In DeliverTx mode the checked accumulation returns the exact sum when it
      fits in 64 bits and fails otherwise: it never understates the gas. */
  lemma {:induction false} AccumulateCheckedDeliverIsSum(ctx: Context, msgs: seq<uint64>, maxTxGasWanted: uint64, start: uint64)
    requires !ctx.isCheckTx
    ensures AccumulateChecked(ctx, msgs, maxTxGasWanted, start).Some? <==> start as int + Sum(msgs) <= UINT64_MAX
    ensures AccumulateChecked(ctx, msgs, maxTxGasWanted, start).Some? ==>
      AccumulateChecked(ctx, msgs, maxTxGasWanted, start).value as int == start as int + Sum(msgs)
    decreases |msgs|
  {
    if |msgs| > 0 {
      var step := UpdateCumulativeGasWantedChecked(ctx, msgs[0], maxTxGasWanted, start);
      if step.Some? {
        assert step.value as int == start as int + msgs[0] as int;
        AccumulateCheckedDeliverIsSum(ctx, msgs[1..], maxTxGasWanted, step.value);
      }
    }
  }

  /** Whenever the checked accumulation succeeds it agrees with the code as
      written and has not decreased. */
  lemma {:induction false} AccumulateCheckedAgrees(ctx: Context, msgs: seq<uint64>, maxTxGasWanted: uint64, start: uint64)
    requires AccumulateChecked(ctx, msgs, maxTxGasWanted, start).Some?
    ensures AccumulateChecked(ctx, msgs, maxTxGasWanted, start).value == Accumulate(ctx, msgs, maxTxGasWanted, start)
    ensures start <= AccumulateChecked(ctx, msgs, maxTxGasWanted, start).value
    decreases |msgs|
  {
    if |msgs| > 0 {
      var step := UpdateCumulativeGasWantedChecked(ctx, msgs[0], maxTxGasWanted, start);
      AccumulateCheckedAgrees(ctx, msgs[1..], maxTxGasWanted, step.value);
    }
  }

  // ---------------------------------------------------------------------------
  // Fee deduction and the fee event

  /** The event emitted after a successful fee deduction. */
  function FeeEvent(fees: Coins): Event
  {
    Event(EventTypeTx, [Attribute(AttributeKeyFee, CoinsString(fees))])
  }

  /** `deductFees`: zero fees succeed without touching the keeper; otherwise
      the keeper is asked once to debit the payer's Ethereum address, and a
      refusal comes back wrapped as a fee-deduction failure. Whatever the
      debit itself emits goes to the context's event manager. */
  method DeductFees(ctx: Context, keeper: EvmKeeper, fees: Coins, feePayer: seq<byte>) returns (err: Option<AnteError>)
    modifies keeper, ctx.eventManager
    ensures CoinsIsZero(fees) ==>
      && err == None
      && keeper.calls == old(keeper.calls)
      && ctx.eventManager.events == old(ctx.eventManager.events)
    ensures !CoinsIsZero(fees) ==>
      var payer := BytesToAddress(feePayer);
      var answer := keeper.verdict(old(keeper.calls), fees, payer);
      && keeper.calls == old(keeper.calls) + [LedgerCall(fees, payer, answer)]
      && err == (if answer.Some? then Some(FeeDeductionFailed(answer.value)) else None)
      && ctx.eventManager.events == old(ctx.eventManager.events) + keeper.debitEvents(old(keeper.calls), fees, payer)
  {
    if CoinsIsZero(fees) {
      return None;
    }
    var keeperErr := keeper.DeductTxCostsFromUserBalance(ctx, fees, BytesToAddress(feePayer));
    if keeperErr.Some? {
      return Some(FeeDeductionFailed(keeperErr.value));
    }
    return None;
  }

  /** `ConsumeFeesAndEmitEvent`: deducts the fees and, when that succeeds,
      emits exactly one `tx` event carrying the fee string, after whatever
      the keeper's debit emitted. The fee event is emitted for zero fees too;
      a failed deduction adds no fee event. */
  method ConsumeFeesAndEmitEvent(ctx: Context, keeper: EvmKeeper, fees: Coins, from: seq<byte>)
    returns (err: Option<AnteError>)
    modifies ctx.eventManager, keeper
    ensures CoinsIsZero(fees) ==> err == None && keeper.calls == old(keeper.calls)
    ensures !CoinsIsZero(fees) ==>
      var answer := keeper.verdict(old(keeper.calls), fees, BytesToAddress(from));
      && keeper.calls == old(keeper.calls) + [LedgerCall(fees, BytesToAddress(from), answer)]
      && err == (if answer.Some? then Some(FeeDeductionFailed(answer.value)) else None)
    ensures
      var debitEmitted := if CoinsIsZero(fees) then [] else keeper.debitEvents(old(keeper.calls), fees, BytesToAddress(from));
      && (err == None ==> ctx.eventManager.events == old(ctx.eventManager.events) + debitEmitted + [FeeEvent(fees)])
      && (err != None ==> ctx.eventManager.events == old(ctx.eventManager.events) + debitEmitted)
  {
    err := DeductFees(ctx, keeper, fees, from);
    if err.Some? {
      return;
    }
    ctx.eventManager.EmitEvent(FeeEvent(fees));
  }

  /** `ConsumeFeesAndEmitEvent` as intended: zero fees are free and leave no
      trace, neither a ledger call nor a fee event. On non-zero fees it
      behaves exactly as `ConsumeFeesAndEmitEvent`. */
  method ConsumeNonZeroFeesAndEmitEvent(ctx: Context, keeper: EvmKeeper, fees: Coins, from: seq<byte>)
    returns (err: Option<AnteError>)
    modifies ctx.eventManager, keeper
    ensures CoinsIsZero(fees) ==>
      && err == None
      && keeper.calls == old(keeper.calls)
      && ctx.eventManager.events == old(ctx.eventManager.events)
    ensures !CoinsIsZero(fees) ==>
      var payer := BytesToAddress(from);
      var answer := keeper.verdict(old(keeper.calls), fees, payer);
      var debitEmitted := keeper.debitEvents(old(keeper.calls), fees, payer);
      && keeper.calls == old(keeper.calls) + [LedgerCall(fees, payer, answer)]
      && err == (if answer.Some? then Some(FeeDeductionFailed(answer.value)) else None)
      && (err == None ==> ctx.eventManager.events == old(ctx.eventManager.events) + debitEmitted + [FeeEvent(fees)])
      && (err != None ==> ctx.eventManager.events == old(ctx.eventManager.events) + debitEmitted)
  {
    err := DeductFees(ctx, keeper, fees, from);
    if err.Some? || CoinsIsZero(fees) {
      return;
    }
    ctx.eventManager.EmitEvent(FeeEvent(fees));
  }

  // ---------------------------------------------------------------------------
  // Priority

  /** `GetMsgPriority`: the transaction's fee-market priority, clamped from
      above by `minPriority`. `getTxPriority` stands for
      `evmtypes.GetTxPriority`, which is not part of this model. */
  function GetMsgPriority<TxData, BaseFee>(
    getTxPriority: (TxData, BaseFee) -> int64, txData: TxData, minPriority: int64, baseFee: BaseFee): (r: int64)
    ensures r <= minPriority
    ensures r <= getTxPriority(txData, baseFee)
    ensures r == minPriority || r == getTxPriority(txData, baseFee)
  {
    var priority := getTxPriority(txData, baseFee);
    if priority < minPriority then priority else minPriority
  }

  /** Raising the clamp never lowers the resulting priority. */
  lemma PriorityMonotoneInClamp<TxData, BaseFee>(
    getTxPriority: (TxData, BaseFee) -> int64, txData: TxData, m1: int64, m2: int64, baseFee: BaseFee)
    requires m1 <= m2
    ensures GetMsgPriority(getTxPriority, txData, m1, baseFee) <= GetMsgPriority(getTxPriority, txData, m2, baseFee)
  {
  }

  // ---------------------------------------------------------------------------
  // Block gas limit

  /** What `CheckBlockGasLimit` returns: a context and, possibly, an error. */
  datatype CheckResult = CheckResult(ctx: Context, err: Option<AnteError>)

  /** `CheckBlockGasLimit`: rejects wanted gas above the block gas limit,
      handing back the context unchanged; otherwise returns a copy of the
      context with a fresh gas meter limited to `gasWanted` and with the given
      priority. */
  function CheckBlockGasLimit(ctx: Context, gasWanted: uint64, minPriority: int64): (r: CheckResult)
    ensures r.err == Some(OutOfGas) <==> gasWanted > ctx.blockGasLimit
    ensures r.err == None <==> gasWanted <= ctx.blockGasLimit
    ensures r.err != None ==> r.ctx == ctx
    ensures r.err == None ==>
      && r.ctx.gasMeter.limit == gasWanted
      && r.ctx.priority == minPriority
      && r.ctx.isCheckTx == ctx.isCheckTx
      && r.ctx.blockGasLimit == ctx.blockGasLimit
      && r.ctx.eventManager == ctx.eventManager
  {
    var blockGasLimit := ctx.blockGasLimit;
    if gasWanted > blockGasLimit then CheckResult(ctx, Some(OutOfGas))
    else CheckResult(ctx.(gasMeter := GasMeter(gasWanted)).(priority := minPriority), None)
  }

  /** The limit is inclusive: wanting exactly the block gas limit passes and
      one unit more fails. */
  lemma BlockGasLimitBoundary(ctx: Context, minPriority: int64)
    ensures CheckBlockGasLimit(ctx, ctx.blockGasLimit, minPriority).err == None
    ensures ctx.blockGasLimit as int < UINT64_MAX ==>
      CheckBlockGasLimit(ctx, ctx.blockGasLimit + 1, minPriority) == CheckResult(ctx, Some(OutOfGas))
  {
  }

  /** Checking the context a successful check returned, with the same inputs,
      succeeds again and changes nothing more. */
  lemma CheckBlockGasLimitIdempotent(ctx: Context, gasWanted: uint64, minPriority: int64)
    requires CheckBlockGasLimit(ctx, gasWanted, minPriority).err == None
    ensures var c := CheckBlockGasLimit(ctx, gasWanted, minPriority).ctx;
      CheckBlockGasLimit(c, gasWanted, minPriority) == CheckResult(c, None)
  {
  }

  // ---------------------------------------------------------------------------
  // Worked scenarios

  /** Two messages wanting 100 and 150 gas in DeliverTx mode add up to 250;
      with a block gas limit of 1000 the guard installs a meter of 250. */
  lemma DeliverScenario(ctx: Context, cap: uint64, minPriority: int64)
    requires !ctx.isCheckTx && ctx.blockGasLimit == 1000
    ensures Accumulate(ctx, [100, 150], cap, 0) == 250
    ensures CheckBlockGasLimit(ctx, 250, minPriority).err == None
    ensures CheckBlockGasLimit(ctx, 250, minPriority).ctx.gasMeter.limit == 250
  {
  }

  /** The same messages in CheckTx mode with a cap of 120 count 100 and 120. */
  lemma CheckTxScenario(ctx: Context)
    requires ctx.isCheckTx
    ensures Accumulate(ctx, [100, 150], 120, 0) == 220
  {
  }

  /** Zero fees: no ledger call, success, and (as written) one fee event.
      A fee of 500 units the keeper accepts: one ledger call debiting exactly
      those coins, and one event carrying "500aevmos". The intended variant
      then adds nothing for a zero fee. */
  method FeeScenario(keeper: EvmKeeper, em: EventManager, payer: seq<byte>)
    requires keeper.calls == [] && em.events == []
    requires forall calls, fees, a :: keeper.verdict(calls, fees, a) == None
    requires forall calls, fees, a :: keeper.debitEvents(calls, fees, a) == []
    modifies keeper, em
  {
    var ctx := Context(false, 1000, GasMeter(0), 0, em);
    var err := ConsumeFeesAndEmitEvent(ctx, keeper, [Coin("aevmos", 0)], payer);
    assert err == None && keeper.calls == [];
    assert DecimalString(0) == "0";
    assert CoinsString([Coin("aevmos", 0)]) == "0aevmos";
    assert em.events == [Event("tx", [Attribute("fee", "0aevmos")])];
    err := ConsumeFeesAndEmitEvent(ctx, keeper, [Coin("aevmos", 500)], payer);
    assert !CoinsIsZero([Coin("aevmos", 500)]);
    assert err == None;
    assert keeper.calls == [LedgerCall([Coin("aevmos", 500)], BytesToAddress(payer), None)];
    assert DecimalString(5) == "5";
    assert DecimalString(50) == "50";
    assert DecimalString(500) == "500";
    assert CoinsString([Coin("aevmos", 500)]) == "500aevmos";
    assert em.events[1] == Event("tx", [Attribute("fee", "500aevmos")]);
    err := ConsumeNonZeroFeesAndEmitEvent(ctx, keeper, [Coin("aevmos", 0)], payer);
    assert err == None && |keeper.calls| == 1 && |em.events| == 2;
  }
}
