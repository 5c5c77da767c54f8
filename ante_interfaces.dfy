/** The EVM keeper as far as fee deduction sees it (`anteinterfaces.EVMKeeper`). */
module AnteInterfaces {
  import opened GoTypes
  import opened SdkTypes
  import opened EthCommon

  /** Why the keeper refused a debit. The keeper's balance logic is not
      modelled; its refusals are named by category only. */
  datatype KeeperError = InsufficientFunds | LedgerRejected(reason: string)

  /** One invocation of `DeductTxCostsFromUserBalance` and what it answered. */
  datatype LedgerCall = LedgerCall(fees: Coins, payer: Address, outcome: Option<KeeperError>)

  /** The keeper's balance ledger. Its behaviour on a debit is given by two
      oracles over the calls made so far and the requested debit: `verdict`
      is the keeper's error, if any, and `debitEvents` the events the debit
      itself emits into the context's event manager (the bank's transfer
      events, for one). Every invocation is appended to `calls`. */
  class EvmKeeper {
    const verdict: (seq<LedgerCall>, Coins, Address) -> Option<KeeperError>
    const debitEvents: (seq<LedgerCall>, Coins, Address) -> seq<Event>
    var calls: seq<LedgerCall>

    constructor (
      verdict: (seq<LedgerCall>, Coins, Address) -> Option<KeeperError>,
      debitEvents: (seq<LedgerCall>, Coins, Address) -> seq<Event>)
      ensures this.verdict == verdict && this.debitEvents == debitEvents && calls == []
    {
      this.verdict := verdict;
      this.debitEvents := debitEvents;
      calls := [];
    }

    method DeductTxCostsFromUserBalance(ctx: Context, fees: Coins, payer: Address) returns (err: Option<KeeperError>)
      modifies this, ctx.eventManager
      ensures err == verdict(old(calls), fees, payer)
      ensures calls == old(calls) + [LedgerCall(fees, payer, err)]
      ensures ctx.eventManager.events == old(ctx.eventManager.events) + debitEvents(old(calls), fees, payer)
    {
      err := verdict(calls, fees, payer);
      var emitted := debitEvents(calls, fees, payer);
      calls := calls + [LedgerCall(fees, payer, err)];
      ctx.eventManager.events := ctx.eventManager.events + emitted;
    }
  }
}
