/** The parts of the Cosmos SDK context, coins and events that the gas and fee
    helpers read or produce. Only what those helpers observe is kept. */
module SdkTypes {
  import opened GoTypes

  /** One coin: an amount in a denomination (`sdktypes.Coin`). */
  datatype Coin = Coin(denom: string, amount: nat)

  /** A list of coins (`sdktypes.Coins`). */
  type Coins = seq<Coin>

  /** `Coins.IsZero`: every amount is zero (so the empty list is zero too). */
  predicate CoinsIsZero(fees: Coins)
  {
    forall i :: 0 <= i < |fees| ==> fees[i].amount == 0
  }

  /** Decimal digits of a natural number, as `math.Int` prints it. */
  function DecimalString(n: nat): (s: string)
    ensures |s| >= 1
    ensures forall i :: 0 <= i < |s| ==> '0' <= s[i] <= '9'
    decreases n
  {
    var d := [(('0' as int) + n % 10) as char];
    if n < 10 then d else DecimalString(n / 10) + d
  }

  /** The natural number a string of decimal digits denotes. */
  ghost function DigitsValue(s: string): nat
    decreases |s|
  {
    if |s| == 0 then 0
    else DigitsValue(s[..|s| - 1]) * 10 + (if '0' <= s[|s| - 1] <= '9' then s[|s| - 1] as int - '0' as int else 0)
  }

  /** `DecimalString` is the canonical decimal form: its digits denote `n`,
      and it has no leading zero. */
  lemma {:induction false} DecimalStringDenotes(n: nat)
    ensures DigitsValue(DecimalString(n)) == n
    ensures n >= 10 ==> DecimalString(n)[0] != '0'
    decreases n
  {
    var d := [(('0' as int) + n % 10) as char];
    if n >= 10 {
      DecimalStringDenotes(n / 10);
      var s := DecimalString(n);
      assert s == DecimalString(n / 10) + d;
      assert s[..|s| - 1] == DecimalString(n / 10);
      if n / 10 >= 10 {
        assert s[0] == DecimalString(n / 10)[0];
      } else {
        assert DecimalString(n / 10) == [(('0' as int) + n / 10) as char];
      }
    }
  }

  /** `Coin.String`: the amount followed directly by the denomination. */
  function CoinString(c: Coin): string
  {
    DecimalString(c.amount) + c.denom
  }

  /** `Coins.String`: each coin's string, separated by commas. */
  function CoinsString(fees: Coins): string
  {
    if |fees| == 0 then ""
    else if |fees| == 1 then CoinString(fees[0])
    else CoinString(fees[0]) + "," + CoinsString(fees[1..])
  }

  /** A key/value attribute of an event (`sdktypes.Attribute`). */
  datatype Attribute = Attribute(key: string, value: string)

  /** An emitted event: its type and its attributes (`sdktypes.Event`). */
  datatype Event = Event(kind: string, attributes: seq<Attribute>)

  const EventTypeTx: string := "tx"
  const AttributeKeyFee: string := "fee"

  /** The event manager a context points to. Copies of a context made with
      `WithGasMeter` or `WithPriority` share the same manager. */
  class EventManager {
    var events: seq<Event>

    constructor ()
      ensures events == []
    {
      events := [];
    }

    method EmitEvent(e: Event)
      modifies this
      ensures events == old(events) + [e]
    {
      events := events + [e];
    }
  }

  /** The transaction gas meter; only its limit is recorded. */
  datatype GasMeter = GasMeter(limit: uint64)

  /** The fields of `sdktypes.Context` the gas helpers use. `blockGasLimit`
      stands for what `types.BlockGasLimit(ctx)` reads from the context. */
  datatype Context = Context(
    isCheckTx: bool,
    blockGasLimit: uint64,
    gasMeter: GasMeter,
    priority: int64,
    eventManager: EventManager)
}
