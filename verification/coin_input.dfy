/**
  The coin input widget: a labelled amount field with a token selector.
  Its three state cells are the typed amount `value`, the `selectedCoin` and
  whether the selector overlay `visibleCoinList` is open. The two change
  callbacks of the widget are returned to the caller as notifications.
*/
module CoinInputs {
  import opened Wrappers
  import opened Decimal

  /** An entry of the static token list. The icon is markup and the price is
      only used for display, so neither is modelled. */
  datatype Coin = Coin(address: string, code: string, name: string)

  /** What the amount field shows: the typed text, or (in the read-only mode)
      the externally supplied amount, which is rendered with two decimals. */
  datatype FieldText = Typed(text: string) | External(amount: string)

  /** The coin at `index` of the token list, or `undefined` when the index is
      outside it. */
  function CoinAt(coinList: seq<Coin>, index: int): (c: Option<Coin>)
    ensures c.Some? <==> 0 <= index < |coinList|
    ensures c.Some? ==> c.value == coinList[index]
  {
    if 0 <= index < |coinList| then Some(coinList[index]) else None
  }

  class CoinInput {
    const coinList: seq<Coin>
    const defaultCoinIndex: int
    const disabled: bool

    var value: string
    var selectedCoin: Option<Coin>
    var visibleCoinList: bool

    /** The typed amount is always one the validator accepted. */
    ghost predicate Valid()
      reads this
    {
      DecimalPattern(value)
    }

    /** The selector overlay is in the tree exactly while the list is open. */
    predicate OverlayRendered()
      reads this
    {
      visibleCoinList
    }

    /** The body-scroll lock is requested exactly while the list is open. */
    predicate ScrollLockRequested()
      reads this
    {
      visibleCoinList
    }

    constructor (coinList: seq<Coin>, defaultCoinIndex: int, disabled: bool)
      ensures Valid()
      ensures this.coinList == coinList && this.defaultCoinIndex == defaultCoinIndex
      ensures this.disabled == disabled
      ensures value == ""
      ensures selectedCoin == CoinAt(coinList, defaultCoinIndex)
      ensures !visibleCoinList && !OverlayRendered() && !ScrollLockRequested()
    {
      this.coinList := coinList;
      this.defaultCoinIndex := defaultCoinIndex;
      this.disabled := disabled;
      value := "";
      selectedCoin := CoinAt(coinList, defaultCoinIndex);
      visibleCoinList := false;
    }

    /** A keystroke in the amount field: an accepted input replaces the value
        and is passed on unchanged; a refused one is ignored. Building the
        notification reads the selected coin's code, so with no coin selected
        the handler throws after the value is set and nothing is passed on. */
    method HandleOnChange(input: string) returns (amountNotice: Option<string>)
      requires Valid()
      modifies this`value
      ensures Valid()
      ensures DecimalPattern(input) ==> value == input
      ensures !DecimalPattern(input) ==> value == old(value)
      ensures amountNotice == (if DecimalPattern(input) && selectedCoin.Some? then Some(input) else None)
      ensures selectedCoin == old(selectedCoin) && visibleCoinList == old(visibleCoinList)
    {
      if DecimalPattern(input) {
        value := input;
        if selectedCoin.Some? {
          amountNotice := Some(input);
        } else {
          // `selectedCoin.code` throws a TypeError before the callback runs
          amountNotice := None;
        }
      } else {
        amountNotice := None;
      }
    }

    /** A coin picked in the overlay: it becomes the selection, its address is
        passed on, and the overlay closes. */
    method HandleSelectedCoin(coin: Coin) returns (tokenNotice: string)
      requires Valid()
      modifies this`selectedCoin, this`visibleCoinList
      ensures Valid()
      ensures selectedCoin == Some(coin) && tokenNotice == coin.address
      ensures !visibleCoinList && !OverlayRendered() && !ScrollLockRequested()
      ensures value == old(value)
    {
      selectedCoin := Some(coin);
      tokenNotice := coin.address;
      visibleCoinList := false;
    }

    /** The coin button opens the selector. */
    method OpenCoinList()
      requires Valid()
      modifies this`visibleCoinList
      ensures Valid()
      ensures visibleCoinList && OverlayRendered() && ScrollLockRequested()
      ensures value == old(value) && selectedCoin == old(selectedCoin)
    {
      visibleCoinList := true;
    }

    /** A pointer event outside the overlay closes the selector. */
    method ClickAway()
      requires Valid()
      modifies this`visibleCoinList
      ensures Valid()
      ensures !visibleCoinList && !OverlayRendered() && !ScrollLockRequested()
      ensures value == old(value) && selectedCoin == old(selectedCoin)
    {
      visibleCoinList := false;
    }

    /** The text in the amount field: the typed value when editable, the
        supplied amount in the read-only mode. */
    function ShownText(showvalue: string): (t: FieldText)
      reads this
      requires Valid()
      ensures t.Typed? <==> !disabled
      ensures t.Typed? ==> t.text == value && DecimalPattern(t.text)
      ensures t.External? ==> t.amount == showvalue
    {
      if !disabled then Typed(value) else External(showvalue)
    }
  }
}
