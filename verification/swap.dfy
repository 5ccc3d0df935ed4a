/**
  The swap page: it holds the swap intent (`tokenIn`, `tokenOut`, `amountIn`)
  and the last committed quote (`amountOut`, `adapter`, `dexname`), wires two
  coin inputs to the intent, and refreshes the quote from the router whenever
  the intent changes.
*/
module Swap {
  import opened Wrappers
  import opened Decimal
  import opened CoinInputs

  // -----------------------------------------------------------------------
  // Venues

  const TraderJoe := "0xDB66686Ac8bEA67400CF9E5DD6c8849575B90148"
  const Pangolin := "0x3614657EDc3cb90BA420E5f4F61679777e4974E3"
  const Sushiswap := "0x3f314530a4964acCA1f20dad2D35275C23Ed7F5d"
  const ElkFinance := "0xb2e51D2E2B85DbbE8C758C753b5BdA3f86Af05E4"

  /** Adapter contract address to venue name; keys are compared as exact
      strings. */
  const Dexs: map<string, string> := map[
    TraderJoe := "Trader Joe",
    Pangolin := "Pangolin",
    Sushiswap := "Sushiswap",
    ElkFinance := "ElkFinance"
  ]

  /** The venue of an adapter, `undefined` for any address not in the table. */
  function VenueName(adapter: string): (name: Option<string>)
    ensures name == Some("Trader Joe") <==> adapter == TraderJoe
    ensures name == Some("Pangolin") <==> adapter == Pangolin
    ensures name == Some("Sushiswap") <==> adapter == Sushiswap
    ensures name == Some("ElkFinance") <==> adapter == ElkFinance
    ensures name == None <==> adapter !in {TraderJoe, Pangolin, Sushiswap, ElkFinance}
  {
    if adapter in Dexs then Some(Dexs[adapter]) else None
  }

  /** The venue table is keyed by the exact checksummed spelling: the
      lower-case form of a known adapter address resolves to no venue. */
  lemma VenueLookupIsExact()
    ensures VenueName(TraderJoe) == Some("Trader Joe")
    ensures VenueName("0xdb66686ac8bea67400cf9e5dd6c8849575b90148") == None
    ensures VenueName("") == None
  {
  }

  // -----------------------------------------------------------------------
  // Quotes

  /** The page's quote cells: output amount, adapter address and venue. */
  datatype Quote = Quote(amountOut: string, adapter: string, dexname: Option<string>)

  /** The arguments of the router's no-split query, in call order. */
  datatype RouterQuery = RouterQuery(amountIn: string, tokenIn: string, tokenOut: string)

  /** The router's answer, with the output amount already converted back to
      a decimal string. */
  datatype RouterReply = RouterReply(amountOut: string, adapter: string)

  /** The wallet, the unit conversions and the router call, as one partial
      step: `None` when any part of it throws. */
  type Router = RouterQuery -> Option<RouterReply>

  const InitialTokenIn := "0xB31f66AA3C1e785363F0875A1B74E27b85FD66c7"
  const InitialTokenOut := "0xd586E7F844cEa2F87f50152665BCbc2C279D8d70"
  const InitialAmountIn := "0"
  const InitialQuote := Quote("0", "", Some(""))

  /** The venue cell agrees with the table entry for the adapter cell. */
  predicate Resolved(q: Quote) {
    q.dexname == VenueName(q.adapter)
  }

  /** The initial venue cell is the empty string, not what the table gives
      for the empty adapter, so the initial quote is not a resolved one. */
  lemma InitialQuoteIsUnresolved()
    ensures !Resolved(InitialQuote)
  {
    assert VenueName("") == None;
  }

  /** The outcome of one fetch: a reply replaces all three cells together,
      a failure leaves all three as they were. */
  function Commit(q: Quote, reply: Option<RouterReply>): (c: Quote)
    ensures reply.None? ==> c == q
    ensures reply.Some? ==> c.amountOut == reply.value.amountOut && c.adapter == reply.value.adapter
    ensures reply.Some? ==> Resolved(c)
  {
    match reply
    case None => q
    case Some(r) => Quote(r.amountOut, r.adapter, VenueName(r.adapter))
  }

  /** The quote after a run of fetches whose outcomes are `replies`, in order. */
  function AfterFetches(q: Quote, replies: seq<Option<RouterReply>>): Quote {
    if replies == [] then q
    else Commit(AfterFetches(q, replies[..|replies| - 1]), replies[|replies| - 1])
  }

  lemma OneFetch(q: Quote, a: Option<RouterReply>)
    ensures AfterFetches(q, [a]) == Commit(q, a)
  {
    assert [a][..0] == [];
  }

  lemma TwoFetches(q: Quote, a: Option<RouterReply>, b: Option<RouterReply>)
    ensures AfterFetches(q, [a, b]) == Commit(Commit(q, a), b)
  {
    assert [a, b][..1] == [a];
    OneFetch(q, a);
  }

  /** When every fetch fails, the quote is the one before the first. */
  lemma {:induction false} FailedFetchesKeepQuote(q: Quote, replies: seq<Option<RouterReply>>)
    requires forall j | 0 <= j < |replies| :: replies[j].None?
    ensures AfterFetches(q, replies) == q
  {
    if replies != [] {
      var n := |replies| - 1;
      FailedFetchesKeepQuote(q, replies[..n]);
    }
  }

  /** The quote shown is the one from the last fetch that succeeded, however
      many failures came after it. */
  lemma {:induction false} LastSuccessWins(q: Quote, replies: seq<Option<RouterReply>>, k: nat)
    requires k < |replies| && replies[k].Some?
    requires forall j | k < j < |replies| :: replies[j].None?
    ensures AfterFetches(q, replies) == Commit(q, replies[k])
  {
    var n := |replies| - 1;
    if k < n {
      LastSuccessWins(q, replies[..n], k);
    } else {
      assert replies[n] == replies[k];
    }
  }

  /** Once a fetch has succeeded, the venue cell matches the adapter cell. */
  lemma {:induction false} SuccessResolvesQuote(q: Quote, replies: seq<Option<RouterReply>>, k: nat)
    requires k < |replies| && replies[k].Some?
    ensures Resolved(AfterFetches(q, replies))
  {
    var n := |replies| - 1;
    if k < n {
      SuccessResolvesQuote(q, replies[..n], k);
    } else {
      assert replies[n] == replies[k];
    }
  }

  // -----------------------------------------------------------------------
  // The page

  /** User interactions with the two coin inputs. The receive input is
      read-only, so it takes no keystrokes. */
  datatype PageEvent =
    | PayTyped(input: string)
    | PayCoinSelected(coin: Coin)
    | PayListOpened
    | PayClickedAway
    | ReceiveCoinSelected(coin: Coin)
    | ReceiveListOpened
    | ReceiveClickedAway

  class SwapPage {
    /** The "You Pay" input. */
    const pay: CoinInput
    /** The read-only "You Receive" input. */
    const receive: CoinInput

    var tokenIn: string
    var tokenOut: string
    var amountIn: string
    var amountOut: string
    var adapter: string
    var dexname: Option<string>
    /** The intent the quote effect last ran for; `None` before the first
        render. */
    var fetchedFor: Option<RouterQuery>

    /** The query the page issues for its current intent. */
    function Query(): RouterQuery
      reads this
    {
      RouterQuery(amountIn, tokenIn, tokenOut)
    }

    function CurrentQuote(): Quote
      reads this
    {
      Quote(amountOut, adapter, dexname)
    }

    /** The intent mirrors the pay and receive inputs (or still holds its
        initial value), the amount is always a validated decimal, and the
        quote is the initial one or a resolved one. */
    ghost predicate Valid()
      reads this, pay, receive
    {
      pay != receive && !pay.disabled && receive.disabled &&
      pay.Valid() && receive.Valid() &&
      pay.selectedCoin.Some? &&
      DecimalPattern(amountIn) &&
      (amountIn == pay.value || (amountIn == InitialAmountIn && pay.value == "")) &&
      (tokenIn == InitialTokenIn ||
        (pay.selectedCoin.Some? && tokenIn == pay.selectedCoin.value.address)) &&
      (tokenOut == InitialTokenOut ||
        (receive.selectedCoin.Some? && tokenOut == receive.selectedCoin.value.address)) &&
      (CurrentQuote() == InitialQuote || Resolved(CurrentQuote()))
    }

    /** The rate line reads the codes of the first two listed coins on every
        render, so the page only renders with at least two coins. */
    constructor (coinList: seq<Coin>)
      requires |coinList| >= 2
      ensures Valid() && fresh(pay) && fresh(receive)
      ensures tokenIn == InitialTokenIn && tokenOut == InitialTokenOut && amountIn == InitialAmountIn
      ensures CurrentQuote() == InitialQuote && fetchedFor == None
      ensures pay.coinList == coinList && pay.defaultCoinIndex == 0 && !pay.disabled
      ensures receive.coinList == coinList && receive.defaultCoinIndex == 1 && receive.disabled
      ensures pay.value == "" && pay.selectedCoin == CoinAt(coinList, 0) && !pay.visibleCoinList
      ensures receive.value == "" && receive.selectedCoin == CoinAt(coinList, 1) && !receive.visibleCoinList
    {
      pay := new CoinInput(coinList, 0, false);
      receive := new CoinInput(coinList, 1, true);
      tokenIn := InitialTokenIn;
      tokenOut := InitialTokenOut;
      amountIn := InitialAmountIn;
      amountOut := "0";
      adapter := "";
      dexname := Some("");
      fetchedFor := None;
    }

    /** One user interaction: the widget handles it and its notification, if
        any, lands in the intent. The quote is never touched here. */
    method Handle(e: PageEvent)
      requires Valid()
      modifies this`tokenIn, this`tokenOut, this`amountIn, pay, receive
      ensures Valid()
      ensures CurrentQuote() == old(CurrentQuote()) && fetchedFor == old(fetchedFor)
      ensures amountIn == (if e.PayTyped? && DecimalPattern(e.input) then e.input else old(amountIn))
      ensures tokenIn == (if e.PayCoinSelected? then e.coin.address else old(tokenIn))
      ensures tokenOut == (if e.ReceiveCoinSelected? then e.coin.address else old(tokenOut))
      ensures pay.value == (if e.PayTyped? && DecimalPattern(e.input) then e.input else old(pay.value))
      ensures receive.value == old(receive.value)
      ensures pay.selectedCoin == (if e.PayCoinSelected? then Some(e.coin) else old(pay.selectedCoin))
      ensures receive.selectedCoin == (if e.ReceiveCoinSelected? then Some(e.coin) else old(receive.selectedCoin))
      ensures pay.visibleCoinList ==
        (if e.PayListOpened? then true
         else if e.PayCoinSelected? || e.PayClickedAway? then false
         else old(pay.visibleCoinList))
      ensures receive.visibleCoinList ==
        (if e.ReceiveListOpened? then true
         else if e.ReceiveCoinSelected? || e.ReceiveClickedAway? then false
         else old(receive.visibleCoinList))
    {
      match e
      case PayTyped(input) =>
        var notice := pay.HandleOnChange(input);
        if notice.Some? {
          amountIn := notice.value;
        }
      case PayCoinSelected(coin) =>
        var address := pay.HandleSelectedCoin(coin);
        tokenIn := address;
      case PayListOpened =>
        pay.OpenCoinList();
      case PayClickedAway =>
        pay.ClickAway();
      case ReceiveCoinSelected(coin) =>
        var address := receive.HandleSelectedCoin(coin);
        tokenOut := address;
      case ReceiveListOpened =>
        receive.OpenCoinList();
      case ReceiveClickedAway =>
        receive.ClickAway();
    }

    /** One quote fetch for the current intent: on a reply the three quote
        cells are set from it, on a failure none of them changes. */
    method GetAmountOut(router: Router)
      requires Valid()
      modifies this`amountOut, this`adapter, this`dexname
      ensures Valid()
      ensures CurrentQuote() == Commit(old(CurrentQuote()), router(RouterQuery(amountIn, tokenIn, tokenOut)))
      ensures router(Query()).None? ==>
        amountOut == old(amountOut) && adapter == old(adapter) && dexname == old(dexname)
      ensures router(Query()).Some? ==>
        amountOut == router(Query()).value.amountOut && adapter == router(Query()).value.adapter &&
        dexname == VenueName(adapter)
    {
      var reply := router(RouterQuery(amountIn, tokenIn, tokenOut));
      if reply.Some? {
        amountOut := reply.value.amountOut;
        adapter := reply.value.adapter;
        dexname := VenueName(reply.value.adapter);
      }
    }

    /** The effect pass after a render: the quote is fetched only when the
        intent differs from the one the effect last ran for. */
    method RunEffect(router: Router)
      requires Valid()
      modifies this`amountOut, this`adapter, this`dexname, this`fetchedFor
      ensures Valid()
      ensures fetchedFor == Some(Query())
      ensures old(fetchedFor) == Some(Query()) ==> CurrentQuote() == old(CurrentQuote())
      ensures old(fetchedFor) != Some(Query()) ==>
        CurrentQuote() == Commit(old(CurrentQuote()), router(Query()))
    {
      if fetchedFor != Some(Query()) {
        GetAmountOut(router);
        fetchedFor := Some(Query());
      }
    }

    /** The pay field shows the typed amount, always a validated decimal. */
    function PayField(): (t: FieldText)
      reads this, pay, receive
      requires Valid()
      ensures t == Typed(pay.value) && DecimalPattern(t.text)
    {
      pay.ShownText("")  // the pay input is given no external amount
    }

    /** The receive field shows the page's current output amount. */
    function ReceiveField(): (t: FieldText)
      reads this, pay, receive
      requires Valid()
      ensures t == External(amountOut)
    {
      receive.ShownText(amountOut)
    }
  }

  /** A session: the first render fetches, a refused keystroke changes no
      intent and so fetches nothing, an accepted one fetches again. */
  method QuoteSession(coinList: seq<Coin>, router: Router, refused: string, accepted: string)
    requires |coinList| >= 2
    requires !DecimalPattern(refused) && DecimalPattern(accepted)
  {
    var page := new SwapPage(coinList);
    page.RunEffect(router);
    var before := page.CurrentQuote();
    page.Handle(PayTyped(refused));
    assert page.amountIn == InitialAmountIn;
    page.RunEffect(router);
    assert page.CurrentQuote() == before;
    page.Handle(PayTyped(accepted));
    page.RunEffect(router);
    assert page.amountIn == accepted;
    var first := router(RouterQuery(InitialAmountIn, InitialTokenIn, InitialTokenOut));
    var second := router(RouterQuery(accepted, InitialTokenIn, InitialTokenOut));
    assert before == Commit(InitialQuote, first);
    OneFetch(InitialQuote, first);
    TwoFetches(InitialQuote, first, second);
    if accepted != InitialAmountIn {
      // two fetches ran: the one of the first render and the one for `accepted`
      assert page.CurrentQuote() == AfterFetches(InitialQuote, [first, second]);
    } else {
      // the intent came back to the one already fetched for
      assert page.CurrentQuote() == AfterFetches(InitialQuote, [first]);
    }
  }
}
