/** The cost-basis engine of src/cost-class.ts. For one wallet (the client) and
    one ERC-20 token it finds every Uniswap-V2 pair holding the token, every
    Swap event whose recipient is the client, and for each such transaction a
    signed change of holding and cost; the changes are summed, costs grouped by
    the decimals of the token they are priced in and scaled once per group. */
module CostBasis {
  import opened Common
  import opened Scanner
  import Utils

  // ---------------------------------------------------------------------------
  // What the chain answers

  /** topic0 of `Swap(address,uint256,uint256,uint256,uint256,address)`. */
  const SwapTopic: string := "0xd78ad95fa46c994b6551d0da85fc275fe613ce37657fb8d5e3d130840159d822"

  /** The decoded arguments of a pair's Swap event. */
  datatype SwapArgs = SwapArgs(sender: Address, amount0In: nat, amount1In: nat,
                               amount0Out: nat, amount1Out: nat, to: Address)

  datatype Log = Log(address: Address, topics: seq<string>, data: string)

  /** The fields of a transaction the engine reads; `to` is absent for a
      contract creation. */
  datatype Tx = Tx(to: Option<Address>, blockNumber: int, data: string, value: nat)

  datatype Receipt = Receipt(logs: seq<Log>)

  /** The router's `parseTransaction`: it fails, or finds a call without a
      `path` argument, or a call with one. */
  datatype Decoded = Unparseable | NoPath | Path(path: seq<Address>)

  /** Every provider, contract and ABI call the engine makes, as functions. */
  datatype Chain = Chain(
    transaction: string -> Outcome<Option<Tx>>,       // provider.getTransaction
    receipt: string -> Outcome<Option<Receipt>>,      // provider.getTransactionReceipt
    decode: (string, nat) -> Decoded,                 // router.interface.parseTransaction
    parseSwap: Log -> Result<SwapArgs>,               // Interface(PairJSON.abi).parseLog
    getPair: (Address, Address) -> Outcome<Address>,  // factory.getPair
    token0: Address -> Outcome<Address>,              // pair.token0()
    decimals: Address -> Outcome<nat>,                // token.decimals()
    blockTimestamp: int -> Outcome<int>,              // provider.getBlock(n).timestamp
    price: (Address, int) -> Outcome<real>)           // the injected getPrice(token, timestamp)

  /** A Cost object: the client and the token, lowercased by the constructor. */
  datatype Engine = Engine(client: Address, token: Address)

  function NewEngine(client: Address, token: Address): Engine
  {
    Engine(Lower(client), Lower(token))
  }

  /** One transaction's change of holding and cost; the cost is in units of the
      priced token's smallest denomination, hence the decimals. */
  datatype HoldCost = HoldCost(hold: int, cost: real, decimals: nat)

  /** `defaultHoldAndCost()`. */
  const ZeroDelta: HoldCost := HoldCost(0, 0.0, 0)

  /** The engine's answer: net holding and total cost. */
  datatype Total = Total(hold: int, cost: real)

  /** One hop of a trade path: its pair (lowercased) and the Swap event it emitted. */
  datatype Hop = Hop(pair: Address, event: SwapArgs)

  /** A Swap log bound to its emitter's lowercased address. */
  datatype Tagged = Tagged(address: Address, event: SwapArgs)

  // ---------------------------------------------------------------------------
  // getPairAndEvents

  predicate IsSwapLog(l: Log)
  {
    |l.topics| > 0 && l.topics[0] == SwapTopic
  }

  /** The logs whose first topic is the Swap signature, in order. */
  function SwapLogs(logs: seq<Log>): (r: seq<Log>)
    ensures forall l :: l in r <==> l in logs && IsSwapLog(l)
  {
    if logs == [] then []
    else (if IsSwapLog(logs[0]) then [logs[0]] else []) + SwapLogs(logs[1..])
  }

  /** Parse every log and bind it to its lowercased address; the first parse
      failure is thrown. */
  function Tag(chain: Chain, logs: seq<Log>): (r: Result<seq<Tagged>>)
    ensures r.Ok? <==> forall i :: 0 <= i < |logs| ==> chain.parseSwap(logs[i]).Ok?
    ensures r.Ok? ==> |r.value| == |logs| && forall i :: 0 <= i < |logs| ==>
      r.value[i] == Tagged(Lower(logs[i].address), chain.parseSwap(logs[i]).value)
    ensures r.Err? ==> exists i :: 0 <= i < |logs| && chain.parseSwap(logs[i]) == Err(r.error)
  {
    if logs == [] then Ok([])
    else
      match chain.parseSwap(logs[0])
      case Err(e) => Err(e)
      case Ok(ev) =>
        var rest := Tag(chain, logs[1..]);
        assert forall i :: 1 <= i < |logs| ==> logs[i] == logs[1..][i - 1];
        match rest
        case Ok(ts) => Ok([Tagged(Lower(logs[0].address), ev)] + ts)
        case Err(e) => Err(e)
  }

  /** `find`: the index of the first tagged log from `pair`. */
  function Find(tagged: seq<Tagged>, pair: Address, k: nat): (r: Option<nat>)
    requires k <= |tagged|
    ensures r.Some? ==> (k <= r.value < |tagged| && tagged[r.value].address == pair &&
      forall j :: k <= j < r.value ==> tagged[j].address != pair)
    ensures r.None? ==> forall j :: k <= j < |tagged| ==> tagged[j].address != pair
    decreases |tagged| - k
  {
    if k == |tagged| then None
    else if tagged[k].address == pair then Some(k)
    else Find(tagged, pair, k + 1)
  }

  /** Bind every hop's pair to the event of its first Swap log, or throw
      'no swap event emitted!'. */
  function Bind(pairs: seq<Address>, tagged: seq<Tagged>): (r: Result<seq<Hop>>)
    ensures r.Ok? <==> forall i :: 0 <= i < |pairs| ==> Find(tagged, pairs[i], 0).Some?
    ensures r.Ok? ==> |r.value| == |pairs| && forall i :: 0 <= i < |pairs| ==>
      r.value[i] == Hop(pairs[i], tagged[Find(tagged, pairs[i], 0).value].event)
    ensures r.Err? ==> r.error == NoSwapEventEmitted
  {
    if pairs == [] then Ok([])
    else
      match Find(tagged, pairs[0], 0)
      case None => Err(NoSwapEventEmitted)
      case Some(j) =>
        var rest := Bind(pairs[1..], tagged);
        assert forall i :: 1 <= i < |pairs| ==> pairs[i] == pairs[1..][i - 1];
        match rest
        case Ok(hs) => Ok([Hop(pairs[0], tagged[j].event)] + hs)
        case Err(e) => Err(e)
  }

  /** `path.slice(0, path.length - 1)` has this many entries. */
  function HopCount(path: seq<Address>): nat
  {
    if |path| == 0 then 0 else |path| - 1
  }

  /** The `factory.getPair(path[i], path[i + 1])` calls, one per hop. */
  function HopPairs(chain: Chain, path: seq<Address>): (r: seq<Outcome<Address>>)
    ensures |r| == HopCount(path)
    ensures forall i :: 0 <= i < |r| ==> r[i] == chain.getPair(path[i], path[i + 1])
  {
    seq(HopCount(path), i requires 0 <= i < HopCount(path) => chain.getPair(path[i], path[i + 1]))
  }

  function LowerAll(xs: seq<Address>): (r: seq<Address>)
    ensures |r| == |xs| && forall i :: 0 <= i < |xs| ==> r[i] == Lower(xs[i])
  {
    seq(|xs|, i requires 0 <= i < |xs| => Lower(xs[i]))
  }

  /** `getPairAndEvents(logs, path)`. */
  function GetPairAndEvents(chain: Chain, logs: seq<Log>, path: seq<Address>): Outcome<seq<Hop>>
  {
    match Tag(chain, SwapLogs(logs))
    case Err(e) => Failed(e)
    case Ok(tagged) =>
      match All(HopPairs(chain, path))
      case Done(pairs) =>
        (match Bind(LowerAll(pairs), tagged)
         case Ok(hops) => Done(hops)
         case Err(e) => Failed(e))
      case Failed(e) => Failed(e)
      case Pending => Pending
  }

  /** `j` is the index, among the Swap logs `sl`, of the first one emitted by `pair`. */
  predicate FirstSwapLogOf(sl: seq<Log>, j: int, pair: Address)
  {
    && 0 <= j < |sl|
    && Lower(sl[j].address) == pair
    && (forall k :: 0 <= k < j ==> Lower(sl[k].address) != pair)
  }

  /** Some Swap log among `sl` was emitted by `pair`. */
  predicate HasSwapLog(sl: seq<Log>, pair: Address)
  {
    exists j :: 0 <= j < |sl| && Lower(sl[j].address) == pair
  }

  /** `find` over the parsed logs picks the first Swap log from the pair. */
  lemma FindIsFirstSwapLog(chain: Chain, sl: seq<Log>, pair: Address)
    requires Tag(chain, sl).Ok?
    ensures var f := Find(Tag(chain, sl).value, pair, 0);
      && (f.Some? <==> HasSwapLog(sl, pair))
      && (f.Some? ==> (FirstSwapLogOf(sl, f.value, pair) &&
            chain.parseSwap(sl[f.value]) == Ok(Tag(chain, sl).value[f.value].event)))
  {
    var tagged := Tag(chain, sl).value;
    var f := Find(tagged, pair, 0);
    if f.None? {
      forall j | 0 <= j < |sl| ensures Lower(sl[j].address) != pair {
        assert tagged[j].address == Lower(sl[j].address);
      }
    } else {
      assert tagged[f.value] == Tagged(Lower(sl[f.value].address), chain.parseSwap(sl[f.value]).value);
      assert chain.parseSwap(sl[f.value]).Ok?;
      forall k | 0 <= k < f.value ensures Lower(sl[k].address) != pair {
        assert tagged[k].address == Lower(sl[k].address);
      }
    }
  }

  /** When every Swap log parses and the `getPair` calls resolve to `pairs`,
      `getPairAndEvents` comes down to binding the lowercased pairs. */
  lemma PairAndEventsIsBind(chain: Chain, logs: seq<Log>, path: seq<Address>, pairs: seq<Address>)
    requires forall l :: l in SwapLogs(logs) ==> chain.parseSwap(l).Ok?
    requires |pairs| == HopCount(path)
    requires forall i :: 0 <= i < HopCount(path) ==> chain.getPair(path[i], path[i + 1]) == Done(pairs[i])
    ensures Tag(chain, SwapLogs(logs)).Ok?
    ensures var b := Bind(LowerAll(pairs), Tag(chain, SwapLogs(logs)).value);
      GetPairAndEvents(chain, logs, path) == if b.Ok? then Done(b.value) else Failed(b.error)
  {
    var sl := SwapLogs(logs);
    assert forall i :: 0 <= i < |sl| ==> sl[i] in sl;
    var hp := HopPairs(chain, path);
    forall i | 0 <= i < |hp| ensures hp[i] == Done(pairs[i]) {
      assert hp[i] == chain.getPair(path[i], path[i + 1]);
    }
    AllMeaning(hp);
    assert All(hp).Done?;
    assert All(hp).value == pairs;
  }

  /** Under the same conditions the result has one entry per hop, in hop
      order, each holding the lowercased pair and the event of the first Swap
      log that pair emitted; if some hop's pair emitted no Swap log the call
      throws 'no swap event emitted!'. */
  lemma PairAndEventsMeaning(chain: Chain, logs: seq<Log>, path: seq<Address>, pairs: seq<Address>)
    requires forall l :: l in SwapLogs(logs) ==> chain.parseSwap(l).Ok?
    requires |pairs| == HopCount(path)
    requires forall i :: 0 <= i < HopCount(path) ==> chain.getPair(path[i], path[i + 1]) == Done(pairs[i])
    ensures var r, sl, lp := GetPairAndEvents(chain, logs, path), SwapLogs(logs), LowerAll(pairs);
      && (r.Done? <==> forall i :: 0 <= i < |lp| ==> HasSwapLog(sl, lp[i]))
      && (!r.Done? ==> r == Failed(NoSwapEventEmitted))
      && (r.Done? ==> |r.value| == |lp| && forall i :: 0 <= i < |lp| ==>
            && r.value[i].pair == lp[i]
            && exists j :: FirstSwapLogOf(sl, j, lp[i]) && chain.parseSwap(sl[j]) == Ok(r.value[i].event))
  {
    var sl := SwapLogs(logs);
    var tagged := Tag(chain, sl).value;
    var lp := LowerAll(pairs);
    PairAndEventsIsBind(chain, logs, path, pairs);
    forall i | 0 <= i < |lp|
      ensures Find(tagged, lp[i], 0).Some? <==> HasSwapLog(sl, lp[i])
      ensures Find(tagged, lp[i], 0).Some? ==>
        FirstSwapLogOf(sl, Find(tagged, lp[i], 0).value, lp[i]) &&
        chain.parseSwap(sl[Find(tagged, lp[i], 0).value]) == Ok(tagged[Find(tagged, lp[i], 0).value].event)
    {
      FindIsFirstSwapLog(chain, sl, lp[i]);
    }
    var r := GetPairAndEvents(chain, logs, path);
    assert r.Done? <==> forall i :: 0 <= i < |lp| ==> Find(tagged, lp[i], 0).Some?;
    if r.Done? {
      forall i | 0 <= i < |lp|
        ensures r.value[i].pair == lp[i]
        ensures exists j :: FirstSwapLogOf(sl, j, lp[i]) && chain.parseSwap(sl[j]) == Ok(r.value[i].event)
      {
        var j := Find(tagged, lp[i], 0).value;
        assert r.value[i] == Hop(lp[i], tagged[j].event);
      }
    }
  }

  // ---------------------------------------------------------------------------
  // getResult, getHoldAndCost, getHoldAndCostFrom

  /** What `amount` units are worth at `price` per unit. */
  function Valued(amount: int, price: real): real
  {
    amount as real * price
  }

  /** `multipliedBy(isSwapIn ? 1 : -1)`. */
  function Signed(x: real, isSwapIn: bool): real
  {
    if isSwapIn then x else -x
  }

  /** `getResult(token, timestamp, hold, cost, isSwapIn)`: a zero price gives
      the zero change; otherwise the holding is `cost` and the cost is `hold`
      times the price, both negated for a sale, with the token's decimals. */
  function GetResult(chain: Chain, token: Address, timestamp: int, hold: int, cost: int, isSwapIn: bool): Outcome<HoldCost>
  {
    match chain.price(token, timestamp)
    case Failed(e) => Failed(e)
    case Pending => Pending
    case Done(price) =>
      if price == 0.0 then Done(ZeroDelta)
      else
        match chain.decimals(token)
        case Failed(e) => Failed(e)
        case Pending => Pending
        case Done(d) => Done(HoldCost(if isSwapIn then cost else -cost, Signed(Valued(hold, price), isSwapIn), d))
  }

  lemma GetResultPriced(chain: Chain, token: Address, ts: int, hold: int, cost: int, isSwapIn: bool,
                        price: real, d: nat)
    requires chain.price(token, ts) == Done(price) && price != 0.0
    requires chain.decimals(token) == Done(d)
    ensures GetResult(chain, token, ts, hold, cost, isSwapIn)
      == Done(HoldCost(if isSwapIn then cost else -cost, Signed(Valued(hold, price), isSwapIn), d))
  {
  }

  /** The amount a hop's event records for `token` entering the pair. */
  function AmountIn(token: Address, pairToken0: Address, ev: SwapArgs): nat
  {
    if token == Lower(pairToken0) then ev.amount0In else ev.amount1In
  }

  /** The amount a hop's event records for `token` leaving the pair. */
  function AmountOut(token: Address, pairToken0: Address, ev: SwapArgs): nat
  {
    if token == Lower(pairToken0) then ev.amount0Out else ev.amount1Out
  }

  /** `getHoldAndCost(transaction, receipt)`: decode the router call's path,
      skip a trade that neither starts nor ends at the token, then price it. */
  function GetHoldAndCost(chain: Chain, e: Engine, tx: Tx, receipt: Receipt): Outcome<HoldCost>
  {
    match chain.decode(tx.data, tx.value)
    case Unparseable => Failed(DecodeFailed)
    case NoPath => Failed(TypeError("args.path is undefined"))
    case Path(path) =>
      if |path| == 0 then Failed(TypeError("path[0] is undefined"))
      else if Lower(path[0]) != e.token && Lower(path[|path| - 1]) != e.token then Done(ZeroDelta)
      else
        match GetPairAndEvents(chain, receipt.logs, path)
        case Failed(err) => Failed(err)
        case Pending => Pending
        case Done(hops) => HopsDelta(chain, e, tx, Lower(path[0]), Lower(path[|path| - 1]), hops)
  }

  /** The part of `getHoldAndCost` after the hops are known: the amount slots
      of the first and last hop, the block's timestamp, and the direction. */
  function HopsDelta(chain: Chain, e: Engine, tx: Tx, fromToken: Address, toToken: Address,
                     hops: seq<Hop>): Outcome<HoldCost>
  {
    if |hops| == 0 then Failed(TypeError("pairPath[0] is undefined"))
    else
      var first, last := hops[0], hops[|hops| - 1];
      match chain.token0(first.pair)
      case Failed(err) => Failed(err)
      case Pending => Pending
      case Done(t0first) =>
        var amountIn := AmountIn(fromToken, t0first, first.event);
        match chain.token0(last.pair)
        case Failed(err) => Failed(err)
        case Pending => Pending
        case Done(t0last) =>
          var amountOut := AmountOut(toToken, t0last, last.event);
          match chain.blockTimestamp(tx.blockNumber)
          case Failed(err) => Failed(err)
          case Pending => Pending
          case Done(ts) =>
            if fromToken == e.token then GetResult(chain, toToken, ts, amountOut, amountIn, false)
            else GetResult(chain, fromToken, ts, amountIn, amountOut, true)
  }

  /** `getHoldAndCostFrom(txHash)`: both lookups, then the router check. */
  function GetHoldAndCostFrom(chain: Chain, router: Address, e: Engine, hash: string): Outcome<HoldCost>
  {
    var t, rc := chain.transaction(hash), chain.receipt(hash);
    if t.Failed? then Failed(t.error)
    else if rc.Failed? then Failed(rc.error)
    else if t.Pending? || rc.Pending? then Pending
    else if t.value.None? then Failed(TypeError("transaction is null"))
    else if t.value.value.to != Some(router) then Done(ZeroDelta)
    else if rc.value.None? then Failed(TypeError("receipt is null"))
    else GetHoldAndCost(chain, e, t.value.value, rc.value.value)
  }

  /** The facts a trade that reaches the pricing step is decided by. */
  predicate Priced(chain: Chain, e: Engine, tx: Tx, receipt: Receipt, path: seq<Address>,
                   hops: seq<Hop>, t0first: Address, t0last: Address, ts: int)
  {
    && chain.decode(tx.data, tx.value) == Path(path) && |path| > 0
    && GetPairAndEvents(chain, receipt.logs, path) == Done(hops) && |hops| > 0
    && chain.token0(hops[0].pair) == Done(t0first)
    && chain.token0(hops[|hops| - 1].pair) == Done(t0last)
    && chain.blockTimestamp(tx.blockNumber) == Done(ts)
  }

  /** A trade that starts or ends at the token and whose hops are found is
      priced from its hops. */
  lemma PricedFromHops(chain: Chain, e: Engine, tx: Tx, receipt: Receipt, path: seq<Address>,
                       hops: seq<Hop>, t0first: Address, t0last: Address, ts: int)
    requires Priced(chain, e, tx, receipt, path, hops, t0first, t0last, ts)
    requires Lower(path[0]) == e.token || Lower(path[|path| - 1]) == e.token
    ensures GetHoldAndCost(chain, e, tx, receipt) == HopsDelta(chain, e, tx, Lower(path[0]), Lower(path[|path| - 1]), hops)
  {
  }

  /** Once the pairs' token0 and the block's timestamp are known, the direction
      decides which token is priced. */
  lemma HopsPriced(chain: Chain, e: Engine, tx: Tx, fromToken: Address, toToken: Address,
                   hops: seq<Hop>, t0first: Address, t0last: Address, ts: int)
    requires |hops| > 0
    requires chain.token0(hops[0].pair) == Done(t0first)
    requires chain.token0(hops[|hops| - 1].pair) == Done(t0last)
    requires chain.blockTimestamp(tx.blockNumber) == Done(ts)
    ensures var amountIn := AmountIn(fromToken, t0first, hops[0].event);
      var amountOut := AmountOut(toToken, t0last, hops[|hops| - 1].event);
      HopsDelta(chain, e, tx, fromToken, toToken, hops) ==
        if fromToken == e.token then GetResult(chain, toToken, ts, amountOut, amountIn, false)
        else GetResult(chain, fromToken, ts, amountIn, amountOut, true)
  {
  }

  /** The pricing of a purchase once the hops are known: the holding grows by
      the amount leaving the last pair and the cost by the amount entering the
      first pair times the source token's price, in its decimals. */
  lemma PurchaseDelta(chain: Chain, e: Engine, tx: Tx, fromToken: Address, hops: seq<Hop>,
                      t0first: Address, t0last: Address, ts: int, price: real, d: nat)
    requires |hops| > 0 && fromToken != e.token
    requires chain.token0(hops[0].pair) == Done(t0first)
    requires chain.token0(hops[|hops| - 1].pair) == Done(t0last)
    requires chain.blockTimestamp(tx.blockNumber) == Done(ts)
    requires chain.price(fromToken, ts) == Done(price) && price != 0.0
    requires chain.decimals(fromToken) == Done(d)
    ensures var amountIn := AmountIn(fromToken, t0first, hops[0].event);
      var amountOut := AmountOut(e.token, t0last, hops[|hops| - 1].event);
      HopsDelta(chain, e, tx, fromToken, e.token, hops) == Done(HoldCost(amountOut, Valued(amountIn, price), d))
  {
    var amountIn := AmountIn(fromToken, t0first, hops[0].event);
    var amountOut := AmountOut(e.token, t0last, hops[|hops| - 1].event);
    HopsPriced(chain, e, tx, fromToken, e.token, hops, t0first, t0last, ts);
    GetResultPriced(chain, fromToken, ts, amountIn, amountOut, true, price, d);
  }

  /** The pricing of a sale once the hops are known: the holding shrinks by the
      amount entering the first pair and the cost by the amount leaving the last
      pair times the destination token's price, in its decimals. */
  lemma SaleDelta(chain: Chain, e: Engine, tx: Tx, fromToken: Address, toToken: Address, hops: seq<Hop>,
                  t0first: Address, t0last: Address, ts: int, price: real, d: nat)
    requires |hops| > 0 && fromToken == e.token
    requires chain.token0(hops[0].pair) == Done(t0first)
    requires chain.token0(hops[|hops| - 1].pair) == Done(t0last)
    requires chain.blockTimestamp(tx.blockNumber) == Done(ts)
    requires chain.price(toToken, ts) == Done(price) && price != 0.0
    requires chain.decimals(toToken) == Done(d)
    ensures var amountIn := AmountIn(fromToken, t0first, hops[0].event);
      var amountOut := AmountOut(toToken, t0last, hops[|hops| - 1].event);
      HopsDelta(chain, e, tx, fromToken, toToken, hops) == Done(HoldCost(-(amountIn as int), -Valued(amountOut, price), d))
  {
    var amountIn := AmountIn(fromToken, t0first, hops[0].event);
    var amountOut := AmountOut(toToken, t0last, hops[|hops| - 1].event);
    HopsPriced(chain, e, tx, fromToken, toToken, hops, t0first, t0last, ts);
    GetResultPriced(chain, toToken, ts, amountOut, amountIn, false, price, d);
  }

  /** A purchase (the token is the last of the path and not the first). */
  lemma SwapIn(chain: Chain, e: Engine, tx: Tx, receipt: Receipt, path: seq<Address>,
               hops: seq<Hop>, t0first: Address, t0last: Address, ts: int, price: real, d: nat)
    requires Priced(chain, e, tx, receipt, path, hops, t0first, t0last, ts)
    requires Lower(path[|path| - 1]) == e.token && Lower(path[0]) != e.token
    requires chain.price(Lower(path[0]), ts) == Done(price) && price != 0.0
    requires chain.decimals(Lower(path[0])) == Done(d)
    ensures var amountIn := AmountIn(Lower(path[0]), t0first, hops[0].event);
      var amountOut := AmountOut(e.token, t0last, hops[|hops| - 1].event);
      GetHoldAndCost(chain, e, tx, receipt) == Done(HoldCost(amountOut, Valued(amountIn, price), d))
  {
    PricedFromHops(chain, e, tx, receipt, path, hops, t0first, t0last, ts);
    PurchaseDelta(chain, e, tx, Lower(path[0]), hops, t0first, t0last, ts, price, d);
  }

  /** A sale (the token is the first of the path). */
  lemma SwapOut(chain: Chain, e: Engine, tx: Tx, receipt: Receipt, path: seq<Address>,
                hops: seq<Hop>, t0first: Address, t0last: Address, ts: int, price: real, d: nat)
    requires Priced(chain, e, tx, receipt, path, hops, t0first, t0last, ts)
    requires Lower(path[0]) == e.token
    requires chain.price(Lower(path[|path| - 1]), ts) == Done(price) && price != 0.0
    requires chain.decimals(Lower(path[|path| - 1])) == Done(d)
    ensures var r := GetHoldAndCost(chain, e, tx, receipt);
      && r.Done?
      && r.value.hold == -(AmountIn(e.token, t0first, hops[0].event) as int)
      && r.value.cost == -Valued(AmountOut(Lower(path[|path| - 1]), t0last, hops[|hops| - 1].event), price)
      && r.value.decimals == d
  {
    PricedFromHops(chain, e, tx, receipt, path, hops, t0first, t0last, ts);
    SaleDelta(chain, e, tx, Lower(path[0]), Lower(path[|path| - 1]), hops, t0first, t0last, ts, price, d);
  }

  /** With a zero price the trade contributes the zero change, whichever way it goes. */
  lemma ZeroPriceIsZeroDelta(chain: Chain, e: Engine, tx: Tx, receipt: Receipt, path: seq<Address>,
                             hops: seq<Hop>, t0first: Address, t0last: Address, ts: int)
    requires Priced(chain, e, tx, receipt, path, hops, t0first, t0last, ts)
    requires Lower(path[0]) == e.token || Lower(path[|path| - 1]) == e.token
    requires chain.price(if Lower(path[0]) == e.token then Lower(path[|path| - 1]) else Lower(path[0]), ts) == Done(0.0)
    ensures GetHoldAndCost(chain, e, tx, receipt) == Done(ZeroDelta)
  {
    PricedFromHops(chain, e, tx, receipt, path, hops, t0first, t0last, ts);
    HopsPriced(chain, e, tx, Lower(path[0]), Lower(path[|path| - 1]), hops, t0first, t0last, ts);
  }

  /** A trade neither from nor to the token contributes the zero change, without
      any further call. */
  lemma UnrelatedIsZeroDelta(chain: Chain, e: Engine, tx: Tx, receipt: Receipt, path: seq<Address>)
    requires chain.decode(tx.data, tx.value) == Path(path) && |path| > 0
    requires Lower(path[0]) != e.token && Lower(path[|path| - 1]) != e.token
    ensures GetHoldAndCost(chain, e, tx, receipt) == Done(ZeroDelta)
  {
  }

  /** A transaction not sent to the router contributes the zero change. */
  lemma NotRouterIsZeroDelta(chain: Chain, router: Address, e: Engine, hash: string, tx: Tx)
    requires chain.transaction(hash) == Done(Some(tx)) && chain.receipt(hash).Done?
    requires tx.to != Some(router)
    ensures GetHoldAndCostFrom(chain, router, e, hash) == Done(ZeroDelta)
  {
  }

  // ---------------------------------------------------------------------------
  // start: summing the changes

  /** The holdings summed. */
  function SumHold(ds: seq<HoldCost>): int
  {
    if ds == [] then 0 else SumHold(ds[..|ds| - 1]) + ds[|ds| - 1].hold
  }

  /** One change's cost divided by ten to its decimals. */
  function Scaled(d: HoldCost): real
  {
    d.cost / (Pow10(d.decimals) as real)
  }

  /** Every change's cost scaled on its own and summed. */
  function DirectCost(ds: seq<HoldCost>): real
  {
    if ds == [] then 0.0 else DirectCost(ds[..|ds| - 1]) + Scaled(ds[|ds| - 1])
  }

  /** The `acc.cost` dictionary the reduce builds: each non-zero cost is added
      into the entry for its decimals. */
  function Buckets(ds: seq<HoldCost>): map<nat, real>
  {
    if ds == [] then map[]
    else
      var m, d := Buckets(ds[..|ds| - 1]), ds[|ds| - 1];
      if d.cost != 0.0 then m[d.decimals := d.cost + (if d.decimals in m then m[d.decimals] else 0.0)]
      else m
  }

  /** The costs of the changes with decimals `k`, summed. */
  function CostWith(ds: seq<HoldCost>, k: nat): real
  {
    if ds == [] then 0.0
    else CostWith(ds[..|ds| - 1], k) + (if ds[|ds| - 1].decimals == k then ds[|ds| - 1].cost else 0.0)
  }

  /** The dictionary has an entry for exactly the decimals of some non-zero
      cost, holding the sum of the costs with those decimals; the costs with
      any other decimals sum to zero. */
  lemma {:induction false} BucketsMeaning(ds: seq<HoldCost>)
    ensures forall k :: k in Buckets(ds) <==> exists i :: 0 <= i < |ds| && ds[i].decimals == k && ds[i].cost != 0.0
    ensures forall k :: k in Buckets(ds) ==> Buckets(ds)[k] == CostWith(ds, k)
    ensures forall k :: k !in Buckets(ds) ==> CostWith(ds, k) == 0.0
  {
    if ds != [] {
      var p, d := ds[..|ds| - 1], ds[|ds| - 1];
      BucketsMeaning(p);
      assert forall i :: 0 <= i < |p| ==> ds[i] == p[i];
      forall k
        ensures k in Buckets(ds) <==> exists i :: 0 <= i < |ds| && ds[i].decimals == k && ds[i].cost != 0.0
      {
        if exists i :: 0 <= i < |ds| && ds[i].decimals == k && ds[i].cost != 0.0 {
          var i :| 0 <= i < |ds| && ds[i].decimals == k && ds[i].cost != 0.0;
          if i < |p| {
            assert p[i].decimals == k && p[i].cost != 0.0;
          }
        }
        if k in Buckets(ds) && k in Buckets(p) {
          var i :| 0 <= i < |p| && p[i].decimals == k && p[i].cost != 0.0;
          assert ds[i] == p[i];
        }
      }
    }
  }

  /** The sum over the keys `keys` of `m[k] / 10^k`. */
  ghost function ScaledSum(m: map<nat, real>, keys: set<nat>): real
    requires keys <= m.Keys
    decreases keys
  {
    if keys == {} then 0.0
    else
      var k :| k in keys;
      m[k] / (Pow10(k) as real) + ScaledSum(m, keys - {k})
  }

  /** The sum does not depend on which key is taken first. */
  lemma {:induction false} ScaledSumPick(m: map<nat, real>, keys: set<nat>, k: nat)
    requires keys <= m.Keys && k in keys
    ensures ScaledSum(m, keys) == m[k] / (Pow10(k) as real) + ScaledSum(m, keys - {k})
    decreases keys
  {
    var j :| j in keys && ScaledSum(m, keys) == m[j] / (Pow10(j) as real) + ScaledSum(m, keys - {j});
    if j != k {
      ScaledSumPick(m, keys - {j}, k);
      ScaledSumPick(m, keys - {k}, j);
      assert keys - {j} - {k} == keys - {k} - {j};
    }
  }

  lemma {:induction false} ScaledSumAgree(m1: map<nat, real>, m2: map<nat, real>, keys: set<nat>)
    requires keys <= m1.Keys && keys <= m2.Keys
    requires forall k :: k in keys ==> m1[k] == m2[k]
    ensures ScaledSum(m1, keys) == ScaledSum(m2, keys)
    decreases keys
  {
    if keys != {} {
      var k :| k in keys;
      ScaledSumPick(m1, keys, k);
      ScaledSumPick(m2, keys, k);
      ScaledSumAgree(m1, m2, keys - {k});
    }
  }

  lemma DivAdd(a: real, b: real, p: real)
    requires p > 0.0
    ensures (a + b) / p == a / p + b / p
  {
  }

  /** Scaling each dictionary entry once gives the cost scaled change by change. */
  lemma {:induction false} BucketsCost(ds: seq<HoldCost>)
    ensures ScaledSum(Buckets(ds), Buckets(ds).Keys) == DirectCost(ds)
  {
    if ds != [] {
      var p, d := ds[..|ds| - 1], ds[|ds| - 1];
      BucketsCost(p);
      var m := Buckets(p);
      if d.cost != 0.0 {
        var k := d.decimals;
        var m' := Buckets(ds);
        var pk := Pow10(k) as real;
        assert m' == m[k := d.cost + (if k in m then m[k] else 0.0)];
        ScaledSumPick(m', m'.Keys, k);
        assert m'.Keys - {k} == m.Keys - {k};
        ScaledSumAgree(m', m, m.Keys - {k});
        if k in m {
          ScaledSumPick(m, m.Keys, k);
          DivAdd(d.cost, m[k], pk);
        } else {
          assert m.Keys - {k} == m.Keys;
        }
      }
    }
  }

  lemma {:induction false} DirectCostRemove(es: seq<HoldCost>, j: nat)
    requires j < |es|
    ensures DirectCost(es) == DirectCost(es[..j] + es[j + 1..]) + Scaled(es[j])
  {
    var n := |es|;
    if j == n - 1 {
      assert es[..j] + es[j + 1..] == es[..n - 1];
    } else {
      var q := es[..j] + es[j + 1..];
      var p := es[..n - 1];
      DirectCostRemove(p, j);
      assert q[..|q| - 1] == p[..j] + p[j + 1..];
      assert q[|q| - 1] == es[n - 1];
      assert p[j] == es[j];
    }
  }

  lemma MultisetRemove(es: seq<HoldCost>, j: nat)
    requires j < |es|
    ensures multiset(es[..j] + es[j + 1..]) == multiset(es) - multiset{es[j]}
  {
    assert es == es[..j] + [es[j]] + es[j + 1..];
  }

  /** The last element of `ds` sits at some `j` in a permutation `es`, and
      the rests are permutations of each other. */
  lemma PermutationStep(ds: seq<HoldCost>, es: seq<HoldCost>) returns (j: nat)
    requires ds != [] && multiset(ds) == multiset(es)
    ensures j < |es| && es[j] == ds[|ds| - 1]
    ensures multiset(ds[..|ds| - 1]) == multiset(es[..j] + es[j + 1..])
  {
    var n := |ds|;
    var x := ds[n - 1];
    assert x in multiset(ds);
    assert x in multiset(es);
    j :| 0 <= j < |es| && es[j] == x;
    MultisetRemove(es, j);
    MultisetRemove(ds, n - 1);
    assert ds[..n - 1] + ds[n..] == ds[..n - 1];
  }

  /** The scaled cost is the same in any order of the transactions. */
  lemma {:induction false} DirectCostPermutation(ds: seq<HoldCost>, es: seq<HoldCost>)
    requires multiset(ds) == multiset(es)
    ensures DirectCost(ds) == DirectCost(es)
    decreases |ds|
  {
    if ds == [] {
      assert |es| == |multiset(es)| == 0;
    } else {
      var j := PermutationStep(ds, es);
      DirectCostPermutation(ds[..|ds| - 1], es[..j] + es[j + 1..]);
      DirectCostRemove(es, j);
    }
  }

  /** The two reduces of `start`: sum the holdings and build the cost
      dictionary, then add up each entry divided by ten to its decimals. */
  method Aggregate(ds: seq<HoldCost>) returns (t: Total, buckets: map<nat, real>)
    ensures buckets == Buckets(ds)
    ensures t == Total(SumHold(ds), DirectCost(ds))
  {
    var hold := 0;
    buckets := map[];
    for i := 0 to |ds|
      invariant hold == SumHold(ds[..i])
      invariant buckets == Buckets(ds[..i])
    {
      assert ds[..i + 1][..i] == ds[..i];
      var d := ds[i];
      if d.cost != 0.0 {
        buckets := buckets[d.decimals := d.cost + (if d.decimals in buckets then buckets[d.decimals] else 0.0)];
      }
      hold := hold + d.hold;
    }
    assert ds[..|ds|] == ds;
    var cost := 0.0;
    var rest := buckets.Keys;
    while rest != {}
      invariant rest <= buckets.Keys
      invariant cost + ScaledSum(buckets, rest) == ScaledSum(buckets, buckets.Keys)
      decreases rest
    {
      var k :| k in rest;
      ScaledSumPick(buckets, rest, k);
      cost := cost + buckets[k] / (Pow10(k) as real);
      rest := rest - {k};
    }
    BucketsCost(ds);
    t := Total(hold, cost);
  }

  // ---------------------------------------------------------------------------
  // start: finding the pairs and the swaps

  /** A PairCreated event of the factory. */
  datatype PairCreatedEvent = PairCreatedEvent(blockNumber: int, token0: Address, token1: Address, pair: Address)

  /** A Swap event of a pair; only its transaction is used. */
  datatype SwapEvent = SwapEvent(transactionHash: string)

  /** A pair found by `getPairs`. */
  datatype PairInfo = PairInfo(token0: Address, token1: Address, contract: Address, deployBlock: int)

  /** The PairCreatedCollect of `getPairs`: the factory from its deploy block to the head. */
  function PairCollector(cfg: Config, latest: int): Collector
  {
    Collector(cfg.factory, PairCreated, cfg.factoryDeployBlock, latest)
  }

  /** The two scans of `getPairs`, the token as first and as second argument,
      each as one window of `latest - factoryDeployBlock + 1` blocks and at most
      100 windows per batch. */
  function PairScans(e: Engine, cfg: Config, latest: int, provider: Provider<PairCreatedEvent>)
    : seq<Outcome<CollectResult<PairCreatedEvent>>>
  {
    var blocks := latest - cfg.factoryDeployBlock + 1;
    [ EventsOutcome(PairCollector(cfg, latest), [Value(e.token), Null], blocks, 100, latest, cfg.retry, provider),
      EventsOutcome(PairCollector(cfg, latest), [Null, Value(e.token)], blocks, 100, latest, cfg.retry, provider) ]
  }

  /** The window size `getPairs` passes covers the factory's whole history:
      each PairCreated scan is one batch of the single window from the deploy
      block to the head, or nothing when the head is below the deploy block. */
  lemma PairScanWindows(cfg: Config, latest: int)
    ensures var c := PairCollector(cfg, latest);
      var blocks := latest - cfg.factoryDeployBlock + 1;
      && Upper(c, latest) == latest
      && Utils.Terminates(c.from, latest, blocks, 100)
      && Utils.Batches(c.from, latest, blocks, 100) ==
           if cfg.factoryDeployBlock <= latest then [[Window(cfg.factoryDeployBlock, latest)]] else []
  {
    var d := cfg.factoryDeployBlock;
    if d <= latest {
      var blocks := latest - d + 1;
      assert Utils.Partition(latest + 1, latest, blocks) == [];
      assert Utils.Partition(d, latest, blocks) == [Window(d, latest)];
    }
  }

  function PairOf(ev: PairCreatedEvent): PairInfo
  {
    PairInfo(ev.token0, ev.token1, Lower(ev.pair), ev.blockNumber)
  }

  /** The `flatMap` of `getPairs`: one pair per event, in order. */
  function PairsOf(rs: seq<CollectResult<PairCreatedEvent>>): (ps: seq<PairInfo>)
  {
    Concat(seq(|rs|, i requires 0 <= i < |rs| =>
      seq(|rs[i].events|, j requires 0 <= j < |rs[i].events| => PairOf(rs[i].events[j]))))
  }

  /** The Swap filter of `getSwapEvents`: the recipient (sixth argument) is the client. */
  function SwapParams(e: Engine): seq<Param>
  {
    [Null, Null, Null, Null, Null, Value(e.client)]
  }

  /** `getSwapEvents(pair)`: the pair from its deploy block to the head, with the
      deploy block as window size and the head as batch size. */
  function SwapScan(e: Engine, cfg: Config, latest: int, provider: Provider<SwapEvent>, p: PairInfo)
    : Outcome<CollectResult<SwapEvent>>
  {
    EventsOutcome(Collector(p.contract, Swap, p.deployBlock, latest), SwapParams(e),
                  p.deployBlock, latest, latest, cfg.retry, provider)
  }

  /** `getSwapEvents` passes the deploy block as the window size and the head
      as the batch size: the scan of a pair deployed at block d >= 1 is a
      single batch holding every window of d blocks from d to the head. */
  lemma SwapScanOneBatch(latest: int, p: PairInfo)
    requires 1 <= p.deployBlock <= latest
    ensures Upper(Collector(p.contract, Swap, p.deployBlock, latest), latest) == latest
    ensures Utils.Terminates(p.deployBlock, latest, p.deployBlock, latest)
    ensures Utils.Batches(p.deployBlock, latest, p.deployBlock, latest) == [Utils.Partition(p.deployBlock, latest, p.deployBlock)]
  {
    Utils.PartitionLength(p.deployBlock, latest, p.deployBlock);
    Utils.PartitionCovers(p.deployBlock, latest, p.deployBlock);
  }

  function SwapScans(e: Engine, cfg: Config, latest: int, provider: Provider<SwapEvent>, ps: seq<PairInfo>)
    : (r: seq<Outcome<CollectResult<SwapEvent>>>)
    ensures |r| == |ps| && forall i :: 0 <= i < |ps| ==> r[i] == SwapScan(e, cfg, latest, provider, ps[i])
  {
    seq(|ps|, i requires 0 <= i < |ps| => SwapScan(e, cfg, latest, provider, ps[i]))
  }

  /** The transaction hashes of every Swap event, in order, repeats kept. */
  function HashesOf(rs: seq<CollectResult<SwapEvent>>): seq<string>
  {
    Concat(seq(|rs|, i requires 0 <= i < |rs| =>
      seq(|rs[i].events|, j requires 0 <= j < |rs[i].events| => rs[i].events[j].transactionHash)))
  }

  function Deltas(chain: Chain, router: Address, e: Engine, hashes: seq<string>)
    : (r: seq<Outcome<HoldCost>>)
    ensures |r| == |hashes| && forall i :: 0 <= i < |hashes| ==> r[i] == GetHoldAndCostFrom(chain, router, e, hashes[i])
  {
    seq(|hashes|, i requires 0 <= i < |hashes| => GetHoldAndCostFrom(chain, router, e, hashes[i]))
  }

  /** What `start()` comes to, once the deltas are summed. */
  function StartOutcome(e: Engine, cfg: Config, latest: int, chain: Chain,
                        pairProvider: Provider<PairCreatedEvent>, swapProvider: Provider<SwapEvent>): Outcome<Total>
  {
    match All(PairScans(e, cfg, latest, pairProvider))
    case Failed(err) => Failed(err)
    case Pending => Pending
    case Done(prs) =>
      var pairs := PairsOf(prs);
      if pairs == [] then Done(Total(0, 0.0))
      else
        match All(SwapScans(e, cfg, latest, swapProvider, pairs))
        case Failed(err) => Failed(err)
        case Pending => Pending
        case Done(srs) =>
          var hashes := HashesOf(srs);
          if hashes == [] then Done(Total(0, 0.0))
          else
            match All(Deltas(chain, cfg.router, e, hashes))
            case Failed(err) => Failed(err)
            case Pending => Pending
            case Done(ds) => Done(Total(SumHold(ds), DirectCost(ds)))
  }

  /** `pairs.map(getSwapEvents)`: one scan per pair, in order. */
  method ScanSwaps(e: Engine, cfg: Config, latest: int, swapProvider: Provider<SwapEvent>, pairs: seq<PairInfo>)
    returns (scans: seq<Outcome<CollectResult<SwapEvent>>>)
    ensures scans == SwapScans(e, cfg, latest, swapProvider, pairs)
  {
    scans := [];
    for i := 0 to |pairs|
      invariant scans == SwapScans(e, cfg, latest, swapProvider, pairs[..i])
    {
      var o, calls := GetEvents(Collector(pairs[i].contract, Swap, pairs[i].deployBlock, latest), SwapParams(e),
                                pairs[i].deployBlock, latest, latest, cfg.retry, swapProvider);
      assert pairs[..i + 1] == pairs[..i] + [pairs[i]];
      SwapScansSnoc(e, cfg, latest, swapProvider, pairs[..i], pairs[i]);
      scans := scans + [o];
    }
    assert pairs[..|pairs|] == pairs;
  }

  lemma SwapScansSnoc(e: Engine, cfg: Config, latest: int, provider: Provider<SwapEvent>,
                      ps: seq<PairInfo>, p: PairInfo)
    ensures SwapScans(e, cfg, latest, provider, ps + [p]) ==
      SwapScans(e, cfg, latest, provider, ps) + [SwapScan(e, cfg, latest, provider, p)]
  {
  }

  /** `start()`. */
  method Start(e: Engine, cfg: Config, latest: int, chain: Chain,
               pairProvider: Provider<PairCreatedEvent>, swapProvider: Provider<SwapEvent>)
    returns (r: Outcome<Total>)
    ensures r == StartOutcome(e, cfg, latest, chain, pairProvider, swapProvider)
  {
    var blocks := latest - cfg.factoryDeployBlock + 1;
    var first, calls1 := GetEvents(PairCollector(cfg, latest), [Value(e.token), Null], blocks, 100,
                                   latest, cfg.retry, pairProvider);
    var second, calls2 := GetEvents(PairCollector(cfg, latest), [Null, Value(e.token)], blocks, 100,
                                    latest, cfg.retry, pairProvider);
    assert [first, second] == PairScans(e, cfg, latest, pairProvider);
    var pairScan := All([first, second]);
    if !pairScan.Done? {
      return if pairScan.Failed? then Failed(pairScan.error) else Pending;
    }
    var pairs := PairsOf(pairScan.value);
    if pairs == [] {
      return Done(Total(0, 0.0));
    }
    var scans := ScanSwaps(e, cfg, latest, swapProvider, pairs);
    var swapScan := All(scans);
    if !swapScan.Done? {
      return if swapScan.Failed? then Failed(swapScan.error) else Pending;
    }
    var hashes := HashesOf(swapScan.value);
    if hashes == [] {
      return Done(Total(0, 0.0));
    }
    var deltas := All(Deltas(chain, cfg.router, e, hashes));
    if !deltas.Done? {
      return if deltas.Failed? then Failed(deltas.error) else Pending;
    }
    var buckets;
    var total;
    total, buckets := Aggregate(deltas.value);
    r := Done(total);
  }

  /** With no pair holding the token, nothing else is asked and the answer is zero. */
  lemma NoPairsIsZero(e: Engine, cfg: Config, latest: int, chain: Chain,
                      pairProvider: Provider<PairCreatedEvent>, swapProvider: Provider<SwapEvent>,
                      prs: seq<CollectResult<PairCreatedEvent>>)
    requires All(PairScans(e, cfg, latest, pairProvider)) == Done(prs)
    requires forall r :: r in prs ==> r.events == []
    ensures StartOutcome(e, cfg, latest, chain, pairProvider, swapProvider) == Done(Total(0, 0.0))
  {
    assert forall i :: 0 <= i < |prs| ==> prs[i] in prs;
    PairsOfEmpty(prs);
  }

  /** With pairs but no Swap event to the client, no transaction is looked up
      and the answer is zero. */
  lemma NoSwapsIsZero(e: Engine, cfg: Config, latest: int, chain: Chain,
                      pairProvider: Provider<PairCreatedEvent>, swapProvider: Provider<SwapEvent>,
                      prs: seq<CollectResult<PairCreatedEvent>>)
    requires All(PairScans(e, cfg, latest, pairProvider)) == Done(prs)
    requires PairsOf(prs) != []
    requires forall p :: p in PairsOf(prs) ==>
      exists r :: SwapScan(e, cfg, latest, swapProvider, p) == Done(r) && r.events == []
    ensures StartOutcome(e, cfg, latest, chain, pairProvider, swapProvider) == Done(Total(0, 0.0))
  {
    var pairs := PairsOf(prs);
    var scans := SwapScans(e, cfg, latest, swapProvider, pairs);
    AllMeaning(scans);
    assert forall i :: 0 <= i < |pairs| ==> pairs[i] in pairs;
    var srs := All(scans).value;
    assert forall i :: 0 <= i < |srs| ==> srs[i].events == [];
    HashesOfEmpty(srs);
  }

  lemma {:induction false} PairsOfEmpty(rs: seq<CollectResult<PairCreatedEvent>>)
    requires forall i :: 0 <= i < |rs| ==> rs[i].events == []
    ensures PairsOf(rs) == []
  {
    if rs != [] {
      PairsOfEmpty(rs[1..]);
      var inner := seq(|rs|, i requires 0 <= i < |rs| =>
        seq(|rs[i].events|, j requires 0 <= j < |rs[i].events| => PairOf(rs[i].events[j])));
      assert inner[1..] == seq(|rs[1..]|, i requires 0 <= i < |rs[1..]| =>
        seq(|rs[1..][i].events|, j requires 0 <= j < |rs[1..][i].events| => PairOf(rs[1..][i].events[j])));
      assert inner[0] == [];
    }
  }

  lemma {:induction false} HashesOfEmpty(rs: seq<CollectResult<SwapEvent>>)
    requires forall i :: 0 <= i < |rs| ==> rs[i].events == []
    ensures HashesOf(rs) == []
  {
    if rs != [] {
      HashesOfEmpty(rs[1..]);
      var inner := seq(|rs|, i requires 0 <= i < |rs| =>
        seq(|rs[i].events|, j requires 0 <= j < |rs[i].events| => rs[i].events[j].transactionHash));
      assert inner[1..] == seq(|rs[1..]|, i requires 0 <= i < |rs[1..]| =>
        seq(|rs[1..][i].events|, j requires 0 <= j < |rs[1..][i].events| => rs[1..][i].events[j].transactionHash));
      assert inner[0] == [];
    }
  }

  /** Swap events are not deduplicated by transaction: a transaction whose
      hash appears twice among the Swap events is evaluated twice and its
      change is counted twice in both totals. */
  lemma RepeatedSwapCountsTwice(chain: Chain, router: Address, e: Engine, r: CollectResult<SwapEvent>,
                                hash: string, d: HoldCost)
    requires r.events == [SwapEvent(hash), SwapEvent(hash)]
    requires GetHoldAndCostFrom(chain, router, e, hash) == Done(d)
    ensures HashesOf([r]) == [hash, hash]
    ensures All(Deltas(chain, router, e, HashesOf([r]))) == Done([d, d])
    ensures SumHold([d, d]) == 2 * d.hold && DirectCost([d, d]) == 2.0 * Scaled(d)
  {
    var rs := [r];
    var inner := seq(|rs|, i requires 0 <= i < |rs| =>
      seq(|rs[i].events|, j requires 0 <= j < |rs[i].events| => rs[i].events[j].transactionHash));
    assert rs[0].events[0].transactionHash == hash && rs[0].events[1].transactionHash == hash;
    assert |inner| == 1 && |inner[0]| == 2;
    assert inner[0] == [hash, hash];
    assert inner == [[hash, hash]];
    assert Concat(inner) == [hash, hash] + Concat(inner[1..]);
    assert HashesOf(rs) == [hash, hash];
    var os := Deltas(chain, router, e, [hash, hash]);
    assert os == [Done(d), Done(d)];
    assert os[1..][1..] == [];
    assert os[1..] == [Done(d)];
    assert All(os[1..][1..]) == Done([]);
    assert [d] + [] == [d];
    assert All(os[1..]) == Done([d]);
    assert [d] + [d] == [d, d];
    assert All(os) == Done([d, d]);
    assert [d, d][..1] == [d];
    assert [d][..0] == [];
    assert SumHold([d]) == d.hold;
    assert DirectCost([d]) == Scaled(d);
    assert SumHold([d, d]) == d.hold + d.hold;
    assert DirectCost([d, d]) == Scaled(d) + Scaled(d);
  }
}
