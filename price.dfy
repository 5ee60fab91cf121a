/** The CoinGecko price oracle of src/price.ts: a symbol table built once from
    the coin list, and a memo of prices per token address and day. The
    CoinGecko client is a parameter: the coin list is the outcome of the
    `coins.list()` call, and the history endpoint is a function from a coin
    id (or `undefined`) and a day to the outcome of `coins.fetchHistory`. */
module Prices {
  import opened Common
  import opened Utils

  /** One entry of the coin list. */
  datatype Coin = Coin(id: string, symbol: string)

  /** The response of `coins.list()`. */
  datatype CoinList = CoinList(success: bool, data: seq<Coin>)

  /** The response of `coins.fetchHistory`: its success flag and
      `data.market_data.current_price.usd`. */
  datatype History = History(success: bool, usd: real)

  /** `coins.fetchHistory(id, { date })`. The id is `None` where the program
      passes `undefined`; the date is the day start it formats. */
  type HistoryApi = (Option<string>, int) -> Outcome<History>

  type Memo = map<Address, map<int, real>>

  /** The table the `reduce` in `init` builds: each symbol mapped to the id
      of the coin seen last with that symbol. */
  function SymbolTable(coins: seq<Coin>): map<string, string>
  {
    if coins == [] then map[]
    else
      var last := coins[|coins| - 1];
      SymbolTable(coins[..|coins| - 1])[last.symbol := last.id]
  }

  /** A symbol is in the table exactly when some coin has it. */
  lemma {:induction false} SymbolTableKeys(coins: seq<Coin>, s: string)
    ensures s in SymbolTable(coins) <==> exists i :: 0 <= i < |coins| && coins[i].symbol == s
    decreases |coins|
  {
    if coins != [] {
      var n := |coins| - 1;
      var init := coins[..n];
      SymbolTableKeys(init, s);
      if s in SymbolTable(init) {
        var i :| 0 <= i < |init| && init[i].symbol == s;
        assert coins[i] == init[i];
      }
      if coins[n].symbol != s {
        if i :| 0 <= i < |coins| && coins[i].symbol == s {
          assert init[i] == coins[i];
        }
      }
    }
  }

  /** A symbol maps to the id of the last coin that has it. */
  lemma {:induction false} SymbolTableLastWins(coins: seq<Coin>, s: string, i: int)
    requires 0 <= i < |coins| && coins[i].symbol == s
    requires forall j :: i < j < |coins| ==> coins[j].symbol != s
    ensures s in SymbolTable(coins) && SymbolTable(coins)[s] == coins[i].id
    decreases |coins|
  {
    var n := |coins| - 1;
    if i < n {
      var init := coins[..n];
      assert coins[n].symbol != s;
      assert init[i] == coins[i];
      assert forall j :: i < j < |init| ==> init[j] == coins[j];
      SymbolTableLastWins(init, s, i);
    }
  }

  /** The memo after `putIntoMemo(a, t, p)`. */
  function Put(memo: Memo, a: Address, t: int, p: real): (m: Memo)
    ensures a in m && t in m[a] && m[a][t] == p
    ensures forall b :: b != a ==> (b in m <==> b in memo) && (b in memo ==> m[b] == memo[b])
    ensures a in memo ==>
      forall u :: u != t ==> (u in m[a] <==> u in memo[a]) && (u in memo[a] ==> m[a][u] == memo[a][u])
    ensures a !in memo ==> m[a].Keys == {t}
  {
    var inner := if a in memo then memo[a] else map[];
    memo[a := inner[t := p]]
  }

  /** A second store at the same token and day replaces the first. */
  lemma PutOverwrites(memo: Memo, a: Address, t: int, p: real, q: real)
    ensures Put(Put(memo, a, t, p), a, t, q) == Put(memo, a, t, q)
  {
    var once := Put(memo, a, t, q);
    var twice := Put(Put(memo, a, t, p), a, t, q);
    assert twice.Keys == once.Keys;
    assert twice[a] == once[a];
  }

  /** `getId`: the table entry for the lower-cased symbol, or `undefined`. */
  function IdOf(table: map<string, string>, symbol: string): (id: Option<string>)
    ensures id.Some? <==> Lower(symbol) in table
    ensures id.Some? ==> id.value == table[Lower(symbol)]
  {
    if Lower(symbol) in table then Some(table[Lower(symbol)]) else None
  }

  /** How `undefined` prints inside a template string. */
  function IdText(id: Option<string>): string
  {
    if id.Some? then id.value else "undefined"
  }

  /** `fetchPrice(day, id)`: the USD price of the day's history entry; an
      unsuccessful response throws 'fetch <id> price fail'. */
  function FetchPrice(history: HistoryApi, day: int, id: Option<string>): (r: Outcome<real>)
    ensures r.Done? <==> history(id, day).Done? && history(id, day).value.success
    ensures r.Done? ==> r.value == history(id, day).value.usd
    ensures history(id, day).Done? && !history(id, day).value.success ==>
      r == Failed(FetchPriceFailed(IdText(id)))
    ensures history(id, day).Failed? ==> r == Failed(history(id, day).error)
    ensures history(id, day).Pending? ==> r.Pending?
  {
    match history(id, day)
    case Failed(e) => Failed(e)
    case Pending => Pending
    case Done(h) => if h.success then Done(h.usd) else Failed(FetchPriceFailed(IdText(id)))
  }

  /** What `getPrice` resolves to, given the symbol table, the outcome of
      `token.symbol()` and the timestamp. The `id === null` test never holds,
      since the table only holds strings and a missing key reads as
      `undefined`, so every call goes through `fetchPrice`. */
  function PriceOf(table: map<string, string>, symbol: Outcome<string>, timestamp: int,
                   history: HistoryApi): Outcome<real>
  {
    match symbol
    case Failed(e) => Failed(e)
    case Pending => Pending
    case Done(s) => FetchPrice(history, TimestampToDateTimestamp(timestamp), IdOf(table, s))
  }

  /** Every price `getPrice` resolves to is the answer of a successful history
      call for the token's id and the timestamp's day: the memo is never a
      source of prices, and there is no zero fallback. */
  lemma ResolvedPriceFetched(table: map<string, string>, s: string, timestamp: int,
                             history: HistoryApi)
    ensures PriceOf(table, Done(s), timestamp, history).Done? ==>
      history(IdOf(table, s), TimestampToDateTimestamp(timestamp)) ==
        Done(History(true, PriceOf(table, Done(s), timestamp, history).value))
  {
  }

  /** A symbol the table does not know is looked up as `undefined`, so the
      call either resolves to whatever the history endpoint answers for
      `undefined` or throws 'fetch undefined price fail'. */
  lemma UnknownSymbolFetchesUndefined(table: map<string, string>, s: string, timestamp: int,
                                      history: HistoryApi)
    requires Lower(s) !in table
    ensures PriceOf(table, Done(s), timestamp, history) ==
      FetchPrice(history, TimestampToDateTimestamp(timestamp), None)
    ensures history(None, TimestampToDateTimestamp(timestamp)) == Done(History(false, 0.0)) ==>
      PriceOf(table, Done(s), timestamp, history) == Failed(FetchPriceFailed("undefined"))
  {
  }

  /** The static state of the `Price` class. */
  class Price {
    var symbolToId: map<string, string>
    var addressToPrice: Memo

    constructor ()
      ensures symbolToId == map[] && addressToPrice == map[]
    {
      symbolToId := map[];
      addressToPrice := map[];
    }

    /** `init`: throws if the list call rejects or is unsuccessful; otherwise
        replaces the symbol table by one built from the coin list. */
    method Init(list: Outcome<CoinList>) returns (r: Outcome<()>)
      modifies this
      ensures addressToPrice == old(addressToPrice)
      ensures list.Failed? ==> r == Failed(list.error) && symbolToId == old(symbolToId)
      ensures list.Pending? ==> r.Pending? && symbolToId == old(symbolToId)
      ensures list.Done? && !list.value.success ==> r == Failed(InitFailed) && symbolToId == old(symbolToId)
      ensures list.Done? && list.value.success ==> r == Done(()) && symbolToId == SymbolTable(list.value.data)
    {
      match list
      case Failed(e) => return Failed(e);
      case Pending => return Pending;
      case Done(l) =>
        if !l.success {
          return Failed(InitFailed);
        }
        var coins := l.data;
        var acc: map<string, string> := map[];
        for i := 0 to |coins|
          invariant acc == SymbolTable(coins[..i])
        {
          assert coins[..i + 1][..i] == coins[..i];
          acc := acc[coins[i].symbol := coins[i].id];
        }
        assert coins[..|coins|] == coins;
        symbolToId := acc;
        r := Done(());
    }

    /** `putIntoMemo`: creates the token's inner map if absent, then stores
        the price at the given timestamp. */
    method PutIntoMemo(address: Address, timestamp: int, price: real)
      modifies this
      ensures symbolToId == old(symbolToId)
      ensures addressToPrice == Put(old(addressToPrice), address, timestamp, price)
    {
      if address !in addressToPrice {
        addressToPrice := addressToPrice[address := map[]];
      }
      addressToPrice := addressToPrice[address := addressToPrice[address][timestamp := price]];
    }

    /** `getPrice`: resolves the id, normalises the timestamp to its day,
        fetches, stores the price at that day and returns the stored entry. */
    method GetPrice(address: Address, symbol: Outcome<string>, timestamp: int, history: HistoryApi)
      returns (r: Outcome<real>)
      modifies this
      ensures symbolToId == old(symbolToId)
      ensures r == PriceOf(old(symbolToId), symbol, timestamp, history)
      ensures r.Done? ==>
        addressToPrice == Put(old(addressToPrice), address, TimestampToDateTimestamp(timestamp), r.value)
      ensures r.Done? ==>
        address in addressToPrice && r.value == addressToPrice[address][TimestampToDateTimestamp(timestamp)]
      ensures !r.Done? ==> addressToPrice == old(addressToPrice)
    {
      match symbol
      case Failed(e) => return Failed(e);
      case Pending => return Pending;
      case Done(s) =>
        var id := IdOf(symbolToId, s);
        var day := TimestampToDateTimestamp(timestamp);
        var price := FetchPrice(history, day, id);
        if !price.Done? {
          return price;
        }
        PutIntoMemo(address, day, price.value);
        r := Done(addressToPrice[address][day]);
    }
  }
}
