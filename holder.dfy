/** The holder collector of src/holder.ts: a token's block range walked in
    windows of `collectBatch` blocks; each window's Transfer events give the
    participating addresses, which are either inserted with a zero balance or
    looked up and written with their balance. The database is a log of the rows
    written; the chain is a parameter. */
module Holders {
  import opened Common
  import opened Utils
  import opened Scanner

  /** A row of the tokens table: id, address and the block collected up to. */
  datatype Token = Token(id: string, address: Address, current: int)

  /** A row written to the balances table. */
  datatype BalanceRow = BalanceRow(tid: string, address: Address, balance: int)

  /** What the holder asks of the chain: the head block, the Transfer logs of
      the token, and `balanceOf` on the token. */
  datatype Chain = Chain(latest: int, transfers: Provider<TransferEvent>, balanceOf: Address -> Outcome<int>)

  // ---------------------------------------------------------------------------
  // Integer division facts used by the window counts

  lemma MulAtLeast(a: int, b: int)
    requires a >= 1 && b > 0
    ensures a * b >= b
  {
  }

  lemma DivModUnique(x: int, b: int, q: int, r: int)
    requires b > 0 && 0 <= r < b && x == q * b + r
    ensures x / b == q && x % b == r
  {
    var q0, r0 := x / b, x % b;
    assert (q - q0) * b == r0 - r;
    if q > q0 {
      MulAtLeast(q - q0, b);
    } else if q < q0 {
      MulAtLeast(q0 - q, b);
    }
  }

  lemma DivModStep(x: int, b: int)
    requires b > 0
    ensures (x - b) % b == x % b
    ensures (x - b) / b == x / b - 1
  {
    var q, r := x / b, x % b;
    assert x - b == (q - 1) * b + r;
    DivModUnique(x - b, b, q - 1, r);
  }

  // ---------------------------------------------------------------------------
  // The windows

  /** getNext: the last block of the window starting at `start`. */
  function Next(start: int, stop: int, batch: int): (next: int)
    ensures next <= stop
    ensures batch >= 1 ==> next - start < batch
    ensures start < stop && batch >= 1 ==> start <= next
  {
    if start + batch > stop then stop else start + batch - 1
  }

  /** The windows the loops scan: one per value of `this.from` below `to`, with
      `this.from` advancing by `batch` each time. */
  function HolderWindows(start: int, stop: int, batch: int): seq<Window>
    requires batch >= 1
    decreases stop - start
  {
    if start < stop then [Window(start, Next(start, stop, batch))] + HolderWindows(start + batch, stop, batch) else []
  }

  /** The windows start at `start`, each `batch` blocks after the one before and
      adjacent to it, lie within `stop`, hold at most `batch` blocks, and number
      ceil((stop - start) / batch); there are none when `start >= stop`. */
  lemma {:induction false} HolderWindowsShape(start: int, stop: int, batch: int)
    requires batch >= 1
    ensures |HolderWindows(start, stop, batch)| == (if start < stop then (stop - start + batch - 1) / batch else 0)
    ensures forall k :: 0 <= k < |HolderWindows(start, stop, batch)| ==>
      var w := HolderWindows(start, stop, batch)[k];
      w.from == start + k * batch && w.from <= w.to <= stop && w.to - w.from < batch
    ensures forall k :: 0 <= k < |HolderWindows(start, stop, batch)| - 1 ==>
      HolderWindows(start, stop, batch)[k].to + 1 == HolderWindows(start, stop, batch)[k + 1].from
    decreases stop - start
  {
    if start < stop {
      var ws := HolderWindows(start, stop, batch);
      var rest := HolderWindows(start + batch, stop, batch);
      HolderWindowsShape(start + batch, stop, batch);
      assert forall k :: 1 <= k < |ws| ==> ws[k] == rest[k - 1];
      forall k | 1 <= k < |ws|
        ensures ws[k].from == start + k * batch
      {
        assert rest[k - 1].from == start + batch + (k - 1) * batch;
      }
      if start + batch < stop {
        DivModStep(stop - start + batch - 1, batch);
      } else {
        DivModUnique(stop - start + batch - 1, batch, 1, stop - start - 1);
      }
    }
  }

  /** Some window ends at block `b`. */
  predicate EndsAt(ws: seq<Window>, b: int)
  {
    exists k :: 0 <= k < |ws| && ws[k].to == b
  }

  /** Block `stop` is scanned exactly when `stop - start` is not a multiple of the
      batch: at an exact multiple the last window stops one block short. */
  lemma {:induction false} LastBlockScanned(start: int, stop: int, batch: int)
    requires batch >= 1 && start < stop
    ensures EndsAt(HolderWindows(start, stop, batch), stop) <==> (stop - start) % batch != 0
    decreases stop - start
  {
    var ws := HolderWindows(start, stop, batch);
    var rest := HolderWindows(start + batch, stop, batch);
    if start + batch > stop {
      DivModUnique(stop - start, batch, 0, stop - start);
      assert ws[0].to == stop;
    } else if start + batch == stop {
      DivModUnique(stop - start, batch, 1, 0);
      assert ws == [Window(start, stop - 1)];
    } else {
      LastBlockScanned(start + batch, stop, batch);
      DivModStep(stop - start, batch);
      assert (stop - (start + batch)) % batch == (stop - start) % batch;
      assert ws == [Window(start, start + batch - 1)] + rest;
      if EndsAt(rest, stop) {
        var k :| 0 <= k < |rest| && rest[k].to == stop;
        assert ws[k + 1].to == stop;
      }
      if EndsAt(ws, stop) {
        var k :| 0 <= k < |ws| && ws[k].to == stop;
        assert rest[k - 1].to == stop;
      }
    }
  }

  // ---------------------------------------------------------------------------
  // The runs

  /** What a window loop comes to: its outcome (the number of addresses
      handled), the rows written, and how many iterations completed. */
  datatype Run = Run(outcome: Outcome<nat>, rows: seq<BalanceRow>, done: nat)

  /** A run preceded by completed iterations that handled `count` addresses and
      wrote `rows`. */
  function Then(count: nat, rows: seq<BalanceRow>, done: nat, r: Run): Run
  {
    Run(match r.outcome
        case Done(c) => Done(count + c)
        case Failed(e) => Failed(e)
        case Pending => Pending,
        rows + r.rows, done + r.done)
  }

  lemma ThenAssoc(c1: nat, rows1: seq<BalanceRow>, d1: nat, c2: nat, rows2: seq<BalanceRow>, d2: nat, r: Run)
    ensures Then(c1, rows1, d1, Then(c2, rows2, d2, r)) == Then(c1 + c2, rows1 + rows2, d1 + d2, r)
  {
    assert rows1 + (rows2 + r.rows) == (rows1 + rows2) + r.rows;
  }

  /** `new TransferCollect(contract, w.from, w.to).getEvents()`. */
  function WindowEvents(contract: Address, cfg: Config, chain: Chain, w: Window): Outcome<CollectResult<TransferEvent>>
  {
    EventsOutcome(Collector(contract, Transfer, w.from, w.to), [], cfg.collectBlocks, cfg.collectRequests,
                  chain.latest, cfg.retry, chain.transfers)
  }

  /** The rows `addAddress` inserts: every address with balance zero. */
  function NewRows(tid: string, addresses: seq<Address>): (rows: seq<BalanceRow>)
    ensures |rows| == |addresses| && forall k :: 0 <= k < |addresses| ==> rows[k] == BalanceRow(tid, addresses[k], 0)
  {
    seq(|addresses|, k requires 0 <= k < |addresses| => BalanceRow(tid, addresses[k], 0))
  }

  /** The rows `updateBalance` writes: every balance tagged with the token id. */
  function BalanceRows(tid: string, bs: seq<Balance>): (rows: seq<BalanceRow>)
    ensures |rows| == |bs| && forall k :: 0 <= k < |bs| ==> rows[k] == BalanceRow(tid, bs[k].address, bs[k].balance)
  {
    seq(|bs|, k requires 0 <= k < |bs| => BalanceRow(tid, bs[k].address, bs[k].balance))
  }

  /** `extractTransferAddress` applied to a window's scan when it resolves. */
  function FoundIn(o: Outcome<CollectResult<TransferEvent>>): Outcome<seq<Address>>
  {
    match o
    case Done(res) => Done(ExtractTransferAddress(res).addresses)
    case Failed(e) => Failed(e)
    case Pending => Pending
  }

  /** The addresses found in one window, as a function of the window. */
  type Finder = Window -> Outcome<seq<Address>>

  /** The identity. It marks the places where `FindsTransfers` and `LooksUp`
      are used, so that the definitions of the range scan and of getBalances
      are unfolded only there and not in every proof about the loops. */
  function Probe<T>(x: T): T
  {
    x
  }

  /** `find` gives, for every window, the addresses extracted from the range
      scan of the token's Transfer logs over that window. */
  ghost predicate FindsTransfers(find: Finder, contract: Address, cfg: Config, chain: Chain)
  {
    forall w {:trigger Probe(w)} :: find(Probe(w)) == FoundIn(WindowEvents(contract, cfg, chain, Probe(w)))
  }

  /** One `addAddress` iteration on a window that yielded `o`, followed by the
      run `rest` of the later windows. */
  function AddStep(tid: string, o: Outcome<seq<Address>>, rest: Run): Run
  {
    match o
    case Failed(e) => Run(Failed(e), [], 0)
    case Pending => Run(Pending, [], 0)
    case Done(found) => Then(|found|, NewRows(tid, found), 1, rest)
  }

  /** The `addAddress` loop over windows that yield `outs`. */
  function AddRun(tid: string, outs: seq<Outcome<seq<Address>>>): Run
  {
    if outs == [] then Run(Done(0), [], 0)
    else AddStep(tid, outs[0], AddRun(tid, outs[1..]))
  }

  /** The balances getBalances gives for some addresses, as a function of them. */
  type Lookup = seq<Address> -> Outcome<seq<Balance>>

  /** `lookup` is getBalances over `balanceOf`. */
  ghost predicate LooksUp(lookup: Lookup, balanceOf: Address -> Outcome<int>)
  {
    forall xs {:trigger Probe(xs)} :: lookup(Probe(xs)) == BalancesOutcome(Probe(xs), balanceOf)
  }

  /** One `updateBalance` iteration on a window that yielded `o`. */
  function UpdateStep(tid: string, o: Outcome<seq<Address>>, lookup: Lookup, rest: Run): Run
  {
    match o
    case Failed(e) => Run(Failed(e), [], 0)
    case Pending => Run(Pending, [], 0)
    case Done(found) =>
      match lookup(found)
      case Failed(e) => Run(Failed(e), [], 0)
      case Pending => Run(Pending, [], 0)
      case Done(bs) => Then(|bs|, BalanceRows(tid, bs), 1, rest)
  }

  /** The `updateBalance` loop over windows that yield `outs`. */
  function UpdateRun(tid: string, outs: seq<Outcome<seq<Address>>>, lookup: Lookup): Run
  {
    if outs == [] then Run(Done(0), [], 0)
    else UpdateStep(tid, outs[0], lookup, UpdateRun(tid, outs[1..], lookup))
  }

  /** The addresses every window yields, in order. */
  function WindowFound(find: Finder, ws: seq<Window>): seq<Outcome<seq<Address>>>
  {
    seq(|ws|, i requires 0 <= i < |ws| => find(ws[i]))
  }

  /** No window yields the zero address, nor the same address twice. */
  lemma WindowFoundClean(find: Finder, contract: Address, cfg: Config, chain: Chain, ws: seq<Window>)
    requires FindsTransfers(find, contract, cfg, chain)
    ensures forall i :: 0 <= i < |ws| && WindowFound(find, ws)[i].Done? ==>
      ZeroAddress !in WindowFound(find, ws)[i].value &&
      NoDuplicates(WindowFound(find, ws)[i].value)
  {
    var outs := WindowFound(find, ws);
    forall i | 0 <= i < |ws| && outs[i].Done?
      ensures ZeroAddress !in outs[i].value && NoDuplicates(outs[i].value)
    {
      assert Probe(ws[i]) == ws[i];
      var o := WindowEvents(contract, cfg, chain, ws[i]);
      assert outs[i] == FoundIn(o);
      var x := ExtractTransferAddress(o.value);
    }
  }

  /** Window number `k` starts `k` batches after `start`, and it exists exactly
      when that block is below `stop`. */
  lemma {:induction false} HolderWindowAt(start: int, stop: int, batch: int, k: nat)
    requires batch >= 1
    ensures k < |HolderWindows(start, stop, batch)| <==> start + k * batch < stop
    ensures k < |HolderWindows(start, stop, batch)| ==>
      HolderWindows(start, stop, batch)[k] == Window(start + k * batch, Next(start + k * batch, stop, batch))
    decreases k
  {
    if start < stop && k > 0 {
      HolderWindowAt(start + batch, stop, batch, k - 1);
      assert start + batch + (k - 1) * batch == start + k * batch;
      var ws := HolderWindows(start, stop, batch);
      if k < |ws| {
        assert ws[k] == HolderWindows(start + batch, stop, batch)[k - 1];
      }
    } else if k > 0 {
      MulAtLeast(k, batch);
    }
  }

  /** The addresses of window number `k` are element `k` of the windows' results. */
  lemma WindowFoundAt(find: Finder, start: int, stop: int, batch: int, k: nat, cur: int)
    requires batch >= 1 && cur == start + k * batch && cur < stop
    ensures k < |WindowFound(find, HolderWindows(start, stop, batch))|
    ensures WindowFound(find, HolderWindows(start, stop, batch))[k] == find(Window(cur, Next(cur, stop, batch)))
  {
    HolderWindowAt(start, stop, batch, k);
  }

  /** `new TransferCollect(contract, w.from, w.to).getEvents()` followed by
      `extractTransferAddress` on its result. */
  method FindAddresses(contract: Address, cfg: Config, chain: Chain, ghost find: Finder, w: Window)
    returns (o: Outcome<seq<Address>>)
    requires FindsTransfers(find, contract, cfg, chain)
    ensures o == find(w)
  {
    var eventResult, calls := GetEvents(Collector(contract, Transfer, w.from, w.to), [], cfg.collectBlocks,
                                        cfg.collectRequests, chain.latest, cfg.retry, chain.transfers);
    match eventResult {
    case Done(res) => o := Done(ExtractTransferAddress(res).addresses);
    case Failed(e) => o := Failed(e);
    case Pending => o := Pending;
    }
    assert Probe(w) == w;
  }

  /** getBalances on some addresses, as `lookup` gives it. */
  method LookUpBalances(addresses: seq<Address>, balanceOf: Address -> Outcome<int>, ghost lookup: Lookup)
    returns (r: Outcome<seq<Balance>>)
    requires LooksUp(lookup, balanceOf)
    ensures r == lookup(addresses)
  {
    var slices;
    r, slices := GetBalances(addresses, balanceOf);
    assert Probe(addresses) == addresses;
  }

  /** `addAddress` writes one zero-balance row of the token per address it
      counts, none of them the zero address when no window yields it, and
      completes at most one iteration per window, all of them when it resolves. */
  lemma {:induction false} AddRunRows(tid: string, outs: seq<Outcome<seq<Address>>>)
    requires forall i :: 0 <= i < |outs| && outs[i].Done? ==> ZeroAddress !in outs[i].value
    ensures var r := AddRun(tid, outs);
      (r.outcome.Done? ==> r.outcome.value == |r.rows| && r.done == |outs|) &&
      r.done <= |outs| &&
      forall k :: 0 <= k < |r.rows| ==> r.rows[k].tid == tid && r.rows[k].balance == 0 && r.rows[k].address != ZeroAddress
  {
    if outs != [] {
      assert forall i :: 1 <= i < |outs| ==> outs[1..][i - 1] == outs[i];
      AddRunRows(tid, outs[1..]);
      if outs[0].Done? {
        var found := outs[0].value;
        var rest := AddRun(tid, outs[1..]);
        var rows := NewRows(tid, found) + rest.rows;
        forall k | 0 <= k < |rows|
          ensures rows[k].tid == tid && rows[k].balance == 0 && rows[k].address != ZeroAddress
        {
          if k < |found| {
            assert found[k] in found;
          } else {
            assert rows[k] == rest.rows[k - |found|];
          }
        }
      }
    }
  }

  /** `updateBalance` writes, for every window that completes, the balance of
      each of its addresses as `balanceOf` gives it. */
  lemma {:induction false} UpdateRunRows(tid: string, outs: seq<Outcome<seq<Address>>>, lookup: Lookup,
                                         balanceOf: Address -> Outcome<int>)
    requires LooksUp(lookup, balanceOf)
    ensures var r := UpdateRun(tid, outs, lookup);
      (r.outcome.Done? ==> r.outcome.value == |r.rows| && r.done == |outs|) &&
      r.done <= |outs| &&
      forall k :: 0 <= k < |r.rows| ==>
        r.rows[k].tid == tid && balanceOf(r.rows[k].address) == Done(r.rows[k].balance)
  {
    if outs != [] {
      UpdateRunRows(tid, outs[1..], lookup, balanceOf);
      if outs[0].Done? {
        var found := outs[0].value;
        assert Probe(found) == found;
        BalancesFromMeaning(found, balanceOf, 0);
        match lookup(found) {
        case Failed(e) =>
        case Pending =>
        case Done(bs) =>
          var rest := UpdateRun(tid, outs[1..], lookup);
          var rows := BalanceRows(tid, bs) + rest.rows;
          forall k | 0 <= k < |rows|
            ensures rows[k].tid == tid && balanceOf(rows[k].address) == Done(rows[k].balance)
          {
            if k >= |bs| {
              assert rows[k] == rest.rows[k - |bs|];
            }
          }
        }
      }
    }
  }

  // ---------------------------------------------------------------------------
  // The offsets of updateBalanceInDB

  /** The offsets `i, i + limit, …` below `total`. */
  function Offsets(i: int, total: int, limit: int): seq<int>
    requires limit >= 1
    decreases total - i
  {
    if i < total then [i] + Offsets(i + limit, total, limit) else []
  }

  /** The offsets are `i + k * limit` for the first ceil((total - i) / limit) values of `k`. */
  lemma {:induction false} OffsetsShape(i: int, total: int, limit: int)
    requires limit >= 1
    ensures var os := Offsets(i, total, limit);
      |os| == (if i < total then (total - i + limit - 1) / limit else 0) &&
      forall k :: 0 <= k < |os| ==> os[k] == i + k * limit && os[k] < total
    decreases total - i
  {
    if i < total {
      var os := Offsets(i, total, limit);
      var rest := Offsets(i + limit, total, limit);
      OffsetsShape(i + limit, total, limit);
      forall k | 1 <= k < |os|
        ensures os[k] == i + k * limit
      {
        assert os[k] == rest[k - 1] == i + limit + (k - 1) * limit;
      }
      if i + limit < total {
        DivModStep(total - i + limit - 1, limit);
      } else {
        DivModUnique(total - i + limit - 1, limit, 1, total - i - 1);
      }
    }
  }

  /** One page of updateBalanceInDB at offset `i`: the stored addresses, then
      their balances as rows of the token. */
  function PageOutcome(tid: string, limit: int, query: (int, int) -> Outcome<seq<Address>>,
                       balanceOf: Address -> Outcome<int>, i: int): Outcome<seq<BalanceRow>>
  {
    match query(limit, i)
    case Failed(e) => Failed(e)
    case Pending => Pending
    case Done(addresses) =>
      match BalancesOutcome(addresses, balanceOf)
      case Failed(e) => Failed(e)
      case Pending => Pending
      case Done(bs) => Done(BalanceRows(tid, bs))
  }

  /** The pages of updateBalanceInDB from offset `i`: each page of addresses is
      looked up and its balances written; the first page whose query or lookups
      do not resolve ends the run. */
  function PagesFrom(tid: string, total: int, limit: int, query: (int, int) -> Outcome<seq<Address>>,
                     balanceOf: Address -> Outcome<int>, i: int): Outcome<seq<BalanceRow>>
    requires limit >= 1
    decreases total - i
  {
    if i >= total then Done([])
    else
      match PageOutcome(tid, limit, query, balanceOf, i)
      case Failed(e) => Failed(e)
      case Pending => Pending
      case Done(rows) => Prepend(rows, PagesFrom(tid, total, limit, query, balanceOf, i + limit))
  }

  /** One page of `updateBalanceInDB`: the addresses at offset `i`, then their
      balances. A page or a lookup that does not resolve is what the whole
      listing comes to; otherwise the page's rows come before the listing of
      the next offset. */
  method FetchPage(tid: string, total: int, limit: int, query: (int, int) -> Outcome<seq<Address>>,
                   balanceOf: Address -> Outcome<int>, i: int)
    returns (o: Outcome<seq<BalanceRow>>)
    ensures o == PageOutcome(tid, limit, query, balanceOf, i)
    ensures limit >= 1 && i < total && !o.Done? ==> PagesFrom(tid, total, limit, query, balanceOf, i) == o
    ensures limit >= 1 && i < total && o.Done? ==>
      PagesFrom(tid, total, limit, query, balanceOf, i) ==
        Prepend(o.value, PagesFrom(tid, total, limit, query, balanceOf, i + limit))
  {
    var page := query(limit, i);
    if !page.Done? {
      return if page.Failed? then Failed(page.error) else Pending;
    }
    var balances, slices := GetBalances(page.value, balanceOf);
    if !balances.Done? {
      return if balances.Failed? then Failed(balances.error) else Pending;
    }
    o := Done(BalanceRows(tid, balances.value));
  }

  // ---------------------------------------------------------------------------
  // One loop iteration

  /** How a window's outcome ends a run when it does not resolve. */
  function Stopped<T>(o: Outcome<T>): Outcome<nat>
    requires !o.Done?
  {
    if o.Failed? then Failed(o.error) else Pending
  }

  lemma AddAdvance(tid: string, target: Run, count: nat, rows: seq<BalanceRow>, done: nat,
                   outs: seq<Outcome<seq<Address>>>, i: nat)
    requires i < |outs| && outs[i].Done?
    requires target == Then(count, rows, done, AddRun(tid, outs[i..]))
    ensures target == Then(count + |outs[i].value|, rows + NewRows(tid, outs[i].value), done + 1, AddRun(tid, outs[i + 1..]))
  {
    assert outs[i..][0] == outs[i] && outs[i..][1..] == outs[i + 1..];
    ThenAssoc(count, rows, done, |outs[i].value|, NewRows(tid, outs[i].value), 1, AddRun(tid, outs[i + 1..]));
  }

  lemma AddStop(tid: string, target: Run, count: nat, rows: seq<BalanceRow>, done: nat,
                outs: seq<Outcome<seq<Address>>>, i: nat)
    requires i < |outs| && !outs[i].Done?
    requires target == Then(count, rows, done, AddRun(tid, outs[i..]))
    ensures target == Run(Stopped(outs[i]), rows, done)
  {
    assert outs[i..][0] == outs[i];
    assert rows + [] == rows;
  }

  lemma AddFinish(tid: string, target: Run, count: nat, rows: seq<BalanceRow>, done: nat,
                  outs: seq<Outcome<seq<Address>>>)
    requires done == |outs| && target == Then(count, rows, done, AddRun(tid, outs[done..]))
    ensures target == Run(Done(count), rows, done)
  {
    assert outs[done..] == [];
    assert rows + [] == rows;
  }

  lemma UpdateFinish(tid: string, target: Run, count: nat, rows: seq<BalanceRow>, done: nat,
                     outs: seq<Outcome<seq<Address>>>, lookup: Lookup)
    requires done == |outs| && target == Then(count, rows, done, UpdateRun(tid, outs[done..], lookup))
    ensures target == Run(Done(count), rows, done)
  {
    assert outs[done..] == [];
    assert rows + [] == rows;
  }

  lemma UpdateAdvance(tid: string, target: Run, count: nat, rows: seq<BalanceRow>, done: nat,
                      outs: seq<Outcome<seq<Address>>>, i: nat,
                      lookup: Lookup, bs: seq<Balance>)
    requires i < |outs| && outs[i].Done? && lookup(outs[i].value) == Done(bs)
    requires target == Then(count, rows, done, UpdateRun(tid, outs[i..], lookup))
    ensures target == Then(count + |bs|, rows + BalanceRows(tid, bs), done + 1, UpdateRun(tid, outs[i + 1..], lookup))
  {
    assert outs[i..][0] == outs[i] && outs[i..][1..] == outs[i + 1..];
    ThenAssoc(count, rows, done, |bs|, BalanceRows(tid, bs), 1, UpdateRun(tid, outs[i + 1..], lookup));
  }

  lemma UpdateStop(tid: string, target: Run, count: nat, rows: seq<BalanceRow>, done: nat,
                   outs: seq<Outcome<seq<Address>>>, i: nat, lookup: Lookup)
    requires i < |outs| && !outs[i].Done?
    requires target == Then(count, rows, done, UpdateRun(tid, outs[i..], lookup))
    ensures target == Run(Stopped(outs[i]), rows, done)
  {
    assert outs[i..][0] == outs[i];
    assert rows + [] == rows;
  }

  lemma UpdateStopBalances(tid: string, target: Run, count: nat, rows: seq<BalanceRow>, done: nat,
                           outs: seq<Outcome<seq<Address>>>, i: nat, lookup: Lookup)
    requires i < |outs| && outs[i].Done? && !lookup(outs[i].value).Done?
    requires target == Then(count, rows, done, UpdateRun(tid, outs[i..], lookup))
    ensures target == Run(Stopped(lookup(outs[i].value)), rows, done)
  {
    assert outs[i..][0] == outs[i];
    assert rows + [] == rows;
  }

  // ---------------------------------------------------------------------------
  // The Holder object

  class Holder {
    var token: Token
    const contract: Address
    var from: int
    const to: int

    constructor(token: Token, from: int, to: int)
      ensures this.token == token && this.contract == token.address
      ensures this.from == from && this.to == to
    {
      this.token := token;
      this.contract := token.address;
      this.from := from;
      this.to := to;
    }

    /** addAddress: every window's addresses inserted with balance zero; after
        each window the token's `current` is set to `to` (not to the window's
        end) and `from` advances by `collectBatch`. With a batch below one and
        a non-empty range the loop never ends. */
    method AddAddress(cfg: Config, chain: Chain, ghost find: Finder) returns (r: Outcome<nat>, rows: seq<BalanceRow>)
      requires FindsTransfers(find, contract, cfg, chain)
      modifies this
      ensures cfg.collectBatch < 1 ==>
        (old(from) < to ==> r == Pending && token == old(token).(current := to)) &&
        (old(from) >= to ==> r == Done(0) && token == old(token)) &&
        rows == [] && (old(from) >= to || cfg.collectBatch == 0 ==> from == old(from))
      ensures cfg.collectBatch >= 1 ==>
        var run := AddRun(old(token).id, WindowFound(find, HolderWindows(old(from), to, cfg.collectBatch)));
        r == run.outcome && rows == run.rows &&
        from == old(from) + run.done * cfg.collectBatch &&
        token == (if run.done > 0 then old(token).(current := to) else old(token))
    {
      rows := [];
      if cfg.collectBatch < 1 {
        // every window ends before it starts, so each pass inserts nothing,
        // sets the token's `current` to `to`, and the loop never ends
        if from < to {
          token := token.(current := to);
          return Pending, rows;
        }
        return Done(0), rows;
      }
      var batch := cfg.collectBatch;
      var tid := token.id;
      ghost var from0 := from;
      ghost var token0 := token;
      ghost var outs := WindowFound(find, HolderWindows(from0, to, batch));
      ghost var done: nat := 0;
      var count: nat := 0;
      ghost var target := AddRun(tid, outs);
      ThenNothing(target);
      while from < to
        invariant from == from0 + done * batch && done <= |outs|
        invariant token == (if done > 0 then token0.(current := to) else token0)
        invariant target == Then(count, rows, done, AddRun(tid, outs[done..]))
      {
        var next := Next(from, to, batch);
        var found := FindAddresses(contract, cfg, chain, find, Window(from, next));
        WindowFoundAt(find, from0, to, batch, done, from);
        if !found.Done? {
          AddStop(tid, target, count, rows, done, outs, done);
          return Stopped(found), rows;
        }
        AddAdvance(tid, target, count, rows, done, outs, done);
        count := count + |found.value|;
        rows := rows + NewRows(tid, found.value);
        token := token.(current := to);
        assert (done + 1) * batch == done * batch + batch;
        from := from + batch;
        done := done + 1;
      }
      HolderWindowAt(from0, to, batch, done);
      AddFinish(tid, target, count, rows, done, outs);
      r := Done(count);
    }

    /** updateBalance: every window's addresses looked up and their balances
        written; `from` advances by `collectBatch`. */
    method UpdateBalance(cfg: Config, chain: Chain, ghost find: Finder, ghost lookup: Lookup)
      returns (r: Outcome<nat>, rows: seq<BalanceRow>)
      requires FindsTransfers(find, contract, cfg, chain) && LooksUp(lookup, chain.balanceOf)
      modifies this
      ensures cfg.collectBatch < 1 ==>
        (old(from) < to ==> r == Pending) && (old(from) >= to ==> r == Done(0)) &&
        rows == [] && (old(from) >= to || cfg.collectBatch == 0 ==> from == old(from))
      ensures cfg.collectBatch >= 1 ==>
        var run := UpdateRun(old(token).id, WindowFound(find, HolderWindows(old(from), to, cfg.collectBatch)),
                             lookup);
        r == run.outcome && rows == run.rows &&
        from == old(from) + run.done * cfg.collectBatch
      ensures token == old(token)
    {
      rows := [];
      if cfg.collectBatch < 1 {
        return if from < to then Pending else Done(0), rows;
      }
      var batch := cfg.collectBatch;
      var tid := token.id;
      ghost var from0 := from;
      ghost var outs := WindowFound(find, HolderWindows(from0, to, batch));
      ghost var done: nat := 0;
      var count: nat := 0;
      ghost var target := UpdateRun(tid, outs, lookup);
      ThenNothing(target);
      while from < to
        invariant from == from0 + done * batch && done <= |outs|
        invariant token == old(token)
        invariant target == Then(count, rows, done, UpdateRun(tid, outs[done..], lookup))
      {
        var next := Next(from, to, batch);
        var found := FindAddresses(contract, cfg, chain, find, Window(from, next));
        WindowFoundAt(find, from0, to, batch, done, from);
        if !found.Done? {
          UpdateStop(tid, target, count, rows, done, outs, done, lookup);
          return Stopped(found), rows;
        }
        var balances := LookUpBalances(found.value, chain.balanceOf, lookup);
        if !balances.Done? {
          UpdateStopBalances(tid, target, count, rows, done, outs, done, lookup);
          return Stopped(balances), rows;
        }
        UpdateAdvance(tid, target, count, rows, done, outs, done, lookup, balances.value);
        count := count + |balances.value|;
        rows := rows + BalanceRows(tid, balances.value);
        assert (done + 1) * batch == done * batch + batch;
        from := from + batch;
        done := done + 1;
      }
      HolderWindowAt(from0, to, batch, done);
      UpdateFinish(tid, target, count, rows, done, outs, lookup);
      r := Done(count);
    }

    /** updateBalanceInDB: the token's stored addresses are paged through with
        offsets 0, limit, 2 * limit, … below `total`, and each page's balances
        written. With a limit below one and rows present the offset never
        reaches `total`: the loop ends only at a page that does not resolve.
        With limit 0 every pass fetches page 0 again, so that page decides. */
    method UpdateBalanceInDb(total: int, limit: int, query: (int, int) -> Outcome<seq<Address>>,
                             balanceOf: Address -> Outcome<int>)
      returns (r: Outcome<seq<BalanceRow>>, offsets: seq<int>)
      ensures limit < 1 && total <= 0 ==> r == Done([]) && offsets == []
      ensures limit < 1 && total > 0 ==> !r.Done? && offsets == [0]
      ensures limit < 1 && total > 0 && !PageOutcome(token.id, limit, query, balanceOf, 0).Done? ==>
        r == PageOutcome(token.id, limit, query, balanceOf, 0)
      ensures limit == 0 && total > 0 && PageOutcome(token.id, limit, query, balanceOf, 0).Done? ==>
        r == Pending
      ensures limit >= 1 ==> r == PagesFrom(token.id, total, limit, query, balanceOf, 0)
      ensures limit >= 1 ==> offsets <= Offsets(0, total, limit)
      ensures limit >= 1 && r.Done? ==> offsets == Offsets(0, total, limit)
    {
      offsets := [];
      if limit < 1 {
        if total <= 0 {
          return Done([]), offsets;
        }
        offsets := [0];
        var first := FetchPage(token.id, total, limit, query, balanceOf, 0);
        return if first.Done? then Pending else first, offsets;
      }
      var tid := token.id;
      var rows: seq<BalanceRow> := [];
      var i := 0;
      PrependEmpty(PagesFrom(tid, total, limit, query, balanceOf, 0));
      assert offsets + Offsets(0, total, limit) == Offsets(0, total, limit);
      while i < total
        invariant PagesFrom(tid, total, limit, query, balanceOf, 0) ==
          Prepend(rows, PagesFrom(tid, total, limit, query, balanceOf, i))
        invariant Offsets(0, total, limit) == offsets + Offsets(i, total, limit)
      {
        offsets := offsets + [i];
        assert Offsets(i, total, limit) == [i] + Offsets(i + limit, total, limit);
        assert Offsets(0, total, limit) == offsets + Offsets(i + limit, total, limit);
        var page := FetchPage(tid, total, limit, query, balanceOf, i);
        if !page.Done? {
          PrefixOfAppend(offsets, Offsets(i + limit, total, limit));
          return page, offsets;
        }
        PrependAssoc(rows, page.value, PagesFrom(tid, total, limit, query, balanceOf, i + limit));
        rows := rows + page.value;
        i := i + limit;
      }
      assert rows + [] == rows;
      assert offsets + [] == offsets;
      r := Done(rows);
    }
  }

  /** A run is itself preceded by nothing. */
  lemma ThenNothing(r: Run)
    ensures r == Then(0, [], 0, r)
  {
    assert [] + r.rows == r.rows;
  }
}
