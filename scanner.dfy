/** The batched range scanner of src/transfer-collect.ts: AbstractCollect clamps
    its upper bound to the chain head, partitions the range with splitTasks,
    runs the batches one after the other (the windows of a batch together),
    retries every window query, and either returns every event in order or
    throws the first failure. The three subclasses differ only in the filter. */
module Scanner {
  import opened Common
  import opened Utils

  /** The event a collector subclass filters on. */
  datatype EventKind = Transfer | Swap | PairCreated

  /** One entry of a filter's parameter list: `null` (any value), one value, or
      a list of alternatives (each `null` or a value). */
  datatype Param = Null | Value(value: string) | AnyOf(values: seq<Option<string>>)

  datatype Filter = Filter(kind: EventKind, params: seq<Param>)

  /** `contract.queryFilter(filter, from, to)` over one window. */
  datatype Query = Query(contract: Address, filter: Filter, window: Window)

  /** One call of the provider: the query and the attempt number (from 0). */
  datatype Call = Call(query: Query, attempt: nat)

  /** The provider's answer to attempt number `k` of a query. */
  type Provider<!E> = (Query, nat) -> Result<seq<E>>

  /** A collector object: its contract, its subclass, and the bounds it was
      constructed with. */
  datatype Collector = Collector(contract: Address, kind: EventKind, from: int, to: int)

  /** `getFilter` of TransferCollect, SwapCollect and PairCreatedCollect: the
      subclass's event, with the parameter list passed through unchanged. */
  function GetFilter(kind: EventKind, params: seq<Param>): (f: Filter)
    ensures f.kind == kind && f.params == params
  {
    Filter(kind, params)
  }

  /** What one scan holds fixed for all its windows. */
  datatype Scan<!E> = Scan(provider: Provider<E>, contract: Address, filter: Filter, retries: nat)

  function QueryOf<E>(s: Scan<E>, w: Window): Query
  {
    Query(s.contract, s.filter, w)
  }

  /** The successive attempts at one window's query. */
  function Attempts<E>(s: Scan<E>, w: Window): nat -> Result<seq<E>>
  {
    (k: nat) => s.provider(QueryOf(s, w), k)
  }

  /** What `queryFilter` comes to for one window: the retried provider call. */
  function WindowOutcome<E>(s: Scan<E>, w: Window): Outcome<seq<E>>
  {
    RetryOutcome(Attempts(s, w), s.retries)
  }

  /** The provider calls `queryFilter` makes for one window. */
  function WindowCalls<E>(s: Scan<E>, w: Window): seq<Call>
  {
    var n := RetryCalls(Attempts(s, w), s.retries, 0);
    seq(n, k requires 0 <= k < n => Call(QueryOf(s, w), k))
  }

  function Outs<E>(s: Scan<E>, ws: seq<Window>): (os: seq<Outcome<seq<E>>>)
    ensures |os| == |ws| && forall k :: 0 <= k < |ws| ==> os[k] == WindowOutcome(s, ws[k])
  {
    seq(|ws|, k requires 0 <= k < |ws| => WindowOutcome(s, ws[k]))
  }

  function BatchCalls<E>(s: Scan<E>, ws: seq<Window>): seq<Call>
  {
    if ws == [] then [] else WindowCalls(s, ws[0]) + BatchCalls(s, ws[1..])
  }

  /** The batches in sequence: each batch settles as a whole; the first batch
      that does not resolve ends the scan with its outcome. */
  function ScanBatches<E>(s: Scan<E>, bs: seq<seq<Window>>): Outcome<seq<E>>
  {
    if bs == [] then Done([])
    else
      var first := Settle(Outs(s, bs[0]));
      if first.Done? then Prepend(first.value, ScanBatches(s, bs[1..])) else first
  }

  /** The provider calls made: every window of every batch up to and including
      the first one that does not resolve. */
  function ScanCalls<E>(s: Scan<E>, bs: seq<seq<Window>>): seq<Call>
  {
    if bs == [] then []
    else BatchCalls(s, bs[0]) + (if Settle(Outs(s, bs[0])).Done? then ScanCalls(s, bs[1..]) else [])
  }

  /** The block range a collector scans: its lower bound up to its upper bound
      clamped to the chain head. */
  function Upper(c: Collector, latest: int): int
  {
    if c.to > latest then latest else c.to
  }

  function ScanOf<E>(c: Collector, params: seq<Param>, retries: nat, provider: Provider<E>): Scan<E>
  {
    Scan(provider, c.contract, GetFilter(c.kind, params), retries)
  }

  /** What `getEvents(parameter, blocks, requests)` comes to. */
  function EventsOutcome<E>(c: Collector, params: seq<Param>, blocks: int, requests: int,
                            latest: int, retries: nat, provider: Provider<E>): Outcome<CollectResult<E>>
  {
    var hi := Upper(c, latest);
    if !Terminates(c.from, hi, blocks, requests) then Pending
    else
      match ScanBatches(ScanOf(c, params, retries, provider), Batches(c.from, hi, blocks, requests))
      case Done(es) => Done(CollectResult(c.from, c.to, es))
      case Failed(e) => Failed(e)
      case Pending => Pending
  }

  /** The provider calls `getEvents` makes. */
  function EventsCalls<E>(c: Collector, params: seq<Param>, blocks: int, requests: int,
                          latest: int, retries: nat, provider: Provider<E>): seq<Call>
  {
    var hi := Upper(c, latest);
    if !Terminates(c.from, hi, blocks, requests) then []
    else ScanCalls(ScanOf(c, params, retries, provider), Batches(c.from, hi, blocks, requests))
  }

  // ---------------------------------------------------------------------------
  // The methods

  /** `queryFilter`: one window's query through `retry`. */
  method QueryFilter<E>(s: Scan<E>, w: Window) returns (o: Outcome<seq<E>>, calls: seq<Call>)
    ensures o == WindowOutcome(s, w)
    ensures calls == WindowCalls(s, w)
  {
    var attempt := Attempts(s, w);
    var errors;
    o, errors := Retry(attempt, s.retries);
    var n := if o.Done? then |errors| + 1 else |errors|;
    calls := seq(n, k requires 0 <= k < n => Call(QueryOf(s, w), k));
  }

  lemma BatchCallsAppend<E>(s: Scan<E>, ws: seq<Window>, w: Window)
    ensures BatchCalls(s, ws + [w]) == BatchCalls(s, ws) + WindowCalls(s, w)
  {
    if ws != [] {
      assert (ws + [w])[1..] == ws[1..] + [w];
      BatchCallsAppend(s, ws[1..], w);
    } else {
      assert [w][1..] == [];
    }
  }

  /** `Promise.allSettled(task.map(...queryFilter...))`: every window of the batch, in order. */
  method RunBatch<E>(s: Scan<E>, task: seq<Window>) returns (settled: seq<Outcome<seq<E>>>, calls: seq<Call>)
    ensures settled == Outs(s, task)
    ensures calls == BatchCalls(s, task)
  {
    settled := [];
    calls := [];
    var w := 0;
    while w < |task|
      invariant 0 <= w <= |task|
      invariant settled == Outs(s, task[..w])
      invariant calls == BatchCalls(s, task[..w])
    {
      var o, cs := QueryFilter(s, task[w]);
      assert task[..w + 1] == task[..w] + [task[w]];
      BatchCallsAppend(s, task[..w], task[w]);
      settled := settled + [o];
      calls := calls + cs;
      w := w + 1;
    }
    assert task[..w] == task;
  }

  lemma SettleStep<T>(rs: seq<Outcome<seq<T>>>)
    requires rs != [] && forall i :: 0 <= i < |rs| ==> !rs[i].Pending?
    ensures rs[0].Done? ==> Settle(rs) == Prepend(rs[0].value, Settle(rs[1..]))
    ensures rs[0].Failed? ==> Settle(rs) == Failed(rs[0].error)
  {
    SettleMeaning(rs[1..]);
    assert forall i :: 0 <= i < |rs| - 1 ==> rs[1..][i] == rs[i + 1];
  }

  /** The `forEach` over a settled batch: append each fulfilled value, throw the
      first rejection. */
  method ThrowFirst<E>(settled: seq<Outcome<seq<E>>>, events: seq<E>) returns (r: Outcome<seq<E>>)
    requires forall i :: 0 <= i < |settled| ==> !settled[i].Pending?
    ensures r == Prepend(events, Settle(settled))
  {
    var acc := events;
    var k := 0;
    while k < |settled|
      invariant 0 <= k <= |settled|
      invariant Prepend(events, Settle(settled)) == Prepend(acc, Settle(settled[k..]))
    {
      SettleStep(settled[k..]);
      match settled[k] {
        case Done(v) =>
          assert settled[k..][1..] == settled[k + 1..];
          PrependAssoc(acc, v, Settle(settled[k + 1..]));
          acc := acc + v;
        case Failed(e) =>
          return Failed(e);
      }
      k := k + 1;
    }
    assert settled[k..] == [];
    assert acc + [] == acc;
    r := Done(acc);
  }

  /** One batch: all its windows queried, then settled as a whole. */
  method SettleBatch<E>(s: Scan<E>, task: seq<Window>) returns (o: Outcome<seq<E>>, calls: seq<Call>)
    ensures o == Settle(Outs(s, task))
    ensures calls == BatchCalls(s, task)
  {
    var settled;
    settled, calls := RunBatch(s, task);
    SettleMeaning(settled);
    if exists k :: 0 <= k < |settled| && settled[k].Pending? {
      // Promise.allSettled never resolves
      return Pending, calls;
    }
    o := ThrowFirst(settled, []);
    PrependEmpty(Settle(settled));
  }

  /** One batch of a scan: it settles, and the rest of the scan runs only if it resolved. */
  lemma ScanStep<E>(s: Scan<E>, bs: seq<seq<Window>>, b: int)
    requires 0 <= b < |bs|
    ensures var first := Settle(Outs(s, bs[b]));
      ScanBatches(s, bs[b..]) == if first.Done? then Prepend(first.value, ScanBatches(s, bs[b + 1..])) else first
    ensures ScanCalls(s, bs[b..])
              == BatchCalls(s, bs[b]) + (if Settle(Outs(s, bs[b])).Done? then ScanCalls(s, bs[b + 1..]) else [])
  {
    assert bs[b..][1..] == bs[b + 1..];
  }

  /** `getEvents`: clamp the range, split it, run the batches in sequence. */
  method GetEvents<E>(c: Collector, params: seq<Param>, blocks: int, requests: int,
                      latest: int, retries: nat, provider: Provider<E>)
    returns (r: Outcome<CollectResult<E>>, calls: seq<Call>)
    ensures r == EventsOutcome(c, params, blocks, requests, latest, retries, provider)
    ensures calls == EventsCalls(c, params, blocks, requests, latest, retries, provider)
  {
    var hi := if c.to > latest then latest else c.to;
    if !Terminates(c.from, hi, blocks, requests) {
      // splitTasks never returns
      return Pending, [];
    }
    var tasks := SplitTasks(c.from, hi, blocks, requests);
    var s := ScanOf(c, params, retries, provider);
    var events: seq<E> := [];
    calls := [];
    var b := 0;
    assert tasks[b..] == tasks;
    PrependEmpty(ScanBatches(s, tasks));
    while b < |tasks|
      invariant 0 <= b <= |tasks|
      invariant ScanBatches(s, tasks) == Prepend(events, ScanBatches(s, tasks[b..]))
      invariant ScanCalls(s, tasks) == calls + ScanCalls(s, tasks[b..])
    {
      var o, cs := SettleBatch(s, tasks[b]);
      ScanStep(s, tasks, b);
      assert calls + (cs + (if o.Done? then ScanCalls(s, tasks[b + 1..]) else []))
          == (calls + cs) + (if o.Done? then ScanCalls(s, tasks[b + 1..]) else []);
      calls := calls + cs;
      match o {
        case Done(v) =>
          PrependAssoc(events, v, ScanBatches(s, tasks[b + 1..]));
          events := events + v;
        case Failed(e) =>
          assert calls + [] == calls;
          return Failed(e), calls;
        case Pending =>
          assert calls + [] == calls;
          return Pending, calls;
      }
      b := b + 1;
    }
    assert tasks[b..] == [];
    assert events + [] == events;
    assert calls + [] == calls;
    r := Done(CollectResult(c.from, c.to, events));
  }

  // ---------------------------------------------------------------------------
  // What a scan promises

  /** Every window of the partition, in batch order and then window order. */
  function AllWindows(c: Collector, blocks: int, requests: int, latest: int): seq<Window>
    requires Terminates(c.from, Upper(c, latest), blocks, requests)
  {
    Concat(Batches(c.from, Upper(c, latest), blocks, requests))
  }

  /** The windows cover the clamped range [from, min(to, latest)] exactly, in
      contiguous windows of at most `blocks` blocks. */
  lemma ScanRange(c: Collector, blocks: int, requests: int, latest: int)
    requires blocks >= 1 && requests >= 1
    ensures AllWindows(c, blocks, requests, latest) == Partition(c.from, Upper(c, latest), blocks)
    ensures Upper(c, latest) == Min(c.to, latest)
  {
    ChunkShape(Partition(c.from, Upper(c, latest), blocks), requests);
  }

  lemma {:induction false} ScanBatchesDone<E>(s: Scan<E>, bs: seq<seq<Window>>)
    requires forall w :: w in Concat(bs) ==> WindowOutcome(s, w).Done?
    ensures ScanBatches(s, bs) == Done(Concat(Values(Outs(s, Concat(bs)))))
    ensures ScanCalls(s, bs) == BatchCalls(s, Concat(bs))
  {
    if bs != [] {
      var ws := Concat(bs);
      assert ws == bs[0] + Concat(bs[1..]);
      assert forall i :: 0 <= i < |bs[0]| ==> bs[0][i] in ws;
      ScanBatchesDone(s, bs[1..]);
      SettleMeaning(Outs(s, bs[0]));
      ValuesConcat(s, bs[0], Concat(bs[1..]));
      BatchCallsConcat(s, bs[0], Concat(bs[1..]));
    }
  }

  lemma ValuesConcat<E>(s: Scan<E>, xs: seq<Window>, ys: seq<Window>)
    requires forall w :: w in xs + ys ==> WindowOutcome(s, w).Done?
    ensures Concat(Values(Outs(s, xs + ys))) == Concat(Values(Outs(s, xs))) + Concat(Values(Outs(s, ys)))
  {
    assert forall i :: 0 <= i < |xs| ==> xs[i] in xs + ys;
    assert forall i :: 0 <= i < |ys| ==> ys[i] in xs + ys;
    assert forall i :: 0 <= i < |xs + ys| ==> (xs + ys)[i] in xs + ys;
    assert Outs(s, xs + ys) == Outs(s, xs) + Outs(s, ys);
    assert Values(Outs(s, xs + ys)) == Values(Outs(s, xs)) + Values(Outs(s, ys));
    ConcatSplit(Values(Outs(s, xs)), Values(Outs(s, ys)));
  }

  lemma {:induction false} BatchCallsConcat<E>(s: Scan<E>, xs: seq<Window>, ys: seq<Window>)
    ensures BatchCalls(s, xs + ys) == BatchCalls(s, xs) + BatchCalls(s, ys)
  {
    if xs != [] {
      assert (xs + ys)[1..] == xs[1..] + ys;
      BatchCallsConcat(s, xs[1..], ys);
    } else {
      assert xs + ys == ys;
    }
  }

  /** On success the collector returns its own bounds and the events of every
      window, in window order; it succeeds whenever every window's query does. */
  lemma ScanSuccess<E>(c: Collector, params: seq<Param>, blocks: int, requests: int,
                       latest: int, retries: nat, provider: Provider<E>)
    requires Terminates(c.from, Upper(c, latest), blocks, requests)
    requires var s := ScanOf(c, params, retries, provider);
      forall w :: w in AllWindows(c, blocks, requests, latest) ==> WindowOutcome(s, w).Done?
    ensures var s := ScanOf(c, params, retries, provider);
      var ws := AllWindows(c, blocks, requests, latest);
      && EventsOutcome(c, params, blocks, requests, latest, retries, provider)
           == Done(CollectResult(c.from, c.to, Concat(Values(Outs(s, ws)))))
      && EventsCalls(c, params, blocks, requests, latest, retries, provider) == BatchCalls(s, ws)
  {
    var s := ScanOf(c, params, retries, provider);
    var ws := AllWindows(c, blocks, requests, latest);
    assert forall i :: 0 <= i < |ws| ==> ws[i] in ws;
    ScanBatchesDone(s, Batches(c.from, Upper(c, latest), blocks, requests));
  }

  /** A run of batches resolves only if every window in it resolved. */
  lemma {:induction false} ScanBatchesDoneAll<E>(s: Scan<E>, bs: seq<seq<Window>>)
    requires ScanBatches(s, bs).Done?
    ensures forall w :: w in Concat(bs) ==> WindowOutcome(s, w).Done?
  {
    if bs != [] {
      var os := Outs(s, bs[0]);
      SettleMeaning(os);
      assert Settle(os).Done?;
      ScanBatchesDoneAll(s, bs[1..]);
      assert Concat(bs) == bs[0] + Concat(bs[1..]);
      forall w | w in bs[0]
        ensures WindowOutcome(s, w).Done?
      {
        var k :| 0 <= k < |bs[0]| && bs[0][k] == w;
        assert os[k].Done?;
      }
    }
  }

  /** The converse of ScanSuccess: the collector resolves only when its range
      can be cut into batches and every window's query resolved, so with
      ScanSuccess a scan yields all of its windows' events or none. */
  lemma ScanDone<E>(c: Collector, params: seq<Param>, blocks: int, requests: int,
                    latest: int, retries: nat, provider: Provider<E>)
    requires EventsOutcome(c, params, blocks, requests, latest, retries, provider).Done?
    ensures Terminates(c.from, Upper(c, latest), blocks, requests)
    ensures forall w :: w in AllWindows(c, blocks, requests, latest) ==>
              WindowOutcome(ScanOf(c, params, retries, provider), w).Done?
  {
    ScanBatchesDoneAll(ScanOf(c, params, retries, provider), Batches(c.from, Upper(c, latest), blocks, requests));
  }

  /** A scan that completes over an empty range issues no query and returns no event. */
  lemma ScanEmptyRange<E>(c: Collector, params: seq<Param>, blocks: int, requests: int,
                          latest: int, retries: nat, provider: Provider<E>)
    requires c.from > Min(c.to, latest)
    ensures EventsOutcome(c, params, blocks, requests, latest, retries, provider)
              == Done(CollectResult(c.from, c.to, []))
    ensures EventsCalls(c, params, blocks, requests, latest, retries, provider) == []
  {
  }

  /** Where a failed run of batches failed: the first window whose query failed. */
  lemma {:induction false} FailedWindow<E>(s: Scan<E>, bs: seq<seq<Window>>) returns (i: nat)
    requires ScanBatches(s, bs).Failed?
    ensures i < |Concat(bs)| && WindowOutcome(s, Concat(bs)[i]) == Failed(ScanBatches(s, bs).error)
    ensures forall j :: 0 <= j < i ==> WindowOutcome(s, Concat(bs)[j]).Done?
  {
    var ws := Concat(bs);
    assert ws == bs[0] + Concat(bs[1..]);
    var first := Settle(Outs(s, bs[0]));
    SettleMeaning(Outs(s, bs[0]));
    if first.Done? {
      var rest := Concat(bs[1..]);
      var k := FailedWindow(s, bs[1..]);
      i := |bs[0]| + k;
      assert ws[i] == rest[k];
      assert ScanBatches(s, bs) == Prepend(first.value, ScanBatches(s, bs[1..]));
      forall j | 0 <= j < i ensures WindowOutcome(s, ws[j]).Done? {
        if j < |bs[0]| {
          assert ws[j] == bs[0][j];
          assert Outs(s, bs[0])[j] == WindowOutcome(s, bs[0][j]);
        } else {
          assert ws[j] == rest[j - |bs[0]|];
        }
      }
    } else {
      i :| 0 <= i < |bs[0]| && Outs(s, bs[0])[i] == Failed(first.error) &&
        forall j :: 0 <= j < i ==> Outs(s, bs[0])[j].Done?;
      assert ws[i] == bs[0][i];
      forall j | 0 <= j < i ensures WindowOutcome(s, ws[j]).Done? {
        assert ws[j] == bs[0][j];
        assert Outs(s, bs[0])[j] == WindowOutcome(s, bs[0][j]);
      }
    }
  }

  /** A failed run of batches issues the queries of a prefix of the batches. */
  lemma {:induction false} FailedCalls<E>(s: Scan<E>, bs: seq<seq<Window>>) returns (m: nat)
    requires ScanBatches(s, bs).Failed?
    ensures 0 < m <= |bs| && ScanCalls(s, bs) == BatchCalls(s, Concat(bs[..m]))
    ensures forall b :: 0 <= b < m - 1 ==> Settle(Outs(s, bs[b])).Done?
    ensures Settle(Outs(s, bs[m - 1])).Failed?
  {
    var first := Settle(Outs(s, bs[0]));
    SettleMeaning(Outs(s, bs[0]));
    if first.Done? {
      var k := FailedCalls(s, bs[1..]);
      m := k + 1;
      assert bs[..m] == [bs[0]] + bs[1..][..k];
      assert Concat(bs[..m]) == bs[0] + Concat(bs[1..][..k]);
      BatchCallsConcat(s, bs[0], Concat(bs[1..][..k]));
      assert forall b :: 0 < b < m ==> bs[b] == bs[1..][b - 1];
    } else {
      m := 1;
      assert bs[..1] == [bs[0]];
      assert Concat(bs[..1]) == bs[0] + Concat(bs[1..1]);
      assert Concat(bs[..1]) == bs[0];
      assert bs[0] + [] == bs[0];
      assert BatchCalls(s, bs[0]) + [] == BatchCalls(s, bs[0]);
    }
  }

  /** A failed scan reports the error of the first window whose query failed,
      every earlier window having succeeded, and issues no query beyond the
      batch holding that window. */
  lemma ScanFailure<E>(c: Collector, params: seq<Param>, blocks: int, requests: int,
                       latest: int, retries: nat, provider: Provider<E>)
    requires EventsOutcome(c, params, blocks, requests, latest, retries, provider).Failed?
    ensures Terminates(c.from, Upper(c, latest), blocks, requests)
    ensures var s := ScanOf(c, params, retries, provider);
      var ws := AllWindows(c, blocks, requests, latest);
      var e := EventsOutcome(c, params, blocks, requests, latest, retries, provider).error;
      exists i :: 0 <= i < |ws| && WindowOutcome(s, ws[i]) == Failed(e) &&
        forall j :: 0 <= j < i ==> WindowOutcome(s, ws[j]).Done?
    ensures var s := ScanOf(c, params, retries, provider);
      var bs := Batches(c.from, Upper(c, latest), blocks, requests);
      exists m :: 0 < m <= |bs| &&
        EventsCalls(c, params, blocks, requests, latest, retries, provider) == BatchCalls(s, Concat(bs[..m])) &&
        Settle(Outs(s, bs[m - 1])).Failed? &&
        forall b :: 0 <= b < m - 1 ==> Settle(Outs(s, bs[b])).Done?
  {
    var s := ScanOf(c, params, retries, provider);
    var bs := Batches(c.from, Upper(c, latest), blocks, requests);
    assert ScanBatches(s, bs).Failed?;
    assert AllWindows(c, blocks, requests, latest) == Concat(bs);
    assert ScanBatches(s, bs).error == EventsOutcome(c, params, blocks, requests, latest, retries, provider).error;
    var i := FailedWindow(s, bs);
    var m := FailedCalls(s, bs);
  }

  lemma {:induction false} BatchCallsShape<E>(s: Scan<E>, ws: seq<Window>)
    ensures forall k :: 0 <= k < |BatchCalls(s, ws)| ==>
      BatchCalls(s, ws)[k].query.contract == s.contract &&
      BatchCalls(s, ws)[k].query.filter == s.filter &&
      BatchCalls(s, ws)[k].query.window in ws &&
      BatchCalls(s, ws)[k].attempt < s.retries
  {
    if ws != [] {
      BatchCallsShape(s, ws[1..]);
      var w := ws[0];
      RetryMeaning(Attempts(s, w), s.retries);
      var b := BatchCalls(s, ws);
      var wc := WindowCalls(s, w);
      var tail := BatchCalls(s, ws[1..]);
      assert b == wc + tail;
      forall k | 0 <= k < |b|
        ensures b[k].query.contract == s.contract && b[k].query.filter == s.filter &&
          b[k].query.window in ws && b[k].attempt < s.retries
      {
        if k < |wc| {
          assert b[k] == wc[k] == Call(QueryOf(s, w), k);
        } else {
          assert b[k] == tail[k - |wc|];
          assert tail[k - |wc|].query.window in ws[1..];
        }
      }
    }
  }

  lemma {:induction false} ScanCallsShape<E>(s: Scan<E>, bs: seq<seq<Window>>)
    ensures forall k :: 0 <= k < |ScanCalls(s, bs)| ==>
      ScanCalls(s, bs)[k].query.contract == s.contract &&
      ScanCalls(s, bs)[k].query.filter == s.filter &&
      ScanCalls(s, bs)[k].query.window in Concat(bs) &&
      ScanCalls(s, bs)[k].attempt < s.retries
  {
    if bs != [] {
      ScanCallsShape(s, bs[1..]);
      BatchCallsShape(s, bs[0]);
      var all := ScanCalls(s, bs);
      var head := BatchCalls(s, bs[0]);
      assert Concat(bs) == bs[0] + Concat(bs[1..]);
      assert forall k :: 0 <= k < |head| ==> all[k] == head[k];
      if Settle(Outs(s, bs[0])).Done? {
        assert forall k :: |head| <= k < |all| ==> all[k] == ScanCalls(s, bs[1..])[k - |head|];
      }
    }
  }

  /** Every provider call of a scan queries the collector's contract with the
      subclass's filter built from the given parameters, over one window of the
      clamped range, and no window gets more than `retries` attempts. */
  lemma ScanCallsWellFormed<E>(c: Collector, params: seq<Param>, blocks: int, requests: int,
                               latest: int, retries: nat, provider: Provider<E>)
    ensures var calls := EventsCalls(c, params, blocks, requests, latest, retries, provider);
      forall k :: 0 <= k < |calls| ==>
        calls[k].query.contract == c.contract &&
        calls[k].query.filter == Filter(c.kind, params) &&
        Min(c.to, latest) >= calls[k].query.window.to &&
        c.from <= calls[k].query.window.from &&
        calls[k].attempt < retries
  {
    var hi := Upper(c, latest);
    if Terminates(c.from, hi, blocks, requests) {
      var s := ScanOf(c, params, retries, provider);
      var bs := Batches(c.from, hi, blocks, requests);
      ScanCallsShape(s, bs);
      if c.from <= hi {
        ChunkShape(Partition(c.from, hi, blocks), requests);
        PartitionCovers(c.from, hi, blocks);
      }
    }
  }
}
