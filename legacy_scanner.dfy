/** The older Transfer-only scanner of src/transfer-collector.ts. It runs the
    same clamp, partition and batch loop as the range scanner, always with the
    bare `Transfer()` filter and with a fixed three attempts per window. */
module LegacyScanner {
  import opened Common
  import opened Utils
  import opened Scanner

  /** The fixed attempt count of this collector's `queryFilter`. */
  const LegacyRetries: nat := 3

  /** A TransferCollector object: a contract and the bounds it was built with. */
  datatype TransferCollector = TransferCollector(contract: Address, from: int, to: int)

  /** The same object seen as a range collector over Transfer events. */
  function AsCollector(t: TransferCollector): Collector
  {
    Collector(t.contract, Transfer, t.from, t.to)
  }

  /** `getEvents`: the range scan with `Transfer()` (no argument), the
      configured window size and batch size, and three attempts per window. */
  method GetEvents<E>(t: TransferCollector, cfg: Config, latest: int, provider: Provider<E>)
    returns (r: Outcome<CollectResult<E>>, calls: seq<Call>)
    ensures r == EventsOutcome(AsCollector(t), [], cfg.collectBlocks, cfg.collectRequests,
                               latest, LegacyRetries, provider)
    ensures r.Done? ==> r.value.from == t.from && r.value.to == t.to
    ensures forall k :: 0 <= k < |calls| ==>
      calls[k].query.contract == t.contract &&
      calls[k].query.filter == Filter(Transfer, []) &&
      t.from <= calls[k].query.window.from &&
      calls[k].query.window.to <= Min(t.to, latest) &&
      calls[k].attempt < LegacyRetries
  {
    r, calls := Scanner.GetEvents(AsCollector(t), [], cfg.collectBlocks, cfg.collectRequests,
                                  latest, LegacyRetries, provider);
    ScanCallsWellFormed(AsCollector(t), [], cfg.collectBlocks, cfg.collectRequests,
                        latest, LegacyRetries, provider);
  }
}
