/** The helpers of src/utils.ts: the window/batch partition of a block range,
    the bounded retry of an asynchronous call, the `0x` prefix helpers, the
    holder-address extraction, the chunked balance lookup and the floor of a
    timestamp to its UTC day. */
module Utils {
  import opened Common

  // ---------------------------------------------------------------------------
  // splitTasks

  /** splitTasks stops exactly when the range is empty or both steps are positive;
      otherwise its outer loop never ends. */
  predicate Terminates(start: int, end: int, length: int, count: int)
  {
    start > end || (length >= 1 && count >= 1)
  }

  /** Reference definition: consecutive windows of `length` blocks from `start`,
      the last one clipped to `end`. */
  function Partition(start: int, end: int, length: int): seq<Window>
    requires start > end || length >= 1
    decreases if start > end then 0 else end - start + 1
  {
    if start > end then []
    else [Window(start, if start + length - 1 >= end then end else start + length - 1)]
         + Partition(start + length, end, length)
  }

  /** Every window holds at least one block, so there are no more windows
      than blocks. */
  lemma {:induction false} PartitionLength(start: int, end: int, length: int)
    requires length >= 1
    ensures |Partition(start, end, length)| <= if start > end then 0 else end - start + 1
    decreases if start > end then 0 else end - start + 1
  {
    if start <= end {
      PartitionLength(start + length, end, length);
    }
  }

  /** Reference definition: groups of `count` consecutive elements, the last
      group holding the rest. */
  function Chunk<T>(xs: seq<T>, count: int): seq<seq<T>>
    requires xs == [] || count >= 1
    decreases |xs|
  {
    if xs == [] then []
    else if |xs| <= count then [xs]
    else [xs[..count]] + Chunk(xs[count..], count)
  }

  /** What splitTasks returns. */
  function Batches(start: int, end: int, length: int, count: int): seq<seq<Window>>
    requires Terminates(start, end, length, count)
  {
    Chunk(Partition(start, end, length), count)
  }

  lemma {:induction false} PartitionDrop(start: int, end: int, length: int, k: nat)
    requires length >= 1
    requires k <= |Partition(start, end, length)|
    ensures Partition(start, end, length)[k..] == Partition(start + k * length, end, length)
    decreases k
  {
    if k > 0 {
      var p := Partition(start, end, length);
      assert p[1..] == Partition(start + length, end, length);
      PartitionDrop(start + length, end, length, k - 1);
      assert p[k..] == p[1..][k - 1..];
      assert start + length + (k - 1) * length == start + k * length;
    }
  }

  /** Windows are non-empty, lie inside the range, hold at most `length` blocks,
      are contiguous, start at `start` and end at `end`; the partition is empty
      exactly when the range is. */
  lemma {:induction false} PartitionCovers(start: int, end: int, length: int)
    requires length >= 1
    ensures var p := Partition(start, end, length);
      && (p == [] <==> start > end)
      && (p != [] ==> p[0].from == start && p[|p| - 1].to == end)
      && (forall i :: 0 <= i < |p| ==> start <= p[i].from <= p[i].to <= end)
      && (forall i :: 0 <= i < |p| ==> p[i].to - p[i].from + 1 <= length)
      && (forall i :: 0 <= i < |p| - 1 ==> p[i].to + 1 == p[i + 1].from)
    decreases if start > end then 0 else end - start + 1
  {
    if start <= end {
      PartitionCovers(start + length, end, length);
      var p := Partition(start, end, length);
      var q := Partition(start + length, end, length);
      assert p == [p[0]] + q;
      if q != [] {
        assert p[0].to + 1 == q[0].from;
      }
      assert forall i :: 1 <= i < |p| ==> p[i] == q[i - 1];
    }
  }

  /** Windows are disjoint and in increasing block order. */
  lemma {:induction false} PartitionOrdered(start: int, end: int, length: int)
    requires length >= 1
    ensures var p := Partition(start, end, length);
      forall i, j :: 0 <= i < j < |p| ==> p[i].to < p[j].from
    decreases if start > end then 0 else end - start + 1
  {
    if start <= end {
      PartitionOrdered(start + length, end, length);
      PartitionCovers(start + length, end, length);
      var p := Partition(start, end, length);
      var q := Partition(start + length, end, length);
      assert forall i :: 1 <= i < |p| ==> p[i] == q[i - 1];
      assert forall j :: 0 <= j < |q| ==> p[0].to < q[j].from;
    }
  }

  /** A block is in some window exactly when it is in the range. */
  lemma {:induction false} PartitionMember(start: int, end: int, length: int, b: int)
    requires length >= 1
    ensures var p := Partition(start, end, length);
      start <= b <= end <==> exists i :: 0 <= i < |p| && p[i].from <= b <= p[i].to
    decreases if start > end then 0 else end - start + 1
  {
    PartitionCovers(start, end, length);
    if start <= b <= end {
      var p := Partition(start, end, length);
      if !(p[0].from <= b <= p[0].to) {
        PartitionMember(start + length, end, length, b);
        var q := Partition(start + length, end, length);
        var i :| 0 <= i < |q| && q[i].from <= b <= q[i].to;
        assert p[i + 1] == q[i];
      }
    }
  }

  /** Every batch is non-empty and holds at most `count` windows, all but the last
      hold exactly `count`, and together, in order, they are the input. */
  lemma {:induction false} ChunkShape<T>(xs: seq<T>, count: int)
    requires count >= 1
    ensures var c := Chunk(xs, count);
      && Concat(c) == xs
      && (forall i :: 0 <= i < |c| ==> 1 <= |c[i]| <= count)
      && (forall i :: 0 <= i < |c| - 1 ==> |c[i]| == count)
    decreases |xs|
  {
    if xs != [] && |xs| > count {
      ChunkShape(xs[count..], count);
      var c := Chunk(xs, count);
      assert c[1..] == Chunk(xs[count..], count);
      assert xs == xs[..count] + xs[count..];
    }
  }

  lemma PositiveProduct(a: int, b: int)
    requires a >= 1 && b >= 1
    ensures a * b >= 1
  {
  }

  lemma MulMonotonic(a: int, b: int, c: int)
    requires a <= b && c >= 0
    ensures a * c <= b * c
  {
  }

  lemma MulCancel(a: int, b: int, c: int)
    requires c >= 1 && a * c < c * b
    ensures a < b
  {
    if a >= b {
      MulMonotonic(b, a, c);
    }
  }

  /** One step of the outer loop of splitTasks: the first batch is the first
      `count` windows (or all of them), and the rest start `length * count`
      blocks further on. */
  lemma ChunkStep(i: int, end: int, length: int, count: int)
    requires i <= end && length >= 1 && count >= 1
    ensures var p := Partition(i, end, length);
      var n := if |p| < count then |p| else count;
      Chunk(p, count) == [p[..n]] + Chunk(Partition(i + length * count, end, length), count)
  {
    var p := Partition(i, end, length);
    var next := i + length * count;
    assert next == i + count * length;
    if |p| > count {
      PartitionDrop(i, end, length, count);
      assert p[count..] == Partition(next, end, length);
    } else {
      assert p[..|p|] == p;
      PartitionDrop(i, end, length, |p|);
      var after := i + |p| * length;
      assert Partition(after, end, length) == [];
      PartitionCovers(after, end, length);
      MulMonotonic(|p|, count, length);
      assert after <= next;
      assert Partition(next, end, length) == [];
    }
  }

  lemma PartitionHead(j: int, end: int, length: int)
    requires j <= end && length >= 1
    ensures var q := Partition(j, end, length);
      |q| >= 1 &&
      q[0] == Window(j, if j + length - 1 >= end then end else j + length - 1) &&
      q[1..] == Partition(j + length, end, length)
  {
  }

  /** When the inner loop of splitTasks stops, it has produced the first batch. */
  lemma BatchDone(i: int, j: int, end: int, length: int, count: int, tasks: seq<Window>)
    requires length >= 1 && count >= 1 && |tasks| <= count
    requires j == i + |tasks| * length
    requires Partition(i, end, length) == tasks + Partition(j, end, length)
    requires !(j < i + length * count && j <= end)
    ensures var p := Partition(i, end, length);
      tasks == p[..if |p| < count then |p| else count]
  {
    var p := Partition(i, end, length);
    var k := |tasks|;
    assert p[..k] == tasks;
    if k < count {
      ShortBatchPastEnd(i, j, end, length, count, k);
      assert Partition(j, end, length) == [];
      assert p[..k] == p;
    }
  }

  /** A batch that stopped before `count` windows stopped at the end. */
  lemma ShortBatchPastEnd(i: int, j: int, end: int, length: int, count: int, k: int)
    requires length >= 1 && 0 <= k < count
    requires j == i + k * length
    requires !(j < i + length * count && j <= end)
    ensures j > end
  {
    MulMonotonic(k + 1, count, length);
    assert (k + 1) * length == k * length + length;
    assert count * length == length * count;
  }

  /** The inner loop of splitTasks: the windows of one batch, starting at `i`. */
  method FirstBatch(i: int, end: int, length: int, count: int) returns (tasks: seq<Window>)
    requires i <= end && length >= 1 && count >= 1
    ensures var p := Partition(i, end, length);
      tasks == p[..if |p| < count then |p| else count]
  {
    PositiveProduct(length, count);
    tasks := [];
    var j := i;
    while j < i + length * count && j <= end
      invariant |tasks| <= count
      invariant j == i + |tasks| * length
      invariant Partition(i, end, length) == tasks + Partition(j, end, length)
      decreases count - |tasks|
    {
      MulCancel(|tasks|, count, length);
      PartitionHead(j, end, length);
      tasks := tasks + [Window(j, if j + length - 1 >= end then end else j + length - 1)];
      j := j + length;
    }
    BatchDone(i, j, end, length, count, tasks);
  }

  method SplitTasks(start: int, end: int, length: int, count: int) returns (result: seq<seq<Window>>)
    requires Terminates(start, end, length, count)
    ensures result == Batches(start, end, length, count)
  {
    result := [];
    var i := start;
    while i <= end
      invariant i <= end ==> length >= 1 && count >= 1
      invariant result + Chunk(Partition(i, end, length), count) == Batches(start, end, length, count)
      decreases if i > end then 0 else end - i + 1
    {
      var tasks := FirstBatch(i, end, length, count);
      ChunkStep(i, end, length, count);
      assert result + [tasks] + Chunk(Partition(i + length * count, end, length), count)
          == result + ([tasks] + Chunk(Partition(i + length * count, end, length), count));
      result := result + [tasks];
      i := i + length * count;
    }
  }

  // ---------------------------------------------------------------------------
  // retry

  /** What `retry` comes to when attempt number `k` (from 0) of the wrapped call
      has outcome `attempt(k)` and `times` attempts are allowed: the first success
      resolves, the last failure rejects, and with no attempts the promise never
      settles. `Failures` is what is passed to the error callback. */
  function RetryOutcome<T>(attempt: nat -> Result<T>, times: nat): Outcome<T>
  {
    if times == 0 then Pending else RetryFrom(attempt, 0, times)
  }

  function RetryFrom<T>(attempt: nat -> Result<T>, k: nat, times: nat): Outcome<T>
    requires k < times
    decreases times - k
  {
    match attempt(k)
    case Ok(v) => Done(v)
    case Err(e) => if k + 1 == times then Failed(e) else RetryFrom(attempt, k + 1, times)
  }

  /** The number of calls `retry` makes: up to the first success, at most `times`. */
  function RetryCalls<T>(attempt: nat -> Result<T>, times: nat, k: nat): nat
    requires k <= times
    decreases times - k
  {
    if k == times then k
    else if attempt(k).Ok? then k + 1
    else RetryCalls(attempt, times, k + 1)
  }

  /** `retry` resolves with the first success among the first `times` attempts,
      after which it makes no further call; it rejects with the error of the last
      attempt when all `times` fail; it never settles when `times` is 0. */
  lemma {:induction false} RetryMeaning<T>(attempt: nat -> Result<T>, times: nat)
    ensures var r, n := RetryOutcome(attempt, times), RetryCalls(attempt, times, 0);
      && n <= times
      && (r.Pending? <==> times == 0)
      && (forall j :: 0 <= j < n - 1 ==> attempt(j).Err?)
      && (r.Done? <==> exists k :: 0 <= k < times && attempt(k).Ok?)
      && (r.Done? ==> n >= 1 && attempt(n - 1) == Ok(r.value))
      && (r.Failed? ==> (n == times && attempt(times - 1) == Err(r.error)
            && forall j :: 0 <= j < times ==> attempt(j).Err?))
  {
    if times > 0 {
      RetryFromMeaning(attempt, 0, times);
    }
  }

  lemma {:induction false} RetryFromMeaning<T>(attempt: nat -> Result<T>, k: nat, times: nat)
    requires k < times
    ensures var r, n := RetryFrom(attempt, k, times), RetryCalls(attempt, times, k);
      && k < n <= times
      && !r.Pending?
      && (forall j :: k <= j < n - 1 ==> attempt(j).Err?)
      && (r.Done? <==> exists j :: k <= j < times && attempt(j).Ok?)
      && (r.Done? ==> attempt(n - 1) == Ok(r.value))
      && (r.Failed? ==> (n == times && attempt(times - 1) == Err(r.error)
            && forall j :: k <= j < times ==> attempt(j).Err?))
    decreases times - k
  {
    if attempt(k).Err? && k + 1 < times {
      RetryFromMeaning(attempt, k + 1, times);
    }
  }

  method Retry<T>(attempt: nat -> Result<T>, times: nat) returns (r: Outcome<T>, errors: seq<Error>)
    ensures r == RetryOutcome(attempt, times)
    ensures var n := RetryCalls(attempt, times, 0);
      |errors| == (if r.Done? then n - 1 else n) &&
      forall j :: 0 <= j < |errors| ==> attempt(j) == Err(errors[j])
  {
    r := Pending;
    errors := [];
    var left := times;
    var calls := 0;
    var done := false;
    while left != 0 && !done
      invariant calls + left == times
      invariant done <==> r.Done?
      invariant !done ==> |errors| == calls
      invariant done ==> |errors| + 1 == calls
      invariant forall j :: 0 <= j < |errors| ==> attempt(j) == Err(errors[j])
      invariant r.Failed? ==> left == 0
      invariant times == 0 ==> r.Pending?
      invariant r.Pending? && times > 0 ==> (left > 0 &&
        RetryFrom(attempt, 0, times) == RetryFrom(attempt, calls, times) &&
        RetryCalls(attempt, times, 0) == RetryCalls(attempt, times, calls))
      invariant !r.Pending? ==> (times > 0 &&
        r == RetryFrom(attempt, 0, times) && calls == RetryCalls(attempt, times, 0))
      decreases left
    {
      left := left - 1;
      var a := attempt(calls);
      calls := calls + 1;
      match a
      case Ok(v) =>
        r := Done(v);
        done := true;
      case Err(e) =>
        errors := errors + [e];
        if left == 0 {
          r := Failed(e);
        }
    }
  }

  // ---------------------------------------------------------------------------
  // strip0x / add0x

  predicate Has0x(s: string)
  {
    |s| >= 2 && s[..2] == "0x"
  }

  function Strip0x(s: string): string
  {
    if Has0x(s) then s[2..] else s
  }

  function Add0x(s: string): string
  {
    if Has0x(s) then s else "0x" + s
  }

  lemma Add0xPrefixed(s: string)
    ensures Has0x(Add0x(s))
    ensures Add0x(Add0x(s)) == Add0x(s)
  {
    if !Has0x(s) {
      assert ("0x" + s)[..2] == "0x";
    }
  }

  lemma Strip0xAdd0x(s: string)
    ensures Strip0x(Add0x(s)) == Strip0x(s)
    ensures !Has0x(s) ==> Strip0x(s) == s && Add0x(s)[2..] == s
  {
    if !Has0x(s) {
      assert ("0x" + s)[..2] == "0x";
      assert ("0x" + s)[2..] == s;
    }
  }

  // ---------------------------------------------------------------------------
  // extractTransferAddress

  const ZeroAddress: Address := "0x0000000000000000000000000000000000000000"

  /** The decoded arguments of an ERC-20 Transfer(from, to, value) event. */
  datatype TransferArgs = TransferArgs(from: Address, to: Address, value: int)

  /** A Transfer event as the provider returns it; `args` is absent when the log
      could not be decoded. */
  datatype TransferEvent = TransferEvent(blockNumber: int, transactionHash: string, args: Option<TransferArgs>)

  datatype Extracted = Extracted(from: int, to: int, addresses: seq<Address>)

  /** `args[0]` and `args[1]` of every event that has arguments, in order. */
  function Participants(events: seq<TransferEvent>): seq<Address>
  {
    if events == [] then []
    else
      var last := events[|events| - 1];
      Participants(events[..|events| - 1]) +
        (match last.args case Some(a) => [a.from, a.to] case None => [])
  }

  predicate NoDuplicates<T(==)>(xs: seq<T>)
  {
    forall i, j :: 0 <= i < j < |xs| ==> xs[i] != xs[j]
  }

  function IndexOf<T(==)>(xs: seq<T>, x: T): (k: nat)
    requires x in xs
    ensures k < |xs| && xs[k] == x && forall j :: 0 <= j < k ==> xs[j] != x
  {
    if xs[0] == x then 0 else 1 + IndexOf(xs[1..], x)
  }

  /** The elements of `r` appear in `xs`, in the order of their first occurrence there. */
  predicate InFirstOccurrenceOrder<T(==)>(r: seq<T>, xs: seq<T>)
  {
    (forall i :: 0 <= i < |r| ==> r[i] in xs) &&
    forall i, j :: 0 <= i < j < |r| ==> IndexOf(xs, r[i]) < IndexOf(xs, r[j])
  }

  lemma IndexOfPrefix<T>(xs: seq<T>, y: T, x: T)
    requires x in xs
    ensures x in xs + [y] && IndexOf(xs + [y], x) == IndexOf(xs, x)
  {
    var k := IndexOf(xs, x);
    var k' := IndexOf(xs + [y], x);
    assert (xs + [y])[k] == x;
  }

  /** `Array.from(new Set(xs))`: the distinct elements, each at its first occurrence. */
  function Unique(xs: seq<Address>): (r: seq<Address>)
    ensures NoDuplicates(r)
    ensures forall x :: x in r <==> x in xs
    ensures InFirstOccurrenceOrder(r, xs)
  {
    if xs == [] then []
    else
      var init := xs[..|xs| - 1];
      var y := xs[|xs| - 1];
      var u := Unique(init);
      assert xs == init + [y];
      forall x | x in init ensures IndexOf(xs, x) == IndexOf(init, x) {
        IndexOfPrefix(init, y, x);
      }
      if y in u then u
      else
        assert y !in init;
        assert IndexOf(xs, y) == |init|;
        u + [y]
  }

  /** `xs.filter(x => x !== a)`. */
  function Without(xs: seq<Address>, a: Address): (r: seq<Address>)
    ensures forall x :: x in r <==> x in xs && x != a
  {
    if xs == [] then []
    else
      var init := xs[..|xs| - 1];
      var y := xs[|xs| - 1];
      assert xs == init + [y];
      if y == a then Without(init, a) else Without(init, a) + [y]
  }

  /** The last element of a distinct sequence in first-occurrence order comes
      after every other. */
  lemma LastComesLast(u: seq<Address>, xs: seq<Address>)
    requires u != [] && NoDuplicates(u) && InFirstOccurrenceOrder(u, xs)
    ensures forall x :: x in u[..|u| - 1] ==> x != u[|u| - 1] && IndexOf(xs, x) < IndexOf(xs, u[|u| - 1])
  {
    var init := u[..|u| - 1];
    forall x | x in init
      ensures x != u[|u| - 1] && IndexOf(xs, x) < IndexOf(xs, u[|u| - 1])
    {
      var k :| 0 <= k < |init| && init[k] == x;
      assert u[k] == x;
    }
  }

  /** Appending an element that comes after all others keeps both properties. */
  lemma AppendLast(w: seq<Address>, y: Address, xs: seq<Address>)
    requires NoDuplicates(w) && InFirstOccurrenceOrder(w, xs) && y in xs
    requires forall x :: x in w ==> x != y && IndexOf(xs, x) < IndexOf(xs, y)
    ensures NoDuplicates(w + [y]) && InFirstOccurrenceOrder(w + [y], xs)
  {
    var r := w + [y];
    assert forall i :: 0 <= i < |w| ==> r[i] == w[i] && w[i] in w;
  }

  /** Filtering keeps distinctness and the order of first occurrence. */
  lemma {:induction false} WithoutKeepsOrder(u: seq<Address>, xs: seq<Address>, a: Address)
    requires NoDuplicates(u) && InFirstOccurrenceOrder(u, xs)
    ensures NoDuplicates(Without(u, a)) && InFirstOccurrenceOrder(Without(u, a), xs)
  {
    if u != [] {
      var init := u[..|u| - 1];
      var y := u[|u| - 1];
      assert NoDuplicates(init) && InFirstOccurrenceOrder(init, xs) by {
        assert forall i :: 0 <= i < |init| ==> init[i] == u[i];
      }
      WithoutKeepsOrder(init, xs, a);
      if y != a {
        LastComesLast(u, xs);
        AppendLast(Without(init, a), y, xs);
      }
    }
  }

  /** extractTransferAddress: the distinct non-zero senders and recipients of the
      events, in order of first appearance, with the collector's bounds copied. */
  function ExtractTransferAddress(result: CollectResult<TransferEvent>): (r: Extracted)
    ensures r.from == result.from && r.to == result.to
    ensures forall a :: a in r.addresses <==> a in Participants(result.events) && a != ZeroAddress
    ensures NoDuplicates(r.addresses)
    ensures InFirstOccurrenceOrder(r.addresses, Participants(result.events))
  {
    var all := Participants(result.events);
    var addresses := Without(Unique(all), ZeroAddress);
    WithoutKeepsOrder(Unique(all), all, ZeroAddress);
    Extracted(result.from, result.to, addresses)
  }

  // ---------------------------------------------------------------------------
  // getBalances

  const BalanceSteps := 100

  datatype Balance = Balance(address: Address, balance: int)

  /** The slice of at most 100 addresses starting at `i`. */
  function Slice(addresses: seq<Address>, i: nat): seq<Address>
    requires i < |addresses|
  {
    addresses[i..if i + BalanceSteps <= |addresses| then i + BalanceSteps else |addresses|]
  }

  function Lookups(slice: seq<Address>, balanceOf: Address -> Outcome<int>): (os: seq<Outcome<int>>)
    ensures |os| == |slice| && forall k :: 0 <= k < |slice| ==> os[k] == balanceOf(slice[k])
  {
    seq(|slice|, k requires 0 <= k < |slice| => balanceOf(slice[k]))
  }

  /** Each address of a slice paired with the value looked up for it. */
  function Rows(slice: seq<Address>, values: seq<int>): (rows: seq<Balance>)
    requires |values| == |slice|
    ensures |rows| == |slice| && forall k :: 0 <= k < |slice| ==> rows[k] == Balance(slice[k], values[k])
  {
    seq(|slice|, k requires 0 <= k < |slice| => Balance(slice[k], values[k]))
  }

  /** The slices from `i` on, one after another: a slice whose lookups do not
      all resolve ends the run with that slice's outcome. */
  function BalancesFrom(addresses: seq<Address>, balanceOf: Address -> Outcome<int>, i: nat)
    : Outcome<seq<Balance>>
    decreases |addresses| - i
  {
    if i >= |addresses| then Done([])
    else
      var slice := Slice(addresses, i);
      var all := All(Lookups(slice, balanceOf));
      AllMeaning(Lookups(slice, balanceOf));
      match all
      case Done(values) => Prepend(Rows(slice, values), BalancesFrom(addresses, balanceOf, i + BalanceSteps))
      case Failed(e) => Failed(e)
      case Pending => Pending
  }

  /** What getBalances comes to. */
  function BalancesOutcome(addresses: seq<Address>, balanceOf: Address -> Outcome<int>): Outcome<seq<Balance>>
  {
    BalancesFrom(addresses, balanceOf, 0)
  }

  /** The lookups of the slice at `i`, read back in terms of the addresses. */
  lemma SliceMeaning(addresses: seq<Address>, balanceOf: Address -> Outcome<int>, i: nat)
    requires i < |addresses|
    ensures var stop := if i + BalanceSteps <= |addresses| then i + BalanceSteps else |addresses|;
      var all := All(Lookups(Slice(addresses, i), balanceOf));
      (all.Done? <==> forall k :: i <= k < stop ==> balanceOf(addresses[k]).Done?) &&
      (all.Done? ==>
         |all.value| == stop - i &&
         forall k :: 0 <= k < stop - i ==> all.value[k] == balanceOf(addresses[i + k]).value) &&
      (all.Failed? ==> exists k :: i <= k < stop && balanceOf(addresses[k]) == Failed(all.error)) &&
      (all.Pending? ==> exists k :: i <= k < stop && balanceOf(addresses[k]).Pending?)
  {
    var slice := Slice(addresses, i);
    var outcomes := Lookups(slice, balanceOf);
    AllMeaning(outcomes);
    assert forall k :: 0 <= k < |slice| ==> slice[k] == addresses[i + k];
    var all := All(outcomes);
    if all.Failed? {
      var k :| 0 <= k < |outcomes| && outcomes[k] == Failed(all.error) && forall j :: 0 <= j < k ==> !outcomes[j].Failed?;
      assert balanceOf(addresses[i + k]) == Failed(all.error);
    }
    if all.Pending? {
      var k :| 0 <= k < |outcomes| && outcomes[k].Pending?;
      assert balanceOf(addresses[i + k]).Pending?;
    }
    if !all.Done? {
      var k :| 0 <= k < |outcomes| && !outcomes[k].Done?;
      assert !balanceOf(addresses[i + k]).Done?;
    }
  }

  /** The run from slice `i` on resolves exactly when every lookup from `i`
      on resolves, with one balance per address in order; a rejection is the
      rejection of one of those lookups. */
  lemma {:induction false} BalancesFromMeaning(addresses: seq<Address>, balanceOf: Address -> Outcome<int>, i: nat)
    ensures BalancesFrom(addresses, balanceOf, i).Done? <==>
      forall k :: i <= k < |addresses| ==> balanceOf(addresses[k]).Done?
    ensures BalancesFrom(addresses, balanceOf, i).Done? ==>
      var vs := BalancesFrom(addresses, balanceOf, i).value;
      |vs| == (if i >= |addresses| then 0 else |addresses| - i) &&
      forall k :: 0 <= k < |vs| ==> vs[k] == Balance(addresses[i + k], balanceOf(addresses[i + k]).value)
    ensures BalancesFrom(addresses, balanceOf, i).Failed? ==>
      exists k :: i <= k < |addresses| && balanceOf(addresses[k]) == Failed(BalancesFrom(addresses, balanceOf, i).error)
    decreases |addresses| - i
  {
    if i < |addresses| {
      var slice := Slice(addresses, i);
      SliceMeaning(addresses, balanceOf, i);
      BalancesFromMeaning(addresses, balanceOf, i + BalanceSteps);
      var r := BalancesFrom(addresses, balanceOf, i);
      var h := BalancesFrom(addresses, balanceOf, i + BalanceSteps);
      var all := All(Lookups(slice, balanceOf));
      if all.Done? {
        assert r == Prepend(Rows(slice, all.value), h);
        if !r.Done? {
          var k :| i + BalanceSteps <= k < |addresses| && !balanceOf(addresses[k]).Done?;
        }
        if r.Failed? {
          var k :| i + BalanceSteps <= k < |addresses| && balanceOf(addresses[k]) == Failed(r.error);
        }
        if r.Done? {
          var vs := r.value;
          var n := |slice|;
          assert vs == Rows(slice, all.value) + h.value;
          forall k | 0 <= k < |vs|
            ensures vs[k] == Balance(addresses[i + k], balanceOf(addresses[i + k]).value)
          {
            if k >= n {
              assert vs[k] == h.value[k - n];
              assert n == BalanceSteps;
            }
          }
        }
      } else if all.Failed? {
        assert r == Failed(all.error);
      } else {
        assert r == Pending;
      }
    }
  }

  /** getBalances: the balance of every address, in input order, looked up in
      slices of 100 addresses whose lookups are awaited together. A slice whose
      lookups do not all resolve stops the loop; `slices` counts the slices issued. */
  method GetBalances(addresses: seq<Address>, balanceOf: Address -> Outcome<int>)
    returns (r: Outcome<seq<Balance>>, slices: nat)
    ensures r == BalancesOutcome(addresses, balanceOf)
    ensures r.Done? ==> slices == (|addresses| + BalanceSteps - 1) / BalanceSteps
  {
    var result: seq<Balance> := [];
    var i := 0;
    slices := 0;
    PrependEmpty(BalancesOutcome(addresses, balanceOf));
    while i < |addresses|
      invariant 0 <= i <= |addresses| + BalanceSteps - 1
      invariant i == slices * BalanceSteps
      invariant BalancesOutcome(addresses, balanceOf) == Prepend(result, BalancesFrom(addresses, balanceOf, i))
      decreases |addresses| - i
    {
      var slice := Slice(addresses, i);
      var outcomes := Lookups(slice, balanceOf);
      var all := All(outcomes);
      slices := slices + 1;
      match all {
      case Done(values) =>
        AllMeaning(outcomes);
        var rows := Rows(slice, values);
        PrependAssoc(result, rows, BalancesFrom(addresses, balanceOf, i + BalanceSteps));
        result := result + rows;
      case Failed(e) =>
        r := Failed(e);
        return;
      case Pending =>
        r := Pending;
        return;
      }
      i := i + BalanceSteps;
    }
    assert result + [] == result;
    r := Done(result);
  }

  // ---------------------------------------------------------------------------
  // timestampToDateTimestamp

  const SecondsPerDay := 86400

  /** The start of the UTC day holding `timestamp` (seconds), as computed by a
      host whose local time zone is UTC. */
  function TimestampToDateTimestamp(timestamp: int): (day: int)
    ensures day % SecondsPerDay == 0
    ensures day <= timestamp < day + SecondsPerDay
  {
    timestamp - timestamp % SecondsPerDay
  }

  /** The day start is the only multiple of a day at most one day below the timestamp. */
  lemma DayStartUnique(timestamp: int, d: int)
    requires d % SecondsPerDay == 0 && d <= timestamp < d + SecondsPerDay
    ensures d == TimestampToDateTimestamp(timestamp)
  {
    var day := TimestampToDateTimestamp(timestamp);
    assert d == (d / SecondsPerDay) * SecondsPerDay;
    assert day == (day / SecondsPerDay) * SecondsPerDay;
    assert d / SecondsPerDay == day / SecondsPerDay;
  }

  lemma DayStartIdempotent(timestamp: int)
    ensures TimestampToDateTimestamp(TimestampToDateTimestamp(timestamp)) == TimestampToDateTimestamp(timestamp)
  {
    var day := TimestampToDateTimestamp(timestamp);
    DayStartUnique(day, day);
  }

  lemma DayStartExample()
    ensures TimestampToDateTimestamp(1617171792) == 1617148800
  {
  }
}
