/** Types shared by every part of the model: addresses, the outcome of an
    asynchronous computation, the configuration values the program reads from
    its global configuration, and the two ways the program waits for several
    promises at once. */
module Common {

  /** An Ethereum address or a hash, as text. */
  type Address = string

  datatype Option<+T> = None | Some(value: T)

  /** The result of a synchronous call that may throw. */
  datatype Result<+T> = Ok(value: T) | Err(error: Error)

  /** What an asynchronous computation comes to: it resolves, it rejects, or it
      never settles (a promise nobody resolves, a loop that never ends). */
  datatype Outcome<+T> = Done(value: T) | Failed(error: Error) | Pending

  /** The exceptions the modelled code throws or lets through. */
  datatype Error =
    | RpcError(reason: string)       // a provider or contract call rejected
    | NoSwapEventEmitted             // 'no swap event emitted!'
    | DecodeFailed                   // the router cannot parse the call data
    | TypeError(what: string)        // a property read on `undefined`
    | InitFailed                     // 'init CoinGecko failed'
    | FetchPriceFailed(id: string)   // 'fetch <id> price fail'

  /** The values the program reads from its global configuration. */
  datatype Config = Config(
    factory: Address,            // uniswap.factory.address
    factoryDeployBlock: int,     // uniswap.factory.deployBlock
    router: Address,             // uniswap.router.address
    retry: nat,                  // eth.retry
    collectBlocks: int,          // collect.blocks
    collectRequests: int,        // collect.requests
    collectBatch: int,           // collect.batch
    collectLimit: int)           // collect.limit

  /** An inclusive block range. */
  datatype Window = Window(from: int, to: int)

  /** The value every collector returns: its own bounds and the events found. */
  datatype CollectResult<E> = CollectResult(from: int, to: int, events: seq<E>)

  function Min(a: int, b: int): (m: int)
    ensures m <= a && m <= b && (m == a || m == b)
  {
    if a > b then b else a
  }

  function Pow10(n: nat): (p: nat)
    ensures p >= 1
  {
    if n == 0 then 1 else 10 * Pow10(n - 1)
  }

  function LowerChar(c: char): char
  {
    if 'A' <= c <= 'Z' then (c as int - 'A' as int + 'a' as int) as char else c
  }

  /** `String.prototype.toLowerCase` restricted to ASCII letters (addresses are hex). */
  function Lower(s: string): (r: string)
    ensures |r| == |s|
  {
    if s == [] then [] else [LowerChar(s[0])] + Lower(s[1..])
  }

  lemma {:induction false} LowerIdempotent(s: string)
    ensures Lower(Lower(s)) == Lower(s)
  {
    if s != [] {
      LowerIdempotent(s[1..]);
      assert Lower(s)[1..] == Lower(s[1..]);
    }
  }

  function Concat<T>(xss: seq<seq<T>>): (r: seq<T>)
  {
    if xss == [] then [] else xss[0] + Concat(xss[1..])
  }

  lemma {:induction false} ConcatAppend<T>(xss: seq<seq<T>>, ys: seq<T>)
    ensures Concat(xss + [ys]) == Concat(xss) + ys
  {
    if xss == [] {
      assert [ys][1..] == [];
    } else {
      assert (xss + [ys])[1..] == xss[1..] + [ys];
      ConcatAppend(xss[1..], ys);
    }
  }

  lemma {:induction false} ConcatSplit<T>(a: seq<seq<T>>, b: seq<seq<T>>)
    ensures Concat(a + b) == Concat(a) + Concat(b)
  {
    if a == [] {
      assert a + b == b;
    } else {
      assert (a + b)[1..] == a[1..] + b;
      ConcatSplit(a[1..], b);
    }
  }

  lemma PrefixOfAppend<T>(a: seq<T>, b: seq<T>)
    ensures a <= a + b
  {
    assert (a + b)[..|a|] == a;
  }

  /** `Promise.all`: resolves with every value, in order, when all resolve;
      rejects as soon as one rejects (in this sequential reading, the first
      rejection in order); otherwise it never settles. */
  function All<T>(rs: seq<Outcome<T>>): (r: Outcome<seq<T>>)
  {
    if rs == [] then Done([])
    else
      var rest := All(rs[1..]);
      match rs[0]
      case Failed(e) => Failed(e)
      case Pending => if rest.Failed? then rest else Pending
      case Done(v) =>
        match rest
        case Done(vs) => Done([v] + vs)
        case Failed(e) => Failed(e)
        case Pending => Pending
  }

  lemma {:induction false} AllMeaning<T>(rs: seq<Outcome<T>>)
    ensures All(rs).Done? <==> forall i :: 0 <= i < |rs| ==> rs[i].Done?
    ensures All(rs).Done? ==>
      |All(rs).value| == |rs| && forall i :: 0 <= i < |rs| ==> All(rs).value[i] == rs[i].value
    ensures All(rs).Failed? ==>
      exists i :: 0 <= i < |rs| && rs[i] == Failed(All(rs).error) &&
        forall j :: 0 <= j < i ==> !rs[j].Failed?
    ensures All(rs).Pending? <==>
      (exists i :: 0 <= i < |rs| && rs[i].Pending?) && forall i :: 0 <= i < |rs| ==> !rs[i].Failed?
  {
    if rs != [] {
      AllMeaning(rs[1..]);
      var rest := All(rs[1..]);
      if All(rs).Failed? && !rs[0].Failed? {
        var i :| 0 <= i < |rs[1..]| && rs[1..][i] == Failed(rest.error) &&
          forall j :: 0 <= j < i ==> !rs[1..][j].Failed?;
        assert rs[i + 1] == Failed(All(rs).error);
        assert forall j :: 0 <= j < i + 1 ==> !rs[j].Failed? by {
          forall j | 0 <= j < i + 1 ensures !rs[j].Failed? {
            if j > 0 { assert rs[j] == rs[1..][j - 1]; }
          }
        }
      }
      if All(rs).Pending? && !rs[0].Pending? {
        var i :| 0 <= i < |rs[1..]| && rs[1..][i].Pending?;
        assert rs[i + 1].Pending?;
      }
      if rs[0].Done? && rest.Done? {
        assert forall i :: 0 < i < |rs| ==> rs[i] == rs[1..][i - 1];
      }
      if !All(rs).Done? {
        if rs[0].Done? {
          assert !rest.Done?;
          var i :| 0 <= i < |rs[1..]| && !rs[1..][i].Done?;
          assert !rs[i + 1].Done?;
        }
      }
      if All(rs).Pending? {
        assert forall i :: 0 < i < |rs| ==> rs[i] == rs[1..][i - 1];
      }
    }
  }

  /** `Promise.allSettled` followed by a `forEach` that appends each fulfilled
      value and throws the reason of the first rejected one: it waits for every
      promise, so one that never settles keeps the whole batch pending; else the
      first rejection in order is thrown; else the values are concatenated. */
  function Settle<T>(rs: seq<Outcome<seq<T>>>): (r: Outcome<seq<T>>)
  {
    if rs == [] then Done([])
    else
      var rest := Settle(rs[1..]);
      match rs[0]
      case Pending => Pending
      case Failed(e) => if rest.Pending? then Pending else Failed(e)
      case Done(v) =>
        match rest
        case Done(vs) => Done(v + vs)
        case Failed(e) => Failed(e)
        case Pending => Pending
  }

  /** `xs` put in front of the values of an outcome that resolves. */
  function Prepend<T>(xs: seq<T>, o: Outcome<seq<T>>): Outcome<seq<T>>
  {
    match o
    case Done(ys) => Done(xs + ys)
    case Failed(e) => Failed(e)
    case Pending => Pending
  }

  lemma PrependEmpty<T>(o: Outcome<seq<T>>)
    ensures Prepend([], o) == o
  {
    if o.Done? {
      assert [] + o.value == o.value;
    }
  }

  lemma PrependAssoc<T>(xs: seq<T>, ys: seq<T>, o: Outcome<seq<T>>)
    ensures Prepend(xs, Prepend(ys, o)) == Prepend(xs + ys, o)
  {
    if o.Done? {
      assert xs + (ys + o.value) == (xs + ys) + o.value;
    }
  }

  /** The value inside each outcome, for a sequence of resolved outcomes. */
  function Values<T>(rs: seq<Outcome<T>>): (vs: seq<T>)
    requires forall i :: 0 <= i < |rs| ==> rs[i].Done?
    ensures |vs| == |rs| && forall i :: 0 <= i < |rs| ==> vs[i] == rs[i].value
  {
    if rs == [] then [] else [rs[0].value] + Values(rs[1..])
  }

  lemma {:induction false} SettleMeaning<T>(rs: seq<Outcome<seq<T>>>)
    ensures Settle(rs).Pending? <==> exists i :: 0 <= i < |rs| && rs[i].Pending?
    ensures Settle(rs).Done? <==> forall i :: 0 <= i < |rs| ==> rs[i].Done?
    ensures Settle(rs).Done? ==> Settle(rs).value == Concat(Values(rs))
    ensures Settle(rs).Failed? ==>
      exists i :: 0 <= i < |rs| && rs[i] == Failed(Settle(rs).error) &&
        forall j :: 0 <= j < i ==> rs[j].Done?
  {
    if rs != [] {
      SettleMeaning(rs[1..]);
      var rest := Settle(rs[1..]);
      assert forall i :: 0 < i < |rs| ==> rs[i] == rs[1..][i - 1];
      if Settle(rs).Pending? && !rs[0].Pending? {
        var i :| 0 <= i < |rs[1..]| && rs[1..][i].Pending?;
        assert rs[i + 1].Pending?;
      }
      if !Settle(rs).Done? && rs[0].Done? {
        var i :| 0 <= i < |rs[1..]| && !rs[1..][i].Done?;
        assert !rs[i + 1].Done?;
      }
      if Settle(rs).Done? {
        assert Values(rs) == [rs[0].value] + Values(rs[1..]);
        assert Values(rs)[1..] == Values(rs[1..]);
      }
      if Settle(rs).Failed? && rs[0].Done? {
        var i :| 0 <= i < |rs[1..]| && rs[1..][i] == Failed(rest.error) &&
          forall j :: 0 <= j < i ==> rs[1..][j].Done?;
        assert rs[i + 1] == Failed(Settle(rs).error);
      }
    }
  }
}
