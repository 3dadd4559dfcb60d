/** `load_swap_tick_arrays`, and the part of `swap` that quotes over the arrays it loads. */
module Discovery {
  import opened Wrappers
  import opened TickWalk
  import opened TickArrays
  import opened QuoteSwap

  const MAX_SWAP_TICK_ARRAYS := 6
  const TICK_ARRAY_DISCOVERY_LIMIT := 24

  type Key = int

  /** An account as fetched: not a tick array of the program, or a decoded one. */
  datatype Account = Undecodable | Decoded(poolKey: Key, content: TickArray)

  datatype LoadError = NoRoute | RpcDown | MissingAccount | MalformedAccount

  datatype SwapError = Load(load: LoadError) | Quoting(quote: QuoteError) | TooManyArrays | UnfetchedArray

  /** The accounts of the network by address. A failed `fetch_optional` is `None`. */
  type Fetched = Option<map<Key, Account>>

  predicate GoodAccount(accounts: map<Key, Account>, key: Key, poolKey: Key, start: int) {
    && key in accounts && accounts[key].Decoded?
    && accounts[key].poolKey == poolKey && accounts[key].content.start == start
  }

  /** A tick-array account of the pool holds what the pool's array of that start holds. */
  ghost predicate ChainMatchesPool(pool: Pool, poolKey: Key, accounts: map<Key, Account>) {
    forall k, a :: k in accounts && a in pool.arrays ==>
      GoodAccount(accounts, k, poolKey, a.start) ==> accounts[k].content == a
  }

  function Addresses(address: int -> Key, starts: seq<int>): (keys: seq<Key>)
    ensures |keys| == |starts| && forall i :: 0 <= i < |starts| ==> keys[i] == address(starts[i])
  {
    seq(|starts|, i requires 0 <= i < |starts| => address(starts[i]))
  }

  datatype Loaded = Loaded(arrays: seq<TickArray>, keys: seq<Key>)

  /** The bitmap walk of `load_swap_tick_arrays`. */
  method DiscoverStarts(pool: Pool, order: Order, first: int, limit: nat) returns (starts: seq<int>)
    requires limit > 0
    ensures starts == Discover(pool, order, first, limit)
  {
    var start := first;
    starts := [start];
    DiscoverOne(pool, order, first);
    for i := 1 to limit
      invariant |starts| == i && starts[i - 1] == start
      invariant starts == Discover(pool, order, first, i)
    {
      DiscoverStep(pool, order, first, i);
      var next := NextStart(pool.arrays, order, start);
      if next.None? {
        DiscoverPrefix(pool, order, first, i + 1, limit);
        break;
      }
      starts := starts + [next.value];
      start := next.value;
    }
  }

  /** The arrays of these starts are all there. */
  predicate AllGood(accounts: map<Key, Account>, address: int -> Key, poolKey: Key, starts: seq<int>) {
    forall s :: s in starts ==> GoodAccount(accounts, address(s), poolKey, s)
  }

  /** The first start whose account is not good decides the error. */
  predicate FirstBad(accounts: map<Key, Account>, address: int -> Key, poolKey: Key, starts: seq<int>, k: nat,
                     e: LoadError) {
    && k < |starts| && AllGood(accounts, address, poolKey, starts[..k])
    && (if address(starts[k]) !in accounts then e == MissingAccount
        else e == MalformedAccount && !GoodAccount(accounts, address(starts[k]), poolKey, starts[k]))
  }

  /** Exactly why loading fails. */
  ghost predicate LoadFails(pool: Pool, order: Order, poolKey: Key, address: int -> Key, fetched: Fetched, limit: nat,
                            e: LoadError)
    requires pool.span > 0
  {
    match FirstArray(pool, order)
    case None => e == NoRoute
    case Some(f) =>
      if fetched.None? then e == RpcDown
      else exists k: nat :: FirstBad(fetched.value, address, poolKey, Discover(pool, order, f.start, limit), k, e)
  }

  /** Loading succeeds exactly when there is a route, the accounts are fetched, and each of them is good. */
  ghost predicate Loads(pool: Pool, order: Order, poolKey: Key, address: int -> Key, fetched: Fetched, limit: nat)
    requires pool.span > 0
  {
    && FirstArray(pool, order).Some? && fetched.Some?
    && AllGood(fetched.value, address, poolKey, Discover(pool, order, FirstArray(pool, order).value.start, limit))
  }

  /** There is one reason at most, and none exactly when loading succeeds. */
  lemma LoadFailsUnless(pool: Pool, order: Order, poolKey: Key, address: int -> Key, fetched: Fetched, limit: nat,
                        e: LoadError, e': LoadError)
    requires pool.span > 0 && LoadFails(pool, order, poolKey, address, fetched, limit, e)
    ensures !Loads(pool, order, poolKey, address, fetched, limit)
    ensures LoadFails(pool, order, poolKey, address, fetched, limit, e') ==> e == e'
  {
    if FirstArray(pool, order).Some? && fetched.Some? {
      var starts := Discover(pool, order, FirstArray(pool, order).value.start, limit);
      var k: nat :| FirstBad(fetched.value, address, poolKey, starts, k, e);
      FirstBadOnce(fetched.value, address, poolKey, starts, k, e, k, e);
      if LoadFails(pool, order, poolKey, address, fetched, limit, e') {
        var k': nat :| FirstBad(fetched.value, address, poolKey, starts, k', e');
        FirstBadOnce(fetched.value, address, poolKey, starts, k, e, k', e');
      }
    }
    hide FirstBad, AllGood;
  }

  lemma FirstBadOnce(accounts: map<Key, Account>, address: int -> Key, poolKey: Key, starts: seq<int>, k: nat,
                     e: LoadError, k': nat, e': LoadError)
    requires FirstBad(accounts, address, poolKey, starts, k, e) && FirstBad(accounts, address, poolKey, starts, k', e')
    ensures e == e' && !AllGood(accounts, address, poolKey, starts)
  {
    FirstBadMeans(accounts, address, poolKey, starts, k, e);
    FirstBadMeans(accounts, address, poolKey, starts, k', e');
    assert starts[k] in starts;
  }

  lemma FirstBadMeans(accounts: map<Key, Account>, address: int -> Key, poolKey: Key, starts: seq<int>, k: nat,
                      e: LoadError)
    requires FirstBad(accounts, address, poolKey, starts, k, e)
    ensures !GoodAccount(accounts, address(starts[k]), poolKey, starts[k])
    ensures forall i :: 0 <= i < k ==> GoodAccount(accounts, address(starts[i]), poolKey, starts[i])
  {
    forall i | 0 <= i < k
      ensures GoodAccount(accounts, address(starts[i]), poolKey, starts[i])
    {
      assert starts[..k][i] == starts[i];
    }
  }

  lemma OneMoreGood(accounts: map<Key, Account>, address: int -> Key, poolKey: Key, starts: seq<int>, k: nat)
    requires k < |starts| && AllGood(accounts, address, poolKey, starts[..k])
    requires GoodAccount(accounts, address(starts[k]), poolKey, starts[k])
    ensures AllGood(accounts, address, poolKey, starts[..k + 1])
  {
    assert starts[..k + 1] == starts[..k] + [starts[k]];
  }

  /** The arrays loaded for these starts. */
  predicate AreAt(arrays: seq<TickArray>, accounts: map<Key, Account>, address: int -> Key, poolKey: Key,
                  starts: seq<int>) {
    && |arrays| == |starts|
    && forall i :: 0 <= i < |starts| ==>
         && arrays[i].start == starts[i] && address(starts[i]) in accounts
         && accounts[address(starts[i])] == Decoded(poolKey, arrays[i])
  }

  lemma OneMoreAt(arrays: seq<TickArray>, accounts: map<Key, Account>, address: int -> Key, poolKey: Key,
                  starts: seq<int>, k: nat, a: TickArray)
    requires k < |starts| && AreAt(arrays, accounts, address, poolKey, starts[..k]) && a.start == starts[k]
    requires address(starts[k]) in accounts && accounts[address(starts[k])] == Decoded(poolKey, a)
    ensures AreAt(arrays + [a], accounts, address, poolKey, starts[..k + 1])
  {
    assert starts[..k + 1] == starts[..k] + [starts[k]];
  }

  lemma AtMeans(arrays: seq<TickArray>, accounts: map<Key, Account>, address: int -> Key, poolKey: Key,
                starts: seq<int>)
    requires AreAt(arrays, accounts, address, poolKey, starts)
    ensures Starts(arrays) == starts
    ensures forall a :: a in arrays ==>
              address(a.start) in accounts && accounts[address(a.start)] == Decoded(poolKey, a)
  {
  }

  method LoadSwapTickArrays(pool: Pool, order: Order, poolKey: Key, address: int -> Key, fetched: Fetched,
                            limit: nat := TICK_ARRAY_DISCOVERY_LIMIT)
    returns (r: Result<Loaded, LoadError>)
    requires pool.span > 0 && limit > 0
    ensures r.Failure? ==> LoadFails(pool, order, poolKey, address, fetched, limit, r.error)
    ensures r.Success? ==> Loads(pool, order, poolKey, address, fetched, limit)
    ensures r.Success? ==>
              var starts := Discover(pool, order, FirstArray(pool, order).value.start, limit);
              && Starts(r.value.arrays) == starts && r.value.keys == Addresses(address, starts)
              && forall a :: a in r.value.arrays ==>
                   address(a.start) in fetched.value && fetched.value[address(a.start)] == Decoded(poolKey, a)
  {
    hide Discover, AllGood, AreAt, FirstArray;
    var firstArray := FirstArray(pool, order);
    if firstArray.None? {
      return Failure(NoRoute);
    }
    var starts := DiscoverStarts(pool, order, firstArray.value.start, limit);
    var keys := Addresses(address, starts);
    if fetched.None? {
      return Failure(RpcDown);
    }
    var arrays: seq<TickArray> := [];
    NoneYet(fetched.value, address, poolKey);
    for index := 0 to |keys|
      invariant AllGood(fetched.value, address, poolKey, starts[..index])
      invariant AreAt(arrays, fetched.value, address, poolKey, starts[..index])
    {
      assert keys[index] == address(starts[index]);
      if keys[index] !in fetched.value {
        assert FirstBad(fetched.value, address, poolKey, starts, index, MissingAccount);
        return Failure(MissingAccount);
      }
      var account := fetched.value[keys[index]];
      if account.Undecodable? || account.poolKey != poolKey || account.content.start != starts[index] {
        assert FirstBad(fetched.value, address, poolKey, starts, index, MalformedAccount);
        return Failure(MalformedAccount);
      }
      OneMoreGood(fetched.value, address, poolKey, starts, index);
      OneMoreAt(arrays, fetched.value, address, poolKey, starts, index, account.content);
      arrays := arrays + [account.content];
    }
    assert starts[..|starts|] == starts;
    AtMeans(arrays, fetched.value, address, poolKey, starts);
    return Success(Loaded(arrays, keys));
  }

  lemma NoneYet(accounts: map<Key, Account>, address: int -> Key, poolKey: Key)
    ensures AllGood(accounts, address, poolKey, []) && AreAt([], accounts, address, poolKey, [])
  {
  }

  lemma {:induction false} DiscoverOne(pool: Pool, order: Order, first: int)
    ensures Discover(pool, order, first, 1) == [first]
  {
    FirstNotSupplied(pool, order, first, []);
  }

  /** What the loaded arrays are to the quote: the pool's own, in traversal order. */
  lemma {:induction false} LoadedOnRoute(pool: Pool, order: Order, first: int, poolKey: Key, accounts: map<Key,
                                         Account>,
                      arrays: seq<TickArray>, limit: nat)
    requires ChainMatchesPool(pool, poolKey, accounts) && Starts(arrays) == Discover(pool, order, first, limit)
    requires forall a :: a in arrays ==> exists k :: k in accounts && accounts[k] == Decoded(poolKey, a)
    ensures Genuine(pool, arrays) && OnRoute(pool, order, first, arrays)
    ensures |arrays| < limit ==> FullySupplied(pool, order, first, arrays)
  {
    var d := Discover(pool, order, first, limit);
    DiscoverPrefix(pool, order, first, |arrays|, limit);
    if |arrays| < limit {
      forall m: nat
        ensures Discover(pool, order, first, m) <= Starts(arrays)
      {
        if m <= limit {
          DiscoverPrefix(pool, order, first, m, limit);
        } else {
          DiscoverPrefix(pool, order, first, limit, m);
        }
      }
    }
  }

  /** Over the arrays discovery yields, a quote is the flat walk's; and so is an error, if discovery reads
      the route to its end. */
  lemma {:induction false} QuotedOnRoute(pool: Pool, order: Order, supplied: seq<TickArray>, limit: nat, w: WalkResult,
                      r: Result<Quote, QuoteError>)
    requires pool.span > 0 && FirstArray(pool, order).Some?
    requires var first := FirstArray(pool, order).value.start;
             && Starts(supplied) == Discover(pool, order, first, limit) && OnRoute(pool, order, first, supplied)
             && (|supplied| < limit ==> FullySupplied(pool, order, first, supplied))
             && MeetsWalk(pool, order, supplied, first, w, r)
    ensures r != Failure(WrongOrder)
    ensures r.Success? ==> Agrees(pool, FirstArray(pool, order).value.start, w, r)
                           && r.value.used <= Discover(pool, order, FirstArray(pool, order).value.start, limit)
    ensures BitmapIsExact(pool) && |supplied| < limit && r.Failure? ==> w == Failed(r.error)
  {
    hide Discover, OnRoute, FullySupplied, BitmapIsExact, NeededStarts, FirstArray;
  }

  lemma MoreNeverMatters(lib: Library, order: Order, amount: nat, pool: Pool, supplied: seq<TickArray>, passes: nat)
    requires pool.span > 0 && QuoteOver(lib, order, amount, pool, supplied, passes).Success?
    ensures forall more ::
              QuoteOver(lib, order, amount, pool, supplied + more, passes)
                == QuoteOver(lib, order, amount, pool, supplied, passes)
  {
    hide QuoteOver;
    forall more
      ensures QuoteOver(lib, order, amount, pool, supplied + more, passes)
              == QuoteOver(lib, order, amount, pool, supplied, passes)
    {
      MoreArraysSameQuote(lib, order, amount, pool, supplied, more, passes);
    }
  }

  lemma UsedWereFetched(address: int -> Key, used: seq<int>, starts: seq<int>)
    requires used <= starts
    ensures forall i :: 0 <= i < |used| ==> Addresses(address, used)[i] in Addresses(address, starts)
  {
    forall i | 0 <= i < |used|
      ensures Addresses(address, used)[i] in Addresses(address, starts)
    {
      assert Addresses(address, starts)[i] == address(starts[i]) == Addresses(address, used)[i];
    }
  }

  /** Something that is loaded is not also missing. */
  lemma LoadedOrNot(pool: Pool, order: Order, poolKey: Key, address: int -> Key, fetched: Fetched, limit: nat)
    requires pool.span > 0
    ensures forall e ::
              LoadFails(pool, order, poolKey, address, fetched, limit, e) ==>
                !Loads(pool, order, poolKey, address, fetched, limit)
    ensures Loads(pool, order, poolKey, address, fetched, limit) ==> FirstArray(pool, order).Some? && fetched.Some?
  {
    hide Discover, AllGood, FirstBad;
    forall e | LoadFails(pool, order, poolKey, address, fetched, limit, e)
      ensures !Loads(pool, order, poolKey, address, fetched, limit)
    {
      LoadFailsUnless(pool, order, poolKey, address, fetched, limit, e, e);
    }
  }

  method QuoteOverLoadedArrays(lib: Library, order: Order, amount: nat, pool: Pool, poolKey: Key, address: int -> Key,
                               fetched: Fetched, limit: nat := TICK_ARRAY_DISCOVERY_LIMIT, passes: nat := MAX_PASSES)
    returns (r: Result<Quote, SwapError>, ghost arrays: seq<TickArray>)
    requires LibraryContract(lib) && WellFormed(pool) && Consistent(lib, Initial(pool, amount)) && limit > 0
    requires fetched.Some? ==> ChainMatchesPool(pool, poolKey, fetched.value)
    ensures r != Failure(Quoting(WrongOrder)) && r != Failure(UnfetchedArray)
    // exactly what comes of the load, then of the quote, and then of the limit of six arrays
    ensures !Loads(pool, order, poolKey, address, fetched, limit) ==>
              r.Failure? && r.error.Load? && LoadFails(pool, order, poolKey, address, fetched, limit, r.error.load)
    ensures Loads(pool, order, poolKey, address, fetched, limit) ==>
              && Starts(arrays) == Discover(pool, order, FirstArray(pool, order).value.start, limit)
              && (forall a :: a in arrays ==>
                    address(a.start) in fetched.value && fetched.value[address(a.start)] == Decoded(poolKey, a))
              && r == match QuoteOver(lib, order, amount, pool, arrays, passes)
                      case Failure(e) => Failure(Quoting(e))
                      case Success(q) => if |q.used| <= 6 then Success(q) else Failure(TooManyArrays)
    // a quote is the flat walk's, over the route that was fetched
    ensures r.Success? ==>
              && amount > 0 && Loads(pool, order, poolKey, address, fetched, limit)
              && var first := FirstArray(pool, order).value.start;
                 && Agrees(pool, first, PoolWalk(lib, order, pool, amount, passes), Success(r.value))
                 && r.value.used <= Discover(pool, order, first, limit)
    // and any more arrays behind it would not change it
    ensures r.Success? ==> forall more :: QuoteOver(lib, order, amount, pool, arrays + more, passes) == Success(r.value)
    // a route that discovery reads to its end is quoted exactly as the flat walk goes
    ensures BitmapIsExact(pool) && amount > 0 && FirstArray(pool, order).Some?
            && |Discover(pool, order, FirstArray(pool, order).value.start, limit)| < limit && r.Failure?
               && r.error.Quoting?
            ==> PoolWalk(lib, order, pool, amount, passes) == Failed(r.error.quote)
  {
    hide QuoteOver, LibraryContract, Consistent, Loads, LoadFails, Discover, OnRoute, FullySupplied, Genuine, MeetsWalk,
         Agrees, BitmapIsExact, ChainMatchesPool, NeededStarts, PoolWalk, FirstArray;
    arrays := [];
    var loaded := LoadSwapTickArrays(pool, order, poolKey, address, fetched, limit);
    LoadedOrNot(pool, order, poolKey, address, fetched, limit);
    if loaded.Failure? {
      return Failure(Load(loaded.error)), [];
    }
    var keys := loaded.value.keys;
    arrays := loaded.value.arrays;
    ghost var first, w := FirstArray(pool, order).value.start, PoolWalk(lib, order, pool, amount, passes);
    LoadedOnRoute(pool, order, first, poolKey, fetched.value, arrays, limit);
    var quoted := QuoteSwap.QuoteSwap(lib, order, amount, pool, loaded.value.arrays, passes);
    if amount > 0 { QuotedOnRoute(pool, order, arrays, limit, w, quoted); }
    if quoted.Failure? {
      return Failure(Quoting(quoted.error)), arrays;
    }
    var used := quoted.value.used;
    if |used| > MAX_SWAP_TICK_ARRAYS {
      return Failure(TooManyArrays), arrays;
    }
    var usedKeys := Addresses(address, used);
    UsedWereFetched(address, used, Starts(arrays));
    if !(forall i :: 0 <= i < |usedKeys| ==> usedKeys[i] in keys) {
      return Failure(UnfetchedArray), arrays;
    }
    MoreNeverMatters(lib, order, amount, pool, arrays, passes);
    return Success(quoted.value), arrays;
  }
}
