/** The current content script (content.js): a rate cache kept in two module
    globals, the scan that multiplies lira prices into dollars, and the
    debounced rescan on page mutations. */
module CurrentContent {
  import opened Wrappers
  import opened Rates
  import opened PriceScan
  import MutationWatch

  /** The globals `cachedExchangeRate` (initially `null`) and `lastFetchTime` (initially 0). */
  datatype CacheState = CacheState(cachedExchangeRate: Option<Rate>, lastFetchTime: int)

  const InitialCache := CacheState(None, 0)

  /** The outcome of one `getExchangeRate()` call: the new globals, the rate it
      resolves to and whether it went to the network. */
  datatype Lookup = Lookup(state: CacheState, rate: Rate, fetched: bool)

  /** The cached rate may be used at `now` (content.js:9). */
  predicate IsFresh(st: CacheState, now: int) {
    st.cachedExchangeRate.Some? && now - st.lastFetchTime < CacheDuration
  }

  /** `getExchangeRate()` called at time `now`; `outcome` is what the fetch
      would end with if it is issued. */
  function RateLookup(st: CacheState, now: int, outcome: FetchOutcome): Lookup {
    if IsFresh(st, now) then Lookup(st, st.cachedExchangeRate.value, false)
    else
      match outcome
      case Fetched(r) => Lookup(CacheState(Some(r), now), r, true)
      case FetchFailed => Lookup(st, st.cachedExchangeRate.GetOr(FallbackRate), true)
  }

  /** A fresh cache answers at once: the cached rate, no fetch, no change. */
  lemma FreshRateIsReused(st: CacheState, now: int, outcome: FetchOutcome)
    requires st.cachedExchangeRate.Some? && now - st.lastFetchTime < CacheDuration
    ensures RateLookup(st, now, outcome) == Lookup(st, st.cachedExchangeRate.value, false)
  {
  }

  /** A stale or empty cache goes to the network, whatever the fetch then does. */
  lemma StaleCacheFetches(st: CacheState, now: int, outcome: FetchOutcome)
    requires st.cachedExchangeRate.None? || now - st.lastFetchTime >= CacheDuration
    ensures RateLookup(st, now, outcome).fetched
  {
  }

  /** A successful fetch stores the rate and the time and returns the rate. */
  lemma SuccessfulFetchIsCached(st: CacheState, now: int, r: Rate)
    requires !IsFresh(st, now)
    ensures var l := RateLookup(st, now, Fetched(r));
      l.rate == r && l.state.cachedExchangeRate == Some(r) && l.state.lastFetchTime == now
  {
  }

  /** A failed fetch leaves the globals alone and falls back to the cached
      rate, or to exactly 1 when there is none. */
  lemma FailedFetchFallsBack(st: CacheState, now: int)
    requires !IsFresh(st, now)
    ensures var l := RateLookup(st, now, FetchFailed);
      l.state == st &&
      (st.cachedExchangeRate.Some? ==> l.rate == st.cachedExchangeRate.value) &&
      (st.cachedExchangeRate.None? ==> l.rate == 1.0)
  {
  }

  /** Two calls less than five minutes apart, the first of which fetched
      successfully: the second returns the identical rate without a fetch,
      whatever the network would have done. */
  lemma SecondCallWithinTtlIsCached(st: CacheState, t1: int, r: Rate, t2: int, outcome: FetchOutcome)
    requires !IsFresh(st, t1)
    requires t1 <= t2 < t1 + CacheDuration
    ensures var first := RateLookup(st, t1, Fetched(r));
      var second := RateLookup(first.state, t2, outcome);
      second == Lookup(first.state, r, false)
  {
  }

  /** A call five minutes or more after the last fetch issues a new one. */
  lemma SecondCallAfterTtlFetches(st: CacheState, t1: int, r: Rate, t2: int, outcome: FetchOutcome)
    requires !IsFresh(st, t1)
    requires t2 >= t1 + CacheDuration
    ensures RateLookup(RateLookup(st, t1, Fetched(r)).state, t2, outcome).fetched
  {
  }

  /** One call of `getExchangeRate()`: when it happens and how its fetch would end. */
  datatype Call = Call(now: int, outcome: FetchOutcome)

  /** A series of calls from state `st`: the final globals and the rates returned. */
  function Run(st: CacheState, calls: seq<Call>): (CacheState, seq<Rate>)
    decreases |calls|
  {
    if calls == [] then (st, [])
    else
      var l := RateLookup(st, calls[0].now, calls[0].outcome);
      var (final, rates) := Run(l.state, calls[1..]);
      (final, [l.rate] + rates)
  }

  /** Whether each call of a series from state `st` went to the network. */
  function Fetches(st: CacheState, calls: seq<Call>): (f: seq<bool>)
    ensures |f| == |calls|
    decreases |calls|
  {
    if calls == [] then []
    else
      var l := RateLookup(st, calls[0].now, calls[0].outcome);
      [l.fetched] + Fetches(l.state, calls[1..])
  }

  /** `r` is what one of the first `n` calls of a series from `st` actually
      fetched: that call went to the network and the fetch returned `r`. */
  predicate FetchedBy(r: Rate, st: CacheState, calls: seq<Call>, n: nat) {
    exists i :: 0 <= i < n && i < |calls| && Fetches(st, calls)[i] && calls[i].outcome == Fetched(r)
  }

  /** Every rate a series of calls hands out is the fallback 1, the rate cached
      at the start, or a rate fetched by that call or an earlier one; and the
      cache only ever holds the initial rate or a fetched one. */
  lemma {:induction false} RatesComeFromFetches(st: CacheState, calls: seq<Call>)
    ensures |Run(st, calls).1| == |calls|
    ensures forall k :: 0 <= k < |calls| ==>
      var r := Run(st, calls).1[k];
      r == FallbackRate || Some(r) == st.cachedExchangeRate || FetchedBy(r, st, calls, k + 1)
    ensures var c := Run(st, calls).0.cachedExchangeRate;
      c == st.cachedExchangeRate || (c.Some? && FetchedBy(c.value, st, calls, |calls|))
    decreases |calls|
  {
    if calls != [] {
      var l := RateLookup(st, calls[0].now, calls[0].outcome);
      var rest := calls[1..];
      RatesComeFromFetches(l.state, rest);
      var rates := Run(st, calls).1;
      var flags := Fetches(st, calls);
      assert rates == [l.rate] + Run(l.state, rest).1;
      assert flags == [l.fetched] + Fetches(l.state, rest);
      forall k | 0 <= k < |calls|
        ensures rates[k] == FallbackRate || Some(rates[k]) == st.cachedExchangeRate || FetchedBy(rates[k], st, calls, k + 1)
      {
        if k == 0 {
          if l.fetched && calls[0].outcome.Fetched? {
            assert flags[0] && calls[0].outcome == Fetched(rates[0]);
          }
        } else {
          var r := rates[k];
          assert r == Run(l.state, rest).1[k - 1];
          if FetchedBy(r, l.state, rest, k) {
            var i :| 0 <= i < k && i < |rest| && Fetches(l.state, rest)[i] && rest[i].outcome == Fetched(r);
            assert flags[i + 1] && calls[i + 1] == rest[i];
          } else if Some(r) == l.state.cachedExchangeRate && l.state != st {
            assert flags[0] && calls[0].outcome == Fetched(r);
          }
        }
      }
      var c := Run(st, calls).0.cachedExchangeRate;
      if c != st.cachedExchangeRate {
        if c == l.state.cachedExchangeRate {
          assert flags[0] && calls[0].outcome == Fetched(c.value);
        } else {
          var i :| 0 <= i < |rest| && Fetches(l.state, rest)[i] && rest[i].outcome == Fetched(c.value);
          assert flags[i + 1] && calls[i + 1] == rest[i];
        }
      }
    }
  }

  /** From the initial globals, every rate ever used is 1 or a rate that one of
      the calls up to that one actually fetched. */
  lemma RatesFromStartAreFetchedOrOne(calls: seq<Call>, k: nat)
    requires k < |calls|
    ensures k < |Run(InitialCache, calls).1|
    ensures Run(InitialCache, calls).1[k] == 1.0 || FetchedBy(Run(InitialCache, calls).1[k], InitialCache, calls, k + 1)
  {
    RatesComeFromFetches(InitialCache, calls);
  }

  /** The content script's state: the two cache globals, whether the mutation
      observer has been started, and the debounce bookkeeping of `handleMutations`. */
  class ContentScript {
    var cachedExchangeRate: Option<Rate>
    var lastFetchTime: int
    var observing: bool
    const debouncer: MutationWatch.Debouncer

    ghost predicate Valid()
      reads this, debouncer
    {
      debouncer.Valid()
    }

    function Cache(): CacheState
      reads this
    {
      CacheState(cachedExchangeRate, lastFetchTime)
    }

    /** The state when the script is loaded into a page. */
    constructor ()
      ensures Valid() && fresh(debouncer)
      ensures Cache() == InitialCache && !observing
      ensures debouncer.View() == MutationWatch.Idle
    {
      cachedExchangeRate := None;
      lastFetchTime := 0;
      observing := false;
      debouncer := new MutationWatch.Debouncer();
    }

    /** `getExchangeRate()` at time `now`. */
    method GetExchangeRate(now: int, outcome: FetchOutcome) returns (rate: Rate, fetched: bool)
      modifies this
      ensures Lookup(Cache(), rate, fetched) == RateLookup(old(Cache()), now, outcome)
      ensures observing == old(observing)
    {
      if cachedExchangeRate.Some? && now - lastFetchTime < CacheDuration {
        return cachedExchangeRate.value, false;
      }
      fetched := true;
      match outcome {
        case Fetched(r) =>
          cachedExchangeRate := Some(r);
          lastFetchTime := now;
          rate := r;
        case FetchFailed =>
          rate := if cachedExchangeRate.Some? then cachedExchangeRate.value else FallbackRate;
      }
    }

    /** `convertPrices()`: look the rate up, then annotate every container. */
    method ConvertPrices(containers: array<Container>, now: int, outcome: FetchOutcome) returns (rate: Rate)
      modifies this, containers
      ensures Cache() == RateLookup(old(Cache()), now, outcome).state
      ensures rate == RateLookup(old(Cache()), now, outcome).rate
      ensures observing == old(observing)
      ensures forall j :: 0 <= j < containers.Length ==>
        containers[j] == ConvertOne(old(containers[j]), MultiplyToUsd(rate))
    {
      var fetched;
      rate, fetched := GetExchangeRate(now, outcome);
      ScanContainers(containers, MultiplyToUsd(rate));
    }

    /** The observer callback `handleMutations(mutations)` at time `now`. */
    method HandleMutations(mutations: seq<MutationWatch.MutationRecord>, now: int) returns (armed: bool)
      requires Valid()
      modifies debouncer
      ensures Valid()
      ensures armed <==> MutationWatch.Triggers(mutations)
      ensures debouncer.View() == MutationWatch.OnMutations(old(debouncer.View()), now, mutations)
    {
      armed := debouncer.HandleMutations(mutations, now);
    }

    /** The host's clock reaching `now`: when the debounce timer is due,
        `convertPrices` runs. */
    method OnTimer(containers: array<Container>, now: int, outcome: FetchOutcome) returns (fired: bool)
      requires Valid()
      modifies this, debouncer, containers
      ensures Valid()
      ensures fired == MutationWatch.OnTick(old(debouncer.View()), now).fired
      ensures debouncer.View() == MutationWatch.OnTick(old(debouncer.View()), now).pending
      ensures observing == old(observing)
      ensures !fired ==> Cache() == old(Cache()) && containers[..] == old(containers[..])
      ensures fired ==> Cache() == RateLookup(old(Cache()), now, outcome).state
      ensures fired ==> forall j :: 0 <= j < containers.Length ==>
        containers[j] == ConvertOne(old(containers[j]), MultiplyToUsd(RateLookup(old(Cache()), now, outcome).rate))
    {
      fired := debouncer.Tick(now);
      if fired {
        var rate := ConvertPrices(containers, now, outcome);
      }
    }

    /** `initialize()`: convert the prices already on the page, then start observing. */
    method Initialize(containers: array<Container>, now: int, outcome: FetchOutcome)
      requires Valid()
      modifies this, containers
      ensures Valid() && observing
      ensures Cache() == RateLookup(old(Cache()), now, outcome).state
      ensures forall j :: 0 <= j < containers.Length ==>
        containers[j] == ConvertOne(old(containers[j]), MultiplyToUsd(RateLookup(old(Cache()), now, outcome).rate))
    {
      var rate := ConvertPrices(containers, now, outcome);
      observing := true;
    }
  }
}
