/** The archived content script (archives/dist_v1.0.5/content.js): the rate
    cache also lives in extension storage, the user picks the target currency,
    and a lira price is divided by the rate of that currency in lira. */
module ArchivedContent {
  import opened Wrappers
  import opened Rates
  import opened PriceScan
  import MutationWatch

  /** The keys read from `chrome.storage.local`; a missing key is `None`. */
  datatype Stored = Stored(exchangeRate: Option<Rate>, lastUpdateTime: Option<int>, selectedCurrency: Option<string>)

  /** JavaScript truthiness of the stored time and currency: 0 and "" count as missing. */
  predicate TimeTruthy(t: Option<int>) {
    t.Some? && t.value != 0
  }

  predicate CurrencyTruthy(c: Option<string>) {
    c.Some? && c.value != ""
  }

  /** The globals `cachedExchangeRate`, `lastFetchTime` and `selectedCurrency`. */
  datatype Memory = Memory(cachedExchangeRate: Option<Rate>, lastFetchTime: int, selectedCurrency: string)

  const InitialMemory := Memory(None, 0, "USD")

  /** The keys a successful fetch writes back with `chrome.storage.local.set`. */
  datatype RateWrite = RateWrite(exchangeRate: Rate, lastUpdateTime: int)

  /** The outcome of one `getExchangeRate()` call: the new globals, the rate it
      resolves to, the currency it requested from the network (if it did) and
      what it wrote to storage (if anything). */
  datatype Lookup = Lookup(memory: Memory, rate: Rate, request: Option<string>, write: Option<RateWrite>)

  /** The stored rate may be used at `now` (archives/dist_v1.0.5/content.js:20-24). */
  predicate StoredIsFresh(stored: Stored, now: int) {
    stored.exchangeRate.Some? && TimeTruthy(stored.lastUpdateTime) &&
    now - stored.lastUpdateTime.value < CacheDuration
  }

  /** `getExchangeRate()` at time `now`, with `stored` the storage read it makes
      and `outcome` what the fetch would end with if it is issued. */
  function RateLookup(mem: Memory, stored: Stored, now: int, outcome: FetchOutcome): Lookup {
    var m := if CurrencyTruthy(stored.selectedCurrency) then mem.(selectedCurrency := stored.selectedCurrency.value) else mem;
    if StoredIsFresh(stored, now) then
      Lookup(m.(cachedExchangeRate := stored.exchangeRate, lastFetchTime := stored.lastUpdateTime.value),
             stored.exchangeRate.value, None, None)
    else
      match outcome
      case Fetched(r) =>
        Lookup(m.(cachedExchangeRate := Some(r), lastFetchTime := now), r, Some(m.selectedCurrency), Some(RateWrite(r, now)))
      case FetchFailed =>
        Lookup(m, m.cachedExchangeRate.GetOr(FallbackRate), Some(m.selectedCurrency), None)
  }

  /** `chrome.storage.local.set` merges the written keys into what is stored. */
  function ApplyWrite(stored: Stored, write: Option<RateWrite>): Stored {
    match write
    case None => stored
    case Some(w) => stored.(exchangeRate := Some(w.exchangeRate), lastUpdateTime := Some(w.lastUpdateTime))
  }

  /** A stored currency, when set, replaces the one in memory; otherwise the
      one in memory stays (initially "USD"). A fetch asks for that currency. */
  lemma StoredCurrencyOverrides(mem: Memory, stored: Stored, now: int, outcome: FetchOutcome)
    ensures var l := RateLookup(mem, stored, now, outcome);
      l.memory.selectedCurrency == (if CurrencyTruthy(stored.selectedCurrency) then stored.selectedCurrency.value else mem.selectedCurrency) &&
      (l.request.Some? ==> l.request.value == l.memory.selectedCurrency)
  {
  }

  /** A fresh stored rate is returned and copied into memory, with no fetch and no write. */
  lemma FreshStoredRateIsReused(mem: Memory, stored: Stored, now: int, outcome: FetchOutcome)
    requires stored.exchangeRate.Some? && TimeTruthy(stored.lastUpdateTime)
    requires now - stored.lastUpdateTime.value < CacheDuration
    ensures var l := RateLookup(mem, stored, now, outcome);
      l.rate == stored.exchangeRate.value && l.request.None? && l.write.None? &&
      l.memory.cachedExchangeRate == stored.exchangeRate && l.memory.lastFetchTime == stored.lastUpdateTime.value
  {
  }

  /** A fetch is requested exactly when the stored rate is not fresh, and it
      asks for the currency selected after the storage read. */
  lemma RequestIffStale(mem: Memory, stored: Stored, now: int, outcome: FetchOutcome)
    ensures var l := RateLookup(mem, stored, now, outcome);
      (l.request.Some? <==> !StoredIsFresh(stored, now)) &&
      (l.request.Some? ==> l.request.value == l.memory.selectedCurrency)
  {
  }

  /** Freshness is judged on storage only: a fresh rate in memory does not
      spare a fetch when storage holds no rate. */
  lemma FreshMemoryDoesNotPreventFetch(mem: Memory, stored: Stored, now: int, outcome: FetchOutcome)
    requires mem.cachedExchangeRate.Some? && now - mem.lastFetchTime < CacheDuration
    requires stored.exchangeRate.None?
    ensures RateLookup(mem, stored, now, outcome).request.Some?
  {
  }

  /** Freshness does not look at the currency: a fresh stored rate is used
      with whatever currency is stored now, even if that rate was fetched for
      another one. */
  lemma FreshRateIgnoresCurrency(mem: Memory, r: Rate, t: int, cur: string, now: int, outcome: FetchOutcome)
    requires t != 0 && cur != "" && now - t < CacheDuration
    ensures var l := RateLookup(mem, Stored(Some(r), Some(t), Some(cur)), now, outcome);
      l.rate == r && l.memory.selectedCurrency == cur && l.request.None?
  {
  }

  /** A successful fetch sets the memory to (rate, now) and writes the same rate
      and time to storage, leaving the stored currency as it was. */
  lemma SuccessfulFetchIsStored(mem: Memory, stored: Stored, now: int, r: Rate)
    requires !StoredIsFresh(stored, now)
    ensures var l := RateLookup(mem, stored, now, Fetched(r));
      l.rate == r && l.memory.cachedExchangeRate == Some(r) && l.memory.lastFetchTime == now &&
      l.write == Some(RateWrite(r, now)) &&
      ApplyWrite(stored, l.write) == Stored(Some(r), Some(now), stored.selectedCurrency)
  {
  }

  /** A failed fetch answers from memory alone: the cached rate, or 1; the
      memory cache and storage are not touched. */
  lemma FailedFetchUsesMemoryOnly(mem: Memory, stored: Stored, now: int)
    requires !StoredIsFresh(stored, now)
    ensures var l := RateLookup(mem, stored, now, FetchFailed);
      l.rate == mem.cachedExchangeRate.GetOr(1.0) && l.write.None? &&
      l.memory.cachedExchangeRate == mem.cachedExchangeRate && l.memory.lastFetchTime == mem.lastFetchTime
  {
  }

  /** A stale rate in storage is not a fallback: with nothing in memory a failed
      fetch gives 1 even though storage still holds a rate. */
  lemma StaleStoredRateIsNotAFallback(stored: Stored, now: int)
    requires stored.exchangeRate.Some? && !StoredIsFresh(stored, now)
    ensures RateLookup(InitialMemory, stored, now, FetchFailed).rate == 1.0
  {
  }

  /** After a successful fetch is written back, a call less than five minutes
      later is answered from storage with the same rate and no fetch. The
      fetch must not happen at time 0, which storage would read as no time. */
  lemma SecondCallWithinTtlIsCached(mem: Memory, stored: Stored, t1: int, r: Rate, t2: int, outcome: FetchOutcome)
    requires !StoredIsFresh(stored, t1) && t1 != 0
    requires t1 <= t2 < t1 + CacheDuration
    ensures var first := RateLookup(mem, stored, t1, Fetched(r));
      var second := RateLookup(first.memory, ApplyWrite(stored, first.write), t2, outcome);
      second.rate == r && second.request.None? && second.write.None?
  {
  }

  /** Five minutes or more after a fetch was written back, the next call
      fetches again. */
  lemma SecondCallAfterTtlFetches(mem: Memory, stored: Stored, t1: int, r: Rate, t2: int, outcome: FetchOutcome)
    requires !StoredIsFresh(stored, t1) && t2 >= t1 + CacheDuration
    ensures var first := RateLookup(mem, stored, t1, Fetched(r));
      RateLookup(first.memory, ApplyWrite(stored, first.write), t2, outcome).request.Some?
  {
  }

  /** `initialize` loads the stored rate and time into memory only when both
      are set, and a stored currency when it is set. */
  function LoadStored(mem: Memory, stored: Stored): Memory {
    var m := if stored.exchangeRate.Some? && TimeTruthy(stored.lastUpdateTime)
             then mem.(cachedExchangeRate := stored.exchangeRate, lastFetchTime := stored.lastUpdateTime.value)
             else mem;
    if CurrencyTruthy(stored.selectedCurrency) then m.(selectedCurrency := stored.selectedCurrency.value) else m
  }

  /** A stored rate without a stored time (or with time 0) is not loaded by
      `initialize`, and a stale stored lookup does not consult it either: with
      the fetch failing, the first scan falls back to 1. */
  lemma RateWithoutTimeIsNotLoaded(stored: Stored, now: int)
    requires !(stored.exchangeRate.Some? && TimeTruthy(stored.lastUpdateTime))
    ensures LoadStored(InitialMemory, stored).cachedExchangeRate.None?
    ensures RateLookup(LoadStored(InitialMemory, stored), stored, now, FetchFailed).rate == 1.0
  {
  }

  /** Because `initialize` copies even a stale stored rate into memory, the
      first scan of a page falls back to that rate, not to 1, when the fetch fails. */
  lemma FirstScanFallsBackToStoredRate(stored: Stored, now: int)
    requires stored.exchangeRate.Some? && TimeTruthy(stored.lastUpdateTime)
    requires !StoredIsFresh(stored, now)
    ensures RateLookup(LoadStored(InitialMemory, stored), stored, now, FetchFailed).rate == stored.exchangeRate.value
  {
  }

  /** The content script's state: the three globals, whether the mutation
      observer has been started, and the debounce bookkeeping of `handleMutations`. */
  class ContentScript {
    var cachedExchangeRate: Option<Rate>
    var lastFetchTime: int
    var selectedCurrency: string
    var observing: bool
    const debouncer: MutationWatch.Debouncer

    ghost predicate Valid()
      reads this, debouncer
    {
      debouncer.Valid()
    }

    function Mem(): Memory
      reads this
    {
      Memory(cachedExchangeRate, lastFetchTime, selectedCurrency)
    }

    /** The state when the script is loaded into a page. */
    constructor ()
      ensures Valid() && fresh(debouncer)
      ensures Mem() == InitialMemory && !observing
      ensures debouncer.View() == MutationWatch.Idle
    {
      cachedExchangeRate := None;
      lastFetchTime := 0;
      selectedCurrency := "USD";
      observing := false;
      debouncer := new MutationWatch.Debouncer();
    }

    /** `getExchangeRate()` at time `now`, given what storage holds. */
    method GetExchangeRate(stored: Stored, now: int, outcome: FetchOutcome)
      returns (rate: Rate, request: Option<string>, write: Option<RateWrite>)
      modifies this
      ensures Lookup(Mem(), rate, request, write) == RateLookup(old(Mem()), stored, now, outcome)
      ensures observing == old(observing)
    {
      if stored.selectedCurrency.Some? && stored.selectedCurrency.value != "" {
        selectedCurrency := stored.selectedCurrency.value;
      }
      if stored.exchangeRate.Some? && stored.lastUpdateTime.Some? && stored.lastUpdateTime.value != 0
         && now - stored.lastUpdateTime.value < CacheDuration
      {
        cachedExchangeRate := stored.exchangeRate;
        lastFetchTime := stored.lastUpdateTime.value;
        return stored.exchangeRate.value, None, None;
      }
      request := Some(selectedCurrency);
      match outcome {
        case Fetched(r) =>
          cachedExchangeRate := Some(r);
          lastFetchTime := now;
          write := Some(RateWrite(r, now));
          rate := r;
        case FetchFailed =>
          write := None;
          rate := if cachedExchangeRate.Some? then cachedExchangeRate.value else FallbackRate;
      }
    }

    /** `convertPrices()`: look the rate up, then annotate every container with
      the price divided by the rate, labelled with the selected currency. */
    method ConvertPrices(containers: array<Container>, stored: Stored, now: int, outcome: FetchOutcome)
      returns (rate: Rate, write: Option<RateWrite>)
      modifies this, containers
      ensures var l := RateLookup(old(Mem()), stored, now, outcome);
        Mem() == l.memory && rate == l.rate && write == l.write
      ensures observing == old(observing)
      ensures forall j :: 0 <= j < containers.Length ==>
        containers[j] == ConvertOne(old(containers[j]), DivideToSelected(rate, selectedCurrency))
    {
      var request;
      rate, request, write := GetExchangeRate(stored, now, outcome);
      ScanContainers(containers, DivideToSelected(rate, selectedCurrency));
    }

    /** The observer callback `handleMutations(mutations)` at time `now`. */
    method HandleMutations(mutations: seq<MutationWatch.MutationRecord>, now: int) returns (armed: bool)
      requires Valid()
      modifies debouncer
      ensures Valid()
      ensures armed <==> MutationWatch.Triggers(mutations)
      ensures debouncer.View() == MutationWatch.OnMutations(old(debouncer.View()), now, mutations)
    {
      armed := debouncer.HandleMutations(mutations, now);
    }

    /** The host's clock reaching `now`: when the debounce timer is due,
        `convertPrices` runs. */
    method OnTimer(containers: array<Container>, stored: Stored, now: int, outcome: FetchOutcome)
      returns (fired: bool, write: Option<RateWrite>)
      requires Valid()
      modifies this, debouncer, containers
      ensures Valid()
      ensures fired == MutationWatch.OnTick(old(debouncer.View()), now).fired
      ensures debouncer.View() == MutationWatch.OnTick(old(debouncer.View()), now).pending
      ensures observing == old(observing)
      ensures !fired ==> Mem() == old(Mem()) && containers[..] == old(containers[..]) && write.None?
      ensures fired ==> Mem() == RateLookup(old(Mem()), stored, now, outcome).memory
      ensures fired ==> write == RateLookup(old(Mem()), stored, now, outcome).write
      ensures fired ==> var l := RateLookup(old(Mem()), stored, now, outcome);
        forall j :: 0 <= j < containers.Length ==>
          containers[j] == ConvertOne(old(containers[j]), DivideToSelected(l.rate, l.memory.selectedCurrency))
    {
      fired := debouncer.Tick(now);
      write := None;
      if fired {
        var rate;
        rate, write := ConvertPrices(containers, stored, now, outcome);
      }
    }

    /** `initialize()`: load what storage holds, convert the prices already on
      the page, then start observing. */
    method Initialize(containers: array<Container>, stored: Stored, now: int, outcome: FetchOutcome)
      returns (write: Option<RateWrite>)
      requires Valid()
      modifies this, containers
      ensures Valid() && observing
      ensures var l := RateLookup(LoadStored(old(Mem()), stored), stored, now, outcome);
        Mem() == l.memory && write == l.write &&
        forall j :: 0 <= j < containers.Length ==>
          containers[j] == ConvertOne(old(containers[j]), DivideToSelected(l.rate, l.memory.selectedCurrency))
    {
      if stored.exchangeRate.Some? && stored.lastUpdateTime.Some? && stored.lastUpdateTime.value != 0 {
        cachedExchangeRate := stored.exchangeRate;
        lastFetchTime := stored.lastUpdateTime.value;
      }
      if stored.selectedCurrency.Some? && stored.selectedCurrency.value != "" {
        selectedCurrency := stored.selectedCurrency.value;
      }
      var rate;
      rate, write := ConvertPrices(containers, stored, now, outcome);
      observing := true;
    }
  }
}
