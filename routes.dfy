/** The server's `/api/prices` pipeline: the two fixed symbol lists, the
    three-way categoriser, and the handler that serves the cache, or
    fetches, categorises and saves, or answers 503. */
module Routes {
  import opened Util
  import opened Schema
  import opened Storage

  const CryptoSymbols: seq<string> := [
    "BITCOIN", "ETH", "USDT", "BNB", "XRP", "SOL", "ADA", "DOGE", "TRX", "LTC",
    "BCH", "LINK", "DOT", "AVAX", "SHIB", "ATOM", "UNI", "XLM", "VET", "FIL",
    "EOS", "DASH", "XMR", "TON", "MATIC"]

  const GoldSymbols: seq<string> := [
    "GOL18", "MITHQAL", "EMAMI1", "AZADI1", "AZADI1_2", "AZADI1_4", "AZADI1G", "OUNCE", "XAGUSD"]

  // ---------------------------------------------------------------------
  // Categoriser

  predicate IsCryptoSymbol(symbol: string) { symbol in CryptoSymbols }

  predicate IsGoldSymbol(symbol: string) { symbol !in CryptoSymbols && symbol in GoldSymbols }

  predicate IsCurrencySymbol(symbol: string) { symbol !in CryptoSymbols && symbol !in GoldSymbols }

  /** The items of `items` whose symbol satisfies `keep`, in input order:
      the reference definition of each bucket. */
  function Filter(items: seq<PriceItem>, keep: string -> bool): seq<PriceItem>
  {
    if items == [] then []
    else Filter(items[..|items| - 1], keep)
         + (if keep(items[|items| - 1].symbol) then [items[|items| - 1]] else [])
  }

  /** One turn of the categoriser's loop: push `item` onto the bucket its
      symbol selects. */
  function Place(acc: CategorizedPrices, item: PriceItem): CategorizedPrices
  {
    if item.symbol in CryptoSymbols then acc.(crypto := acc.crypto + [item])
    else if item.symbol in GoldSymbols then acc.(gold := acc.gold + [item])
    else acc.(currencies := acc.currencies + [item])
  }

  /** The buckets after the loop has visited every item of `items`. */
  function Categorize(items: seq<PriceItem>): CategorizedPrices
  {
    if items == [] then CategorizedPrices([], [], [])
    else Place(Categorize(items[..|items| - 1]), items[|items| - 1])
  }

  /** `categorizePrices`: a loop pushing each item into one of three lists. */
  method CategorizePrices(items: seq<PriceItem>) returns (r: CategorizedPrices)
    ensures r == Categorize(items)
    ensures r.crypto == Filter(items, IsCryptoSymbol)
    ensures r.gold == Filter(items, IsGoldSymbol)
    ensures r.currencies == Filter(items, IsCurrencySymbol)
  {
    var crypto: seq<PriceItem> := [];
    var gold: seq<PriceItem> := [];
    var currencies: seq<PriceItem> := [];
    for i := 0 to |items|
      invariant CategorizedPrices(crypto, gold, currencies) == Categorize(items[..i])
    {
      var item := items[i];
      assert items[..i + 1][..i] == items[..i];
      if item.symbol in CryptoSymbols {
        crypto := crypto + [item];
      } else if item.symbol in GoldSymbols {
        gold := gold + [item];
      } else {
        currencies := currencies + [item];
      }
    }
    assert items[..|items|] == items;
    r := CategorizedPrices(crypto, gold, currencies);
    CategorizeIsFilter(items);
  }

  /** Each bucket is exactly the input filtered by its symbol test, in
      input order: crypto by the crypto list, gold by the gold list minus
      the crypto list, currencies by neither list. */
  lemma {:induction false} CategorizeIsFilter(items: seq<PriceItem>)
    ensures Categorize(items).crypto == Filter(items, IsCryptoSymbol)
    ensures Categorize(items).gold == Filter(items, IsGoldSymbol)
    ensures Categorize(items).currencies == Filter(items, IsCurrencySymbol)
  {
    if items != [] {
      CategorizeIsFilter(items[..|items| - 1]);
    }
  }

  lemma {:induction false} FilterAppend(a: seq<PriceItem>, b: seq<PriceItem>, keep: string -> bool)
    ensures Filter(a + b, keep) == Filter(a, keep) + Filter(b, keep)
    decreases |b|
  {
    if b == [] {
      assert a + b == a;
    } else {
      assert (a + b)[..|a + b| - 1] == a + b[..|b| - 1];
      FilterAppend(a, b[..|b| - 1], keep);
    }
  }

  lemma {:induction false} FilterMembership(items: seq<PriceItem>, keep: string -> bool, x: PriceItem)
    ensures x in Filter(items, keep) <==> x in items && keep(x.symbol)
  {
    if items != [] {
      var init, last := items[..|items| - 1], items[|items| - 1];
      assert items == init + [last];
      FilterMembership(init, keep, x);
    }
  }

  lemma {:induction false} FilterKeepsAll(items: seq<PriceItem>, keep: string -> bool)
    requires forall x :: x in items ==> keep(x.symbol)
    ensures Filter(items, keep) == items
  {
    if items != [] {
      FilterKeepsAll(items[..|items| - 1], keep);
    }
  }

  lemma {:induction false} FilterDropsAll(items: seq<PriceItem>, keep: string -> bool)
    requires forall x :: x in items ==> !keep(x.symbol)
    ensures Filter(items, keep) == []
  {
    if items != [] {
      FilterDropsAll(items[..|items| - 1], keep);
    }
  }

  /** An item is in a bucket exactly when it is in the input and its symbol
      selects that bucket; anything in neither list, in whatever case, is a
      currency. */
  lemma CategorizeMembership(items: seq<PriceItem>, x: PriceItem)
    ensures x in Categorize(items).crypto <==> x in items && x.symbol in CryptoSymbols
    ensures x in Categorize(items).gold <==>
      x in items && x.symbol !in CryptoSymbols && x.symbol in GoldSymbols
    ensures x in Categorize(items).currencies <==>
      x in items && x.symbol !in CryptoSymbols && x.symbol !in GoldSymbols
  {
    CategorizeIsFilter(items);
    FilterMembership(items, IsCryptoSymbol, x);
    FilterMembership(items, IsGoldSymbol, x);
    FilterMembership(items, IsCurrencySymbol, x);
  }

  /** Every input item lands in exactly one bucket. */
  lemma ExactlyOneBucket(items: seq<PriceItem>, i: nat)
    requires i < |items|
    ensures var r := Categorize(items);
      (if items[i] in r.crypto then 1 else 0)
      + (if items[i] in r.gold then 1 else 0)
      + (if items[i] in r.currencies then 1 else 0) == 1
  {
    CategorizeMembership(items, items[i]);
  }

  /** The buckets together hold every input item exactly as often as the
      input does, so their sizes add up to the input's size. */
  lemma {:induction false} CategorizePartition(items: seq<PriceItem>)
    ensures var r := Categorize(items);
      multiset(r.crypto) + multiset(r.gold) + multiset(r.currencies) == multiset(items)
    ensures var r := Categorize(items);
      |r.crypto| + |r.gold| + |r.currencies| == |items|
  {
    var r := Categorize(items);
    if items != [] {
      var init, last := items[..|items| - 1], items[|items| - 1];
      assert items == init + [last];
      CategorizePartition(init);
    }
    assert |multiset(r.crypto) + multiset(r.gold) + multiset(r.currencies)| == |multiset(items)|;
  }

  /** Concrete consequences of exact string matching: the crypto list holds
      "BITCOIN", not "BTC", and matching does not fold case. */
  lemma ExactMatching()
    ensures Categorize([PriceItem("t", "BTC", "1", "u")]).currencies == [PriceItem("t", "BTC", "1", "u")]
    ensures Categorize([PriceItem("t", "eth", "1", "u")]).currencies == [PriceItem("t", "eth", "1", "u")]
    ensures Categorize([PriceItem("t", "BITCOIN", "1", "u")]).crypto == [PriceItem("t", "BITCOIN", "1", "u")]
  {
    BtcIsCurrency();
    LowerCaseEthIsCurrency();
  }

  /** "BTC" is in neither list. */
  lemma BtcIsCurrency()
    ensures IsCurrencySymbol("BTC")
  {
  }

  /** "eth" is in neither list: the lists are upper case. */
  lemma LowerCaseEthIsCurrency()
    ensures IsCurrencySymbol("eth")
  {
  }

  /** Filtering three consecutive blocks, where only the middle one passes,
      gives back the middle block. */
  lemma FilterKeepsBlock(pre: seq<PriceItem>, mid: seq<PriceItem>, post: seq<PriceItem>, keep: string -> bool)
    requires forall x :: x in pre ==> !keep(x.symbol)
    requires forall x :: x in mid ==> keep(x.symbol)
    requires forall x :: x in post ==> !keep(x.symbol)
    ensures Filter(pre + mid + post, keep) == mid
  {
    FilterAppend(pre + mid, post, keep);
    FilterAppend(pre, mid, keep);
    FilterKeepsAll(mid, keep);
    FilterDropsAll(pre, keep);
    FilterDropsAll(post, keep);
  }

  /** The symbols found in each bucket pass that bucket's test. */
  lemma BucketSymbols(items: seq<PriceItem>)
    ensures forall x :: x in Categorize(items).crypto ==> IsCryptoSymbol(x.symbol)
    ensures forall x :: x in Categorize(items).gold ==> IsGoldSymbol(x.symbol)
    ensures forall x :: x in Categorize(items).currencies ==> IsCurrencySymbol(x.symbol)
  {
    forall x | x in Categorize(items).crypto || x in Categorize(items).gold || x in Categorize(items).currencies
      ensures x in Categorize(items).crypto ==> IsCryptoSymbol(x.symbol)
      ensures x in Categorize(items).gold ==> IsGoldSymbol(x.symbol)
      ensures x in Categorize(items).currencies ==> IsCurrencySymbol(x.symbol)
    {
      CategorizeMembership(items, x);
    }
  }

  /** Categorising the concatenation of the buckets gives back the same
      buckets. */
  lemma CategorizeIdempotent(items: seq<PriceItem>)
    ensures var r := Categorize(items);
      Categorize(r.crypto + r.gold + r.currencies) == r
  {
    var r := Categorize(items);
    var flat := r.crypto + r.gold + r.currencies;
    BucketSymbols(items);
    CategorizeIsFilter(flat);
    assert flat == [] + r.crypto + (r.gold + r.currencies);
    assert flat == r.crypto + r.gold + r.currencies;
    FilterKeepsBlock([], r.crypto, r.gold + r.currencies, IsCryptoSymbol);
    FilterKeepsBlock(r.crypto, r.gold, r.currencies, IsGoldSymbol);
    assert flat == (r.crypto + r.gold) + r.currencies + [];
    FilterKeepsBlock(r.crypto + r.gold, r.currencies, [], IsCurrencySymbol);
  }

  // ---------------------------------------------------------------------
  // The `/api/prices` handler

  /** A JSON response body: the three buckets with a timestamp, or an
      error message. Timestamps are kept as clock readings. */
  datatype Body =
    | PricesBody(crypto: seq<PriceItem>, gold: seq<PriceItem>, currencies: seq<PriceItem>, lastUpdated: int)
    | MessageBody(message: string)

  datatype Response = Response(status: nat, body: Body)

  /** What one request does: the response and the value it saves, if any. */
  datatype Outcome = Outcome(response: Response, saved: Option<CategorizedPrices>)

  const UnavailableMessage: string := "Unable to fetch prices from Baha24"

  /** A 200 response carrying `data` stamped `lastUpdated`. */
  function Serve(data: CategorizedPrices, lastUpdated: int): Response
  {
    Response(200, PricesBody(data.crypto, data.gold, data.currencies, lastUpdated))
  }

  /** The handler's decision given what the cache returned, what the
      upstream fetch returned (empty on any failure) and the clock after
      the fetch. */
  function HandlePrices(cached: Option<CacheEntry>, fetched: seq<PriceItem>, respondedAt: int): Outcome
  {
    if cached.Some? then Outcome(Serve(cached.value.data, cached.value.lastUpdated), None)
    else if |fetched| == 0 then Outcome(Response(503, MessageBody(UnavailableMessage)), None)
    else
      var categorized := Categorize(fetched);
      Outcome(Serve(categorized, respondedAt), Some(categorized))
  }

  /** The `/api/prices` handler. `requestedAt` is the clock when the cache is
      read, `fetched` what the upstream fetch yields, `respondedAt` the clock
      when the result is saved and stamped. */
  method HandleGetPrices(storage: MemStorage, requestedAt: int, fetched: seq<PriceItem>, respondedAt: int)
    returns (response: Response)
    modifies storage
    ensures var o := HandlePrices(Lookup(old(storage.cache), old(storage.lastUpdated), requestedAt), fetched, respondedAt);
      response == o.response
      && (o.saved.Some? ==> storage.cache == o.saved && storage.lastUpdated == respondedAt)
      && (o.saved.None? ==> storage.cache == old(storage.cache) && storage.lastUpdated == old(storage.lastUpdated))
  {
    var cached := storage.GetPrices(requestedAt);
    if cached.Some? {
      return Serve(cached.value.data, cached.value.lastUpdated);
    }
    var rawPrices := fetched;
    if |rawPrices| == 0 {
      return Response(503, MessageBody(UnavailableMessage));
    }
    var categorized := CategorizePrices(rawPrices);
    storage.SavePrices(categorized, respondedAt);
    response := Serve(categorized, respondedAt);
  }

  /** A cache hit answers with the cached buckets and the cached save time,
      whatever the upstream would have returned, and saves nothing. */
  lemma CacheHitIgnoresUpstream(entry: CacheEntry, fetched: seq<PriceItem>, respondedAt: int)
    ensures HandlePrices(Some(entry), fetched, respondedAt)
         == Outcome(Serve(entry.data, entry.lastUpdated), None)
  {
  }

  /** With no fresh cache, an empty fetch is a 503 with a message and the
      cache is not written. */
  lemma EmptyFetchIsUnavailable(respondedAt: int)
    ensures HandlePrices(None, [], respondedAt).response.status == 503
    ensures HandlePrices(None, [], respondedAt).response.body.MessageBody?
    ensures HandlePrices(None, [], respondedAt).saved == None
  {
  }

  /** With no fresh cache and a non-empty fetch, the buckets saved and the
      buckets served are the same categorisation of the fetch, and together
      they are a rearrangement of it. */
  lemma SuccessfulFetchIsSavedAndServed(fetched: seq<PriceItem>, respondedAt: int)
    requires fetched != []
    ensures var o := HandlePrices(None, fetched, respondedAt);
      o.saved == Some(Categorize(fetched))
      && o.response == Serve(o.saved.value, respondedAt)
    ensures var b := HandlePrices(None, fetched, respondedAt).response.body;
      multiset(b.crypto) + multiset(b.gold) + multiset(b.currencies) == multiset(fetched)
  {
    CategorizePartition(fetched);
  }

  /** The no-stale-on-error policy: an expired entry plus a failed refetch
      is a 503, never the old data. */
  lemma ExpiredAndFailedIsError(cache: Option<CategorizedPrices>, lastUpdated: int, requestedAt: int, respondedAt: int)
    requires StateAt(cache, lastUpdated, requestedAt) == Expired
    ensures HandlePrices(Lookup(cache, lastUpdated, requestedAt), [], respondedAt).response
         == Response(503, MessageBody(UnavailableMessage))
  {
  }

  /** Every 200 response is either the cached data saved less than five
      minutes before the request, or the categorisation of this request's
      fetch stamped with this request's clock. */
  lemma ServedDataIsNeverStale(cache: Option<CategorizedPrices>, lastUpdated: int, requestedAt: int,
                               fetched: seq<PriceItem>, respondedAt: int)
    ensures var o := HandlePrices(Lookup(cache, lastUpdated, requestedAt), fetched, respondedAt);
      o.response.status == 200 ==>
        (cache.Some? && requestedAt - lastUpdated < TtlMillis && o.response == Serve(cache.value, lastUpdated))
        || (fetched != [] && o.response == Serve(Categorize(fetched), respondedAt))
  {
  }

  /** A request arriving less than five minutes after one that fetched is
      answered from the cache with exactly the same response. */
  lemma RepeatWithinTtlRepeatsResponse(cache: Option<CategorizedPrices>, lastUpdated: int, requestedAt: int,
                                       fetched: seq<PriceItem>, respondedAt: int,
                                       nextAt: int, nextFetched: seq<PriceItem>, nextRespondedAt: int)
    requires Lookup(cache, lastUpdated, requestedAt).None?
    requires fetched != []
    requires nextAt - respondedAt < TtlMillis
    ensures var first := HandlePrices(Lookup(cache, lastUpdated, requestedAt), fetched, respondedAt);
      var second := HandlePrices(Lookup(first.saved, respondedAt, nextAt), nextFetched, nextRespondedAt);
      second == Outcome(first.response, None)
  {
  }
}
