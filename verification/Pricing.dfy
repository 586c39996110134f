/** Questions to the price oracle and the answers a client gets (`src/server.py`). `get_price` and
    `get_prices` are one oracle, asked pointwise; it is the same for tokens that differ in case only. */
module Pricing {
  import opened Basics
  import opened Text
  import opened Cache

  /** A price as the oracle gives it; `NotFinite` is an infinity or a NaN. */
  datatype Raw = Finite(value: real) | NotFinite

  datatype Question = Question(token: string, block: int, amount: Option<real>, ignorePools: seq<string>)

  type Oracle = Question -> Option<Raw>

  ghost predicate CaseInsensitive(o: Oracle) {
    forall q: Question, t: string :: Lower(t) == Lower(q.token) ==> o(q.(token := t)) == o(q)
  }

  /** A question without an amount and without pools to ignore: the only kind the cache is about. */
  predicate Spot(q: Question) {
    q.amount.None? && q.ignorePools == []
  }

  predicate Sound(r: Option<Raw>) {
    r.Some? && r.value.Finite? && r.value.value >= 0.0
  }

  /** What `/price` answers: 200, 404, 502 for an invalid price, or a transient failure. */
  datatype Response = Ok(price: real, blockTimestamp: Option<int>, cached: bool) | NotFound | InvalidPrice | Failed

  /** The answer without any cache, if this is what the block's time stamp turns out to be; none when it
      cannot be fetched. */
  function Uncached(o: Oracle, q: Question, blockTimestamp: Option<int>): Response {
    match o(q)
    case None => NotFound
    case Some(NotFinite) => InvalidPrice
    case Some(Finite(p)) => if p < 0.0 then InvalidPrice else Ok(p, blockTimestamp, false)
  }

  /** Equal but for the time stamp and the remark whether the cache was used. */
  predicate SameAnswer(a: Response, b: Response) {
    if a.Ok? && b.Ok? then a.price == b.price else a == b
  }

  /** What a batch puts in the place of an oracle's answer. */
  function PriceOf(r: Option<Raw>): Option<real> {
    if Sound(r) then Some(r.value.value) else None
  }

  ghost predicate EntryOk(o: Oracle, q: Question, e: Entry) {
    match e
    case Price(p, _) => o(q) == Some(Finite(p)) && p >= 0.0
    case NoPrice(_) => o(q) == None
    case LegacyError(_) => true
  }

  function SpotAt(token: string, block: int): Question {
    Question(token, block, None, [])
  }

  /** Every price in the cache is the oracle's spot price, finite and not negative; every no-price entry
      stands for the oracle having none. */
  ghost predicate Coherent(o: Oracle, store: Store) {
    forall t, b :: MakeKey(t, b) in store ==> EntryOk(o, SpotAt(t, b), store[MakeKey(t, b)])
  }

  lemma WriteKeepsCoherent(o: Oracle, store: Store, token: string, block: int, entry: Entry, kept: bool)
    requires CaseInsensitive(o) && Coherent(o, store) && EntryOk(o, SpotAt(token, block), entry)
    ensures Coherent(o, Write(store, token, block, entry, kept))
  {
    var after := Write(store, token, block, entry, kept);
    forall t, b | MakeKey(t, b) in after
      ensures EntryOk(o, SpotAt(t, b), after[MakeKey(t, b)])
    {
      KeyInjective(t, b, token, block);
      if MakeKey(t, b) == MakeKey(token, block) {
        assert SpotAt(token, block).(token := t) == SpotAt(t, b);
      }
    }
  }

  // ------------------------------------------------------------------------------------ the batch path

  datatype Batch = Batch(tokens: seq<string>, block: int, amounts: Option<seq<Option<real>>>) {
    predicate Valid() {
      amounts.Some? ==> |amounts.value| == |tokens|
    }

    function Amount(i: nat): Option<real>
      requires Valid() && i < |tokens|
    {
      if amounts.Some? then amounts.value[i] else None
    }

    function Ask(i: nat): Question
      requires Valid() && i < |tokens|
    {
      Question(tokens[i], block, Amount(i), [])
    }
  }

  /** One element of a `/prices` answer. `Placeholder` is the empty dictionary that marks a place to fill. */
  datatype Item =
    | Placeholder
    | Item(token: string, block: int, price: Option<real>, blockTimestamp: Option<int>, cached: bool)

  /** A cached price with its time stamp. */
  type Hit = (real, Option<int>)

  function HitItem(b: Batch, i: nat, hit: Hit): Item
    requires i < |b.tokens|
  {
    Item(b.tokens[i], b.block, Some(hit.0), hit.1, true)
  }

  function HitAt(store: Store, b: Batch, i: nat, seen: bool): Option<Hit>
    requires b.Valid() && i < |b.tokens|
  {
    if b.Amount(i).Some? then None else PriceAt(store, b.tokens[i], b.block, seen)
  }

  /** What `get_cached_price` returns for the tokens; one asked with an amount has no hit. */
  function Hits(store: Store, b: Batch, seen: seq<bool>): seq<Option<Hit>>
    requires b.Valid() && |seen| == |b.tokens|
  {
    seq(|b.tokens|, i requires 0 <= i < |b.tokens| => HitAt(store, b, i, seen[i]))
  }

  /** Increasing indices, exactly those of the places that hold nothing, or of those that hold something. */
  ghost predicate Picks<T>(indices: seq<nat>, places: seq<Option<T>>, missing: bool) {
    && (forall j :: 0 <= j < |indices| ==> indices[j] < |places| && places[indices[j]].None? == missing)
    && (forall j, k :: 0 <= j < k < |indices| ==> indices[j] < indices[k])
    && (forall i: nat :: i < |places| && places[i].None? == missing ==> i in indices)
  }

  function Indices<T>(places: seq<Option<T>>, missing: bool): seq<nat> {
    if places == [] then []
    else
      var n := |places| - 1;
      Indices(places[..n], missing) + if places[n].None? == missing then [n] else []
  }

  lemma {:induction false} NoneMissing<T>(places: seq<Option<T>>)
    requires forall i :: 0 <= i < |places| ==> places[i].Some?
    ensures Indices(places, true) == []
  {
    if places != [] {
      NoneMissing(places[..|places| - 1]);
    }
  }

  lemma PicksNext<T>(fewer: seq<nat>, places: seq<Option<T>>, place: Option<T>, missing: bool)
    requires Picks(fewer, places, missing)
    ensures Picks(fewer + (if place.None? == missing then [|places|] else []), places + [place], missing)
  {
    var more := fewer + if place.None? == missing then [|places|] else [];
    forall i: nat | i <= |places| && (places + [place])[i].None? == missing
      ensures i in more
    {
      if i < |places| {
        assert i in fewer;
      } else {
        assert more[|fewer|] == i;
      }
    }
  }

  lemma {:induction false} IndicesPick<T>(places: seq<Option<T>>, missing: bool)
    ensures Picks(Indices(places, missing), places, missing)
  {
    if places != [] {
      var n := |places| - 1;
      IndicesPick(places[..n], missing);
      PicksNext(Indices(places[..n], missing), places[..n], places[n], missing);
      assert places == places[..n] + [places[n]];
    }
  }

  /** The results of the cache check: an item on a hit, a placeholder otherwise. */
  function Checked(b: Batch, hits: seq<Option<Hit>>): seq<Item>
    requires |hits| <= |b.tokens|
  {
    seq(|hits|, i requires 0 <= i < |hits| => CheckedItem(b, i, hits[i]))
  }

  function CheckedItem(b: Batch, i: nat, hit: Option<Hit>): Item
    requires i < |b.tokens|
  {
    if hit.Some? then HitItem(b, i, hit.value) else Placeholder
  }

  predicate Below(indices: seq<nat>, n: nat) {
    forall j :: 0 <= j < |indices| ==> indices[j] < n
  }

  function At<T>(s: seq<T>, indices: seq<nat>): seq<T>
    requires Below(indices, |s|)
  {
    seq(|indices|, j requires 0 <= j < |indices| => s[indices[j]])
  }

  /** What one more token does to the cache check. */
  lemma CheckedNext(b: Batch, hits: seq<Option<Hit>>, hit: Option<Hit>)
    requires |hits| < |b.tokens| && Below(Indices(hits, true), |hits|)
    ensures var more := hits + [hit];
      && Indices(more, true) == Indices(hits, true) + (if hit.None? then [|hits|] else [])
      && Below(Indices(more, true), |more|)
      && At(b.tokens, Indices(more, true))
         == At(b.tokens, Indices(hits, true)) + (if hit.None? then [b.tokens[|hits|]] else [])
      && Checked(b, more) == Checked(b, hits) + [CheckedItem(b, |hits|, hit)]
  {
  }

  /** The cache check for token `i`: none if it has an amount. */
  method CheckToken(b: Batch, i: nat, seen: bool, cache: PriceCache) returns (hit: Option<Hit>)
    requires b.Valid() && i < |b.tokens|
    ensures hit == HitAt(cache.store, b, i, seen)
    ensures hit.Some? ==> b.Amount(i).None? && seen
  {
    hit := None;
    var tokenAmount := if b.amounts.Some? then b.amounts.value[i] else None;
    if tokenAmount.None? {
      hit := cache.GetCachedPrice(b.tokens[i], b.block, seen);
    }
  }

  /** `_prepare_batch_cache_check`. */
  method PrepareBatchCacheCheck(b: Batch, seen: seq<bool>, cache: PriceCache)
    returns (results: seq<Item>, tokensToFetch: seq<string>, indicesToFetch: seq<nat>)
    requires b.Valid() && |seen| == |b.tokens|
    ensures var hits := Hits(cache.store, b, seen);
      && indicesToFetch == Indices(hits, true) && Picks(indicesToFetch, hits, true)
      && Below(indicesToFetch, |b.tokens|) && tokensToFetch == At(b.tokens, indicesToFetch)
      && results == Checked(b, hits)
  {
    results, tokensToFetch, indicesToFetch := [], [], [];
    ghost var hits: seq<Option<Hit>> := [];
    for i := 0 to |b.tokens|
      invariant |hits| == i && forall k :: 0 <= k < i ==> hits[k] == HitAt(cache.store, b, k, seen[k])
      invariant results == Checked(b, hits)
      invariant indicesToFetch == Indices(hits, true) && Below(Indices(hits, true), |hits|)
      invariant tokensToFetch == At(b.tokens, Indices(hits, true))
    {
      var hit := CheckToken(b, i, seen[i], cache);
      CheckedNext(b, hits, hit);
      hits := hits + [hit];
      if hit.Some? {
        results := results + [Item(b.tokens[i], b.block, Some(hit.value.0), hit.value.1, true)];
        continue;
      }
      tokensToFetch := tokensToFetch + [b.tokens[i]];
      indicesToFetch := indicesToFetch + [i];
      results := results + [Placeholder];
    }
    assert hits == Hits(cache.store, b, seen);
    IndicesPick(hits, true);
  }

  /** The library's `get_prices`: the oracle, token by token. */
  function GetPrices(o: Oracle, tokens: seq<string>, block: int, amounts: Option<seq<real>>): seq<Option<Raw>>
    requires amounts.Some? ==> |amounts.value| == |tokens|
  {
    seq(|tokens|, i requires 0 <= i < |tokens| =>
      o(Question(tokens[i], block, if amounts.Some? then Some(amounts.value[i]) else None, [])))
  }

  /** `[i for i, amount in enumerate(amounts) if amount is None]`, or those that are not. */
  method IndicesWhere(amounts: seq<Option<real>>, missing: bool) returns (indices: seq<nat>)
    ensures indices == Indices(amounts, missing) && Picks(indices, amounts, missing)
  {
    indices := [];
    for i := 0 to |amounts|
      invariant indices == Indices(amounts[..i], missing)
    {
      assert amounts[..i + 1][..i] == amounts[..i];
      if amounts[i].None? == missing {
        indices := indices + [i];
      }
    }
    assert amounts[..|amounts|] == amounts;
    IndicesPick(amounts, missing);
  }

  /** `r` is `results` with `values` put in the places `indices`. */
  ghost predicate Scattered<T>(results: seq<T>, indices: seq<nat>, values: seq<T>, r: seq<T>) {
    && |r| == |results| && |indices| == |values|
    && (forall j :: 0 <= j < |indices| ==> indices[j] < |r| && r[indices[j]] == values[j])
    && (forall i: nat :: i < |r| && i !in indices ==> r[i] == results[i])
  }

  method Scatter<T>(results: seq<T>, indices: seq<nat>, values: seq<T>) returns (r: seq<T>)
    requires |indices| == |values| && Below(indices, |results|)
    requires forall j, k :: 0 <= j < k < |indices| ==> indices[j] < indices[k]
    ensures Scattered(results, indices, values, r)
  {
    r := results;
    for n := 0 to |indices|
      invariant |r| == |results|
      invariant forall j :: 0 <= j < n ==> r[indices[j]] == values[j]
      invariant forall i: nat :: i < |r| && i !in indices ==> r[i] == results[i]
    {
      r := r[indices[n] := values[n]];
    }
  }

  function Quantities(amounts: seq<Option<real>>): seq<real>
    requires forall a :: a in amounts ==> a.Some?
  {
    seq(|amounts|, i requires 0 <= i < |amounts| => amounts[i].value)
  }

  /** Stitching the two halves back gives each token its own answer; no placeholder is left. */
  lemma Stitched(o: Oracle, b: Batch, spots: seq<nat>, quotes: seq<nat>,
                 empty: seq<Option<Raw>>, half: seq<Option<Raw>>, full: seq<Option<Raw>>)
    requires b.Valid() && b.amounts.Some? && |empty| == |b.tokens|
    requires Picks(spots, b.amounts.value, true) && Picks(quotes, b.amounts.value, false)
    requires forall a :: a in At(b.amounts.value, quotes) ==> a.Some?
    requires Scattered(empty, spots, GetPrices(o, At(b.tokens, spots), b.block, None), half)
    requires
      var quantities := Quantities(At(b.amounts.value, quotes));
      Scattered(half, quotes, GetPrices(o, At(b.tokens, quotes), b.block, Some(quantities)), full)
    ensures |full| == |b.tokens| && forall i :: 0 <= i < |b.tokens| ==> full[i] == o(b.Ask(i))
  {
  }

  /** `_lookup_batch_prices`: split into spot and quote questions, asked apart and put back together. */
  method LookupBatchPrices(o: Oracle, b: Batch) returns (results: seq<Option<Raw>>)
    requires b.Valid()
    ensures |results| == |b.tokens|
    ensures forall i :: 0 <= i < |b.tokens| ==> results[i] == o(b.Ask(i))
  {
    if b.amounts.None? || forall a :: a in b.amounts.value ==> a.None? {
      results := GetPrices(o, b.tokens, b.block, None);
      forall i | 0 <= i < |b.tokens| ensures results[i] == o(b.Ask(i)) {
        assert b.amounts.Some? ==> b.amounts.value[i] in b.amounts.value;
      }
      return;
    }
    var amounts := b.amounts.value;
    if forall a :: a in amounts ==> a.Some? {
      results := GetPrices(o, b.tokens, b.block, Some(Quantities(amounts)));
      forall i | 0 <= i < |b.tokens| ensures results[i] == o(b.Ask(i)) {
        assert amounts[i] in amounts && b.Amount(i) == Some(Quantities(amounts)[i]);
      }
      return;
    }
    var spots := IndicesWhere(amounts, true);
    var quotes := IndicesWhere(amounts, false);
    var spotResults := GetPrices(o, At(b.tokens, spots), b.block, None);
    var quoteResults := GetPrices(o, At(b.tokens, quotes), b.block, Some(Quantities(At(amounts, quotes))));
    var empty: seq<Option<Raw>> := seq(|b.tokens|, _ => None);
    var half := Scatter(empty, spots, spotResults);
    results := Scatter(half, quotes, quoteResults);
    Stitched(o, b, spots, quotes, empty, half, results);
  }

  /** `_fetch_batch_prices`: invalid prices count as none. */
  method FetchBatchPrices(o: Oracle, b: Batch) returns (prices: seq<Option<real>>)
    requires b.Valid()
    ensures |prices| == |b.tokens|
    ensures forall i :: 0 <= i < |b.tokens| ==> prices[i] == PriceOf(o(b.Ask(i)))
  {
    var results := LookupBatchPrices(o, b);
    prices := [];
    for i := 0 to |results|
      invariant |prices| == i
      invariant forall k :: 0 <= k < i ==> prices[k] == PriceOf(o(b.Ask(k)))
    {
      var p := results[i];
      if p.None? || p.value.NotFinite? || p.value.value < 0.0 {
        prices := prices + [None];
      } else {
        prices := prices + [Some(p.value.value)];
      }
    }
  }

  /** The whole answer, from the cache check's hits and, for each place it left open, a fetched price with
      the one time stamp that was fetched for all. */
  function Items(b: Batch, hits: seq<Option<Hit>>, answers: seq<Option<real>>, blockTimestamp: Option<int>): seq<Item>
    requires |hits| == |answers| == |b.tokens|
  {
    seq(|hits|, i requires 0 <= i < |hits| =>
      if hits[i].Some? then HitItem(b, i, hits[i].value)
      else Item(b.tokens[i], b.block, answers[i], blockTimestamp, false))
  }

  /** The store after the fetched prices at `indices` have been cached, those with an amount excepted. */
  function Filled(store: Store, b: Batch, indices: seq<nat>, answers: seq<Option<real>>,
                  blockTimestamp: Option<int>, kept: seq<bool>): Store
    requires b.Valid() && Below(indices, |b.tokens|) && |answers| == |b.tokens| && |kept| == |indices|
  {
    if indices == [] then store
    else
      var n := |indices| - 1;
      var i := indices[n];
      var before := Filled(store, b, indices[..n], answers, blockTimestamp, kept[..n]);
      if answers[i].Some? && b.Amount(i).None?
      then Write(before, b.tokens[i], b.block, Price(answers[i].value, blockTimestamp), kept[n])
      else before
  }

  lemma FilledNext(store: Store, b: Batch, indices: seq<nat>, n: nat, answers: seq<Option<real>>,
                   blockTimestamp: Option<int>, kept: seq<bool>)
    requires b.Valid() && Below(indices, |b.tokens|) && |answers| == |b.tokens| && n < |kept| == |indices|
    ensures var before := Filled(store, b, indices[..n], answers, blockTimestamp, kept[..n]);
      var i := indices[n];
      Filled(store, b, indices[..n + 1], answers, blockTimestamp, kept[..n + 1])
      == if answers[i].Some? && b.Amount(i).None?
         then Write(before, b.tokens[i], b.block, Price(answers[i].value, blockTimestamp), kept[n]) else before
  {
    assert indices[..n + 1][..n] == indices[..n] && kept[..n + 1][..n] == kept[..n];
  }

  /** The first `n` open places hold what the whole answer has there, and so do the hits. */
  ghost predicate FilledUpTo(results: seq<Item>, whole: seq<Item>, hits: seq<Option<Hit>>, indices: seq<nat>, n: nat) {
    && |results| == |whole| == |hits| && n <= |indices| && Below(indices, |results|)
    && (forall j :: 0 <= j < n ==> results[indices[j]] == whole[indices[j]])
    && (forall i :: 0 <= i < |hits| && hits[i].Some? ==> results[i] == whole[i])
  }

  lemma FillOne(results: seq<Item>, whole: seq<Item>, hits: seq<Option<Hit>>, indices: seq<nat>, n: nat)
    requires FilledUpTo(results, whole, hits, indices, n) && n < |indices|
    ensures FilledUpTo(results[indices[n] := whole[indices[n]]], whole, hits, indices, n + 1)
  {
  }

  /** A fetched element is the one the whole answer has in its place. */
  lemma WholeAt(b: Batch, hits: seq<Option<Hit>>, answers: seq<Option<real>>, blockTimestamp: Option<int>,
                indices: seq<nat>, n: nat)
    requires |hits| == |answers| == |b.tokens| && Picks(indices, hits, true) && n < |indices|
    ensures Items(b, hits, answers, blockTimestamp)[indices[n]] ==
      Item(At(b.tokens, indices)[n], b.block, At(answers, indices)[n], blockTimestamp, false)
  {
  }

  lemma FilledAll(results: seq<Item>, whole: seq<Item>, hits: seq<Option<Hit>>, indices: seq<nat>)
    requires FilledUpTo(results, whole, hits, indices, |indices|) && Picks(indices, hits, true)
    ensures results == whole
  {
    forall i | 0 <= i < |results|
      ensures results[i] == whole[i]
    {
      if hits[i].None? {
        var j :| 0 <= j < |indices| && indices[j] == i;
      }
    }
  }

  /** The end of that loop's body: only a price without an amount is cached. */
  method CacheFetched(token: string, block: int, price: Option<real>, amount: Option<real>,
                      blockTimestamp: Option<int>, kept: bool, cache: PriceCache)
    modifies cache
    ensures cache.store ==
      if price.Some? && amount.None?
      then Write(old(cache.store), token, block, Price(price.value, blockTimestamp), kept)
      else old(cache.store)
  {
    if price.Some? && amount.None? {
      cache.SetCachedPrice(token, block, price.value, blockTimestamp, kept);
    }
  }

  /** `_fill_batch_results`. `answers` spreads the fetched prices over all places. */
  method FillBatchResults(checked: seq<Item>, tokensToFetch: seq<string>, indicesToFetch: seq<nat>,
                          prices: seq<Option<real>>, b: Batch, blockTimestamp: Option<int>, kept: seq<bool>,
                          cache: PriceCache, ghost hits: seq<Option<Hit>>, ghost answers: seq<Option<real>>)
    returns (results: seq<Item>)
    requires b.Valid() && |hits| == |answers| == |b.tokens|
    requires checked == Checked(b, hits) && Picks(indicesToFetch, hits, true)
    requires tokensToFetch == At(b.tokens, indicesToFetch) && prices == At(answers, indicesToFetch)
    requires |kept| == |indicesToFetch|
    modifies cache
    ensures results == Items(b, hits, answers, blockTimestamp)
    ensures cache.store == Filled(old(cache.store), b, indicesToFetch, answers, blockTimestamp, kept)
  {
    results := checked;
    ghost var whole := Items(b, hits, answers, blockTimestamp);
    for n := 0 to |tokensToFetch|
      invariant FilledUpTo(results, whole, hits, indicesToFetch, n)
      invariant cache.store == Filled(old(cache.store), b, indicesToFetch[..n], answers, blockTimestamp, kept[..n])
    {
      var token, i, price := tokensToFetch[n], indicesToFetch[n], prices[n];
      var tokenAmount := if b.amounts.Some? then b.amounts.value[i] else None;
      WholeAt(b, hits, answers, blockTimestamp, indicesToFetch, n);
      FillOne(results, whole, hits, indicesToFetch, n);
      results := results[i := Item(token, b.block, price, blockTimestamp, false)];
      CacheFetched(token, b.block, price, tokenAmount, blockTimestamp, kept[n], cache);
      FilledNext(old(cache.store), b, indicesToFetch, n, answers, blockTimestamp, kept);
    }
    assert indicesToFetch[..|indicesToFetch|] == indicesToFetch && kept[..|kept|] == kept;
    FilledAll(results, whole, hits, indicesToFetch);
  }

  lemma {:induction false} FilledCoherent(o: Oracle, store: Store, b: Batch, indices: seq<nat>,
                                          answers: seq<Option<real>>, blockTimestamp: Option<int>, kept: seq<bool>)
    requires CaseInsensitive(o) && Coherent(o, store) && b.Valid() && Below(indices, |b.tokens|)
    requires |answers| == |b.tokens| && |kept| == |indices|
    requires forall j :: 0 <= j < |indices| ==> answers[indices[j]] == PriceOf(o(b.Ask(indices[j])))
    ensures Coherent(o, Filled(store, b, indices, answers, blockTimestamp, kept))
  {
    if indices != [] {
      var n := |indices| - 1;
      var i := indices[n];
      var before := Filled(store, b, indices[..n], answers, blockTimestamp, kept[..n]);
      FilledCoherent(o, store, b, indices[..n], answers, blockTimestamp, kept[..n]);
      if answers[i].Some? && b.Amount(i).None? {
        assert b.Ask(i) == SpotAt(b.tokens[i], b.block);
        WriteKeepsCoherent(o, before, b.tokens[i], b.block, Price(answers[i].value, blockTimestamp), kept[n]);
      }
    }
  }

  /** What is fetched for the open places is what belongs there. */
  lemma FetchedAt(o: Oracle, b: Batch, indices: seq<nat>, amounts: Option<seq<Option<real>>>,
                  prices: seq<Option<real>>, answers: seq<Option<real>>)
    requires b.Valid() && Below(indices, |b.tokens|) && |answers| == |b.tokens|
    requires amounts == if b.amounts.Some? then Some(At(b.amounts.value, indices)) else None
    requires var fetch := Batch(At(b.tokens, indices), b.block, amounts);
      |prices| == |indices| && forall j :: 0 <= j < |indices| ==> prices[j] == PriceOf(o(fetch.Ask(j)))
    requires forall i :: 0 <= i < |answers| ==> answers[i] == PriceOf(o(b.Ask(i)))
    ensures prices == At(answers, indices)
  {
    var fetch := Batch(At(b.tokens, indices), b.block, amounts);
    forall j | 0 <= j < |prices| ensures prices[j] == At(answers, indices)[j] {
      assert fetch.Ask(j) == b.Ask(indices[j]);
    }
  }

  function AnswersTo(o: Oracle, b: Batch): seq<Option<real>>
    requires b.Valid()
  {
    seq(|b.tokens|, i requires 0 <= i < |b.tokens| => PriceOf(o(b.Ask(i))))
  }

  /** The element a token should get, in full: on a hit the cached price and time stamp, otherwise what the
      oracle says for exactly this token, block and amount, if it is a finite price that is not negative,
      with the time stamp fetched for all. */
  ghost predicate IsItemFor(item: Item, o: Oracle, b: Batch, i: nat, store: Store, seen: bool,
                            blockTimestamp: Option<int>)
    requires b.Valid() && i < |b.tokens|
  {
    var amount := if b.amounts.Some? then b.amounts.value[i] else None;
    var hit := if amount.None? then PriceAt(store, b.tokens[i], b.block, seen) else None;
    && item.Item? && item.token == b.tokens[i] && item.block == b.block && item.cached == hit.Some?
    && match hit
       case Some(cached) => item.price == Some(cached.0) && item.blockTimestamp == cached.1
       case None =>
         && item.blockTimestamp == blockTimestamp
         && match o(Question(b.tokens[i], b.block, amount, []))
            case Some(Finite(p)) => item.price == if p >= 0.0 then Some(p) else None
            case _ => item.price == None
  }

  /** Filled in with what belongs there, every element is the one its token should get. */
  lemma ItemsAnswer(o: Oracle, b: Batch, store: Store, seen: seq<bool>, blockTimestamp: Option<int>)
    requires b.Valid() && |seen| == |b.tokens|
    ensures var items := Items(b, Hits(store, b, seen), AnswersTo(o, b), blockTimestamp);
      forall i :: 0 <= i < |b.tokens| ==> IsItemFor(items[i], o, b, i, store, seen[i], blockTimestamp)
  {
    var hits := Hits(store, b, seen);
    var items := Items(b, hits, AnswersTo(o, b), blockTimestamp);
    forall i | 0 <= i < |b.tokens| ensures IsItemFor(items[i], o, b, i, store, seen[i], blockTimestamp) {
      assert hits[i] == HitAt(store, b, i, seen[i]) && AnswersTo(o, b)[i] == PriceOf(o(b.Ask(i)));
    }
  }

  lemma CheckedIsWhole(b: Batch, hits: seq<Option<Hit>>, answers: seq<Option<real>>, blockTimestamp: Option<int>)
    requires |hits| == |answers| == |b.tokens| && Picks([], hits, true)
    ensures Checked(b, hits) == Items(b, hits, answers, blockTimestamp)
  {
  }

  /** Place `i`, if its write is kept, puts a price where this token and block are looked up. */
  predicate WritesTo(b: Batch, answers: seq<Option<real>>, i: nat, kept: bool, token: string, block: int)
    requires b.Valid() && i < |b.tokens| == |answers|
  {
    kept && answers[i].Some? && b.Amount(i).None? && Lower(b.tokens[i]) == Lower(token) && b.block == block
  }

  lemma LastWriteReads(store: Store, b: Batch, indices: seq<nat>, answers: seq<Option<real>>,
                       blockTimestamp: Option<int>, kept: seq<bool>, token: string, block: int)
    requires b.Valid() && Below(indices, |b.tokens|) && |answers| == |b.tokens| && |kept| == |indices| > 0
    ensures var n := |indices| - 1;
      var before := Filled(store, b, indices[..n], answers, blockTimestamp, kept[..n]);
      var after := Filled(store, b, indices, answers, blockTimestamp, kept);
      if WritesTo(b, answers, indices[n], kept[n], token, block) then
        PriceAt(after, token, block, true) == Some((answers[indices[n]].value, blockTimestamp))
      else
        && PriceAt(after, token, block, true) == PriceAt(before, token, block, true)
        && NoPriceAt(after, token, block, true) == NoPriceAt(before, token, block, true)
  {
    var n := |indices| - 1;
    var i := indices[n];
    if answers[i].Some? && b.Amount(i).None? {
      var before := Filled(store, b, indices[..n], answers, blockTimestamp, kept[..n]);
      ReadAfterWrite(before, b.tokens[i], b.block, Price(answers[i].value, blockTimestamp), kept[n], token, block);
    }
  }

  /** The last of these places that does. */
  function LastWrite(b: Batch, answers: seq<Option<real>>, indices: seq<nat>, kept: seq<bool>,
                     token: string, block: int): (last: Option<nat>)
    requires b.Valid() && Below(indices, |b.tokens|) && |answers| == |b.tokens| && |kept| == |indices|
    ensures last.Some? ==>
      last.value < |indices| && WritesTo(b, answers, indices[last.value], kept[last.value], token, block)
    ensures forall j :: (if last.Some? then last.value else -1) < j < |indices| ==>
      !WritesTo(b, answers, indices[j], kept[j], token, block)
  {
    if indices == [] then None
    else
      var n := |indices| - 1;
      if WritesTo(b, answers, indices[n], kept[n], token, block) then Some(n)
      else LastWrite(b, answers, indices[..n], kept[..n], token, block)
  }

  /** What the writes of a batch leave to be read: the price of the last one for that token and block with
      its time stamp, and everything else as it was. */
  lemma {:induction false} FilledReads(store: Store, b: Batch, indices: seq<nat>, answers: seq<Option<real>>,
                                       blockTimestamp: Option<int>, kept: seq<bool>, token: string, block: int)
    requires b.Valid() && Below(indices, |b.tokens|) && |answers| == |b.tokens| && |kept| == |indices|
    ensures var after := Filled(store, b, indices, answers, blockTimestamp, kept);
      match LastWrite(b, answers, indices, kept, token, block)
      case None =>
        && PriceAt(after, token, block, true) == PriceAt(store, token, block, true)
        && NoPriceAt(after, token, block, true) == NoPriceAt(store, token, block, true)
      case Some(k) =>
        PriceAt(after, token, block, true) == Some((answers[indices[k]].value, blockTimestamp))
  {
    if indices != [] {
      var n := |indices| - 1;
      LastWriteReads(store, b, indices, answers, blockTimestamp, kept, token, block);
      FilledReads(store, b, indices[..n], answers, blockTimestamp, kept[..n], token, block);
    }
  }

  /** With an oracle that does not care about case, a kept price is what is read back. */
  lemma FilledServes(o: Oracle, store: Store, b: Batch, indices: seq<nat>, blockTimestamp: Option<int>,
                     kept: seq<bool>, j: nat, token: string)
    requires b.Valid() && Below(indices, |b.tokens|) && j < |kept| == |indices|
    requires CaseInsensitive(o) && WritesTo(b, AnswersTo(o, b), indices[j], kept[j], token, b.block)
    ensures var after := Filled(store, b, indices, AnswersTo(o, b), blockTimestamp, kept);
      PriceAt(after, token, b.block, true) == Some((AnswersTo(o, b)[indices[j]].value, blockTimestamp))
  {
    FilledReads(store, b, indices, AnswersTo(o, b), blockTimestamp, kept, token, b.block);
    var last := LastWrite(b, AnswersTo(o, b), indices, kept, token, b.block);
    var i, k := indices[j], indices[last.value];
    assert b.Ask(k) == b.Ask(i).(token := b.tokens[k]);
  }

  lemma FilledStaysCoherent(o: Oracle, store: Store, b: Batch, indices: seq<nat>, blockTimestamp: Option<int>,
                            kept: seq<bool>)
    requires b.Valid() && Below(indices, |b.tokens|) && |kept| == |indices|
    ensures CaseInsensitive(o) && Coherent(o, store) ==>
      Coherent(o, Filled(store, b, indices, AnswersTo(o, b), blockTimestamp, kept))
  {
    if CaseInsensitive(o) && Coherent(o, store) {
      FilledCoherent(o, store, b, indices, AnswersTo(o, b), blockTimestamp, kept);
    }
  }

  lemma AllServed(o: Oracle, store: Store, b: Batch, seen: seq<bool>, blockTimestamp: Option<int>, kept: seq<bool>)
    requires b.Valid() && |seen| == |kept| == |b.tokens|
    requires Below(Indices(Hits(store, b, seen), true), |b.tokens|)
    ensures var hits, answers := Hits(store, b, seen), AnswersTo(o, b);
      var indices := Indices(hits, true);
      var after := Filled(store, b, indices, answers, blockTimestamp, At(kept, indices));
      CaseInsensitive(o) ==> forall i, t ::
        (0 <= i < |b.tokens| && kept[i] && Lower(t) == Lower(b.tokens[i])
         && b.Amount(i).None? && hits[i].None? && answers[i].Some?) ==>
          PriceAt(after, t, b.block, true) == Some((answers[i].value, blockTimestamp))
  {
    var hits, answers := Hits(store, b, seen), AnswersTo(o, b);
    var indices := Indices(hits, true);
    IndicesPick(hits, true);
    if CaseInsensitive(o) {
      forall i, t | 0 <= i < |b.tokens| && kept[i] && Lower(t) == Lower(b.tokens[i])
                    && b.Amount(i).None? && hits[i].None? && answers[i].Some?
        ensures PriceAt(Filled(store, b, indices, answers, blockTimestamp, At(kept, indices)), t, b.block, true)
          == Some((answers[i].value, blockTimestamp))
      {
        var j :| 0 <= j < |indices| && indices[j] == i;
        FilledServes(o, store, b, indices, blockTimestamp, At(kept, indices), j, t);
      }
    }
  }

  /** `prices`, when nothing else runs in between and the lookup does not fail: whatever the cache holds,
      every element is for its own token and amount and nothing is left open; a price that was fetched
      without an amount, and whose write is kept, is what the cache has then; a coherent cache stays so. */
  method Prices(b: Batch, o: Oracle, blockTimestamp: Option<int>, seen: seq<bool>, kept: seq<bool>, cache: PriceCache)
    returns (results: seq<Item>)
    requires b.Valid() && |seen| == |kept| == |b.tokens|
    modifies cache
    ensures |results| == |b.tokens|
    ensures forall i :: 0 <= i < |b.tokens| ==>
      IsItemFor(results[i], o, b, i, old(cache.store), seen[i], blockTimestamp)
    ensures CaseInsensitive(o) ==> forall i, t ::
      (0 <= i < |b.tokens| && kept[i] && Lower(t) == Lower(b.tokens[i]) && b.Amount(i).None?
       && results[i].Item? && !results[i].cached && results[i].price.Some?) ==>
        PriceAt(cache.store, t, b.block, true) == Some((results[i].price.value, blockTimestamp))
    ensures CaseInsensitive(o) && Coherent(o, old(cache.store)) ==> Coherent(o, cache.store)
  {
    var tokensToFetch, indicesToFetch;
    ghost var answers, hits := AnswersTo(o, b), Hits(cache.store, b, seen);
    results, tokensToFetch, indicesToFetch := PrepareBatchCacheCheck(b, seen, cache);
    ItemsAnswer(o, b, cache.store, seen, blockTimestamp);
    if tokensToFetch != [] {
      var fetchAmounts := if b.amounts.Some? then Some(At(b.amounts.value, indicesToFetch)) else None;
      var prices := FetchBatchPrices(o, Batch(tokensToFetch, b.block, fetchAmounts));
      FetchedAt(o, b, indicesToFetch, fetchAmounts, prices, answers);
      results := FillBatchResults(results, tokensToFetch, indicesToFetch, prices, b, blockTimestamp,
                                  At(kept, indicesToFetch), cache, hits, answers);
      FilledStaysCoherent(o, old(cache.store), b, indicesToFetch, blockTimestamp, At(kept, indicesToFetch));
      AllServed(o, old(cache.store), b, seen, blockTimestamp, kept);
    } else {
      assert indicesToFetch == [];
      CheckedIsWhole(b, hits, answers, blockTimestamp);
    }
  }
}
