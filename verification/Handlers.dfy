/** Any number of `/price` and `/prices` requests over one shared, lossy cache, interleaved at every point
    where a handler awaits something. */
module Handlers {
  import opened Basics
  import opened Text
  import opened Cache
  import opened Pricing

  // ------------------------------------------------------------------------------- interleaved requests

  /** Where a request is suspended, or how it was answered. */
  datatype Request =
    | PriceAsking(q: Question)                              // the lookup awaits the oracle
    | PriceStamping(q: Question, price: real)               // the lookup awaits the block's timestamp
    | PriceMissing(q: Question)                             // the lookup found none; the handler has not resumed
    | PriceDone(q: Question, response: Response)
    | BatchAsking(b: Batch, hits: seq<Option<Hit>>)
    | BatchStamping(b: Batch, hits: seq<Option<Hit>>, answers: seq<Option<real>>)
    | BatchDone(b: Batch, items: seq<Item>)
    | BatchFailed(b: Batch)

  datatype State = State(store: Store, requests: seq<Request>)

  datatype Event =
    | StartPrice(q: Question, force: bool, seesPrice: bool, seesError: bool)
    | StartBatch(b: Batch, seen: seq<bool>)
    | OracleAnswers(i: nat)
    | RequestFails(i: nat)                                  // a transient error, an overload, a cancellation
    | TimestampArrives(i: nat, blockTimestamp: Option<int>, kept: seq<bool>)
    | MissRecorded(i: nat, error: string, written: bool)
    | EntryLost(key: string)                                // expiry or eviction

  function Start(store: Store, q: Question, force: bool, seesPrice: bool, seesError: bool): Request {
    var cached := PriceAt(store, q.token, q.block, seesPrice);
    if Spot(q) && cached.Some? then PriceDone(q, Ok(cached.value.0, cached.value.1, true))
    else if Spot(q) && !force && NoPriceAt(store, q.token, q.block, seesError).Some? then PriceDone(q, NotFound)
    else PriceAsking(q)
  }

  /** What a lookup's result, or its absence, does to the store: only spot questions write. */
  function AfterPrice(store: Store, q: Question, price: real, blockTimestamp: Option<int>, kept: bool): Store {
    if Spot(q) then Write(store, q.token, q.block, Price(price, blockTimestamp), kept) else store
  }

  function AfterMiss(store: Store, q: Question, error: string, kept: bool): Store {
    if Spot(q) then Write(store, q.token, q.block, NoPrice(error), kept) else store
  }

  /** With every token hit there is nothing to look up. */
  function StartItems(b: Batch, hits: seq<Option<Hit>>): Request
    requires |hits| == |b.tokens|
  {
    if Indices(hits, true) == [] then BatchDone(b, Checked(b, hits)) else BatchAsking(b, hits)
  }

  function Answered(o: Oracle, r: Request): Request
    requires r.PriceAsking? || (r.BatchAsking? && r.b.Valid())
  {
    match r
    case PriceAsking(q) =>
      if o(q).None? then PriceMissing(q)
      else if Sound(o(q)) then PriceStamping(q, o(q).value.value)
      else PriceDone(q, InvalidPrice)
    case BatchAsking(b, hits) => BatchStamping(b, hits, AnswersTo(o, b))
  }

  // --------------------------------------------------------- the code between two suspensions of /price

  /** `_handle_price_request` up to its lookup: an answer from the cache, or none. */
  method CheckCaches(q: Question, force: bool, seesPrice: bool, seesError: bool, cache: PriceCache)
    returns (answer: Option<Response>)
    ensures Start(cache.store, q, force, seesPrice, seesError)
      == if answer.Some? then PriceDone(q, answer.value) else PriceAsking(q)
    ensures answer.Some? ==> Spot(q) && (answer.value == NotFound ==> !force)
  {
    answer := None;
    if q.amount.None? && q.ignorePools == [] {
      var cached := cache.GetCachedPrice(q.token, q.block, seesPrice);
      if cached.Some? {
        return Some(Ok(cached.value.0, cached.value.1, true));
      }
      if !force {
        var error := cache.GetCachedError(q.token, q.block, seesError);
        if error.Some? {
          return Some(NotFound);
        }
      }
    }
  }

  /** `_fetch_price`, once the oracle has answered. */
  method FetchPrice(o: Oracle, q: Question) returns (next: Request)
    ensures next == Answered(o, PriceAsking(q))
    ensures next.PriceDone? ==> next.response == Uncached(o, q, None) == InvalidPrice
  {
    var p := o(q);
    if p.None? {
      return PriceMissing(q);
    }
    if p.value.NotFinite? || p.value.value < 0.0 {
      return PriceDone(q, InvalidPrice);
    }
    return PriceStamping(q, p.value.value);
  }

  /** The end of `_fetch_price_and_cache`, once the block's timestamp is there. */
  method CachePrice(q: Question, price: real, blockTimestamp: Option<int>, kept: bool, cache: PriceCache)
    modifies cache
    ensures cache.store == AfterPrice(old(cache.store), q, price, blockTimestamp, kept)
  {
    if q.amount.None? && q.ignorePools == [] {
      cache.SetCachedPrice(q.token, q.block, price, blockTimestamp, kept);
    }
  }

  /** `_handle_price_request`, once its lookup has come back without a price. */
  method CacheMiss(q: Question, error: string, kept: bool, cache: PriceCache)
    modifies cache
    ensures cache.store == AfterMiss(old(cache.store), q, error, kept)
  {
    if q.amount.None? && q.ignorePools == [] {
      cache.SetCachedError(q.token, q.block, error, kept);
    }
  }

  predicate Open(r: Request) {
    !r.PriceDone? && !r.BatchDone? && !r.BatchFailed?
  }

  ghost predicate Enabled(s: State, e: Event) {
    match e
    case StartPrice(_, _, _, _) => true
    case StartBatch(b, seen) => b.Valid() && |seen| == |b.tokens|
    case OracleAnswers(i) =>
      i < |s.requests| && (s.requests[i].PriceAsking? || (s.requests[i].BatchAsking? && s.requests[i].b.Valid()))
    case RequestFails(i) => i < |s.requests| && Open(s.requests[i])
    case TimestampArrives(i, _, kept) =>
      i < |s.requests|
      && ((s.requests[i].PriceStamping? && |kept| == 1)
          || (s.requests[i].BatchStamping? && BatchReady(s.requests[i])
              && |kept| == |Indices(s.requests[i].hits, true)|))
    case MissRecorded(i, _, _) => i < |s.requests| && s.requests[i].PriceMissing?
    case EntryLost(_) => true
  }

  ghost predicate BatchReady(r: Request)
    requires r.BatchStamping?
  {
    r.b.Valid() && |r.hits| == |r.answers| == |r.b.tokens| && Below(Indices(r.hits, true), |r.b.tokens|)
  }

  ghost function Step(o: Oracle, s: State, e: Event): State
    requires Enabled(s, e)
  {
    match e
    case StartPrice(q, force, p, n) => s.(requests := s.requests + [Start(s.store, q, force, p, n)])
    case StartBatch(b, seen) => s.(requests := s.requests + [StartItems(b, Hits(s.store, b, seen))])
    case OracleAnswers(i) => s.(requests := s.requests[i := Answered(o, s.requests[i])])
    case RequestFails(i) =>
      var r := s.requests[i];
      s.(requests := s.requests[i :=
        if r.BatchAsking? || r.BatchStamping? then BatchFailed(r.b) else PriceDone(r.q, Failed)])
    case TimestampArrives(i, ts, kept) =>
      var r := s.requests[i];
      if r.PriceStamping? then
        State(AfterPrice(s.store, r.q, r.price, ts, kept[0]), s.requests[i := PriceDone(r.q, Ok(r.price, ts, false))])
      else
        State(Filled(s.store, r.b, Indices(r.hits, true), r.answers, ts, kept),
              s.requests[i := BatchDone(r.b, Items(r.b, r.hits, r.answers, ts))])
    case MissRecorded(i, error, written) =>
      var q := s.requests[i].q;
      State(AfterMiss(s.store, q, error, written), s.requests[i := PriceDone(q, NotFound)])
    case EntryLost(key) => s.(store := s.store - {key})
  }

  // ---------------------------------------------------------------------------------- the invariant

  ghost predicate HitsOk(o: Oracle, b: Batch, hits: seq<Option<Hit>>)
    requires b.Valid()
  {
    && |hits| == |b.tokens|
    && forall i :: 0 <= i < |hits| && hits[i].Some? ==> Some(hits[i].value.0) == PriceOf(o(b.Ask(i)))
  }

  /** Each request is what the oracle says it should be, wherever it stands. */
  ghost predicate RequestOk(o: Oracle, r: Request) {
    match r
    case PriceAsking(q) => true
    case PriceStamping(q, p) => Sound(o(q)) && o(q).value.value == p
    case PriceMissing(q) => o(q).None?
    case PriceDone(q, a) => a == Failed || SameAnswer(a, Uncached(o, q, None))
    case BatchAsking(b, hits) => b.Valid() && HitsOk(o, b, hits)
    case BatchStamping(b, hits, answers) => b.Valid() && HitsOk(o, b, hits) && answers == AnswersTo(o, b)
    case BatchDone(b, items) => b.Valid() && BatchAnswers(o, b, items)
    case BatchFailed(_) => true
  }

  ghost predicate BatchAnswers(o: Oracle, b: Batch, items: seq<Item>)
    requires b.Valid()
  {
    |items| == |b.tokens| && forall i :: 0 <= i < |items| ==>
      && items[i].Item? && items[i].token == b.tokens[i] && items[i].block == b.block
      && items[i].price == PriceOf(o(b.Ask(i)))
  }

  ghost predicate Inv(o: Oracle, s: State) {
    Coherent(o, s.store) && forall i :: 0 <= i < |s.requests| ==> RequestOk(o, s.requests[i])
  }

  lemma HitsAreRight(o: Oracle, store: Store, b: Batch, seen: seq<bool>)
    requires Coherent(o, store) && b.Valid() && |seen| == |b.tokens|
    ensures HitsOk(o, b, Hits(store, b, seen))
  {
  }

  lemma StartPriceKeeps(o: Oracle, s: State, q: Question, force: bool, p: bool, n: bool)
    requires Inv(o, s)
    ensures RequestOk(o, Start(s.store, q, force, p, n))
  {
  }

  lemma StartBatchKeeps(o: Oracle, s: State, b: Batch, seen: seq<bool>)
    requires Inv(o, s) && b.Valid() && |seen| == |b.tokens|
    ensures RequestOk(o, StartItems(b, Hits(s.store, b, seen)))
  {
    var hits := Hits(s.store, b, seen);
    HitsAreRight(o, s.store, b, seen);
    IndicesPick(hits, true);
    if Indices(hits, true) == [] {
      assert forall i :: 0 <= i < |hits| ==> hits[i].Some?;
    }
  }

  lemma PriceWriteKeeps(o: Oracle, store: Store, q: Question, price: real, blockTimestamp: Option<int>, kept: bool)
    requires o(q) == Some(Finite(price)) && price >= 0.0
    ensures CaseInsensitive(o) && Coherent(o, store) ==>
      Coherent(o, AfterPrice(store, q, price, blockTimestamp, kept))
  {
    if CaseInsensitive(o) && Coherent(o, store) && Spot(q) {
      assert q == SpotAt(q.token, q.block);
      WriteKeepsCoherent(o, store, q.token, q.block, Price(price, blockTimestamp), kept);
    }
  }

  lemma MissWriteKeeps(o: Oracle, store: Store, q: Question, error: string, kept: bool)
    requires o(q) == None
    ensures CaseInsensitive(o) && Coherent(o, store) ==> Coherent(o, AfterMiss(store, q, error, kept))
  {
    if CaseInsensitive(o) && Coherent(o, store) && Spot(q) {
      assert q == SpotAt(q.token, q.block);
      WriteKeepsCoherent(o, store, q.token, q.block, NoPrice(error), kept);
    }
  }

  lemma TimestampKeeps(o: Oracle, s: State, e: Event)
    requires CaseInsensitive(o) && Inv(o, s) && e.TimestampArrives? && Enabled(s, e)
    ensures Coherent(o, Step(o, s, e).store) && RequestOk(o, Step(o, s, e).requests[e.i])
  {
    var r := s.requests[e.i];
    assert RequestOk(o, r);
    if r.PriceStamping? {
      PriceWriteKeeps(o, s.store, r.q, r.price, e.blockTimestamp, e.kept[0]);
    } else {
      FilledCoherent(o, s.store, r.b, Indices(r.hits, true), r.answers, e.blockTimestamp, e.kept);
    }
  }

  lemma MissKeeps(o: Oracle, s: State, e: Event)
    requires CaseInsensitive(o) && Inv(o, s) && e.MissRecorded? && Enabled(s, e)
    ensures Coherent(o, Step(o, s, e).store)
  {
    var q := s.requests[e.i].q;
    assert RequestOk(o, s.requests[e.i]);
    MissWriteKeeps(o, s.store, q, e.error, e.written);
  }

  lemma StepKeeps(o: Oracle, s: State, e: Event)
    requires CaseInsensitive(o) && Inv(o, s) && Enabled(s, e)
    ensures Inv(o, Step(o, s, e))
  {
    if e.StartPrice? {
      StartPriceKeeps(o, s, e.q, e.force, e.seesPrice, e.seesError);
    } else if e.StartBatch? {
      StartBatchKeeps(o, s, e.b, e.seen);
    } else if e.TimestampArrives? {
      TimestampKeeps(o, s, e);
    } else if e.MissRecorded? {
      MissKeeps(o, s, e);
    } else if e.OracleAnswers? {
      assert RequestOk(o, s.requests[e.i]);
    }
  }

  ghost predicate IsRun(o: Oracle, s: State, es: seq<Event>)
    decreases |es|
  {
    es == [] || (Enabled(s, es[0]) && IsRun(o, Step(o, s, es[0]), es[1..]))
  }

  ghost function End(o: Oracle, s: State, es: seq<Event>): State
    requires IsRun(o, s, es)
    decreases |es|
  {
    if es == [] then s else End(o, Step(o, s, es[0]), es[1..])
  }

  lemma {:induction false} RunKeeps(o: Oracle, s: State, es: seq<Event>)
    requires CaseInsensitive(o) && Inv(o, s) && IsRun(o, s, es)
    ensures Inv(o, End(o, s, es))
    decreases |es|
  {
    if es != [] {
      StepKeeps(o, s, es[0]);
      RunKeeps(o, Step(o, s, es[0]), es[1..]);
    }
  }

  /** What the cache makes of a request before any lookup: a cached price, or an absence unless forced. */
  function FromCache(store: Store, q: Question, force: bool, seesPrice: bool, seesError: bool): Option<Response> {
    if q.amount.Some? || q.ignorePools != [] then None
    else match PriceAt(store, q.token, q.block, seesPrice)
         case Some(cached) => Some(Ok(cached.0, cached.1, true))
         case None =>
           if !force && NoPriceAt(store, q.token, q.block, seesError).Some? then Some(NotFound) else None
  }

  lemma StartIsFromCache(store: Store, q: Question, force: bool, seesPrice: bool, seesError: bool)
    ensures var r := FromCache(store, q, force, seesPrice, seesError);
      Start(store, q, force, seesPrice, seesError) == if r.Some? then PriceDone(q, r.value) else PriceAsking(q)
  {
  }

  lemma CachedAnswerIsRight(o: Oracle, store: Store, q: Question, force: bool, seesPrice: bool, seesError: bool)
    requires CaseInsensitive(o) && Coherent(o, store)
    ensures var r := FromCache(store, q, force, seesPrice, seesError);
      r.Some? ==> forall stamp :: SameAnswer(r.value, Uncached(o, q, stamp))
  {
    StartIsFromCache(store, q, force, seesPrice, seesError);
    StartPriceKeeps(o, State(store, []), q, force, seesPrice, seesError);
  }

  /** What can be read of the store for this question after its lookup, through any case of letters. */
  ghost predicate Serves(store: Store, q: Question, r: Response, error: string) {
    forall t :: Lower(t) == Lower(q.token) ==>
      match r
      case Ok(price, stamp, _) => PriceAt(store, t, q.block, true) == Some((price, stamp))
      case NotFound => PriceAt(store, t, q.block, true) == None && NoPriceAt(store, t, q.block, true) == Some(error)
      case _ => true
  }

  lemma AfterPriceServes(store: Store, q: Question, price: real, blockTimestamp: Option<int>, error: string)
    requires q.amount.None? && q.ignorePools == []
    ensures Serves(AfterPrice(store, q, price, blockTimestamp, true), q, Ok(price, blockTimestamp, false), error)
  {
    forall t | Lower(t) == Lower(q.token)
      ensures PriceAt(AfterPrice(store, q, price, blockTimestamp, true), t, q.block, true)
        == Some((price, blockTimestamp))
    {
      ReadAfterWrite(store, q.token, q.block, Price(price, blockTimestamp), true, t, q.block);
    }
  }

  lemma AfterMissServes(store: Store, q: Question, error: string)
    requires q.amount.None? && q.ignorePools == []
    ensures Serves(AfterMiss(store, q, error, true), q, NotFound, error)
  {
    var after := AfterMiss(store, q, error, true);
    forall t | Lower(t) == Lower(q.token)
      ensures PriceAt(after, t, q.block, true) == None && NoPriceAt(after, t, q.block, true) == Some(error)
    {
      ReadAfterWrite(store, q.token, q.block, NoPrice(error), true, t, q.block);
    }
  }

  /** `_handle_price_request` with nothing else in between: whatever the cache holds, the answer comes from
      it or is the uncached one, which is the same where the cache is coherent. An uncached answer to a
      spot question, kept, is what the next read returns; nothing else is written. `fails` says that the
      lookup ends in a transient failure. */
  method HandlePriceRequest(q: Question, force: bool, seesPrice: bool, seesError: bool, fails: bool, kept: bool,
                            error: string, o: Oracle, blockTimestamp: Option<int>, cache: PriceCache)
    returns (r: Response)
    modifies cache
    ensures var cached := FromCache(old(cache.store), q, force, seesPrice, seesError);
      && r == (if cached.Some? then cached.value else if fails then Failed else Uncached(o, q, blockTimestamp))
      && (cached.Some? || !Spot(q) || !kept || r == Failed || r == InvalidPrice ==> cache.store == old(cache.store))
      && (cached.None? && q.amount.None? && q.ignorePools == [] && kept ==> Serves(cache.store, q, r, error))
    ensures CaseInsensitive(o) && Coherent(o, old(cache.store)) ==>
      Coherent(o, cache.store) && (r == Failed || SameAnswer(r, Uncached(o, q, blockTimestamp)))
  {
    StartIsFromCache(cache.store, q, force, seesPrice, seesError);
    ghost var coherent := CaseInsensitive(o) && Coherent(o, cache.store);
    if coherent {
      CachedAnswerIsRight(o, cache.store, q, force, seesPrice, seesError);
    }
    var answer := CheckCaches(q, force, seesPrice, seesError, cache);
    if answer.Some? {
      return answer.value;
    }
    if fails {
      return Failed;
    }
    var next := FetchPrice(o, q);
    match next
    case PriceDone(_, response) =>
      r := response;
    case PriceMissing(_) =>
      CacheMiss(q, error, kept, cache);
      MissWriteKeeps(o, old(cache.store), q, error, kept);
      if Spot(q) {
        AfterMissServes(old(cache.store), q, error);
      }
      r := NotFound;
    case PriceStamping(_, price) =>
      CachePrice(q, price, blockTimestamp, kept, cache);
      PriceWriteKeeps(o, old(cache.store), q, price, blockTimestamp, kept);
      if Spot(q) {
        AfterPriceServes(old(cache.store), q, price, blockTimestamp, error);
      }
      r := Ok(price, blockTimestamp, false);
  }

  // ---------------------------------------------------------------------------------------- theorems

  /** The cache refines the oracle: from any coherent store, however requests interleave, entries are lost,
      reads miss, writes are dropped and lookups fail, the store stays coherent and every request that did
      not fail gets the status and price it would get without a cache. */
  lemma CacheRefinesOracle(o: Oracle, store: Store, es: seq<Event>)
    requires CaseInsensitive(o) && Coherent(o, store) && IsRun(o, State(store, []), es)
    ensures var s := End(o, State(store, []), es);
      && Coherent(o, s.store)
      && forall r :: r in s.requests ==>
          (r.PriceDone? ==> r.response == Failed || SameAnswer(r.response, Uncached(o, r.q, None)))
          && (r.BatchDone? ==> r.b.Valid() && BatchAnswers(o, r.b, r.items))
  {
    RunKeeps(o, State(store, []), es);
  }

  // ------------------------------------------------------------------------------------- time stamps

  /** The block a request is about. */
  function BlockOf(r: Request): int {
    match r
    case PriceAsking(q) => q.block
    case PriceStamping(q, _) => q.block
    case PriceMissing(q) => q.block
    case PriceDone(q, _) => q.block
    case BatchAsking(b, _) => b.block
    case BatchStamping(b, _, _) => b.block
    case BatchDone(b, _) => b.block
    case BatchFailed(b) => b.block
  }

  /** A time stamp that is missing or known to be one for this block. */
  predicate StampIn(known: set<(int, int)>, block: int, stamp: Option<int>) {
    stamp.Some? ==> (block, stamp.value) in known
  }

  ghost predicate StoreStamped(known: set<(int, int)>, store: Store) {
    forall t, b :: MakeKey(t, b) in store && store[MakeKey(t, b)].Price? ==>
      StampIn(known, b, store[MakeKey(t, b)].blockTimestamp)
  }

  ghost predicate HitsStamped(known: set<(int, int)>, block: int, hits: seq<Option<Hit>>) {
    forall i :: 0 <= i < |hits| && hits[i].Some? ==> StampIn(known, block, hits[i].value.1)
  }

  /** Every time stamp that a request has read or has answered with is known. */
  ghost predicate RequestStamped(known: set<(int, int)>, r: Request) {
    match r
    case PriceDone(q, a) => a.Ok? ==> StampIn(known, q.block, a.blockTimestamp)
    case BatchAsking(b, hits) => HitsStamped(known, b.block, hits)
    case BatchStamping(b, hits, _) => HitsStamped(known, b.block, hits)
    case BatchDone(b, items) =>
      forall i :: 0 <= i < |items| && items[i].Item? ==> StampIn(known, b.block, items[i].blockTimestamp)
    case _ => true
  }

  ghost predicate Stamped(known: set<(int, int)>, s: State) {
    StoreStamped(known, s.store) && forall i :: 0 <= i < |s.requests| ==> RequestStamped(known, s.requests[i])
  }

  /** The time stamp that arrives with an event, and its block. */
  ghost function Arrived(s: State, e: Event): set<(int, int)>
    requires Enabled(s, e)
  {
    if e.TimestampArrives? && e.blockTimestamp.Some? then {(BlockOf(s.requests[e.i]), e.blockTimestamp.value)} else {}
  }

  ghost function Arrivals(o: Oracle, s: State, es: seq<Event>): set<(int, int)>
    requires IsRun(o, s, es)
    decreases |es|
  {
    if es == [] then {} else Arrived(s, es[0]) + Arrivals(o, Step(o, s, es[0]), es[1..])
  }

  lemma WriteStamped(known: set<(int, int)>, store: Store, token: string, block: int, entry: Entry, kept: bool)
    requires StoreStamped(known, store) && (entry.Price? ==> StampIn(known, block, entry.blockTimestamp))
    ensures StoreStamped(known, Write(store, token, block, entry, kept))
  {
    forall t, b ensures MakeKey(t, b) == MakeKey(token, block) ==> b == block {
      KeyInjective(t, b, token, block);
    }
  }

  lemma {:induction false} FilledStamped(known: set<(int, int)>, store: Store, b: Batch, indices: seq<nat>,
                                         answers: seq<Option<real>>, ts: Option<int>, kept: seq<bool>)
    requires StoreStamped(known, store) && StampIn(known, b.block, ts)
    requires b.Valid() && Below(indices, |b.tokens|) && |answers| == |b.tokens| && |kept| == |indices|
    ensures StoreStamped(known, Filled(store, b, indices, answers, ts, kept))
  {
    if indices != [] {
      var n := |indices| - 1;
      var i := indices[n];
      FilledStamped(known, store, b, indices[..n], answers, ts, kept[..n]);
      if answers[i].Some? && b.Amount(i).None? {
        var before := Filled(store, b, indices[..n], answers, ts, kept[..n]);
        WriteStamped(known, before, b.tokens[i], b.block, Price(answers[i].value, ts), kept[n]);
      }
    }
  }

  lemma StoreAfterStamped(known: set<(int, int)>, o: Oracle, s: State, e: Event)
    requires Stamped(known, s) && Enabled(s, e) && Arrived(s, e) <= known
    ensures StoreStamped(known, Step(o, s, e).store)
  {
    if e.TimestampArrives? {
      var r := s.requests[e.i];
      if r.PriceStamping? {
        WriteStamped(known, s.store, r.q.token, r.q.block, Price(r.price, e.blockTimestamp), e.kept[0]);
      } else {
        FilledStamped(known, s.store, r.b, Indices(r.hits, true), r.answers, e.blockTimestamp, e.kept);
      }
    } else if e.MissRecorded? {
      var q := s.requests[e.i].q;
      WriteStamped(known, s.store, q.token, q.block, NoPrice(e.error), e.written);
    }
  }

  lemma RequestsAfterStamped(known: set<(int, int)>, o: Oracle, s: State, e: Event, i: nat)
    requires Stamped(known, s) && Enabled(s, e) && Arrived(s, e) <= known && i < |Step(o, s, e).requests|
    ensures RequestStamped(known, Step(o, s, e).requests[i])
  {
    if i < |s.requests| {
      assert RequestStamped(known, s.requests[i]);
    }
  }

  lemma StampedMore(known: set<(int, int)>, more: set<(int, int)>, s: State)
    requires Stamped(known, s)
    ensures Stamped(known + more, s)
  {
    forall i | 0 <= i < |s.requests| ensures RequestStamped(known + more, s.requests[i]) {
      assert RequestStamped(known, s.requests[i]);
    }
  }

  /** Time stamps are never mixed up between blocks: along every run each one that is stored, read or answered
      for a block is missing, or was known for that block at the start, or arrived for it. A price cached
      while the time stamp could not be fetched is therefore served without one as long as it is cached. */
  lemma {:induction false} StampsArrived(o: Oracle, s: State, es: seq<Event>, known: set<(int, int)>)
    requires IsRun(o, s, es) && Stamped(known, s)
    ensures Stamped(known + Arrivals(o, s, es), End(o, s, es))
    decreases |es|
  {
    if es == [] {
      assert known + {} == known;
    } else {
      var more := known + Arrived(s, es[0]);
      var r := Step(o, s, es[0]);
      StampedMore(known, Arrived(s, es[0]), s);
      StoreAfterStamped(more, o, s, es[0]);
      forall i | 0 <= i < |r.requests| ensures RequestStamped(more, r.requests[i]) {
        RequestsAfterStamped(more, o, s, es[0], i);
      }
      StampsArrived(o, r, es[1..], more);
      assert more + Arrivals(o, r, es[1..]) == known + Arrivals(o, s, es);
    }
  }

  /** Failures, amounts and pools to ignore never write: a step that changes what is stored under a key
      writes the oracle's answer to a spot question with that key. */
  lemma OnlySpotAnswersAreWritten(o: Oracle, s: State, e: Event, key: string)
    requires CaseInsensitive(o) && Inv(o, s) && Enabled(s, e)
    requires var after := Step(o, s, e).store; key in after && (key !in s.store || after[key] != s.store[key])
    ensures e.TimestampArrives? || e.MissRecorded?
    ensures e.MissRecorded? ==> var q := s.requests[e.i].q; Spot(q) && key == MakeKey(q.token, q.block) && o(q) == None
    ensures e.TimestampArrives? && s.requests[e.i].PriceStamping? ==>
      var q := s.requests[e.i].q; Spot(q) && key == MakeKey(q.token, q.block)
    ensures e.TimestampArrives? && s.requests[e.i].BatchStamping? ==>
      var b := s.requests[e.i].b;
      exists k: nat :: k < |b.tokens| && b.Valid() && b.Amount(k).None? && key == MakeKey(b.tokens[k], b.block)
  {
    if e.MissRecorded? {
      assert RequestOk(o, s.requests[e.i]);
    } else if e.TimestampArrives? && s.requests[e.i].BatchStamping? {
      var r := s.requests[e.i];
      var _ := FilledWrites(s.store, r.b, Indices(r.hits, true), r.answers, e.blockTimestamp, e.kept, key);
    }
  }

  lemma {:induction false} FilledWrites(store: Store, b: Batch, indices: seq<nat>, answers: seq<Option<real>>,
                                        ts: Option<int>, kept: seq<bool>, key: string) returns (k: nat)
    requires b.Valid() && Below(indices, |b.tokens|) && |answers| == |b.tokens| && |kept| == |indices|
    requires
      var after := Filled(store, b, indices, answers, ts, kept);
      key in after && (key !in store || after[key] != store[key])
    ensures k < |b.tokens| && b.Amount(k).None? && key == MakeKey(b.tokens[k], b.block)
  {
    var n := |indices| - 1;
    var i := indices[n];
    if b.Amount(i).None? && answers[i].Some? && key == MakeKey(b.tokens[i], b.block) {
      k := i;
    } else {
      k := FilledWrites(store, b, indices[..n], answers, ts, kept[..n], key);
    }
  }

  /** What a lookup leaves in the store, over the interleaved steps: once the time stamp of a spot question
      has arrived, and the write is kept, its price and that stamp are what is read for the token in any
      case of letters; likewise the absence of a price. Reads of other tokens and blocks, and everything if the
      question was not a spot question or the write was dropped, stay as they were. */
  lemma LookupsAreKept(o: Oracle, s: State, e: Event, token: string, block: int)
    requires Enabled(s, e) && (e.MissRecorded? || (e.TimestampArrives? && s.requests[e.i].PriceStamping?))
    ensures var after, q := Step(o, s, e).store, s.requests[e.i].q;
      var kept := if e.MissRecorded? then e.written else e.kept[0];
      if q.amount.None? && q.ignorePools == [] && kept && Lower(token) == Lower(q.token) && block == q.block then
        && PriceAt(after, token, block, true)
           == (if e.MissRecorded? then None else Some((s.requests[e.i].price, e.blockTimestamp)))
        && NoPriceAt(after, token, block, true) == (if e.MissRecorded? then Some(e.error) else None)
      else
        && PriceAt(after, token, block, true) == PriceAt(s.store, token, block, true)
        && NoPriceAt(after, token, block, true) == NoPriceAt(s.store, token, block, true)
  {
    var q := s.requests[e.i].q;
    if e.MissRecorded? {
      ReadAfterWrite(s.store, q.token, q.block, NoPrice(e.error), e.written, token, block);
    } else {
      var entry := Price(s.requests[e.i].price, e.blockTimestamp);
      ReadAfterWrite(s.store, q.token, q.block, entry, e.kept[0], token, block);
    }
  }

  /** Likewise a batch: each price it fetched without an amount, its write kept, is what is read with the
      batch's time stamp; and each element it looked up carries that stamp. */
  lemma BatchIsKept(o: Oracle, s: State, e: Event, j: nat, token: string)
    requires CaseInsensitive(o) && Inv(o, s) && Enabled(s, e)
    requires e.TimestampArrives? && s.requests[e.i].BatchStamping?
    requires var r := s.requests[e.i]; j < |Indices(r.hits, true)|
    ensures var r, after := s.requests[e.i], Step(o, s, e);
      var i := Indices(r.hits, true)[j];
      && after.requests[e.i].BatchDone? && |after.requests[e.i].items| == |r.b.tokens|
      && after.requests[e.i].items[i] == Item(r.b.tokens[i], r.b.block, PriceOf(o(r.b.Ask(i))), e.blockTimestamp, false)
      && (e.kept[j] && r.b.Amount(i).None? && PriceOf(o(r.b.Ask(i))).Some? && Lower(token) == Lower(r.b.tokens[i]) ==>
            PriceAt(after.store, token, r.b.block, true)
            == Some((PriceOf(o(r.b.Ask(i))).value, e.blockTimestamp)))
  {
    var r := s.requests[e.i];
    assert RequestOk(o, r);
    IndicesPick(r.hits, true);
    var indices := Indices(r.hits, true);
    if WritesTo(r.b, AnswersTo(o, r.b), indices[j], e.kept[j], token, r.b.block) {
      FilledServes(o, s.store, r.b, indices, e.blockTimestamp, e.kept, j, token);
    }
  }

  /** A batch without amounts whose tokens are all cached is answered at once, from the cache alone. */
  lemma RemembersBatch(store: Store, b: Batch, seen: seq<bool>)
    requires |seen| == |b.tokens| && b.amounts.None?
    requires forall i :: 0 <= i < |b.tokens| ==> PriceAt(store, b.tokens[i], b.block, seen[i]).Some?
    ensures var r := StartItems(b, Hits(store, b, seen));
      && r.BatchDone? && r.b == b && |r.items| == |b.tokens|
      && forall i :: 0 <= i < |b.tokens| ==>
           var cached := PriceAt(store, b.tokens[i], b.block, seen[i]).value;
           r.items[i] == Item(b.tokens[i], b.block, Some(cached.0), cached.1, true)
  {
    NoneMissing(Hits(store, b, seen));
  }

  /** What was written is what is read back, for the token in any case of letters: a price is served from
      the cache, a definitive absence answers 404 unless the request forces a fresh lookup. */
  lemma Remembers(store: Store, q: Question, t: string, force: bool, n: bool, p: real, ts: Option<int>, error: string)
    requires Spot(q) && Lower(t) == Lower(q.token)
    ensures Start(Write(store, t, q.block, Price(p, ts), true), q, force, true, n) == PriceDone(q, Ok(p, ts, true))
    ensures Start(Write(store, t, q.block, NoPrice(error), true), q, force, true, true)
      == if force then PriceAsking(q) else PriceDone(q, NotFound)
  {
  }

  /** `/prices` refines `/price`: whenever both were answered about the same token (in any case of letters),
      amount and block, the batch has price p exactly where the single request has 200 with p, and null
      exactly where it has 404, or 502 because the oracle's price was invalid. */
  lemma BatchRefinesSingle(o: Oracle, store: Store, es: seq<Event>, single: Request, batch: Request, i: nat)
    requires CaseInsensitive(o) && Coherent(o, store) && IsRun(o, State(store, []), es)
    requires var s := End(o, State(store, []), es); single in s.requests && batch in s.requests
    requires single.PriceDone? && single.response != Failed
    requires batch.BatchDone? && i < |batch.b.tokens| && batch.b.Valid()
    requires Lower(single.q.token) == Lower(batch.b.tokens[i])
    requires var b := batch.b;
      single.q == Question(single.q.token, b.block, if b.amounts.Some? then b.amounts.value[i] else None, [])
    ensures i < |batch.items| && batch.items[i].Item?
    ensures forall p :: batch.items[i].price == Some(p) <==> (single.response.Ok? && single.response.price == p)
    ensures batch.items[i].price == None <==> single.response == NotFound || single.response == InvalidPrice
    ensures o(single.q).None? || Sound(o(single.q)) <==>
      (batch.items[i].price == None <==> single.response == NotFound)
  {
    RunKeeps(o, State(store, []), es);
    assert single.q == batch.b.Ask(i).(token := single.q.token);
    assert o(single.q) == o(batch.b.Ask(i));
  }

  lemma BatchOfOne(o: Oracle, token: string, block: int, amount: Option<real>)
    requires o(Question(token, block, amount, [])) == Some(Finite(-1.0))
    ensures var b, none := Batch([token], block, Some([amount])), None;
      && Hits(map[], b, [false]) == [none] && Indices([none], true) == [0] && AnswersTo(o, b) == [None]
      && Items(b, [none], [None], None) == [Item(token, block, None, None, false)]
  {
    var b := Batch([token], block, Some([amount]));
    assert b.Ask(0) == Question(token, block, amount, []);
    assert PriceOf(o(b.Ask(0))) == None;
  }

  lemma RunCons(o: Oracle, s: State, e: Event, es: seq<Event>)
    requires Enabled(s, e) && IsRun(o, Step(o, s, e), es)
    ensures IsRun(o, s, [e] + es) && End(o, s, [e] + es) == End(o, Step(o, s, e), es)
  {
  }

  lemma BatchGetsNull(o: Oracle, token: string, block: int, amount: Option<real>, single: Request)
    requires o(Question(token, block, amount, [])) == Some(Finite(-1.0))
    ensures var b := Batch([token], block, Some([amount]));
      var s := State(map[], [single, BatchAsking(b, [None])]);
      var es := [OracleAnswers(1)] + ([TimestampArrives(1, None, [false])] + []);
      && IsRun(o, s, es)
      && End(o, s, es).requests == [single, BatchDone(b, [Item(token, block, None, None, false)])]
  {
    var b := Batch([token], block, Some([amount]));
    var s := State(map[], [single, BatchAsking(b, [None])]);
    BatchOfOne(o, token, block, amount);
    var r := Step(o, s, OracleAnswers(1));
    assert r.requests == [single, BatchStamping(b, [None], [None])];
    RunCons(o, r, TimestampArrives(1, None, [false]), []);
    RunCons(o, s, OracleAnswers(1), [TimestampArrives(1, None, [false])] + []);
  }

  /** Where the oracle gives an invalid price the two endpoints do differ: for any token and amount there is
      a run in which `/price` ends with 502 and the only element of `/prices` with null. */
  lemma InvalidPriceDiffers(token: string, block: int, amount: Option<real>) returns (o: Oracle, es: seq<Event>)
    ensures CaseInsensitive(o) && IsRun(o, State(map[], []), es)
    ensures var q := Question(token, block, amount, []);
      var b := Batch([token], block, Some([amount]));
      End(o, State(map[], []), es).requests
      == [PriceDone(q, InvalidPrice), BatchDone(b, [Item(token, block, None, None, false)])]
  {
    var q := Question(token, block, amount, []);
    var b := Batch([token], block, Some([amount]));
    o := (_: Question) => Some(Finite(-1.0));
    BatchOfOne(o, token, block, amount);
    var s0 := State(map[], []);
    var s1 := State(map[], [PriceAsking(q)]);
    var s2 := State(map[], [PriceDone(q, InvalidPrice)]);
    var s3 := State(map[], [PriceDone(q, InvalidPrice), BatchAsking(b, [None])]);
    assert Step(o, s0, StartPrice(q, false, false, false)) == s1;
    assert Step(o, s1, OracleAnswers(0)) == s2;
    assert Step(o, s2, StartBatch(b, [false])) == s3;
    BatchGetsNull(o, token, block, amount, PriceDone(q, InvalidPrice));
    es := [OracleAnswers(1)] + ([TimestampArrives(1, None, [false])] + []);
    RunCons(o, s2, StartBatch(b, [false]), es);
    es := [StartBatch(b, [false])] + es;
    RunCons(o, s1, OracleAnswers(0), es);
    es := [OracleAnswers(0)] + es;
    RunCons(o, s0, StartPrice(q, false, false, false), es);
    es := [StartPrice(q, false, false, false)] + es;
  }
}
