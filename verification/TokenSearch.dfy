/** `searchTokens`: rank, sort, and keep the best twenty. */
module TokenSearch {
  import opened Basics
  import opened Text
  import opened TokenIndex

  const MAX_RESULTS := 20

  predicate Includes(s: string, q: string) {
    q <= s || (s != "" && Includes(s[1..], q))
  }

  datatype Ranked = Ranked(found: Sourced, rank: real)

  /** The tier of a token for a lower-case query; the USD entry and the native token go before the rest of
      their tier. */
  function RankOf(found: Sourced, q: string): Option<real> {
    var symbol, name, address := Lower(found.token.symbol), Lower(found.token.name), Lower(found.token.address);
    var boost := if address == USD_KEY || address == NATIVE_KEY then 0.5 else 0.0;
    if symbol == q then Some(0.0 - boost)
    else if q <= symbol then Some(1.0 - boost)
    else if Includes(symbol, q) then Some(2.0 - boost)
    else if Includes(name, q) then Some(3.0 - boost)
    else if q <= address then Some(4.0 - boost)
    else None
  }

  /** The order of `localeCompare`: any total preorder of strings, given by a key. */
  type Collation = string -> real

  predicate Before(a: Ranked, b: Ranked, collation: Collation) {
    a.rank < b.rank || (a.rank == b.rank && collation(a.found.token.symbol) <= collation(b.found.token.symbol))
  }

  // --------------------------------------------------------------------- the library's stable sort

  function Insert(a: Ranked, s: seq<Ranked>, collation: Collation): seq<Ranked> {
    if s == [] || Before(a, s[0], collation) then [a] + s else [s[0]] + Insert(a, s[1..], collation)
  }

  function Sort(s: seq<Ranked>, collation: Collation): seq<Ranked> {
    if s == [] then [] else Insert(s[0], Sort(s[1..], collation), collation)
  }

  ghost predicate Sorted(s: seq<Ranked>, collation: Collation) {
    forall i, j :: 0 <= i < j < |s| ==> Before(s[i], s[j], collation)
  }

  lemma {:induction false} InsertKeeps(a: Ranked, s: seq<Ranked>, collation: Collation)
    ensures multiset(Insert(a, s, collation)) == multiset{a} + multiset(s)
  {
    if s != [] && !Before(a, s[0], collation) {
      InsertKeeps(a, s[1..], collation);
      assert s == [s[0]] + s[1..];
    }
  }

  lemma {:induction false} InsertSorts(a: Ranked, s: seq<Ranked>, collation: Collation)
    requires Sorted(s, collation)
    ensures Sorted(Insert(a, s, collation), collation)
  {
    if s != [] && !Before(a, s[0], collation) {
      var rest := Insert(a, s[1..], collation);
      InsertSorts(a, s[1..], collation);
      InsertKeeps(a, s[1..], collation);
      forall k | 0 <= k < |rest|
        ensures Before(s[0], rest[k], collation)
      {
        assert rest[k] in multiset(rest);
        assert rest[k] == a || rest[k] in s[1..];
      }
    }
  }

  lemma {:induction false} SortSorts(s: seq<Ranked>, collation: Collation)
    ensures Sorted(Sort(s, collation), collation) && multiset(Sort(s, collation)) == multiset(s)
  {
    if s != [] {
      SortSorts(s[1..], collation);
      InsertSorts(s[0], Sort(s[1..], collation), collation);
      InsertKeeps(s[0], Sort(s[1..], collation), collation);
      assert s == [s[0]] + s[1..];
    }
  }

  // ------------------------------------------------------------------------------- the sort is stable

  /** Of two that the order does not tell apart, the one with the earlier place comes first. */
  ghost predicate Stable(s: seq<Ranked>, place: Ranked -> int, collation: Collation) {
    forall i, j :: 0 <= i < j < |s| && Before(s[j], s[i], collation) ==> place(s[i]) < place(s[j])
  }

  lemma InsertAdds(a: Ranked, s: seq<Ranked>, collation: Collation, x: Ranked)
    ensures x in Insert(a, s, collation) <==> x == a || x in s
  {
    InsertKeeps(a, s, collation);
    assert x in Insert(a, s, collation) <==> x in multiset(Insert(a, s, collation));
    assert x in s <==> x in multiset(s);
  }

  lemma {:induction false} InsertStable(a: Ranked, s: seq<Ranked>, place: Ranked -> int, collation: Collation)
    requires Stable(s, place, collation) && forall x :: x in s ==> place(a) < place(x)
    ensures Stable(Insert(a, s, collation), place, collation)
  {
    if s != [] && !Before(a, s[0], collation) {
      var rest := Insert(a, s[1..], collation);
      InsertStable(a, s[1..], place, collation);
      forall k | 0 <= k < |rest| && Before(rest[k], s[0], collation)
        ensures place(s[0]) < place(rest[k])
      {
        InsertAdds(a, s[1..], collation, rest[k]);
        var i :| 0 <= i < |s| - 1 && s[1..][i] == rest[k];
        assert s[i + 1] == rest[k];
      }
    }
  }

  ghost predicate Ascending(s: seq<Ranked>, place: Ranked -> int) {
    forall i, j :: 0 <= i < j < |s| ==> place(s[i]) < place(s[j])
  }

  lemma {:induction false} SortStable(s: seq<Ranked>, place: Ranked -> int, collation: Collation)
    requires Ascending(s, place)
    ensures Stable(Sort(s, collation), place, collation)
  {
    if s != [] {
      var rest := Sort(s[1..], collation);
      SortStable(s[1..], place, collation);
      SortSorts(s[1..], collation);
      forall x | x in rest ensures place(s[0]) < place(x) {
        assert x in multiset(rest);
        var k :| 0 <= k < |s| - 1 && s[1..][k] == x;
        assert s[k + 1] == x;
      }
      InsertStable(s[0], rest, place, collation);
    }
  }

  // ---------------------------------------------------------------------------------------- search

  /** The matches of the chain's map, in its order. */
  function Matches(chain: Chain, keys: seq<string>, q: string): seq<Ranked>
    requires forall key :: key in keys ==> key in chain.at
  {
    if keys == [] then []
    else
      var n := |keys| - 1;
      var rank := RankOf(chain.at[keys[n]], q);
      Matches(chain, keys[..n], q) + if rank.Some? then [Ranked(chain.at[keys[n]], rank.value)] else []
  }

  function FoundIn(s: seq<Ranked>): seq<Sourced> {
    seq(|s|, i requires 0 <= i < |s| => s[i].found)
  }

  function Best(s: seq<Ranked>): seq<Ranked> {
    if |s| > MAX_RESULTS then s[..MAX_RESULTS] else s
  }

  function Search(index: Index, query: string, chainId: int, collation: Collation): seq<Ranked>
    requires WellFormed(index)
  {
    if chainId !in index.at || query == "" then []
    else Best(Sort(Matches(index.at[chainId], index.at[chainId].order, Lower(query)), collation))
  }

  /** `searchTokens`. */
  method SearchTokens(index: Index, query: string, chainId: int, collation: Collation) returns (found: seq<Sourced>)
    requires WellFormed(index)
    ensures found == FoundIn(Search(index, query, chainId, collation))
  {
    if chainId !in index.at || query == "" {
      return [];
    }
    var chain, q := index.at[chainId], Lower(query);
    var results: seq<Ranked> := [];
    for i := 0 to |chain.order|
      invariant results == Matches(chain, chain.order[..i], q)
    {
      var entry := chain.at[chain.order[i]];
      var rank := RankOf(entry, q);
      assert chain.order[..i + 1][..i] == chain.order[..i];
      if rank.Some? {
        results := results + [Ranked(entry, rank.value)];
      }
    }
    assert chain.order[..|chain.order|] == chain.order;
    results := Sort(results, collation);
    return FoundIn(Best(results));
  }

  // --------------------------------------------------------------------------------- what the ranks mean

  predicate StandsAt(s: string, q: string, i: nat) {
    i + |q| <= |s| && s[i..i + |q|] == q
  }

  ghost predicate StandsIn(s: string, q: string) {
    exists i: nat :: StandsAt(s, q, i)
  }

  /** The five tiers of a match, best first: the symbol itself; its beginning; elsewhere in it; in the name;
      the beginning of the address. A token is in the first that fits. */
  ghost predicate InTier(token: Token, q: string, tier: nat) {
    var symbol, name, address := Lower(token.symbol), Lower(token.name), Lower(token.address);
    if symbol == q then tier == 0
    else if StandsAt(symbol, q, 0) then tier == 1
    else if StandsIn(symbol, q) then tier == 2
    else if StandsIn(name, q) then tier == 3
    else StandsAt(address, q, 0) && tier == 4
  }

  /** The USD entry and the native token. */
  predicate Favoured(token: Token) {
    Lower(token.address) in {"usd", "0xeeeeeeeeeeeeeeeeeeeeeeeeeeeeeeeeeeeeeeee"}
  }

  /** The better match of two: of a better tier, or favoured in the same, or not later by symbol. */
  ghost predicate Better(a: Token, b: Token, q: string, collation: Collation) {
    exists i: nat, j: nat ::
      && InTier(a, q, i) && InTier(b, q, j)
      && (i < j || (i == j && Favoured(a) && !Favoured(b))
          || (i == j && Favoured(a) == Favoured(b) && collation(a.symbol) <= collation(b.symbol)))
  }

  lemma StandsLater(s: string, q: string, i: nat)
    requires s != ""
    ensures StandsAt(s[1..], q, i) <==> StandsAt(s, q, i + 1)
  {
    if i + 1 + |q| <= |s| {
      assert s[1..][i..i + |q|] == s[i + 1..i + 1 + |q|];
    }
  }

  lemma StandsHereOrLater(s: string, q: string)
    requires s != ""
    ensures StandsIn(s, q) <==> StandsAt(s, q, 0) || StandsIn(s[1..], q)
  {
    if StandsIn(s, q) {
      var i: nat :| StandsAt(s, q, i);
      if i > 0 {
        StandsLater(s, q, i - 1);
      }
    }
    if StandsIn(s[1..], q) {
      var i: nat :| StandsAt(s[1..], q, i);
      StandsLater(s, q, i);
    }
  }

  lemma {:induction false} IncludesExactly(s: string, q: string)
    ensures Includes(s, q) <==> StandsIn(s, q)
  {
    assert q <= s <==> StandsAt(s, q, 0);
    if s != "" {
      IncludesExactly(s[1..], q);
      StandsHereOrLater(s, q);
    }
  }

  lemma RankExactly(found: Sourced, q: string)
    ensures var r := RankOf(found, q);
      && (r.None? <==> forall tier :: !InTier(found.token, q, tier))
      && (r.Some? ==> exists tier: nat ::
            InTier(found.token, q, tier) && r.value == tier as real - (if Favoured(found.token) then 0.5 else 0.0))
  {
    var symbol, name, address := Lower(found.token.symbol), Lower(found.token.name), Lower(found.token.address);
    IncludesExactly(symbol, q);
    IncludesExactly(name, q);
    assert q <= symbol <==> StandsAt(symbol, q, 0);
    assert q <= address <==> StandsAt(address, q, 0);
    if RankOf(found, q).Some? {
      var tier: nat := if symbol == q then 0 else if q <= symbol then 1 else if Includes(symbol, q) then 2
                       else if Includes(name, q) then 3 else 4;
      assert InTier(found.token, q, tier);
    }
  }

  lemma BeforeIsBetter(a: Ranked, b: Ranked, q: string, collation: Collation)
    requires RankOf(a.found, q) == Some(a.rank) && RankOf(b.found, q) == Some(b.rank)
    ensures Before(a, b, collation) <==> Better(a.found.token, b.found.token, q, collation)
  {
    RankExactly(a.found, q);
    RankExactly(b.found, q);
  }

  // -------------------------------------------------------------------------------------- theorems

  ghost predicate Distinct(s: seq<Ranked>) {
    forall i, j :: 0 <= i < j < |s| ==> Lower(s[i].found.token.address) != Lower(s[j].found.token.address)
  }

  ghost predicate IsMatch(chain: Chain, q: string, r: Ranked) {
    var key := Lower(r.found.token.address);
    key in chain.at && chain.at[key] == r.found && RankOf(r.found, q) == Some(r.rank)
  }

  lemma {:induction false} MatchesAreAll(chain: Chain, keys: seq<string>, q: string)
    requires forall key :: key in keys ==> key in chain.at && Lower(chain.at[key].token.address) == key
    requires forall i, j :: 0 <= i < j < |keys| ==> keys[i] != keys[j]
    ensures forall r :: r in Matches(chain, keys, q) <==> IsMatch(chain, q, r) && Lower(r.found.token.address) in keys
    ensures Distinct(Matches(chain, keys, q))
  {
    if keys != [] {
      var n := |keys| - 1;
      var front := Matches(chain, keys[..n], q);
      MatchesAreAll(chain, keys[..n], q);
      assert keys == keys[..n] + [keys[n]];
      forall i | 0 <= i < |front|
        ensures Lower(front[i].found.token.address) != keys[n]
      {
        assert front[i] in front;
      }
    }
  }

  function PlaceIn(keys: seq<string>): Ranked -> int {
    (r: Ranked) => Position(keys, Lower(r.found.token.address))
  }

  lemma AscendingNext(s: seq<Ranked>, x: Ranked, place: Ranked -> int)
    requires Ascending(s, place) && forall r :: r in s ==> place(r) < place(x)
    ensures Ascending(s + [x], place)
  {
  }

  /** Matches come in the order of their keys. */
  lemma {:induction false} MatchesInOrder(chain: Chain, keys: seq<string>, n: nat, q: string)
    requires n <= |keys| && forall i, j :: 0 <= i < j < |keys| ==> keys[i] != keys[j]
    requires forall key :: key in keys ==> key in chain.at && Lower(chain.at[key].token.address) == key
    ensures var all := Matches(chain, keys[..n], q);
      Ascending(all, PlaceIn(keys)) && forall r :: r in all ==> PlaceIn(keys)(r) < n
  {
    if n > 0 {
      var key := keys[n - 1];
      MatchesInOrder(chain, keys, n - 1, q);
      assert keys[..n][..n - 1] == keys[..n - 1] && keys[..n][n - 1] == key && key in keys;
      PositionIs(keys, key, n - 1);
      var front, all := Matches(chain, keys[..n - 1], q), Matches(chain, keys[..n], q);
      var rank := RankOf(chain.at[key], q);
      if rank.Some? {
        var last := Ranked(chain.at[key], rank.value);
        assert all == front + [last] && PlaceIn(keys)(last) == n - 1;
        AscendingNext(front, last, PlaceIn(keys));
      }
    }
  }

  lemma {:induction false} DistinctCounts(s: seq<Ranked>, r: Ranked)
    requires Distinct(s)
    ensures multiset(s)[r] <= 1
  {
    if s != [] {
      var rest := s[1..];
      assert s == [s[0]] + rest;
      assert forall k :: 0 <= k < |rest| ==> rest[k] == s[k + 1];
      DistinctCounts(rest, r);
      assert s[0] !in rest;
    }
  }

  lemma TwiceCounts(s: seq<Ranked>, i: nat, j: nat)
    requires i < j < |s| && s[i] == s[j]
    ensures multiset(s)[s[i]] >= 2
  {
    assert s == s[..i] + [s[i]] + s[i + 1..j] + [s[j]] + s[j + 1..];
  }

  lemma SortedDistinct(all: seq<Ranked>, sorted: seq<Ranked>, i: nat, j: nat)
    requires Distinct(all) && multiset(sorted) == multiset(all) && i < j < |sorted|
    ensures sorted[i] != sorted[j]
  {
    if sorted[i] == sorted[j] {
      DistinctCounts(all, sorted[i]);
      TwiceCounts(sorted, i, j);
    }
  }

  lemma BestKeepsBest(all: seq<Ranked>, sorted: seq<Ranked>, r: Ranked, collation: Collation)
    requires Sorted(sorted, collation) && multiset(sorted) == multiset(all)
    ensures r in Best(sorted) ==> r in all
    ensures r in all && r !in Best(sorted) ==>
      |Best(sorted)| == MAX_RESULTS && forall b :: b in Best(sorted) ==> Before(b, r, collation)
  {
    assert r in all <==> r in multiset(all);
    assert r in sorted <==> r in multiset(sorted);
    if r in all && r !in Best(sorted) {
      var k :| 0 <= k < |sorted| && sorted[k] == r;
      assert Best(sorted) <= sorted;
      assert k >= |Best(sorted)|;
    }
  }

  lemma BestIsDistinct(all: seq<Ranked>, sorted: seq<Ranked>, chain: Chain, q: string)
    requires Distinct(all) && multiset(sorted) == multiset(all)
    requires forall r :: r in all ==> IsMatch(chain, q, r)
    ensures Distinct(Best(sorted))
  {
    var best := Best(sorted);
    forall i, j | 0 <= i < j < |best|
      ensures Lower(best[i].found.token.address) != Lower(best[j].found.token.address)
    {
      SortedDistinct(all, sorted, i, j);
      assert best[i] in multiset(sorted) && best[j] in multiset(sorted);
      assert IsMatch(chain, q, best[i]) && IsMatch(chain, q, best[j]);
    }
  }

  lemma BestOfAll(all: seq<Ranked>, sorted: seq<Ranked>, collation: Collation)
    requires Sorted(sorted, collation) && multiset(sorted) == multiset(all)
    ensures var best := Best(sorted);
      && |best| <= MAX_RESULTS && Sorted(best, collation)
      && (forall r :: r in best ==> r in all)
      && (forall r :: r in all && r !in best ==>
           |best| == MAX_RESULTS && forall b :: b in best ==> Before(b, r, collation))
  {
    forall r
      ensures r in Best(sorted) ==> r in all
      ensures r in all && r !in Best(sorted) ==>
        |Best(sorted)| == MAX_RESULTS && forall b :: b in Best(sorted) ==> Before(b, r, collation)
    {
      BestKeepsBest(all, sorted, r, collation);
    }
  }

  /** The search is a correct top twenty: its results match, in order of rank and symbol, each address
      once; whoever matches and is left out is beaten or equalled by all twenty results. */
  lemma TopTwenty(index: Index, query: string, chainId: int, collation: Collation)
    requires WellFormed(index) && chainId in index.at && query != ""
    ensures var best, chain, q := Search(index, query, chainId, collation), index.at[chainId], Lower(query);
      && |best| <= MAX_RESULTS && Sorted(best, collation)
      && (forall r :: r in best ==> IsMatch(chain, q, r))
      && Distinct(best)
      && (forall r :: IsMatch(chain, q, r) && r !in best ==>
           |best| == MAX_RESULTS && forall b :: b in best ==> Before(b, r, collation))
  {
    var chain, q := index.at[chainId], Lower(query);
    var all := Matches(chain, chain.order, q);
    var sorted := Sort(all, collation);
    MatchesAreAll(chain, chain.order, q);
    SortSorts(all, collation);
    BestIsDistinct(all, sorted, chain, q);
    BestOfAll(all, sorted, collation);
  }

  lemma TiesInOrder(index: Index, query: string, chainId: int, collation: Collation)
    requires WellFormed(index) && chainId in index.at && query != ""
    ensures Stable(Search(index, query, chainId, collation), PlaceIn(index.at[chainId].order), collation)
  {
    var chain, q := index.at[chainId], Lower(query);
    assert Keyed(chain);
    MatchesInOrder(chain, chain.order, |chain.order|, q);
    assert chain.order[..|chain.order|] == chain.order;
    SortStable(Matches(chain, chain.order, q), PlaceIn(chain.order), collation);
  }

  lemma LeftOut(index: Index, query: string, chainId: int, collation: Collation, key: string, tier: nat)
    requires WellFormed(index) && chainId in index.at && query != "" && key in index.at[chainId].at
    requires InTier(index.at[chainId].at[key].token, Lower(query), tier)
    requires index.at[chainId].at[key] !in FoundIn(Search(index, query, chainId, collation))
    ensures var found := FoundIn(Search(index, query, chainId, collation));
      |found| == 20
      && forall f :: f in found ==> Better(f.token, index.at[chainId].at[key].token, Lower(query), collation)
  {
    var best, chain, q := Search(index, query, chainId, collation), index.at[chainId], Lower(query);
    var found, out := FoundIn(best), chain.at[key];
    TopTwenty(index, query, chainId, collation);
    RankExactly(out, q);
    var r := Ranked(out, RankOf(out, q).value);
    assert IsMatch(chain, q, r);
    assert r !in best by {
      forall i | 0 <= i < |best| ensures best[i] != r {
        assert found[i] in found;
      }
    }
    forall f | f in found ensures Better(f.token, out.token, q, collation) {
      var i :| 0 <= i < |found| && found[i] == f;
      assert best[i] in best;
      BeforeIsBetter(best[i], r, q, collation);
    }
  }

  lemma FoundMatch(index: Index, query: string, chainId: int, collation: Collation, i: nat)
    requires WellFormed(index) && chainId in index.at && query != ""
    requires i < |Search(index, query, chainId, collation)|
    ensures var chain, f := index.at[chainId].at, Search(index, query, chainId, collation)[i].found;
      exists key, tier :: key in chain && chain[key] == f && InTier(f.token, Lower(query), tier)
  {
    var best := Search(index, query, chainId, collation);
    TopTwenty(index, query, chainId, collation);
    assert best[i] in best && IsMatch(index.at[chainId], Lower(query), best[i]);
    RankExactly(best[i].found, Lower(query));
  }

  lemma FoundInOrder(index: Index, query: string, chainId: int, collation: Collation, i: nat, j: nat)
    requires WellFormed(index) && chainId in index.at && query != ""
    requires i < j < |Search(index, query, chainId, collation)|
    ensures var order, q := index.at[chainId].order, Lower(query);
      var best := Search(index, query, chainId, collation);
      var a, b := best[i].found.token, best[j].found.token;
      && Better(a, b, q, collation)
      && (Better(b, a, q, collation) ==> Position(order, Lower(a.address)) < Position(order, Lower(b.address)))
  {
    var best := Search(index, query, chainId, collation);
    TopTwenty(index, query, chainId, collation);
    TiesInOrder(index, query, chainId, collation);
    assert best[i] in best && best[j] in best;
    BeforeIsBetter(best[i], best[j], Lower(query), collation);
    BeforeIsBetter(best[j], best[i], Lower(query), collation);
    var place := PlaceIn(index.at[chainId].order);
    assert Before(best[j], best[i], collation) ==> place(best[i]) < place(best[j]);
  }

  /** The search in terms of tokens alone. Nothing is found without a chain or a query. Otherwise the tokens
      found are of the chain and match, in a tier; each is a better match than those after it, or as good and
      earlier in the chain's map; there are 20 at most, and a token of the chain that matches and is not
      found is no better than any of 20 found. */
  lemma SearchByTiers(index: Index, query: string, chainId: int, collation: Collation)
    requires WellFormed(index)
    ensures chainId !in index.at || query == "" ==> Search(index, query, chainId, collation) == []
    ensures chainId in index.at && query != "" ==>
      var found, chain, q := FoundIn(Search(index, query, chainId, collation)), index.at[chainId].at, Lower(query);
      && |found| <= 20
      && (forall f :: f in found ==> exists key, tier :: key in chain && chain[key] == f && InTier(f.token, q, tier))
      && (forall i, j :: 0 <= i < j < |found| ==> Better(found[i].token, found[j].token, q, collation))
      && (forall i, j :: 0 <= i < j < |found| && Better(found[j].token, found[i].token, q, collation) ==>
            Position(index.at[chainId].order, Lower(found[i].token.address))
            < Position(index.at[chainId].order, Lower(found[j].token.address)))
      && (forall key, tier :: key in chain && InTier(chain[key].token, q, tier) && chain[key] !in found ==>
            |found| == 20 && forall f :: f in found ==> Better(f.token, chain[key].token, q, collation))
  {
    if chainId in index.at && query != "" {
      var best, chain, q := Search(index, query, chainId, collation), index.at[chainId], Lower(query);
      var found := FoundIn(best);
      TopTwenty(index, query, chainId, collation);
      forall f | f in found
        ensures exists key, tier :: key in chain.at && chain.at[key] == f && InTier(f.token, q, tier)
      {
        var i :| 0 <= i < |found| && found[i] == f;
        FoundMatch(index, query, chainId, collation, i);
      }
      forall i, j | 0 <= i < j < |found|
        ensures Better(found[i].token, found[j].token, q, collation)
        ensures Better(found[j].token, found[i].token, q, collation) ==>
          Position(chain.order, Lower(found[i].token.address)) < Position(chain.order, Lower(found[j].token.address))
      {
        FoundInOrder(index, query, chainId, collation, i, j);
      }
      forall key, tier | key in chain.at && InTier(chain.at[key].token, q, tier) && chain.at[key] !in found
        ensures |found| == 20 && forall f :: f in found ==> Better(f.token, chain.at[key].token, q, collation)
      {
        LeftOut(index, query, chainId, collation, key, tier);
      }
    }
  }
}
