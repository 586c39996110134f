/** The token index and its search (`frontend/src/lib/stores/tokenlist.ts`). */
module TokenIndex {
  import opened Basics
  import opened Text

  datatype Token = Token(chainId: int, address: string, symbol: string, name: string, decimals: int)

  /** A token with the key of the list it was taken from. */
  datatype Sourced = Sourced(token: Token, sourceList: string)

  /** A token list as it stands at one moment. */
  datatype TokenList = TokenList(
    name: string,
    tokens: seq<Token>,
    url: Option<string>,
    isDefault: bool,
    isLocal: bool,
    enabled: bool)

  const USD_SENTINEL := "USD"
  const USD_KEY := "usd"
  const USD_TOKEN := Token(0, USD_SENTINEL, "USD", "US Dollar (ypricemagic native)", 0)
  const NATIVE_KEY := "0xeeeeeeeeeeeeeeeeeeeeeeeeeeeeeeeeeeeeeeee"

  function GetListKey(list: TokenList): string {
    if list.isDefault || list.isLocal then "default" else if list.url.Some? then list.url.value else list.name
  }

  /** A JavaScript `Map`: it is iterated in the order in which keys were first set. */
  datatype JsMap<K(==), V> = JsMap(order: seq<K>, at: map<K, V>) {
    function Set(k: K, v: V): JsMap<K, V> {
      JsMap(if k in at then order else order + [k], at[k := v])
    }

    ghost predicate Valid() {
      && (forall k :: k in at ==> k in order) && (forall k :: k in order ==> k in at)
      && (forall i, j :: 0 <= i < j < |order| ==> order[i] != order[j])
    }
  }

  type Chain = JsMap<string, Sourced>
  type Index = JsMap<int, Chain>

  const NO_TOKENS: Chain := JsMap([], map[])
  const NO_CHAINS: Index := JsMap([], map[])

  function Lookup(index: Index, chainId: int, key: string): Option<Sourced> {
    if chainId in index.at && key in index.at[chainId].at then Some(index.at[chainId].at[key]) else None
  }

  // ---------------------------------------------------------------------------------- building it

  function AddToken(index: Index, token: Token, source: string): Index {
    var key := Lower(token.address);
    var withChain := if token.chainId in index.at then index else index.Set(token.chainId, NO_TOKENS);
    var chain := withChain.at[token.chainId];
    if key in chain.at then withChain else withChain.Set(token.chainId, chain.Set(key, Sourced(token, source)))
  }

  function AddTokens(index: Index, tokens: seq<Token>, source: string): Index
    decreases tokens
  {
    if tokens == [] then index else AddTokens(AddToken(index, tokens[0], source), tokens[1..], source)
  }

  function AddLists(index: Index, lists: seq<TokenList>): Index
    decreases lists
  {
    if lists == [] then index
    else if !lists[0].enabled then AddLists(index, lists[1..])
    else AddLists(AddTokens(index, lists[0].tokens, GetListKey(lists[0])), lists[1..])
  }

  function WithUsd(chain: Chain): Chain {
    if USD_KEY in chain.at then chain else chain.Set(USD_KEY, Sourced(USD_TOKEN, "builtin"))
  }

  function AddUsd(index: Index): Index {
    JsMap(index.order, map c | c in index.at :: WithUsd(index.at[c]))
  }

  function BuildIndex(lists: seq<TokenList>): Index {
    AddUsd(AddLists(NO_CHAINS, lists))
  }

  /** `buildTokenIndex`, its inner loop over the tokens of a list apart, and its last loop too. */
  method BuildTokenIndex(lists: seq<TokenList>) returns (index: Index)
    ensures index == BuildIndex(lists)
  {
    index := NO_CHAINS;
    for i := 0 to |lists|
      invariant AddLists(NO_CHAINS, lists) == AddLists(index, lists[i..])
    {
      var list := lists[i];
      if !list.enabled {
        continue;
      }
      index := IndexTokens(index, list.tokens, GetListKey(list));
    }
    BuiltValid(lists);
    index := InjectUsd(index);
  }

  method IndexTokens(start: Index, tokens: seq<Token>, key: string) returns (index: Index)
    ensures index == AddTokens(start, tokens, key)
  {
    index := start;
    for j := 0 to |tokens|
      invariant AddTokens(start, tokens, key) == AddTokens(index, tokens[j..], key)
    {
      var token := tokens[j];
      var address := Lower(token.address);
      ghost var before := index;
      if token.chainId !in index.at {
        index := index.Set(token.chainId, NO_TOKENS);
      }
      var chain := index.at[token.chainId];
      if address !in chain.at {
        index := index.Set(token.chainId, chain.Set(address, Sourced(token, key)));
      }
      assert index == AddToken(before, token, key);
    }
  }

  /** `index` is `start` with the first `n` of its chains looked at. */
  ghost predicate UsdUpTo(index: Index, start: Index, n: nat)
    requires start.Valid()
  {
    && index.order == start.order && index.at.Keys == start.at.Keys && n <= |start.order|
    && forall k :: 0 <= k < |start.order| ==>
         index.at[start.order[k]] == if k < n then WithUsd(start.at[start.order[k]]) else start.at[start.order[k]]
  }

  lemma UsdNext(index: Index, start: Index, n: nat)
    requires start.Valid() && UsdUpTo(index, start, n) && n < |start.order|
    ensures var c := start.order[n];
      UsdUpTo(JsMap(index.order, index.at[c := WithUsd(index.at[c])]), start, n + 1)
  {
  }

  method InjectUsd(start: Index) returns (index: Index)
    requires start.Valid()
    ensures index == AddUsd(start)
  {
    index := start;
    for i := 0 to |index.order|
      invariant UsdUpTo(index, start, i)
    {
      var c := index.order[i];
      UsdNext(index, start, i);
      ghost var next := JsMap(index.order, index.at[c := WithUsd(index.at[c])]);
      if USD_KEY !in index.at[c].at {
        index := index.Set(c, index.at[c].Set(USD_KEY, Sourced(USD_TOKEN, "builtin")));
      }
      assert index == next;
    }
    assert index.at == AddUsd(start).at;
  }

  // ------------------------------------------------------------------------------ what it contains

  predicate IsFor(token: Token, chainId: int, key: string) {
    token.chainId == chainId && Lower(token.address) == key
  }

  /** The first token of a list for this chain and address. */
  function FirstToken(tokens: seq<Token>, chainId: int, key: string): (r: Option<Token>)
    ensures r.None? <==> forall t :: t in tokens ==> !IsFor(t, chainId, key)
    ensures r.Some? ==> exists i ::
      (0 <= i < |tokens| && tokens[i] == r.value && IsFor(r.value, chainId, key)
       && forall j :: 0 <= j < i ==> !IsFor(tokens[j], chainId, key))
  {
    if tokens == [] then None
    else if IsFor(tokens[0], chainId, key) then Some(tokens[0])
    else
      var r := FirstToken(tokens[1..], chainId, key);
      assert forall t :: t in tokens ==> t == tokens[0] || t in tokens[1..];
      assert r.Some? ==> forall i :: 0 <= i < |tokens| - 1 ==> tokens[1..][i] == tokens[i + 1];
      r
  }

  /** The first such token of the first enabled list that has one. */
  function FirstMatch(lists: seq<TokenList>, chainId: int, key: string): Option<Sourced> {
    if lists == [] then None
    else
      var here := if lists[0].enabled then FirstToken(lists[0].tokens, chainId, key) else None;
      if here.Some? then Some(Sourced(here.value, GetListKey(lists[0]))) else FirstMatch(lists[1..], chainId, key)
  }

  /** In terms of positions: the first matching token of list `l` wins if `l` is enabled and no enabled list
      before it has a match. */
  lemma {:induction false} FirstListWins(lists: seq<TokenList>, l: nat, chainId: int, key: string)
    requires l < |lists| && lists[l].enabled && FirstToken(lists[l].tokens, chainId, key).Some?
    requires forall i, t :: 0 <= i < l && lists[i].enabled && t in lists[i].tokens ==> !IsFor(t, chainId, key)
    ensures var list, token := lists[l], FirstToken(lists[l].tokens, chainId, key).value;
      FirstMatch(lists, chainId, key) == Some(Sourced(token,
        if list.isDefault || list.isLocal then "default" else if list.url.Some? then list.url.value else list.name))
  {
    if l > 0 {
      assert lists[0].enabled ==> FirstToken(lists[0].tokens, chainId, key).None?;
      FirstListWins(lists[1..], l - 1, chainId, key);
    }
  }

  predicate Mentions(lists: seq<TokenList>, chainId: int) {
    exists i, t :: 0 <= i < |lists| && lists[i].enabled && t in lists[i].tokens && t.chainId == chainId
  }

  /** Keys are lower-case addresses, chains are not empty, and every map is in order. */
  ghost predicate WellFormed(index: Index) {
    && index.Valid()
    && forall c :: c in index.at ==> Keyed(index.at[c])
  }

  ghost predicate Keyed(chain: Chain) {
    chain.Valid() && forall key :: key in chain.at ==> Lower(chain.at[key].token.address) == key
  }

  lemma SetKeepsValid<K, V>(m: JsMap<K, V>, k: K, v: V)
    requires m.Valid()
    ensures m.Set(k, v).Valid()
  {
  }

  lemma AddTokenAdds(index: Index, token: Token, source: string)
    requires WellFormed(index)
    ensures var r := AddToken(index, token, source);
      && WellFormed(r)
      && (forall c :: c in r.at <==> c in index.at || c == token.chainId)
      && (forall c, key :: Lookup(r, c, key) ==
           if Lookup(index, c, key).Some? then Lookup(index, c, key)
           else if IsFor(token, c, key) then Some(Sourced(token, source)) else None)
  {
    AddTokenStaysWellFormed(index, token, source);
    forall c, key
      ensures Lookup(AddToken(index, token, source), c, key) ==
        if Lookup(index, c, key).Some? then Lookup(index, c, key)
        else if IsFor(token, c, key) then Some(Sourced(token, source)) else None
    {
      AddTokenLookup(index, token, source, c, key);
    }
  }

  lemma AddTokenLookup(index: Index, token: Token, source: string, c: int, key: string)
    ensures Lookup(AddToken(index, token, source), c, key) ==
      if Lookup(index, c, key).Some? then Lookup(index, c, key)
      else if IsFor(token, c, key) then Some(Sourced(token, source)) else None
  {
  }

  lemma AddTokenStaysWellFormed(index: Index, token: Token, source: string)
    requires WellFormed(index)
    ensures WellFormed(AddToken(index, token, source))
  {
    var withChain := if token.chainId in index.at then index else index.Set(token.chainId, NO_TOKENS);
    var longer := withChain.at[token.chainId].Set(Lower(token.address), Sourced(token, source));
    SetKeepsValid(index, token.chainId, NO_TOKENS);
    SetKeepsValid(withChain.at[token.chainId], Lower(token.address), Sourced(token, source));
    SetKeepsValid(withChain, token.chainId, longer);
  }

  lemma {:induction false} AddTokensAdds(index: Index, tokens: seq<Token>, source: string)
    requires WellFormed(index)
    ensures var r := AddTokens(index, tokens, source);
      && WellFormed(r)
      && (forall c :: c in r.at <==> c in index.at || exists t :: t in tokens && t.chainId == c)
      && (forall c, key :: Lookup(r, c, key) ==
           if Lookup(index, c, key).Some? then Lookup(index, c, key)
           else match FirstToken(tokens, c, key)
                case None => None
                case Some(t) => Some(Sourced(t, source)))
    decreases tokens
  {
    if tokens != [] {
      AddTokenAdds(index, tokens[0], source);
      AddTokensAdds(AddToken(index, tokens[0], source), tokens[1..], source);
    }
  }

  lemma {:induction false} AddListsAdds(index: Index, lists: seq<TokenList>)
    requires WellFormed(index)
    ensures var r := AddLists(index, lists);
      && WellFormed(r)
      && (forall c :: c in r.at <==> c in index.at || Mentions(lists, c))
      && (forall c, key :: Lookup(r, c, key) ==
           if Lookup(index, c, key).Some? then Lookup(index, c, key) else FirstMatch(lists, c, key))
    decreases lists
  {
    if lists != [] {
      var next := if lists[0].enabled then AddTokens(index, lists[0].tokens, GetListKey(lists[0])) else index;
      AddTokensAdds(index, lists[0].tokens, GetListKey(lists[0]));
      AddListsAdds(next, lists[1..]);
      forall c
        ensures Mentions(lists, c) <==>
          (lists[0].enabled && exists t :: t in lists[0].tokens && t.chainId == c) || Mentions(lists[1..], c)
      {
        MentionsSplit(lists, c);
      }
    }
  }

  lemma MentionsSplit(lists: seq<TokenList>, c: int)
    requires lists != []
    ensures Mentions(lists, c) <==>
      (lists[0].enabled && exists t :: t in lists[0].tokens && t.chainId == c) || Mentions(lists[1..], c)
  {
  }

  lemma BuiltValid(lists: seq<TokenList>)
    ensures WellFormed(AddLists(NO_CHAINS, lists))
  {
    AddListsAdds(NO_CHAINS, lists);
  }

  lemma WithUsdStaysKeyed(chain: Chain)
    requires Keyed(chain)
    ensures Keyed(WithUsd(chain))
  {
    assert Lower(USD_SENTINEL) == USD_KEY;
    SetKeepsValid(chain, USD_KEY, Sourced(USD_TOKEN, "builtin"));
  }

  lemma AddUsdStaysWellFormed(index: Index)
    requires WellFormed(index)
    ensures WellFormed(AddUsd(index))
  {
    forall c | c in index.at
      ensures Keyed(WithUsd(index.at[c]))
    {
      WithUsdStaysKeyed(index.at[c]);
    }
  }

  lemma AddUsdLookup(index: Index, chainId: int, key: string)
    ensures chainId in AddUsd(index).at <==> chainId in index.at
    ensures Lookup(AddUsd(index), chainId, key) ==
      if Lookup(index, chainId, key).Some? then Lookup(index, chainId, key)
      else if key == USD_KEY && chainId in index.at then Some(Sourced(USD_TOKEN, "builtin"))
      else None
  {
  }

  /** First list wins: the index has, for each chain and address, the first matching token of the first
      enabled list that has one, and beside those a USD entry in exactly the chains that have a token. */
  lemma IndexIsFirstMatch(lists: seq<TokenList>, chainId: int, key: string)
    ensures WellFormed(BuildIndex(lists))
    ensures chainId in BuildIndex(lists).at <==> Mentions(lists, chainId)
    ensures Lookup(BuildIndex(lists), chainId, key) ==
      if FirstMatch(lists, chainId, key).Some? then FirstMatch(lists, chainId, key)
      else if key == USD_KEY && Mentions(lists, chainId) then Some(Sourced(USD_TOKEN, "builtin"))
      else None
  {
    var plain := AddLists(NO_CHAINS, lists);
    AddListsAdds(NO_CHAINS, lists);
    AddUsdStaysWellFormed(plain);
    AddUsdLookup(plain, chainId, key);
    assert Lookup(plain, chainId, key) == FirstMatch(lists, chainId, key);
  }

  // ------------------------------------------------------------------------- the order of a chain's map

  /** The tokens of the enabled lists, one list after the other. */
  function AllTokens(lists: seq<TokenList>): seq<Token> {
    if lists == [] then [] else (if lists[0].enabled then lists[0].tokens else []) + AllTokens(lists[1..])
  }

  /** The place of the first token for this chain and address, or the number of tokens. */
  function FirstPlace(tokens: seq<Token>, chainId: int, key: string): (k: nat)
    ensures k <= |tokens| && (k < |tokens| ==> IsFor(tokens[k], chainId, key))
    ensures forall i :: 0 <= i < k ==> !IsFor(tokens[i], chainId, key)
  {
    if tokens == [] then 0
    else if IsFor(tokens[0], chainId, key) then 0
    else 1 + FirstPlace(tokens[1..], chainId, key)
  }

  lemma FirstPlaceIs(tokens: seq<Token>, chainId: int, key: string, k: nat)
    requires k <= |tokens| && (k < |tokens| ==> IsFor(tokens[k], chainId, key))
    requires forall i :: 0 <= i < k ==> !IsFor(tokens[i], chainId, key)
    ensures FirstPlace(tokens, chainId, key) == k
  {
  }

  /** These keys are in the order in which `tokens` has them first for chain `c`, and none is missing. */
  ghost predicate InOrderOf(order: seq<string>, tokens: seq<Token>, c: int) {
    && (forall i :: 0 <= i < |order| ==> FirstPlace(tokens, c, order[i]) < |tokens|)
    && (forall i, j :: 0 <= i < j < |order| ==> FirstPlace(tokens, c, order[i]) < FirstPlace(tokens, c, order[j]))
    && (forall i :: 0 <= i < |tokens| && tokens[i].chainId == c ==> Lower(tokens[i].address) in order)
  }

  function OrderIn(index: Index, c: int): seq<string> {
    if c in index.at then index.at[c].order else []
  }

  function OneMoreKey(order: seq<string>, token: Token, c: int): seq<string> {
    if token.chainId == c && Lower(token.address) !in order then order + [Lower(token.address)] else order
  }

  lemma AddTokenOrder(index: Index, token: Token, source: string, c: int)
    requires WellFormed(index)
    ensures OrderIn(AddToken(index, token, source), c) == OneMoreKey(OrderIn(index, c), token, c)
  {
    if c in index.at {
      assert Keyed(index.at[c]);
    }
  }

  lemma FirstPlaceKept(tokens: seq<Token>, token: Token, c: int, key: string)
    ensures FirstPlace(tokens, c, key) < |tokens| ==>
      FirstPlace(tokens + [token], c, key) == FirstPlace(tokens, c, key)
    ensures FirstPlace(tokens, c, key) == |tokens| && IsFor(token, c, key) ==>
      FirstPlace(tokens + [token], c, key) == |tokens|
  {
    var k := FirstPlace(tokens, c, key);
    if k < |tokens| || IsFor(token, c, key) {
      FirstPlaceIs(tokens + [token], c, key, k);
    }
  }

  lemma OrderGrows(order: seq<string>, tokens: seq<Token>, token: Token, c: int)
    requires InOrderOf(order, tokens, c)
    ensures InOrderOf(OneMoreKey(order, token, c), tokens + [token], c)
  {
    var more, longer := OneMoreKey(order, token, c), tokens + [token];
    forall i | 0 <= i < |order| ensures FirstPlace(longer, c, order[i]) == FirstPlace(tokens, c, order[i]) {
      FirstPlaceKept(tokens, token, c, order[i]);
    }
    if more != order {
      var key := Lower(token.address);
      assert FirstPlace(tokens, c, key) == |tokens|;
      FirstPlaceKept(tokens, token, c, key);
    }
    forall i | 0 <= i < |longer| && longer[i].chainId == c ensures Lower(longer[i].address) in more {
      if i < |tokens| {
        assert longer[i] == tokens[i];
      }
    }
  }

  lemma {:induction false} AddTokensInOrder(index: Index, seen: seq<Token>, tokens: seq<Token>, source: string, c: int)
    requires WellFormed(index) && InOrderOf(OrderIn(index, c), seen, c)
    ensures WellFormed(AddTokens(index, tokens, source))
    ensures InOrderOf(OrderIn(AddTokens(index, tokens, source), c), seen + tokens, c)
    decreases tokens
  {
    if tokens == [] {
      assert seen + tokens == seen;
    } else {
      var next := AddToken(index, tokens[0], source);
      AddTokenOrder(index, tokens[0], source, c);
      OrderGrows(OrderIn(index, c), seen, tokens[0], c);
      AddTokenStaysWellFormed(index, tokens[0], source);
      AddTokensInOrder(next, seen + [tokens[0]], tokens[1..], source, c);
      Regroup(seen, [tokens[0]], tokens[1..]);
      assert [tokens[0]] + tokens[1..] == tokens;
    }
  }

  lemma {:induction false} AddListsInOrder(index: Index, seen: seq<Token>, lists: seq<TokenList>, c: int)
    requires WellFormed(index) && InOrderOf(OrderIn(index, c), seen, c)
    ensures InOrderOf(OrderIn(AddLists(index, lists), c), seen + AllTokens(lists), c)
    decreases lists
  {
    if lists == [] {
      assert seen + AllTokens(lists) == seen;
    } else if !lists[0].enabled {
      AddListsInOrder(index, seen, lists[1..], c);
      assert AllTokens(lists) == AllTokens(lists[1..]);
    } else {
      var tokens, key := lists[0].tokens, GetListKey(lists[0]);
      AddTokensInOrder(index, seen, tokens, key, c);
      AddListsInOrder(AddTokens(index, tokens, key), seen + tokens, lists[1..], c);
      Regroup(seen, tokens, AllTokens(lists[1..]));
    }
  }

  /** A chain's map goes through its tokens in the order in which the enabled lists have them first, and
      through an added USD entry last. */
  lemma MapIsInListOrder(lists: seq<TokenList>, chainId: int, i: nat, j: nat)
    requires chainId in BuildIndex(lists).at && i < j < |BuildIndex(lists).at[chainId].order|
    ensures var order, tokens := BuildIndex(lists).at[chainId].order, AllTokens(lists);
      FirstPlace(tokens, chainId, order[i]) < FirstPlace(tokens, chainId, order[j])
  {
    var plain := AddLists(NO_CHAINS, lists);
    AddListsInOrder(NO_CHAINS, [], lists, chainId);
    assert [] + AllTokens(lists) == AllTokens(lists);
    BuiltValid(lists);
    assert Keyed(plain.at[chainId]);
    UsdIsLast(plain.at[chainId], AllTokens(lists), chainId, i, j);
  }

  lemma UsdIsLast(chain: Chain, tokens: seq<Token>, c: int, i: nat, j: nat)
    requires Keyed(chain) && InOrderOf(chain.order, tokens, c) && i < j < |WithUsd(chain).order|
    ensures var order := WithUsd(chain).order;
      FirstPlace(tokens, c, order[i]) < FirstPlace(tokens, c, order[j])
  {
    if j == |chain.order| {
      assert USD_KEY !in chain.order && WithUsd(chain).order[j] == USD_KEY;
      assert FirstPlace(tokens, c, USD_KEY) == |tokens|;
    }
  }
}
