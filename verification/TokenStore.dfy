/** The mutable state behind the token index: the lists, which are shared objects, the index published from
    them, and the saved default pairs. */
module TokenStore {
  import opened Basics
  import opened Text
  import opened TokenIndex

  datatype Pair = Pair(from: string, to: string)

  const CHAIN_IDS := map["ethereum" := 1, "base" := 8453]
  const CHAINS := ["ethereum", "base"]
  const DEFAULT_PAIRS := map[
    "ethereum" := Pair("0xA0b86991c6218b36c1d19D4a2e9Eb0cE3606eB48", USD_SENTINEL),
    "base" := Pair("0x833589fCD6eDb6E08f4c7C32D4f71b54bdA02913", USD_SENTINEL)]

  predicate Identity(p: Pair) {
    Lower(p.from) == Lower(p.to)
  }

  /** Both tokens of a pair are in the chain's part of the index. */
  predicate Resolves(index: Index, chainId: int, p: Pair) {
    Lookup(index, chainId, Lower(p.from)).Some? && Lookup(index, chainId, Lower(p.to)).Some?
  }

  predicate Stale(index: Index, chain: string, p: Pair) {
    chain in CHAIN_IDS && !Resolves(index, CHAIN_IDS[chain], p)
  }

  /** The saved pairs after a list with this key is gone. */
  function Repair(pairs: map<string, Pair>, removedKey: string, index: Index): map<string, Pair> {
    if removedKey == "default" then pairs
    else map chain | chain in pairs && !Stale(index, chain, pairs[chain]) :: pairs[chain]
  }

  /** The saved pairs after these chains have been looked at. */
  function Pruned(pairs: map<string, Pair>, index: Index, chains: seq<string>): map<string, Pair> {
    map chain | chain in pairs && !(chain in chains && Stale(index, chain, pairs[chain])) :: pairs[chain]
  }

  lemma PrunedNext(pairs: map<string, Pair>, index: Index, chains: seq<string>, chain: string)
    ensures Pruned(pairs, index, chains + [chain]) ==
      if chain in Pruned(pairs, index, chains) && Stale(index, chain, pairs[chain])
      then Pruned(pairs, index, chains) - {chain} else Pruned(pairs, index, chains)
  {
  }

  function EffectivePair(pairs: map<string, Pair>, chain: string): Pair
    requires chain in DEFAULT_PAIRS
  {
    if chain in pairs && !Identity(pairs[chain]) then pairs[chain] else DEFAULT_PAIRS[chain]
  }

  class TokenlistEntry {
    const name: string
    var tokens: seq<Token>
    const url: Option<string>
    const isDefault: bool
    const isLocal: bool
    var enabled: bool

    constructor (name: string, tokens: seq<Token>, url: Option<string>, isDefault: bool, isLocal: bool, enabled: bool)
      ensures View() == TokenList(name, tokens, url, isDefault, isLocal, enabled)
    {
      this.name, this.tokens, this.url := name, tokens, url;
      this.isDefault, this.isLocal, this.enabled := isDefault, isLocal, enabled;
    }

    function View(): TokenList
      reads this
    {
      TokenList(name, tokens, url, isDefault, isLocal, enabled)
    }
  }

  /** What the lists hold now. */
  function Views(lists: seq<TokenlistEntry>): (r: seq<TokenList>)
    reads lists
    ensures |r| == |lists| && forall i :: 0 <= i < |lists| ==> r[i] == lists[i].View()
  {
    seq(|lists|, i requires 0 <= i < |lists| reads lists => lists[i].View())
  }

  /** What a list goes by: 'default' if it is the default or a local list, else its URL, else its name. */
  predicate HasKey(list: TokenList, key: string) {
    if list.isDefault || list.isLocal then key == "default"
    else list.url == Some(key) || (list.url == None && list.name == key)
  }

  /** The index of the first list with this key. */
  function KeyPosition(views: seq<TokenList>, key: string): (k: nat)
    ensures k <= |views| && (k < |views| ==> HasKey(views[k], key))
    ensures forall i :: 0 <= i < k ==> !HasKey(views[i], key)
  {
    if views == [] then 0 else if GetListKey(views[0]) == key then 0 else 1 + KeyPosition(views[1..], key)
  }

  /** The index of the local tokens list, if it is still there. */
  function LocalPosition(views: seq<TokenList>): (k: nat)
    ensures k <= |views| && (k < |views| ==> views[k].isLocal && views[k].name == "Local Tokens")
    ensures forall i :: 0 <= i < k ==> !(views[i].isLocal && views[i].name == "Local Tokens")
  {
    if views == [] then 0
    else if views[0].isLocal && views[0].name == "Local Tokens" then 0
    else 1 + LocalPosition(views[1..])
  }

  lemma {:induction false} ViewsRemove(lists: seq<TokenlistEntry>, at: nat)
    requires at < |lists|
    ensures Views(Remove(lists, at)) == Remove(Views(lists), at)
  {
    var left, views := Views(Remove(lists, at)), Remove(Views(lists), at);
    forall i | 0 <= i < |left| ensures left[i] == views[i] {
    }
  }

  class Store {
    var lists: seq<TokenlistEntry>
    var userLists: seq<TokenlistEntry>
    var localTokens: seq<Token>
    var index: Index
    var pairs: map<string, Pair>

    /** Index agreement: what is published is built from the lists as they are now. */
    ghost predicate Valid()
      reads this, lists
    {
      index == BuildIndex(Views(lists))
    }

    /** `initTokenlists`, once the saved lists have been fetched. */
    constructor (defaultList: TokenlistEntry, builtinList: TokenlistEntry, userLists: seq<TokenlistEntry>,
                 localTokens: seq<Token>, pairs: map<string, Pair>)
      ensures Valid() && this.userLists == userLists && this.localTokens == localTokens && this.pairs == pairs
      ensures |lists| == |userLists| + 3 && lists[..|userLists| + 2] == [defaultList, builtinList] + userLists
      ensures lists[|userLists| + 2].View() == TokenList("Local Tokens", localTokens, None, false, true, true)
    {
      var localTokensList := new TokenlistEntry("Local Tokens", localTokens, None, false, true, true);
      this.userLists, this.localTokens, this.pairs := userLists, localTokens, pairs;
      var all := [defaultList, builtinList] + userLists + [localTokensList];
      lists := all;
      index := BuildIndex(Views(all));
    }

    method RebuildAndSync()
      modifies this`index
      ensures Valid()
    {
      index := BuildTokenIndex(Views(lists));
    }

    /** `toggleList`: the first list with this key, and no other object, is switched. */
    method ToggleList(key: string)
      requires Valid()
      modifies this`index, lists
      ensures Valid()
      ensures var k := KeyPosition(old(Views(lists)), key);
        forall e :: e in lists ==>
          e.View() == if k < |lists| && e == lists[k] then old(e.View()).(enabled := !old(e.enabled)) else old(e.View())
    {
      var k := KeyPosition(Views(lists), key);
      if k < |lists| {
        lists[k].enabled := !lists[k].enabled;
      }
      RebuildAndSync();
    }

    /** `addList`: before the last list. */
    method AddList(list: TokenlistEntry)
      requires Valid()
      modifies this
      ensures Valid()
      ensures var n := if old(lists) == [] then 0 else |old(lists)| - 1;
        lists == old(lists)[..n] + [list] + old(lists)[n..]
      ensures userLists == old(userLists) + [list] && localTokens == old(localTokens) && pairs == old(pairs)
    {
      userLists := userLists + [list];
      var n := if |lists| == 0 then 0 else |lists| - 1;
      lists := lists[..n] + [list] + lists[n..];
      RebuildAndSync();
    }

    method ResetCustomPair(chain: string)
      modifies this`pairs
      ensures pairs == old(pairs) - {chain}
    {
      pairs := pairs - {chain};
    }

    method SaveCustomPair(chain: string, from: string, to: string)
      modifies this`pairs
      ensures pairs == if Identity(Pair(from, to)) then old(pairs) else old(pairs)[chain := Pair(from, to)]
    {
      if Lower(from) == Lower(to) {
        return;
      }
      pairs := pairs[chain := Pair(from, to)];
    }

    /** The loop over the known chains at the end of `removeList`. */
    method RepairPairs()
      modifies this`pairs
      ensures var remaining := BuildIndex(Views(lists));
        pairs == map chain | chain in old(pairs) && !Stale(remaining, chain, old(pairs)[chain]) :: old(pairs)[chain]
    {
      ghost var remaining := BuildIndex(Views(lists));
      for i := 0 to |CHAINS|
        invariant remaining == BuildIndex(Views(lists))
        invariant pairs == Pruned(old(pairs), remaining, CHAINS[..i])
      {
        var chain := CHAINS[i];
        PrunedNext(old(pairs), remaining, CHAINS[..i], chain);
        assert CHAINS[..i + 1] == CHAINS[..i] + [chain];
        if chain in pairs {
          var custom := pairs[chain];
          var tempIndex := BuildTokenIndex(Views(lists));
          var chainId := CHAIN_IDS[chain];
          var fromPresent := chainId in tempIndex.at && Lower(custom.from) in tempIndex.at[chainId].at;
          var toPresent := chainId in tempIndex.at && Lower(custom.to) in tempIndex.at[chainId].at;
          if !fromPresent || !toPresent {
            ResetCustomPair(chain);
          }
        }
      }
      assert CHAINS[..|CHAINS|] == CHAINS;
    }

    /** The last part of `removeList`: no pair is looked at under the key 'default'. */
    method RepairAfterRemoving(removedKey: string)
      modifies this`pairs
      ensures pairs == Repair(old(pairs), removedKey, BuildIndex(Views(lists)))
    {
      if removedKey != "default" {
        RepairPairs();
      }
    }

    /** `removeList`. */
    method RemoveList(at: int)
      requires Valid()
      modifies this
      ensures Valid() && localTokens == old(localTokens)
      ensures at < 0 || at >= |old(lists)| ==> unchanged(this)
      ensures 0 <= at < |old(lists)| ==>
        var removed, before := old(lists)[at], old(userLists);
        && lists == Remove(old(lists), at) && Views(lists) == Remove(old(Views(lists)), at)
        && userLists == (if removed in before then Remove(before, Position(before, removed)) else before)
        && pairs == Repair(old(pairs), GetListKey(old(Views(lists))[at]), BuildIndex(Views(lists)))
    {
      if at < 0 || at >= |lists| {
        return;
      }
      var removed := lists[at];
      ViewsRemove(lists, at);
      lists := Remove(lists, at);
      var user := Position(userLists, removed);
      if user < |userLists| {
        userLists := Remove(userLists, user);
      }
      assert Views(lists) == Remove(old(Views(lists)), at);
      RepairAfterRemoving(GetListKey(removed.View()));
      RebuildAndSync();
    }

    /** `addLocalToken`: the local list, if it is still there, gets all local tokens. */
    method AddLocalToken(token: Token)
      requires Valid()
      modifies this`localTokens, this`index, lists
      ensures Valid() && localTokens == old(localTokens) + [token]
      ensures var k := LocalPosition(old(Views(lists)));
        forall e :: e in lists ==>
          e.View() == if k < |lists| && e == lists[k] then old(e.View()).(tokens := localTokens) else old(e.View())
    {
      localTokens := localTokens + [token];
      assert Views(lists) == old(Views(lists));
      var local := LocalPosition(Views(lists));
      if local < |lists| {
        lists[local].tokens := localTokens;
      }
      RebuildAndSync();
    }

    /** `getTokenFromIndex`. */
    method GetTokenFromIndex(address: string, chainId: int) returns (r: Option<Sourced>)
      requires Valid()
      ensures Lower(address) == USD_KEY ==> r == Some(Sourced(USD_TOKEN, "builtin"))
      ensures Lower(address) != USD_KEY ==> r == FirstMatch(Views(lists), chainId, Lower(address))
    {
      IndexIsFirstMatch(Views(lists), chainId, Lower(address));
      r :=
        if Lower(address) == USD_KEY then Some(Sourced(USD_TOKEN, "builtin"))
        else Lookup(index, chainId, Lower(address));
    }
  }

  // ---------------------------------------------------------------------------------------- theorems

  /** The token makes `key` resolve on this chain: it has that address, or it makes the chain have USD. */
  predicate Supplies(t: Token, chainId: int, key: string) {
    t.chainId == chainId && (Lower(t.address) == key || key == USD_KEY)
  }

  predicate ListSupplies(list: TokenList, chainId: int, key: string) {
    list.enabled && exists t :: t in list.tokens && Supplies(t, chainId, key)
  }

  predicate Known(lists: seq<TokenList>, chainId: int, key: string) {
    exists i :: 0 <= i < |lists| && ListSupplies(lists[i], chainId, key)
  }

  lemma {:induction false} FirstMatchIsSome(lists: seq<TokenList>, chainId: int, key: string)
    ensures FirstMatch(lists, chainId, key).Some? <==>
      exists i, t :: 0 <= i < |lists| && lists[i].enabled && t in lists[i].tokens && IsFor(t, chainId, key)
  {
    if lists != [] {
      FirstMatchIsSome(lists[1..], chainId, key);
      if exists i, t :: 0 <= i < |lists| && lists[i].enabled && t in lists[i].tokens && IsFor(t, chainId, key) {
        var i, t :| 0 <= i < |lists| && lists[i].enabled && t in lists[i].tokens && IsFor(t, chainId, key);
        assert i > 0 ==> lists[1..][i - 1] == lists[i];
      }
      if FirstMatch(lists[1..], chainId, key).Some? {
        var i, t :| 0 <= i < |lists| - 1 && lists[1..][i].enabled && t in lists[1..][i].tokens
                    && IsFor(t, chainId, key);
        assert lists[i + 1].enabled && t in lists[i + 1].tokens;
      }
    }
  }

  lemma LookupExactly(lists: seq<TokenList>, chainId: int, key: string)
    ensures Lookup(BuildIndex(lists), chainId, key).Some? <==> Known(lists, chainId, key)
  {
    IndexIsFirstMatch(lists, chainId, key);
    FirstMatchIsSome(lists, chainId, key);
    if i, t :| 0 <= i < |lists| && lists[i].enabled && t in lists[i].tokens && IsFor(t, chainId, key) {
      assert Supplies(t, chainId, key) && ListSupplies(lists[i], chainId, key);
    }
    if key == USD_KEY && Mentions(lists, chainId) {
      var i, t :| 0 <= i < |lists| && lists[i].enabled && t in lists[i].tokens && t.chainId == chainId;
      assert Supplies(t, chainId, key) && ListSupplies(lists[i], chainId, key);
    }
    if i :| 0 <= i < |lists| && ListSupplies(lists[i], chainId, key) {
      var t :| t in lists[i].tokens && Supplies(t, chainId, key);
      assert IsFor(t, chainId, key) || Mentions(lists, chainId);
    }
  }

  /** What it takes for a pair to resolve: for each address an enabled list with a token for it or, for USD,
      with any token of the chain. */
  lemma ResolvesExactly(lists: seq<TokenList>, chainId: int, p: Pair)
    ensures Resolves(BuildIndex(lists), chainId, p)
      <==> Known(lists, chainId, Lower(p.from)) && Known(lists, chainId, Lower(p.to))
  {
    LookupExactly(lists, chainId, Lower(p.from));
    LookupExactly(lists, chainId, Lower(p.to));
  }

  /** List `at` is the one that makes `key` resolve: it does, and no other list does. */
  predicate OnlySource(lists: seq<TokenList>, at: nat, chainId: int, key: string)
    requires at < |lists|
  {
    && ListSupplies(lists[at], chainId, key)
    && forall i :: 0 <= i < |lists| && i != at ==> !ListSupplies(lists[i], chainId, key)
  }

  lemma RemovalForgets(lists: seq<TokenList>, at: nat, chainId: int, key: string)
    requires at < |lists| && Known(lists, chainId, key)
    ensures Known(Remove(lists, at), chainId, key) <==> !OnlySource(lists, at, chainId, key)
  {
    var left := Remove(lists, at);
    assert forall i :: 0 <= i < |left| ==> left[i] == lists[if i < at then i else i + 1];
    if i :| 0 <= i < |lists| && i != at && ListSupplies(lists[i], chainId, key) {
      assert left[if i < at then i else i - 1] == lists[i];
    }
  }

  /** One of the pair's tokens comes from list `at` alone. */
  predicate DependsOn(lists: seq<TokenList>, at: nat, chainId: int, p: Pair)
    requires at < |lists|
  {
    OnlySource(lists, at, chainId, Lower(p.from)) || OnlySource(lists, at, chainId, Lower(p.to))
  }

  /** The lists whose removal repairs nothing: default and local ones, and a user list that goes by 'default'. */
  predicate GoesByDefault(list: TokenList) {
    HasKey(list, "default")
  }

  /** What removing a list does to a saved pair of a known chain that resolves, in terms of the lists before.
      The pair stops resolving if and only if one of its tokens came from that list alone. It is then reset
      if the list does not go by 'default', and is left stale if it does. In every other case it is kept as it
      was, and still resolves. */
  lemma PairAfterRemoval(lists: seq<TokenList>, at: nat, pairs: map<string, Pair>, chain: string)
    requires at < |lists| && chain in pairs && chain in CHAIN_IDS
    requires Resolves(BuildIndex(lists), CHAIN_IDS[chain], pairs[chain])
    ensures var index := BuildIndex(Remove(lists, at));
      var depends := DependsOn(lists, at, CHAIN_IDS[chain], pairs[chain]);
      var left := Repair(pairs, GetListKey(lists[at]), index);
      && (Resolves(index, CHAIN_IDS[chain], pairs[chain]) <==> !depends)
      && (chain !in left <==> depends && !GoesByDefault(lists[at]))
      && (chain in left && Stale(index, chain, left[chain]) <==> depends && GoesByDefault(lists[at]))
      && (chain in left ==> left[chain] == pairs[chain])
  {
    var id, p := CHAIN_IDS[chain], pairs[chain];
    ResolvesExactly(lists, id, p);
    ResolvesExactly(Remove(lists, at), id, p);
    RemovalForgets(lists, at, id, Lower(p.from));
    RemovalForgets(lists, at, id, Lower(p.to));
  }

  lemma StaysUnknown(lists: seq<TokenList>, at: nat, chainId: int, p: Pair)
    requires at < |lists| && !Resolves(BuildIndex(lists), chainId, p)
    ensures !Resolves(BuildIndex(Remove(lists, at)), chainId, p)
  {
    ResolvesExactly(lists, chainId, p);
    ResolvesExactly(Remove(lists, at), chainId, p);
    assert forall i :: 0 <= i < |lists| - 1 ==> Remove(lists, at)[i] == lists[if i < at then i else i + 1];
  }

  /** A pair that did not resolve before: removal cannot mend it, and resets it unless the list goes by 'default'.
      Pairs of unknown chains are never touched. */
  lemma OtherPairsAfterRemoval(lists: seq<TokenList>, at: nat, pairs: map<string, Pair>, chain: string)
    requires at < |lists| && chain in pairs
    requires chain in CHAIN_IDS ==> !Resolves(BuildIndex(lists), CHAIN_IDS[chain], pairs[chain])
    ensures var left := Repair(pairs, GetListKey(lists[at]), BuildIndex(Remove(lists, at)));
      && (chain in left <==> chain !in CHAIN_IDS || GoesByDefault(lists[at]))
      && (chain in left ==> left[chain] == pairs[chain])
  {
    if chain in CHAIN_IDS {
      StaysUnknown(lists, at, CHAIN_IDS[chain], pairs[chain]);
    }
  }

  /** Without a repair the removal would leave this pair stale: it is already, or it depends on the list. */
  predicate Endangered(lists: seq<TokenList>, at: nat, chain: string, p: Pair)
    requires at < |lists|
  {
    && chain in CHAIN_IDS
    && (!Resolves(BuildIndex(lists), CHAIN_IDS[chain], p) || DependsOn(lists, at, CHAIN_IDS[chain], p))
  }

  lemma StaleIfEndangered(lists: seq<TokenList>, at: nat, pairs: map<string, Pair>, chain: string)
    requires at < |lists| && chain in pairs
    ensures Stale(BuildIndex(Remove(lists, at)), chain, pairs[chain]) <==> Endangered(lists, at, chain, pairs[chain])
  {
    if chain in CHAIN_IDS {
      if Resolves(BuildIndex(lists), CHAIN_IDS[chain], pairs[chain]) {
        PairAfterRemoval(lists, at, pairs, chain);
      } else {
        StaysUnknown(lists, at, CHAIN_IDS[chain], pairs[chain]);
      }
    }
  }

  /** `removeList` leaves no saved pair stale if and only if the list's key is not 'default', or none was
      endangered: all resolved before, and none has a token from that list alone. */
  lemma RepairIsComplete(lists: seq<TokenList>, at: nat, pairs: map<string, Pair>)
    requires at < |lists|
    ensures var index := BuildIndex(Remove(lists, at));
      var left := Repair(pairs, GetListKey(lists[at]), index);
      (forall chain :: chain in left ==> !Stale(index, chain, left[chain]))
      <==> (!GoesByDefault(lists[at]) || forall chain :: chain in pairs ==> !Endangered(lists, at, chain, pairs[chain]))
  {
    forall chain | chain in pairs
      ensures Stale(BuildIndex(Remove(lists, at)), chain, pairs[chain])
        <==> Endangered(lists, at, chain, pairs[chain])
    {
      StaleIfEndangered(lists, at, pairs, chain);
    }
    var index := BuildIndex(Remove(lists, at));
    if GetListKey(lists[at]) == "default" {
      if chain :| chain in pairs && Endangered(lists, at, chain, pairs[chain]) {
        assert Stale(index, chain, pairs[chain]) && chain in Repair(pairs, "default", index);
      }
    }
  }

  /** A removal that leaves a pair stale which resolved before: its token came from the local tokens, whose
      list has the key 'default'. */
  lemma DefaultKeyIsNotRepaired(token: Token)
    requires token.chainId == 8453
    ensures var lists := [TokenList("Local Tokens", [token], None, false, true, true)];
      var pairs := map["base" := Pair(token.address, USD_SENTINEL)];
      var index := BuildIndex(Remove(lists, 0));
      && Resolves(BuildIndex(lists), 8453, pairs["base"])
      && "base" in Repair(pairs, GetListKey(lists[0]), index) && Stale(index, "base", pairs["base"])
  {
    var lists := [TokenList("Local Tokens", [token], None, false, true, true)];
    var pairs := map["base" := Pair(token.address, USD_SENTINEL)];
    assert Lower(USD_SENTINEL) == USD_KEY;
    assert Supplies(token, 8453, Lower(token.address)) && Supplies(token, 8453, USD_KEY);
    assert ListSupplies(lists[0], 8453, Lower(token.address)) && ListSupplies(lists[0], 8453, USD_KEY);
    ResolvesExactly(lists, 8453, pairs["base"]);
    PairAfterRemoval(lists, 0, pairs, "base");
  }

  lemma SwitchingOffForgets(lists: seq<TokenList>, at: nat, chainId: int, key: string)
    requires at < |lists| && Known(lists, chainId, key)
    ensures var off := lists[at := lists[at].(enabled := false)];
      Known(off, chainId, key) <==> !OnlySource(lists, at, chainId, key)
  {
    var off := lists[at := lists[at].(enabled := false)];
    assert forall i :: 0 <= i < |lists| && i != at ==> off[i] == lists[i];
    assert !ListSupplies(off[at], chainId, key);
  }

  /** Switching a list off makes the same pairs stop resolving as removing it would, and `toggleList` repairs
      none of them. */
  lemma PairAfterSwitchingOff(lists: seq<TokenList>, at: nat, chainId: int, p: Pair)
    requires at < |lists| && Resolves(BuildIndex(lists), chainId, p)
    ensures var off := lists[at := lists[at].(enabled := false)];
      && (Resolves(BuildIndex(off), chainId, p) <==> !DependsOn(lists, at, chainId, p))
      && (Resolves(BuildIndex(off), chainId, p) <==> Resolves(BuildIndex(Remove(lists, at)), chainId, p))
  {
    ResolvesExactly(lists, chainId, p);
    ResolvesExactly(lists[at := lists[at].(enabled := false)], chainId, p);
    ResolvesExactly(Remove(lists, at), chainId, p);
    SwitchingOffForgets(lists, at, chainId, Lower(p.from));
    SwitchingOffForgets(lists, at, chainId, Lower(p.to));
    RemovalForgets(lists, at, chainId, Lower(p.from));
    RemovalForgets(lists, at, chainId, Lower(p.to));
  }

  /** The pair in use is never the same token twice; a saved pair is in use until it is reset. */
  lemma EffectiveIsUsable(pairs: map<string, Pair>, chain: string, p: Pair)
    requires chain in DEFAULT_PAIRS
    ensures !Identity(EffectivePair(pairs, chain))
    ensures !Identity(p) ==> EffectivePair(pairs[chain := p], chain) == p
    ensures Identity(p) ==> EffectivePair(pairs[chain := p], chain) == DEFAULT_PAIRS[chain]
    ensures EffectivePair(pairs - {chain}, chain) == DEFAULT_PAIRS[chain]
  {
  }
}
