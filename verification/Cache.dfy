/** The price cache (`src/cache.py`): string keys over a store that may forget an entry, miss a read or drop
    a write. When an entry was cached is left out. */
module Cache {
  import opened Basics
  import opened Text

  /** A stored dictionary: a price, a definitive absence of one, or an error of older releases that does
      not say whether it was definitive. */
  datatype Entry = Price(price: real, blockTimestamp: Option<int>) | NoPrice(error: string) | LegacyError(error: string)

  type Store = map<string, Entry>

  function MakeKey(token: string, block: int): string {
    Lower(token) + ":" + Show(block)
  }

  /** `key.rsplit(":", 1)` and `int`, as the listing of errors does it. */
  function LastColon(s: string): (r: Option<nat>)
    ensures r.Some? ==> r.value < |s| && s[r.value] == ':' && ':' !in s[r.value + 1..]
    ensures r.None? ==> ':' !in s
  {
    if s == "" then None
    else if s[|s| - 1] == ':' then Some(|s| - 1)
    else LastColon(s[..|s| - 1])
  }

  function DecodeKey(key: string): Option<(string, int)> {
    match LastColon(key)
    case None => None
    case Some(i) =>
      match Read(key[i + 1..])
      case None => None
      case Some(block) => Some((key[..i], block))
  }

  lemma {:induction false} LastColonAt(front: string, back: string)
    requires ':' !in back
    ensures LastColon(front + ":" + back) == Some(|front|)
  {
    var s := front + ":" + back;
    if back != "" {
      var shorter := back[..|back| - 1];
      assert s[..|s| - 1] == front + ":" + shorter;
      assert s[|s| - 1] == back[|back| - 1] && back[|back| - 1] in back;
      LastColonAt(front, shorter);
    }
  }

  lemma LastColonSplits(key: string)
    ensures var i := LastColon(key);
      i.Some? ==> key == key[..i.value] + ":" + key[i.value + 1..] && ':' !in key[i.value + 1..]
  {
  }

  /** Decoding splits a key at its last colon, and the rest must be a numeral. */
  lemma DecodesExactly(key: string, token: string, block: int)
    ensures DecodeKey(key) == Some((token, block))
      <==> exists n :: key == token + ":" + n && ':' !in n && Read(n) == Some(block)
  {
    LastColonSplits(key);
    if n :| key == token + ":" + n && ':' !in n && Read(n) == Some(block) {
      LastColonAt(token, n);
      assert key[..|token|] == token && key[|token| + 1..] == n;
    }
  }

  /** Decoding inverts `make_key`, whatever characters the token has, colons included. */
  lemma KeyRoundTrip(token: string, block: int)
    ensures DecodeKey(MakeKey(token, block)) == Some((Lower(token), block))
  {
    ReadShow(block);
    LastColonAt(Lower(token), Show(block));
    assert MakeKey(token, block)[|Lower(token)| + 1..] == Show(block);
    assert MakeKey(token, block)[..|Lower(token)|] == Lower(token);
  }

  /** Two lookups share a key exactly when they are for the same block and for tokens equal up to case. */
  lemma KeyInjective(t: string, b: int, t': string, b': int)
    ensures MakeKey(t, b) == MakeKey(t', b') <==> Lower(t) == Lower(t') && b == b'
  {
    KeyRoundTrip(t, b);
    KeyRoundTrip(t', b');
  }

  lemma LowerTwice(s: string)
    ensures Lower(Lower(s)) == Lower(s)
  {
  }

  // --------------------------------------------------------------------------- what reads can return

  /** `get_cached_price` for a key; `seen` is false when the read misses or fails. */
  function PriceAt(store: Store, token: string, block: int, seen: bool): Option<(real, Option<int>)> {
    var key := MakeKey(token, block);
    if seen && key in store && store[key].Price? then Some((store[key].price, store[key].blockTimestamp)) else None
  }

  /** `get_cached_error`, which takes no legacy error for an answer. */
  function NoPriceAt(store: Store, token: string, block: int, seen: bool): Option<string> {
    var key := MakeKey(token, block);
    if seen && key in store && store[key].NoPrice? then Some(store[key].error) else None
  }

  /** A write that may be lost. */
  function Write(store: Store, token: string, block: int, entry: Entry, kept: bool): Store {
    if kept then store[MakeKey(token, block) := entry] else store
  }

  /** What a read that gets through returns after a write: if the write was kept and was for the same block
      and the token in any case of letters, that entry, in the kind it is; in any other case what it would
      have returned before. */
  lemma ReadAfterWrite(store: Store, t: string, b: int, entry: Entry, kept: bool, token: string, block: int)
    ensures var after := Write(store, t, b, entry, kept);
      if kept && Lower(t) == Lower(token) && b == block then
        && PriceAt(after, token, block, true)
           == (if entry.Price? then Some((entry.price, entry.blockTimestamp)) else None)
        && NoPriceAt(after, token, block, true) == (if entry.NoPrice? then Some(entry.error) else None)
      else
        && PriceAt(after, token, block, true) == PriceAt(store, token, block, true)
        && NoPriceAt(after, token, block, true) == NoPriceAt(store, token, block, true)
    ensures PriceAt(store, token, block, false).None? && NoPriceAt(store, token, block, false).None?
  {
    KeyInjective(t, b, token, block);
  }

  /** An answer comes from an entry of its own kind, under a key that decodes to the same block and the same
      token up to case. */
  ghost predicate Answers(store: Store, token: string, block: int, entry: Entry) {
    exists key :: key in store && DecodeKey(key) == Some((Lower(token), block)) && store[key] == entry
  }

  /** A key as `make_key` makes them. */
  predicate Canonical(key: string) {
    var pair := DecodeKey(key);
    pair.Some? && Lower(pair.value.0) == pair.value.0 && MakeKey(pair.value.0, pair.value.1) == key
  }

  /** `make_key` makes exactly these keys. */
  lemma CanonicalExactly(key: string)
    ensures Canonical(key) <==> exists token, block :: key == MakeKey(token, block)
  {
    if token, block :| key == MakeKey(token, block) {
      KeyRoundTrip(token, block);
      LowerTwice(token);
    }
  }

  /** Stores that only `set_cached_price` and `set_cached_error` ever wrote to. */
  ghost predicate BuiltByWriters(store: Store) {
    forall key :: key in store ==> Canonical(key) && !store[key].LegacyError?
  }

  lemma WritersBuild(store: Store, token: string, block: int, entry: Entry, kept: bool)
    requires BuiltByWriters(store) && !entry.LegacyError?
    ensures BuiltByWriters(Write(store, token, block, entry, kept))
  {
    KeyRoundTrip(token, block);
    LowerTwice(token);
  }

  /** The no-price pairs of a store, as its readable keys stand for them. */
  ghost predicate IsNoPricePair(store: Store, live: set<string>, pair: (string, int)) {
    var key := MakeKey(pair.0, pair.1);
    Lower(pair.0) == pair.0 && key in live && key in store && store[key].NoPrice?
  }

  function PairOf(row: (string, int, Entry)): (string, int) {
    (row.0, row.1)
  }

  function KeyOf(row: (string, int, Entry)): string {
    MakeKey(row.0, row.1)
  }

  /** The rows that `get_cached_errors` yields for these keys; `live` are those that have not expired and can
      be read. */
  function Rows(store: Store, live: set<string>, keys: seq<string>): seq<(string, int, Entry)> {
    if keys == [] then []
    else
      var n := |keys| - 1;
      Rows(store, live, keys[..n]) + RowOf(store, live, keys[n])
  }

  function RowOf(store: Store, live: set<string>, key: string): seq<(string, int, Entry)> {
    var pair := DecodeKey(key);
    if key in live && key in store && !store[key].Price? && pair.Some?
    then [(pair.value.0, pair.value.1, store[key])]
    else []
  }

  /** Over any store at all, legacy errors and keys of other origin included: the rows are what the live keys of
      entries without a price decode to. */
  lemma {:induction false} ListedFromAnyStore(store: Store, live: set<string>, keys: seq<string>,
                                              row: (string, int, Entry))
    ensures row in Rows(store, live, keys) <==>
      exists key :: key in keys && key in live && key in store && !store[key].Price? && row.2 == store[key]
                    && DecodeKey(key) == Some((row.0, row.1))
  {
    if keys != [] {
      var n := |keys| - 1;
      ListedFromAnyStore(store, live, keys[..n], row);
      assert forall key :: key in keys <==> key in keys[..n] || key == keys[n] by {
        assert keys == keys[..n] + [keys[n]];
      }
    }
  }

  /** A key yields a row exactly if it stands for a no-price pair, and then that pair. */
  lemma RowOfKey(store: Store, live: set<string>, key: string)
    requires BuiltByWriters(store) && key in store
    ensures var row := RowOf(store, live, key);
      if key in live && store[key].NoPrice?
      then |row| == 1 && KeyOf(row[0]) == key && row[0].2 == store[key] && IsNoPricePair(store, live, PairOf(row[0]))
      else row == []
  {
    assert Canonical(key);
  }

  /** The keys that yield a row. */
  function Kept(store: Store, live: set<string>, keys: seq<string>): (kept: seq<string>)
    ensures forall key :: key in kept <==> key in keys && key in live && key in store && store[key].NoPrice?
  {
    if keys == [] then []
    else
      var n := |keys| - 1;
      assert keys == keys[..n] + [keys[n]];
      Kept(store, live, keys[..n])
      + if keys[n] in live && keys[n] in store && store[keys[n]].NoPrice? then [keys[n]] else []
  }

  lemma {:induction false} KeptDistinct(store: Store, live: set<string>, keys: seq<string>)
    requires forall i, j :: 0 <= i < j < |keys| ==> keys[i] != keys[j]
    ensures var kept := Kept(store, live, keys);
      forall i, j :: 0 <= i < j < |kept| ==> kept[i] != kept[j]
  {
    if keys != [] {
      var n := |keys| - 1;
      KeptDistinct(store, live, keys[..n]);
      assert keys[n] !in keys[..n];
      assert keys[n] !in Kept(store, live, keys[..n]);
    }
  }

  lemma {:induction false} RowsAsManyAsKept(store: Store, live: set<string>, keys: seq<string>)
    requires BuiltByWriters(store) && (forall key :: key in keys ==> key in store)
    ensures |Rows(store, live, keys)| == |Kept(store, live, keys)|
  {
    if keys != [] {
      var n := |keys| - 1;
      RowsAsManyAsKept(store, live, keys[..n]);
      RowOfKey(store, live, keys[n]);
    }
  }

  lemma {:induction false} RowOfKept(store: Store, live: set<string>, keys: seq<string>, i: nat)
    requires BuiltByWriters(store) && (forall key :: key in keys ==> key in store)
    requires i < |Rows(store, live, keys)| == |Kept(store, live, keys)|
    ensures var row := Rows(store, live, keys)[i];
      KeyOf(row) == Kept(store, live, keys)[i] && row.2 == store[KeyOf(row)] && IsNoPricePair(store, live, PairOf(row))
  {
    var n := |keys| - 1;
    RowsAsManyAsKept(store, live, keys[..n]);
    if i < |Rows(store, live, keys[..n])| {
      RowOfKept(store, live, keys[..n], i);
    } else {
      RowOfKey(store, live, keys[n]);
    }
  }

  /** Over a store that this module's writers built, the listing has exactly the live no-price pairs, each
      with its entry and each once. */
  lemma ListedExactly(store: Store, live: set<string>, keys: seq<string>)
    requires BuiltByWriters(store) && (forall key :: key in store <==> key in keys)
    requires forall i, j :: 0 <= i < j < |keys| ==> keys[i] != keys[j]
    ensures var rows := Rows(store, live, keys);
      && (forall row :: row in rows ==> IsNoPricePair(store, live, PairOf(row)) && row.2 == store[KeyOf(row)])
      && (forall pair :: IsNoPricePair(store, live, pair) ==> exists row :: row in rows && PairOf(row) == pair)
      && (forall i, j :: 0 <= i < j < |rows| ==> PairOf(rows[i]) != PairOf(rows[j]))
  {
    var rows, kept := Rows(store, live, keys), Kept(store, live, keys);
    RowsAsManyAsKept(store, live, keys);
    KeptDistinct(store, live, keys);
    forall i | 0 <= i < |rows|
      ensures KeyOf(rows[i]) == kept[i] && rows[i].2 == store[KeyOf(rows[i])]
      ensures IsNoPricePair(store, live, PairOf(rows[i]))
    {
      RowOfKept(store, live, keys, i);
    }
    forall pair | IsNoPricePair(store, live, pair)
      ensures exists row :: row in rows && PairOf(row) == pair
    {
      var i :| 0 <= i < |kept| && kept[i] == MakeKey(pair.0, pair.1);
      assert rows[i] in rows;
      KeyInjective(rows[i].0, rows[i].1, pair.0, pair.1);
      assert PairOf(rows[i]) == pair;
    }
    forall i, j | 0 <= i < j < |rows|
      ensures PairOf(rows[i]) != PairOf(rows[j])
    {
      assert KeyOf(rows[i]) == kept[i] && KeyOf(rows[j]) == kept[j];
    }
  }

  /** The program's shared cache object. Whether a read gets through, and whether a write is kept, is not the
      program's choice: `seen` and `kept` say what the cache does this time. */
  class PriceCache {
    var store: Store

    constructor ()
      ensures store == map[]
    {
      store := map[];
    }

    method GetCachedPrice(token: string, block: int, seen: bool) returns (r: Option<(real, Option<int>)>)
      ensures r == PriceAt(store, token, block, seen)
      ensures r.Some? ==> Answers(store, token, block, Price(r.value.0, r.value.1))
    {
      KeyRoundTrip(token, block);
      var key := MakeKey(token, block);
      r := None;
      if seen && key in store && store[key].Price? {
        r := Some((store[key].price, store[key].blockTimestamp));
      }
    }

    method GetCachedError(token: string, block: int, seen: bool) returns (r: Option<string>)
      ensures r == NoPriceAt(store, token, block, seen)
      ensures r.Some? ==> Answers(store, token, block, NoPrice(r.value))
    {
      KeyRoundTrip(token, block);
      var key := MakeKey(token, block);
      r := None;
      if seen && key in store && store[key].NoPrice? {
        r := Some(store[key].error);
      }
    }

    method SetCachedPrice(token: string, block: int, price: real, blockTimestamp: Option<int>, kept: bool)
      modifies this
      ensures store == Write(old(store), token, block, Price(price, blockTimestamp), kept)
    {
      if kept {
        store := store[MakeKey(token, block) := Price(price, blockTimestamp)];
      }
    }

    method SetCachedError(token: string, block: int, error: string, kept: bool)
      modifies this
      ensures store == Write(old(store), token, block, NoPrice(error), kept)
    {
      if kept {
        store := store[MakeKey(token, block) := NoPrice(error)];
      }
    }

    /** `get_cached_errors`, over the store's keys in the order in which it gives them. */
    method GetCachedErrors(keys: seq<string>, live: set<string>) returns (rows: seq<(string, int, Entry)>)
      ensures rows == Rows(store, live, keys)
    {
      rows := [];
      for i := 0 to |keys|
        invariant rows == Rows(store, live, keys[..i])
      {
        var key := keys[i];
        assert keys[..i + 1][..i] == keys[..i];
        if key !in live || key !in store || store[key].Price? {
          continue;
        }
        var pair := DecodeKey(key);
        if pair.Some? {
          rows := rows + [(pair.value.0, pair.value.1, store[key])];
        }
      }
      assert keys[..|keys|] == keys;
    }
  }
}
