/** Parsing of the batch query parameters (`src/params.py`). */
module Params {
  import opened Basics
  import opened Text

  const MAX_BLOCK: int := 0x8000_0000_0000_0000
  const MAX_BATCH_TOKENS := 100

  /** Where decimals, integers and points in time are read from text by Python's own parsers. `NotFinite`
      is an infinity or a NaN. */
  datatype Decimal = Finite(value: real) | NotFinite
  datatype Readers = Readers(
    decimal: string -> Option<Decimal>,
    integer: string -> Option<int>,
    instant: string -> Option<int>)

  datatype ParseError =
    | MissingTokens
    | InvalidToken(position: nat, segment: string)
    | NoTokens
    | TooManyTokens(count: nat)
    | InvalidBlock(text: string)
    | InvalidAmount(position: nat, segment: string)
    | CountMismatch(amounts: nat, tokens: nat)
    | InvalidTimestamp(text: string)
    | BlockAndTimestamp

  datatype Result<+T> = Ok(value: T) | Err(error: ParseError)

  datatype BatchParams = BatchParams(
    tokens: seq<string>,
    block: Option<int>,
    amounts: Option<seq<Option<real>>>,
    timestamp: Option<int>)

  predicate IsHex(c: char) {
    IsDigit(c) || 'a' <= c <= 'f' || 'A' <= c <= 'F'
  }

  /** "0x" and forty hexadecimal digits. */
  predicate IsAddress(s: string) {
    |s| == 42 && s[..2] == "0x" && forall i :: 2 <= i < 42 ==> IsHex(s[i])
  }

  /** The program's test, whose `$` also matches before a final newline. */
  predicate Matches(s: string) {
    IsAddress(s) || (|s| == 43 && s[42] == '\n' && IsAddress(s[..42]))
  }

  // ------------------------------------------------------------------------------------------ tokens

  /** The tokens of the segments from position `i` on, or the first that is not an address. */
  function Tokens(segments: seq<string>, i: nat): Result<seq<string>>
    requires i <= |segments|
    decreases |segments| - i
  {
    if i == |segments| then Ok([])
    else
      var s := Strip(segments[i]);
      if s == "" then Tokens(segments, i + 1)
      else if !Matches(s) then Err(InvalidToken(i + 1, s))
      else match Tokens(segments, i + 1)
           case Err(e) => Err(e)
           case Ok(rest) => Ok([s] + rest)
  }

  function ParseTokens(value: Option<string>): Result<seq<string>> {
    if value.None? || Strip(value.value) == "" then Err(MissingTokens)
    else match Tokens(Split(value.value, ','), 0)
         case Err(e) => Err(e)
         case Ok(tokens) =>
           if |tokens| == 0 then Err(NoTokens)
           else if |tokens| > MAX_BATCH_TOKENS then Err(TooManyTokens(|tokens|))
           else Ok(tokens)
  }

  function Prepend<T>(front: seq<T>, r: Result<seq<T>>): Result<seq<T>> {
    match r
    case Err(e) => Err(e)
    case Ok(rest) => Ok(front + rest)
  }

  method ReadTokens(value: Option<string>) returns (r: Result<seq<string>>)
    ensures r == ParseTokens(value)
  {
    if value.None? || Strip(value.value) == "" {
      return Err(MissingTokens);
    }
    var segments := Split(value.value, ',');
    var tokens: seq<string> := [];
    assert forall rest: seq<string> :: [] + rest == rest;
    for i := 0 to |segments|
      invariant Tokens(segments, 0) == Prepend(tokens, Tokens(segments, i))
    {
      var s := Strip(segments[i]);
      if s == "" {
        continue;
      }
      if !Matches(s) {
        return Err(InvalidToken(i + 1, s));
      }
      assert forall rest :: tokens + ([s] + rest) == (tokens + [s]) + rest;
      tokens := tokens + [s];
    }
    assert tokens + [] == tokens;
    if |tokens| == 0 {
      return Err(NoTokens);
    }
    if |tokens| > MAX_BATCH_TOKENS {
      return Err(TooManyTokens(|tokens|));
    }
    return Ok(tokens);
  }

  // ----------------------------------------------------------------------------------------- amounts

  predicate Positive(d: Option<Decimal>) {
    d.Some? && d.value.Finite? && d.value.value > 0.0
  }

  function Amounts(segments: seq<string>, i: nat, readers: Readers): Result<seq<Option<real>>>
    requires i <= |segments|
    decreases |segments| - i
  {
    if i == |segments| then Ok([])
    else
      var s := Strip(segments[i]);
      if s == "" then Prepend([None], Amounts(segments, i + 1, readers))
      else if !Positive(readers.decimal(s)) then Err(InvalidAmount(i + 1, s))
      else Prepend([Some(readers.decimal(s).value.value)], Amounts(segments, i + 1, readers))
  }

  function ParseAmounts(value: Option<string>, readers: Readers): Result<Option<seq<Option<real>>>> {
    if value.None? || value.value == "" then Ok(None)
    else match Amounts(Split(value.value, ','), 0, readers)
         case Err(e) => Err(e)
         case Ok(amounts) => Ok(Some(amounts))
  }

  method ReadAmounts(value: Option<string>, readers: Readers) returns (r: Result<Option<seq<Option<real>>>>)
    ensures r == ParseAmounts(value, readers)
  {
    if value.None? || value.value == "" {
      return Ok(None);
    }
    var segments := Split(value.value, ',');
    var amounts: seq<Option<real>> := [];
    assert forall rest: seq<Option<real>> :: [] + rest == rest;
    for i := 0 to |segments|
      invariant |amounts| == i
      invariant Amounts(segments, 0, readers) == Prepend(amounts, Amounts(segments, i, readers))
    {
      var s := Strip(segments[i]);
      var amount: Option<real> := None;
      if s != "" {
        var parsed := readers.decimal(s);
        if parsed.None? || !parsed.value.Finite? || parsed.value.value <= 0.0 {
          return Err(InvalidAmount(i + 1, s));
        }
        amount := Some(parsed.value.value);
      }
      assert forall rest :: amounts + ([amount] + rest) == (amounts + [amount]) + rest;
      amounts := amounts + [amount];
    }
    assert amounts + [] == amounts;
    return Ok(if |amounts| > 0 then Some(amounts) else None);
  }

  // ------------------------------------------------------------------------------------------- batch

  function ParseBlock(value: Option<string>, readers: Readers): Result<Option<int>> {
    if value.None? then Ok(None)
    else
      var n := readers.integer(value.value);
      if n.None? || n.value <= 0 || n.value > MAX_BLOCK then Err(InvalidBlock(value.value)) else Ok(n)
  }

  function ParseTimestamp(value: Option<string>, readers: Readers): Result<Option<int>> {
    if value.None? || value.value == "" then Ok(None)
    else
      var t := readers.instant(Strip(value.value));
      if t.None? then Err(InvalidTimestamp(value.value)) else Ok(t)
  }

  function ParseBatch(tokens: Option<string>, block: Option<string>, amounts: Option<string>,
                      timestamp: Option<string>, readers: Readers): Result<BatchParams>
  {
    match ParseTokens(tokens)
    case Err(e) => Err(e)
    case Ok(ts) =>
      match ParseBlock(block, readers)
      case Err(e) => Err(e)
      case Ok(b) =>
        match ParseAmounts(amounts, readers)
        case Err(e) => Err(e)
        case Ok(quantities) =>
          if quantities.Some? && |quantities.value| != |ts| then Err(CountMismatch(|quantities.value|, |ts|))
          else
            match ParseTimestamp(timestamp, readers)
            case Err(e) => Err(e)
            case Ok(t) =>
              if t.Some? && b.Some? then Err(BlockAndTimestamp) else Ok(BatchParams(ts, b, quantities, t))
  }

  // ---------------------------------------------------------------------------------------- theorems

  lemma {:induction false} TokensAreAddresses(segments: seq<string>, i: nat)
    requires i <= |segments|
    ensures var r := Tokens(segments, i);
      match r
      case Ok(tokens) => forall t :: t in tokens ==> IsAddress(t)
      case Err(e) =>
        && e.InvalidToken? && i < e.position <= |segments|
        && e.segment == Strip(segments[e.position - 1]) && e.segment != "" && !IsAddress(e.segment)
    decreases |segments| - i
  {
    if i < |segments| {
      TokensAreAddresses(segments, i + 1);
      StripTrims(segments[i]);
    }
  }

  /** Segment `i` is a token, which passes the address test. */
  predicate IsToken(segment: string) {
    Strip(segment) != "" && Matches(Strip(segment))
  }

  /** These places, from `i` on, are those of the segments that are not blank, in order; each of them is a
      token, and these are the tokens. */
  ghost predicate TokensAtFrom(segments: seq<string>, i: nat, at: seq<nat>, tokens: seq<string>) {
    && |tokens| == |at|
    && (forall k :: 0 <= k < |at| ==> i <= at[k] < |segments|)
    && (forall k :: 0 <= k < |at| ==> IsToken(segments[at[k]]) && tokens[k] == Strip(segments[at[k]]))
    && (forall k, l :: 0 <= k < l < |at| ==> at[k] < at[l])
    && (forall j :: i <= j < |segments| && Strip(segments[j]) != "" ==> j in at)
  }

  ghost predicate TokensAt(segments: seq<string>, at: seq<nat>, tokens: seq<string>) {
    TokensAtFrom(segments, 0, at, tokens)
  }

  /** Segment `b` is the first from `i` on that is neither blank nor a token. */
  ghost predicate FirstBadToken(segments: seq<string>, i: nat, b: nat) {
    && i <= b < |segments| && Strip(segments[b]) != "" && !IsToken(segments[b])
    && forall j :: i <= j < b ==> Strip(segments[j]) == "" || IsToken(segments[j])
  }

  lemma OneMorePlace(segments: seq<string>, i: nat, at: seq<nat>)
    requires forall j :: i + 1 <= j < |segments| && Strip(segments[j]) != "" ==> j in at
    ensures forall j :: i <= j < |segments| && Strip(segments[j]) != "" ==> j in [i] + at
  {
    forall j | i <= j < |segments| && Strip(segments[j]) != "" ensures j in [i] + at {
      assert j == i || j in at;
    }
  }

  lemma OneMoreToken(segments: seq<string>, i: nat, at: seq<nat>, tokens: seq<string>)
    requires i < |segments| && IsToken(segments[i]) && TokensAtFrom(segments, i + 1, at, tokens)
    ensures TokensAtFrom(segments, i, [i] + at, [Strip(segments[i])] + tokens)
  {
    OneMorePlace(segments, i, at);
  }

  lemma {:induction false} TokensFrom(segments: seq<string>, i: nat) returns (at: seq<nat>)
    requires i <= |segments| && Tokens(segments, i).Ok?
    ensures TokensAtFrom(segments, i, at, Tokens(segments, i).value)
    decreases |segments| - i
  {
    if i == |segments| {
      at := [];
    } else {
      at := TokensFrom(segments, i + 1);
      if IsToken(segments[i]) {
        OneMoreToken(segments, i, at, Tokens(segments, i + 1).value);
        at := [i] + at;
      }
    }
  }

  lemma {:induction false} BadTokenFrom(segments: seq<string>, i: nat)
    requires i <= |segments| && Tokens(segments, i).Err?
    ensures var e := Tokens(segments, i).error;
      && e.InvalidToken? && e.position > 0 && FirstBadToken(segments, i, e.position - 1)
      && e.segment == Strip(segments[e.position - 1])
    decreases |segments| - i
  {
    if Strip(segments[i]) == "" || IsToken(segments[i]) {
      BadTokenFrom(segments, i + 1);
    }
  }

  /** The parser's answer for a text of tokens, exactly, the order of its complaints included. */
  lemma TokensParsedExactly(value: Option<string>) returns (at: seq<nat>)
    ensures var segments := if value.Some? then Split(value.value, ',') else [];
      match ParseTokens(value)
      case Ok(tokens) =>
        value.Some? && TokensAt(segments, at, tokens) && 1 <= |tokens| <= 100
      case Err(MissingTokens) => value.None? || Strip(value.value) == ""
      case Err(InvalidToken(position, segment)) =>
        && value.Some? && position > 0 && FirstBadToken(segments, 0, position - 1)
        && segment == Strip(segments[position - 1])
      case Err(NoTokens) =>
        value.Some? && Strip(value.value) != "" && forall i :: 0 <= i < |segments| ==> Strip(segments[i]) == ""
      case Err(TooManyTokens(count)) =>
        value.Some? && count > 100 && exists tokens :: TokensAt(segments, at, tokens) && |tokens| == count
      case Err(_) => false
  {
    at := [];
    if value.Some? && Strip(value.value) != "" {
      var segments := Split(value.value, ',');
      if Tokens(segments, 0).Ok? {
        at := TokensFrom(segments, 0);
        assert TokensAt(segments, at, Tokens(segments, 0).value);
      } else {
        BadTokenFrom(segments, 0);
      }
    }
  }

  lemma {:induction false} AmountsArePositive(segments: seq<string>, i: nat, readers: Readers)
    requires i <= |segments|
    ensures var r := Amounts(segments, i, readers);
      r.Ok? ==> |r.value| == |segments| - i && forall a :: a in r.value && a.Some? ==> a.value > 0.0
    decreases |segments| - i
  {
    if i < |segments| {
      AmountsArePositive(segments, i + 1, readers);
    }
  }

  /** Whatever the input, a success is a well-formed batch. */
  lemma SuccessIsWellFormed(tokens: Option<string>, block: Option<string>, amounts: Option<string>,
                            timestamp: Option<string>, readers: Readers)
    requires ParseBatch(tokens, block, amounts, timestamp, readers).Ok?
    ensures var p := ParseBatch(tokens, block, amounts, timestamp, readers).value;
      && 1 <= |p.tokens| <= 100 && (forall t :: t in p.tokens ==> IsAddress(t))
      && (p.amounts.Some? ==>
            |p.amounts.value| == |p.tokens| && forall a :: a in p.amounts.value && a.Some? ==> a.value > 0.0)
      && (p.block.Some? ==> 1 <= p.block.value <= MAX_BLOCK)
      && !(p.block.Some? && p.timestamp.Some?)
  {
    TokensAreAddresses(Split(tokens.value, ','), 0);
    if ParseAmounts(amounts, readers).value.Some? {
      AmountsArePositive(Split(amounts.value, ','), 0, readers);
    }
  }

  /** `text`, one segment of the list, stands for this amount: blank for none, else a text that the decimal
      reader takes for that positive number. */
  predicate Writes(text: string, amount: Option<real>, readers: Readers) {
    && ',' !in text
    && match amount
       case None => Strip(text) == ""
       case Some(a) => Strip(text) != "" && a > 0.0 && readers.decimal(Strip(text)) == Some(Finite(a))
  }

  predicate WritesFrom(texts: seq<string>, amounts: seq<Option<real>>, i: nat, readers: Readers) {
    |texts| == |amounts| && forall k :: i <= k < |texts| ==> Writes(texts[k], amounts[k], readers)
  }

  lemma AddressIsTrim(s: string)
    requires IsAddress(s)
    ensures Strip(s) == s && ',' !in s
  {
  }

  lemma {:induction false} TokensRoundTrip(tokens: seq<string>, i: nat)
    requires i <= |tokens| && forall t :: t in tokens ==> IsAddress(t)
    ensures Tokens(tokens, i) == Ok(tokens[i..])
    decreases |tokens| - i
  {
    if i < |tokens| {
      AddressIsTrim(tokens[i]);
      TokensRoundTrip(tokens, i + 1);
      assert tokens[i..] == [tokens[i]] + tokens[i + 1..];
    }
  }

  /** Segments parse to these amounts if and only if each one stands for its own. */
  lemma {:induction false} AmountsExactly(texts: seq<string>, amounts: seq<Option<real>>, readers: Readers, i: nat)
    requires i <= |texts| == |amounts| && forall t :: t in texts ==> ',' !in t
    ensures Amounts(texts, i, readers) == Ok(amounts[i..]) <==> WritesFrom(texts, amounts, i, readers)
    decreases |texts| - i
  {
    if i == |texts| {
      assert amounts[i..] == [];
    } else {
      AmountsExactly(texts, amounts, readers, i + 1);
      assert texts[i] in texts;
      assert amounts[i..] == [amounts[i]] + amounts[i + 1..];
      assert WritesFrom(texts, amounts, i, readers)
        <==> Writes(texts[i], amounts[i], readers) && WritesFrom(texts, amounts, i + 1, readers);
      AmountNext(texts, amounts, readers, i);
    }
  }

  lemma AmountNext(texts: seq<string>, amounts: seq<Option<real>>, readers: Readers, i: nat)
    requires i < |texts| == |amounts| && ',' !in texts[i]
    ensures Amounts(texts, i, readers) == Ok([amounts[i]] + amounts[i + 1..])
      <==> Writes(texts[i], amounts[i], readers) && Amounts(texts, i + 1, readers) == Ok(amounts[i + 1..])
  {
    var first, rest := Amounts(texts, i, readers), Amounts(texts, i + 1, readers);
    if first.Ok? && first.value == [amounts[i]] + amounts[i + 1..] {
      assert rest.Ok? && first.value[0] == amounts[i];
      assert first.value[1..] == rest.value && first.value[1..] == amounts[i + 1..];
    }
  }

  /** A list of amounts is what the parser makes of a text if and only if it is the list of what the text's
      segments stand for. */
  lemma ParsedExactly(value: string, amounts: seq<Option<real>>, readers: Readers)
    ensures ParseAmounts(Some(value), readers) == Ok(Some(amounts))
      <==> value != "" && WritesFrom(Split(value, ','), amounts, 0, readers)
  {
    var texts := Split(value, ',');
    AmountsArePositive(texts, 0, readers);
    if |texts| == |amounts| {
      AmountsExactly(texts, amounts, readers, 0);
      assert amounts[0..] == amounts;
    }
  }

  /** The text of a block, and of a point in time, if there is one. */
  predicate IsBlock(text: Option<string>, block: Option<int>, readers: Readers) {
    match text
    case None => block == None
    case Some(t) => block.Some? && readers.integer(t) == block && 1 <= block.value <= 0x8000_0000_0000_0000
  }

  predicate IsInstant(text: Option<string>, instant: Option<int>, readers: Readers) {
    if text == None || text == Some("") then instant == None
    else instant.Some? && readers.instant(Strip(text.value)) == instant
  }

  predicate AreAmounts(text: Option<string>, amounts: Option<seq<Option<real>>>, readers: Readers) {
    if text == None || text == Some("") then amounts == None
    else amounts.Some? && WritesFrom(Split(text.value, ','), amounts.value, 0, readers)
  }

  ghost predicate AreTokens(text: Option<string>, tokens: seq<string>) {
    text.Some? && exists at :: TokensAt(Split(text.value, ','), at, tokens)
  }

  lemma {:induction false} AllPass(segments: seq<string>, i: nat)
    requires i <= |segments|
    requires forall j :: i <= j < |segments| && Strip(segments[j]) != "" ==> Matches(Strip(segments[j]))
    ensures Tokens(segments, i).Ok?
    decreases |segments| - i
  {
    if i < |segments| {
      AllPass(segments, i + 1);
    }
  }

  lemma HasElement<T>(s: seq<T>)
    ensures s != [] ==> exists x :: x in s
  {
    if s != [] {
      assert s[0] in s;
    }
  }

  ghost predicate Increasing(s: seq<nat>) {
    forall k, l :: 0 <= k < l < |s| ==> s[k] < s[l]
  }

  lemma LastIsLargest(a: seq<nat>, x: nat)
    requires x in a && Increasing(a)
    ensures x <= a[|a| - 1] && a[|a| - 1] in a
  {
  }

  lemma FrontHas(a: seq<nat>, x: nat)
    requires a != [] && Increasing(a)
    ensures x in a[..|a| - 1] <==> x in a && x != a[|a| - 1]
  {
    assert a == a[..|a| - 1] + [a[|a| - 1]];
  }

  lemma LastsSame(a: seq<nat>, b: seq<nat>)
    requires a != [] && b != [] && Increasing(a) && Increasing(b) && forall x: nat :: x in a <==> x in b
    ensures a[|a| - 1] == b[|b| - 1]
  {
    LastIsLargest(a, a[|a| - 1]);
    LastIsLargest(b, b[|b| - 1]);
    LastIsLargest(b, a[|a| - 1]);
    LastIsLargest(a, b[|b| - 1]);
  }

  /** Increasing places are determined by which they are. */
  lemma {:induction false} SameIncreasing(a: seq<nat>, b: seq<nat>)
    requires Increasing(a) && Increasing(b) && forall x: nat :: x in a <==> x in b
    ensures a == b
  {
    HasElement(a);
    HasElement(b);
    if a != [] && b != [] {
      var x, y := a[..|a| - 1], b[..|b| - 1];
      LastsSame(a, b);
      forall e: nat ensures e in x <==> e in y {
        FrontHas(a, e);
        FrontHas(b, e);
      }
      SameIncreasing(x, y);
      assert a == x + [a[|a| - 1]];
      assert b == y + [b[|b| - 1]];
    }
  }

  lemma PlacesOfTokens(segments: seq<string>, at: seq<nat>, tokens: seq<string>, i: nat)
    requires TokensAt(segments, at, tokens)
    ensures i in at <==> i < |segments| && Strip(segments[i]) != ""
  {
  }

  /** A text stands for one list of tokens at most, and that is the one the parser finds. */
  lemma TokensAreDetermined(segments: seq<string>, at: seq<nat>, tokens: seq<string>)
    requires TokensAt(segments, at, tokens)
    ensures Tokens(segments, 0) == Ok(tokens)
  {
    forall j | 0 <= j < |segments| && Strip(segments[j]) != "" ensures Matches(Strip(segments[j])) {
      var k :| 0 <= k < |at| && at[k] == j;
      assert IsToken(segments[at[k]]);
    }
    AllPass(segments, 0);
    var others := TokensFrom(segments, 0);
    var found := Tokens(segments, 0).value;
    assert TokensAt(segments, others, found);
    forall i: nat ensures i in at <==> i in others {
      PlacesOfTokens(segments, at, tokens, i);
      PlacesOfTokens(segments, others, found, i);
    }
    SameIncreasing(at, others);
    assert found == tokens;
  }

  lemma BlockExactly(text: Option<string>, block: Option<int>, readers: Readers)
    ensures ParseBlock(text, readers) == Ok(block) <==> IsBlock(text, block, readers)
    ensures ParseTimestamp(text, readers) == Ok(block) <==> IsInstant(text, block, readers)
  {
  }

  lemma AmountsParsedExactly(text: Option<string>, amounts: Option<seq<Option<real>>>, readers: Readers)
    ensures ParseAmounts(text, readers) == Ok(amounts) <==> AreAmounts(text, amounts, readers)
  {
    if text.Some? && text.value != "" && amounts.Some? {
      ParsedExactly(text.value, amounts.value, readers);
    }
  }

  ghost predicate Writable(amount: Option<real>, readers: Readers) {
    exists text :: Writes(text, amount, readers)
  }

  lemma {:induction false} TextsFor(amounts: seq<Option<real>>, readers: Readers) returns (texts: seq<string>)
    requires forall a :: a in amounts ==> Writable(a, readers)
    ensures WritesFrom(texts, amounts, 0, readers)
  {
    if amounts == [] {
      texts := [];
    } else {
      var n := |amounts| - 1;
      var front := TextsFor(amounts[..n], readers);
      assert Writable(amounts[n], readers);
      var last :| Writes(last, amounts[n], readers);
      texts := front + [last];
      forall k | 0 <= k < |texts| ensures Writes(texts[k], amounts[k], readers) {
        if k < n {
          assert Writes(front[k], amounts[..n][k], readers);
        }
      }
    }
  }

  lemma WriteOut(amounts: seq<Option<real>>, readers: Readers) returns (value: string)
    requires amounts != [] && forall a :: a in amounts ==> Writable(a, readers)
    ensures ParseAmounts(Some(value), readers) == Ok(Some(amounts))
  {
    var texts := TextsFor(amounts, readers);
    if texts == [""] {
      // A lone missing amount is written as a space: the empty text means that there is no list at all.
      assert Writes(texts[0], amounts[0], readers) && Strip(" ") == Strip("") == "";
      texts := [" "];
    }
    forall p | p in texts ensures ',' !in p {
      var i :| 0 <= i < |texts| && texts[i] == p;
      assert Writes(texts[i], amounts[i], readers);
    }
    value := Join(texts, ',');
    SplitJoin(texts, ',');
    JoinNonEmpty(texts);
    ParsedExactly(value, amounts, readers);
  }

  lemma ReadBack(value: string, amounts: seq<Option<real>>, readers: Readers)
    requires ParseAmounts(Some(value), readers) == Ok(Some(amounts))
    ensures amounts != [] && forall a :: a in amounts ==> Writable(a, readers)
  {
    ParsedExactly(value, amounts, readers);
    var texts := Split(value, ',');
    forall a | a in amounts ensures Writable(a, readers) {
      var i :| 0 <= i < |amounts| && amounts[i] == a;
      assert Writes(texts[i], amounts[i], readers);
    }
  }

  /** Some text parses to a list of amounts if and only if the list is not empty and each of its amounts has
      a text that stands for it. */
  lemma WritableExactly(amounts: seq<Option<real>>, readers: Readers)
    ensures (exists value :: ParseAmounts(Some(value), readers) == Ok(Some(amounts)))
      <==> amounts != [] && forall a :: a in amounts ==> Writable(a, readers)
  {
    if value :| ParseAmounts(Some(value), readers) == Ok(Some(amounts)) {
      ReadBack(value, amounts, readers);
    }
    if amounts != [] && forall a :: a in amounts ==> Writable(a, readers) {
      var _ := WriteOut(amounts, readers);
    }
  }

  lemma {:induction false} BadAmountFrom(segments: seq<string>, i: nat, readers: Readers)
    requires i <= |segments| && Amounts(segments, i, readers).Err?
    ensures var e := Amounts(segments, i, readers).error;
      && e.InvalidAmount? && i < e.position <= |segments| && e.segment == Strip(segments[e.position - 1])
      && e.segment != "" && !Positive(readers.decimal(e.segment))
      && forall j :: i <= j < e.position - 1 ==>
           Strip(segments[j]) == "" || Positive(readers.decimal(Strip(segments[j])))
    decreases |segments| - i
  {
    if Strip(segments[i]) == "" || Positive(readers.decimal(Strip(segments[i]))) {
      BadAmountFrom(segments, i + 1, readers);
    }
  }

  /** The first segment that is neither blank nor a positive number, counted from one. */
  predicate IsBadAmount(text: Option<string>, position: nat, segment: string, readers: Readers) {
    && text.Some? && 0 < position <= |Split(text.value, ',')|
    && var segments := Split(text.value, ',');
    && segment == Strip(segments[position - 1]) && segment != "" && !Positive(readers.decimal(segment))
    && forall j :: 0 <= j < position - 1 ==>
         Strip(segments[j]) == "" || Positive(readers.decimal(Strip(segments[j])))
  }

  lemma AboutAmounts(text: Option<string>, readers: Readers)
    requires ParseAmounts(text, readers).Err?
    ensures var e := ParseAmounts(text, readers).error;
      e.InvalidAmount? && IsBadAmount(text, e.position, e.segment, readers)
  {
    BadAmountFrom(Split(text.value, ','), 0, readers);
  }

  lemma AboutTokens(value: Option<string>)
    requires ParseTokens(value).Err?
    ensures var e := ParseTokens(value).error;
      e.MissingTokens? || e.InvalidToken? || e.NoTokens? || e.TooManyTokens?
  {
    var _ := TokensParsedExactly(value);
  }

  /** What a complaint means, and that they come in this order: tokens, block, amounts, their number, the point
      in time, both a block and a point in time. */
  lemma ComplainsInOrder(tokens: Option<string>, block: Option<string>, amounts: Option<string>,
                         timestamp: Option<string>, readers: Readers)
    requires ParseBatch(tokens, block, amounts, timestamp, readers).Err?
    ensures var e := ParseBatch(tokens, block, amounts, timestamp, readers).error;
      var ts, b, qs := ParseTokens(tokens), ParseBlock(block, readers), ParseAmounts(amounts, readers);
      if e.InvalidBlock? then ts.Ok? && block == Some(e.text) && forall n :: !IsBlock(block, n, readers)
      else if e.InvalidAmount? then ts.Ok? && b.Ok? && IsBadAmount(amounts, e.position, e.segment, readers)
      else if e.CountMismatch? then
        && ts.Ok? && b.Ok? && qs.Ok? && qs.value.Some?
        && e.amounts == |qs.value.value| && e.tokens == |ts.value| && e.amounts != e.tokens
      else if e.InvalidTimestamp? then
        && ts.Ok? && b.Ok? && qs.Ok? && (qs.value.Some? ==> |qs.value.value| == |ts.value|)
        && timestamp == Some(e.text) && forall n :: !IsInstant(timestamp, n, readers)
      else if e.BlockAndTimestamp? then
        && ts.Ok? && b.Ok? && qs.Ok? && (qs.value.Some? ==> |qs.value.value| == |ts.value|)
        && b.value.Some? && timestamp.Some? && IsInstant(timestamp, readers.instant(Strip(timestamp.value)), readers)
      else ts == Err(e)
  {
    if ParseTokens(tokens).Err? {
      AboutTokens(tokens);
    }
    if ParseAmounts(amounts, readers).Err? {
      AboutAmounts(amounts, readers);
    }
  }

  /** The parser, exactly: it succeeds with these parameters if and only if each text stands for its own,
      there are 1 to 100 tokens and as many amounts if there are any, and not both a block and a point in
      time are given. */
  lemma BatchParsedExactly(tokens: Option<string>, block: Option<string>, amounts: Option<string>,
                           timestamp: Option<string>, readers: Readers, p: BatchParams)
    ensures ParseBatch(tokens, block, amounts, timestamp, readers) == Ok(p) <==>
      && AreTokens(tokens, p.tokens) && 1 <= |p.tokens| <= 100
      && IsBlock(block, p.block, readers)
      && AreAmounts(amounts, p.amounts, readers) && (p.amounts.Some? ==> |p.amounts.value| == |p.tokens|)
      && IsInstant(timestamp, p.timestamp, readers) && !(p.block.Some? && p.timestamp.Some?)
  {
    TokensParsed(tokens, p.tokens);
    BlockExactly(block, p.block, readers);
    BlockExactly(timestamp, p.timestamp, readers);
    AmountsParsedExactly(amounts, p.amounts, readers);
  }

  lemma TokensParsed(text: Option<string>, tokens: seq<string>)
    ensures ParseTokens(text) == Ok(tokens) <==> AreTokens(text, tokens) && 1 <= |tokens| <= 100
  {
    if ParseTokens(text) == Ok(tokens) {
      var at := TokensFrom(Split(text.value, ','), 0);
      assert TokensAt(Split(text.value, ','), at, tokens);
    }
    if AreTokens(text, tokens) && 1 <= |tokens| <= 100 {
      var at :| TokensAt(Split(text.value, ','), at, tokens);
      TokensAreDetermined(Split(text.value, ','), at, tokens);
      NotBlank(text.value, at, tokens);
    }
  }

  lemma NotBlank(text: string, at: seq<nat>, tokens: seq<string>)
    requires TokensAt(Split(text, ','), at, tokens) && tokens != []
    ensures Strip(text) != ""
  {
    var segment := Split(text, ',')[at[0]];
    assert IsToken(segment);
    SplitKeepsCharacters(text, ',');
    BlankExactly(segment);
    BlankExactly(text);
  }

  lemma JoinNonEmpty(parts: seq<string>)
    requires parts != []
    ensures Join(parts, ',') == "" <==> parts == [""]
    ensures IsAddress(parts[0]) ==> Strip(Join(parts, ',')) != ""
  {
    var s := Join(parts, ',');
    if IsAddress(parts[0]) {
      assert s[..2] == parts[0][..2] == "0x" && s[0] == s[..2][0];
      StripRightTrims(s);
      KeepsFirst(s);
    }
  }

  lemma {:induction false} KeepsFirst(s: string)
    requires s != "" && !IsSpace(s[0])
    ensures StripRight(s) != ""
  {
    if IsSpace(s[|s| - 1]) {
      KeepsFirst(s[..|s| - 1]);
    }
  }

  lemma TokensReadBack(tokens: seq<string>)
    requires 1 <= |tokens| <= 100 && forall t :: t in tokens ==> IsAddress(t)
    ensures ParseTokens(Some(Join(tokens, ','))) == Ok(tokens)
  {
    assert tokens[0] in tokens;
    forall t | t in tokens ensures ',' !in t {
      AddressIsTrim(t);
    }
    SplitJoin(tokens, ',');
    JoinNonEmpty(tokens);
    TokensRoundTrip(tokens, 0);
  }

  lemma AmountsReadBack(texts: seq<string>, amounts: seq<Option<real>>, readers: Readers)
    requires texts != [] && WritesFrom(texts, amounts, 0, readers)
    ensures ParseAmounts(Some(Join(texts, ',')), readers) == Ok(if texts == [""] then None else Some(amounts))
  {
    forall t | t in texts ensures ',' !in t {
      var i :| 0 <= i < |texts| && texts[i] == t;
      assert Writes(texts[i], amounts[i], readers);
    }
    SplitJoin(texts, ',');
    JoinNonEmpty(texts);
    ParsedExactly(Join(texts, ','), amounts, readers);
  }

  /** Written out with commas, any batch of 1 to 100 addresses, without amounts or with one text for each
      token that stands for its amount, parses back to itself; only a single missing amount, written as
      nothing, reads as no amounts at all. */
  lemma BatchRoundTrip(p: BatchParams, texts: seq<string>, block: Option<string>, timestamp: Option<string>,
                       readers: Readers)
    requires 1 <= |p.tokens| <= 100 && forall t :: t in p.tokens ==> IsAddress(t)
    requires p.amounts.Some? ==>
      |p.amounts.value| == |p.tokens| && WritesFrom(texts, p.amounts.value, 0, readers)
    requires ParseBlock(block, readers) == Ok(p.block) && ParseTimestamp(timestamp, readers) == Ok(p.timestamp)
    requires p.block.None? || p.timestamp.None?
    ensures var amounts := if p.amounts.None? then None else Some(Join(texts, ','));
      ParseBatch(Some(Join(p.tokens, ',')), block, amounts, timestamp, readers)
      == Ok(if p.amounts.Some? && texts == [""] then p.(amounts := None) else p)
  {
    TokensReadBack(p.tokens);
    if p.amounts.Some? {
      AmountsReadBack(texts, p.amounts.value, readers);
    }
  }

  /** An amount, a missing one and a reader with which the round trip has something to say. */
  lemma MixedBatch() returns (p: BatchParams, readers: Readers)
    ensures |p.tokens| == 2 && p.tokens[0] == p.tokens[1] && IsAddress(p.tokens[0])
    ensures p.amounts == Some([Some(2.0), None]) && WritesFrom([" 2", ""], p.amounts.value, 0, readers)
  {
    var a := "0x" + seq(40, _ => '0');
    assert a[..2] == "0x";
    p := BatchParams([a, a], None, Some([Some(2.0), None]), None);
    readers := Readers(s => if s == "2" then Some(Finite(2.0)) else None, _ => None, _ => None);
    assert StripLeft(" 2") == StripLeft("2") == "2" && StripRight("2") == "2";
  }

  /** An address, character by character. */
  lemma AddressExactly(s: string)
    ensures IsAddress(s) <==>
      && |s| == 42 && s[0] == '0' && s[1] == 'x'
      && forall i :: 2 <= i < 42 ==> s[i] in "0123456789abcdefABCDEF"
  {
    forall c: char ensures IsHex(c) <==> c in "0123456789abcdefABCDEF" {
      HexDigit(c);
    }
    if |s| == 42 {
      assert s[..2] == [s[0], s[1]];
    }
  }

  lemma HexDigit(c: char)
    ensures IsHex(c) <==> c in "0123456789abcdefABCDEF"
  {
    var digits := "0123456789abcdefABCDEF";
    if IsDigit(c) {
      assert digits[(c - '0') as int] == c;
    } else if 'a' <= c <= 'f' {
      assert digits[10 + (c - 'a') as int] == c;
    } else if 'A' <= c <= 'F' {
      assert digits[16 + (c - 'A') as int] == c;
    }
  }

  /** The address test by itself, as `/price` and `/check_bucket` use it on a text they did not strip: what it
      lets through is an address exactly if it does not end in a newline, and after any address it does let
      a newline through. */
  lemma NewlineSlipsThrough(s: string)
    ensures Matches(s) <==> IsAddress(s) || (s != "" && s[|s| - 1] == '\n' && IsAddress(s[..|s| - 1]))
    ensures Matches(s) ==> (IsAddress(s) <==> s[|s| - 1] != '\n')
    ensures IsAddress(s) ==> Matches(s + "\n") && !IsAddress(s + "\n")
  {
    assert (s + "\n")[..|s|] == s;
  }
}
