/** The string operations the service relies on: case folding, decimal numerals, splitting and stripping.
    Case folding is the ASCII one, which is all that addresses need. */
module Text {
  import opened Basics

  function LowerChar(c: char): char {
    if 'A' <= c <= 'Z' then c - 'A' + 'a' else c
  }

  function Lower(s: string): string {
    seq(|s|, i requires 0 <= i < |s| => LowerChar(s[i]))
  }

  const UPPER_CASE := "ABCDEFGHIJKLMNOPQRSTUVWXYZ"
  const LOWER_CASE := "abcdefghijklmnopqrstuvwxyz"

  lemma LetterFolds(c: char, k: nat)
    requires k < 26
    ensures c == UPPER_CASE[k] ==> LowerChar(c) == LOWER_CASE[k]
  {
    assert UPPER_CASE[k] == 'A' + k as char && LOWER_CASE[k] == 'a' + k as char;
  }

  lemma CapitalsAreListed(c: char)
    ensures 'A' <= c <= 'Z' ==> c in UPPER_CASE
  {
    if 'A' <= c <= 'Z' {
      assert UPPER_CASE[(c - 'A') as int] == c;
    }
  }

  /** Folding case turns each capital letter into the small one and keeps every other character. */
  lemma LowerExactly(s: string, i: nat, k: nat)
    requires i < |s| == |Lower(s)| && k < 26
    ensures s[i] == UPPER_CASE[k] ==> Lower(s)[i] == LOWER_CASE[k]
    ensures s[i] !in UPPER_CASE ==> Lower(s)[i] == s[i]
  {
    LetterFolds(s[i], k);
    CapitalsAreListed(s[i]);
  }

  /** Python's `str.isspace`, for the characters `str.strip` removes. */
  predicate IsSpace(c: char) {
    || '\t' <= c <= '\r' || '\U{1C}' <= c <= ' ' || c == '\U{85}' || c == '\U{A0}' || c == '\U{1680}'
    || '\U{2000}' <= c <= '\U{200A}' || c == '\U{2028}' || c == '\U{2029}' || c == '\U{202F}'
    || c == '\U{205F}' || c == '\U{3000}'
  }

  function StripLeft(s: string): string {
    if s != "" && IsSpace(s[0]) then StripLeft(s[1..]) else s
  }

  function StripRight(s: string): string {
    if s != "" && IsSpace(s[|s| - 1]) then StripRight(s[..|s| - 1]) else s
  }

  function Strip(s: string): string {
    StripRight(StripLeft(s))
  }

  /** Neither end is blank. */
  predicate Trim(s: string) {
    s == "" || (!IsSpace(s[0]) && !IsSpace(s[|s| - 1]))
  }

  lemma {:induction false} StripRightTrims(s: string)
    ensures StripRight(s) <= s
    ensures StripRight(s) == "" || !IsSpace(StripRight(s)[|StripRight(s)| - 1])
  {
    if s != "" && IsSpace(s[|s| - 1]) {
      StripRightTrims(s[..|s| - 1]);
    }
  }

  lemma {:induction false} StripLeftTrims(s: string)
    ensures StripLeft(s) == "" || !IsSpace(StripLeft(s)[0])
  {
    if s != "" && IsSpace(s[0]) {
      StripLeftTrims(s[1..]);
    }
  }

  lemma StripTrims(s: string)
    ensures Trim(Strip(s))
    ensures Trim(s) ==> Strip(s) == s
  {
    StripLeftTrims(s);
    StripRightTrims(StripLeft(s));
  }

  lemma {:induction false} StripRightCuts(s: string)
    ensures forall k :: |StripRight(s)| <= k < |s| ==> IsSpace(s[k])
    ensures StripRight(s) <= s
  {
    if s != "" && IsSpace(s[|s| - 1]) {
      StripRightCuts(s[..|s| - 1]);
    }
  }

  lemma {:induction false} StripLeftCuts(s: string) returns (i: nat)
    ensures i <= |s| && StripLeft(s) == s[i..] && forall k :: 0 <= k < i ==> IsSpace(s[k])
  {
    if s != "" && IsSpace(s[0]) {
      var rest := s[1..];
      var n := StripLeftCuts(rest);
      i := n + 1;
      assert rest[n..] == s[i..];
      assert forall k :: 1 <= k < i ==> s[k] == rest[k - 1];
    } else {
      i := 0;
    }
  }

  /** `strip` cuts off the blanks at both ends and nothing else. */
  lemma StripExactly(s: string) returns (i: nat, j: nat)
    ensures i <= j <= |s| && Strip(s) == s[i..j] && Trim(Strip(s))
    ensures forall k :: 0 <= k < i || j <= k < |s| ==> IsSpace(s[k])
  {
    i := StripLeftCuts(s);
    StripRightCuts(s[i..]);
    StripTrims(s);
    j := i + |Strip(s)|;
    assert forall k :: j <= k < |s| ==> s[k] == s[i..][k - i];
  }

  function IndexOf(s: string, c: char): (k: nat)
    ensures k <= |s|
    ensures k < |s| ==> s[k] == c
    ensures c !in s[..k]
    ensures k == |s| <==> c !in s
  {
    if s == "" then 0 else if s[0] == c then 0 else 1 + IndexOf(s[1..], c)
  }

  /** `str.split(c)`. */
  function Split(s: string, c: char): (parts: seq<string>)
    ensures parts != [] && forall p :: p in parts ==> c !in p
    decreases |s|
  {
    var k := IndexOf(s, c);
    if k == |s| then [s] else [s[..k]] + Split(s[k + 1..], c)
  }

  /** `c.join(parts)`. */
  function Join(parts: seq<string>, c: char): string
    requires parts != []
  {
    if |parts| == 1 then parts[0] else parts[0] + [c] + Join(parts[1..], c)
  }

  lemma FirstAt(s: string, c: char, k: nat)
    requires k < |s| && s[k] == c && c !in s[..k]
    ensures IndexOf(s, c) == k
  {
  }

  lemma {:induction false} SplitJoin(parts: seq<string>, c: char)
    requires parts != [] && forall p :: p in parts ==> c !in p
    ensures Split(Join(parts, c), c) == parts
  {
    var p, s := parts[0], Join(parts, c);
    assert p in parts;
    if |parts| > 1 {
      assert s[..|p|] == p && s[|p| + 1..] == Join(parts[1..], c);
      FirstAt(s, c, |p|);
      SplitJoin(parts[1..], c);
    }
  }

  lemma {:induction false} SplitKeepsCharacters(s: string, c: char)
    ensures forall p, d :: p in Split(s, c) && d in p ==> d in s
    decreases |s|
  {
    var k := IndexOf(s, c);
    if k < |s| {
      SplitKeepsCharacters(s[k + 1..], c);
      assert s == s[..k] + [c] + s[k + 1..];
    }
  }

  lemma BlankExactly(s: string)
    ensures Strip(s) == "" <==> forall c :: c in s ==> IsSpace(c)
  {
    var i, j := StripExactly(s);
    if i < j {
      assert Strip(s)[0] == s[i] && s[i] in s;
    }
  }

  lemma JoinCons(part: string, rest: seq<string>, c: char)
    requires rest != []
    ensures Join([part] + rest, c) == part + [c] + Join(rest, c)
  {
    assert ([part] + rest)[1..] == rest;
  }

  lemma CutAt(s: string, k: nat)
    requires k < |s|
    ensures s[..k] + [s[k]] + s[k + 1..] == s
  {
  }

  lemma {:induction false} JoinSplit(s: string, c: char)
    ensures Join(Split(s, c), c) == s
    decreases |s|
  {
    var k := IndexOf(s, c);
    if k < |s| {
      var rest := Split(s[k + 1..], c);
      JoinSplit(s[k + 1..], c);
      JoinCons(s[..k], rest, c);
      CutAt(s, k);
      calc {
        Join(Split(s, c), c);
        Join([s[..k]] + rest, c);
        s[..k] + [c] + Join(rest, c);
        s;
      }
    }
  }

  // --------------------------------------------------------------------------------------- numerals

  function Digit(d: nat): char
    requires d < 10
  {
    '0' + d as char
  }

  predicate IsDigit(c: char) {
    '0' <= c <= '9'
  }

  function ShowNat(n: nat): (s: string)
    ensures s != "" && forall c :: c in s ==> IsDigit(c)
  {
    if n < 10 then [Digit(n)] else ShowNat(n / 10) + [Digit(n % 10)]
  }

  /** `str(n)`. */
  function Show(n: int): string {
    if n < 0 then "-" + ShowNat(-n) else ShowNat(n)
  }

  function ReadNat(s: string): Option<nat> {
    if s == "" || !IsDigit(s[|s| - 1]) then None
    else
      var d := (s[|s| - 1] - '0') as nat;
      if |s| == 1 then Some(d)
      else match ReadNat(s[..|s| - 1])
           case None => None
           case Some(n) => Some(10 * n + d)
  }

  /** `int(s)`, for plain numerals. */
  function Read(s: string): Option<int> {
    var negative := s != "" && s[0] == '-';
    match ReadNat(if negative then s[1..] else s)
    case None => None
    case Some(n) => var v: int := n; Some(if negative then -v else v)
  }

  lemma {:induction false} ReadShowNat(n: nat)
    ensures ReadNat(ShowNat(n)) == Some(n)
  {
    if n >= 10 {
      ReadShowNat(n / 10);
      assert ShowNat(n)[..|ShowNat(n)| - 1] == ShowNat(n / 10);
    }
  }

  lemma ReadShow(n: int)
    ensures Read(Show(n)) == Some(n)
    ensures ':' !in Show(n)
  {
    ReadShowNat(if n < 0 then -n else n);
    if n >= 0 {
      assert ShowNat(n)[0] in ShowNat(n);
    } else {
      assert Show(n)[1..] == ShowNat(-n);
    }
  }
}
