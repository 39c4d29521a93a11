// String helpers shared by the orchestrator and the tool queue: the small part of
// Python's str API (lower, strip, find, rfind, split, join, int(), "%04d") that the
// core relies on, restricted to ASCII.

module Text {

  datatype Option<+T> = None | Some(value: T)

  /** Extending a prefix by the next element gives the next prefix. */
  lemma {:induction false} TakeSnoc<T>(s: seq<T>, k: nat)
    requires k < |s|
    ensures s[..k] + [s[k]] == s[..k + 1]
  {
  }

  // ---------------------------------------------------------------- characters

  /** Python's str.isspace() on the ASCII range (space, \t, \n, \v, \f, \r and \x1c-\x1f). */
  predicate IsSpace(c: char) {
    c == ' ' || (9 <= c as int <= 13) || (0x1c <= c as int <= 0x1f)
  }

  predicate IsDigit(c: char) {
    '0' <= c <= '9'
  }

  function LowerChar(c: char): char {
    if 'A' <= c <= 'Z' then (c as int + 32) as char else c
  }

  /** str.lower() on ASCII letters; every other character is kept. */
  function Lower(s: string): (r: string)
    ensures |r| == |s|
    ensures forall i {:trigger r[i]} :: 0 <= i < |s| ==> r[i] == LowerChar(s[i])
  {
    seq(|s|, i requires 0 <= i < |s| => LowerChar(s[i]))
  }

  lemma {:induction false} LowerIdempotent(s: string)
    ensures Lower(Lower(s)) == Lower(s)
  {
  }

  lemma {:induction false} LowerKeepsSpaces(s: string)
    ensures IsStripped(s) ==> IsStripped(Lower(s))
    ensures IsBlank(Lower(s)) <==> IsBlank(s)
  {
    assert forall i :: 0 <= i < |s| ==> (IsSpace(Lower(s)[i]) <==> IsSpace(s[i]));
  }

  // ---------------------------------------------------------------- strip

  /** The index of the first non-whitespace character at or after `i` (|s| if none). */
  function SpacesEnd(s: string, i: nat): (r: nat)
    requires i <= |s|
    ensures i <= r <= |s|
    decreases |s| - i
  {
    if i < |s| && IsSpace(s[i]) then SpacesEnd(s, i + 1) else i
  }

  lemma {:induction false} SpacesEndFacts(s: string, i: nat)
    requires i <= |s|
    ensures forall k :: i <= k < SpacesEnd(s, i) ==> IsSpace(s[k])
    ensures SpacesEnd(s, i) == |s| || !IsSpace(s[SpacesEnd(s, i)])
    decreases |s| - i
  {
    if i < |s| && IsSpace(s[i]) {
      SpacesEndFacts(s, i + 1);
    }
  }

  /** The index where the run of whitespace ending just before `j` starts. */
  function SpacesStart(s: string, j: nat): (r: nat)
    requires j <= |s|
    ensures r <= j
  {
    if j > 0 && IsSpace(s[j - 1]) then SpacesStart(s, j - 1) else j
  }

  lemma {:induction false} SpacesStartFacts(s: string, j: nat)
    requires j <= |s|
    ensures forall k :: SpacesStart(s, j) <= k < j ==> IsSpace(s[k])
    ensures SpacesStart(s, j) == 0 || !IsSpace(s[SpacesStart(s, j) - 1])
  {
    if j > 0 && IsSpace(s[j - 1]) {
      SpacesStartFacts(s, j - 1);
    }
  }

  /** str.lstrip(): drops leading whitespace. */
  function LStrip(s: string): (r: string)
    ensures |r| <= |s|
  {
    s[SpacesEnd(s, 0)..]
  }

  /** What lstrip() drops is whitespace, and what it keeps does not open with whitespace. */
  lemma {:induction false} LStripFacts(s: string)
    ensures LStrip(s) == s[|s| - |LStrip(s)|..]
    ensures forall i :: 0 <= i < |s| - |LStrip(s)| ==> IsSpace(s[i])
    ensures LStrip(s) == [] || !IsSpace(LStrip(s)[0])
  {
    SpacesEndFacts(s, 0);
  }

  /** str.rstrip(): drops trailing whitespace. */
  function RStrip(s: string): (r: string)
    ensures |r| <= |s|
  {
    s[..SpacesStart(s, |s|)]
  }

  /** What rstrip() drops is whitespace, and what it keeps does not close with whitespace. */
  lemma {:induction false} RStripFacts(s: string)
    ensures RStrip(s) == s[..|RStrip(s)|]
    ensures forall i :: |RStrip(s)| <= i < |s| ==> IsSpace(s[i])
    ensures RStrip(s) == [] || !IsSpace(RStrip(s)[|RStrip(s)| - 1])
  {
    SpacesStartFacts(s, |s|);
  }

  /** Neither end of `s` is whitespace. */
  predicate IsStripped(s: string) {
    s == [] || (!IsSpace(s[0]) && !IsSpace(s[|s| - 1]))
  }

  /** str.strip(): drops leading and trailing whitespace. */
  function Strip(s: string): (r: string)
    ensures IsStripped(r)
    ensures IsStripped(s) ==> r == s
  {
    LStripFacts(s);
    RStripFacts(LStrip(s));
    RStrip(LStrip(s))
  }

  /** lstrip() stops at the first non-whitespace character. */
  lemma {:induction false} LStripAt(s: string, k: nat)
    requires k < |s| && !IsSpace(s[k])
    requires forall i :: 0 <= i < k ==> IsSpace(s[i])
    ensures LStrip(s) == s[k..]
  {
    SpacesEndAt(s, 0, k);
  }

  lemma {:induction false} SpacesEndAt(s: string, i: nat, k: nat)
    requires i <= k < |s| && !IsSpace(s[k])
    requires forall j :: i <= j < k ==> IsSpace(s[j])
    ensures SpacesEnd(s, i) == k
    decreases k - i
  {
    if i < k {
      SpacesEndAt(s, i + 1, k);
    }
  }

  /** The index of the first character other than ' ' at or after `i` (|s| if none). */
  function BlanksEnd(s: string, i: nat): (r: nat)
    requires i <= |s|
    ensures i <= r <= |s|
    decreases |s| - i
  {
    if i < |s| && s[i] == ' ' then BlanksEnd(s, i + 1) else i
  }

  lemma {:induction false} BlanksEndFacts(s: string, i: nat)
    requires i <= |s|
    ensures forall k :: i <= k < BlanksEnd(s, i) ==> s[k] == ' '
    ensures BlanksEnd(s, i) == |s| || s[BlanksEnd(s, i)] != ' '
    decreases |s| - i
  {
    if i < |s| && s[i] == ' ' {
      BlanksEndFacts(s, i + 1);
    }
  }

  /** str.lstrip(" "): drops leading space characters only. */
  function LStripSpaces(s: string): (r: string)
    ensures |r| <= |s|
  {
    s[BlanksEnd(s, 0)..]
  }

  lemma {:induction false} LStripSpacesFacts(s: string)
    ensures LStripSpaces(s) == s[|s| - |LStripSpaces(s)|..]
    ensures forall i :: 0 <= i < |s| - |LStripSpaces(s)| ==> s[i] == ' '
    ensures LStripSpaces(s) == [] || LStripSpaces(s)[0] != ' '
  {
    BlanksEndFacts(s, 0);
  }

  /** A string is blank when it is empty after strip(). */
  predicate IsBlank(s: string) {
    forall i :: 0 <= i < |s| ==> IsSpace(s[i])
  }

  lemma {:induction false} StripEmptyIffBlank(s: string)
    ensures Strip(s) == [] <==> IsBlank(s)
  {
    var l := LStrip(s);
    LStripFacts(s);
    RStripFacts(l);
    if l == [] {
      assert forall i :: 0 <= i < |s| ==> IsSpace(s[i]);
    } else {
      assert !IsSpace(l[0]);
      var r := RStrip(l);
      assert l == r + l[|r|..];
      assert s[|s| - |l|] == l[0];
    }
  }

  // ---------------------------------------------------------------- prefixes and search

  predicate StartsWith(s: string, p: string) {
    |p| <= |s| && s[..|p|] == p
  }

  predicate EndsWith(s: string, p: string) {
    |p| <= |s| && s[|s| - |p|..] == p
  }

  /** `sub` occurs in `s` starting at index i. */
  predicate MatchAt(s: string, sub: string, i: int) {
    0 <= i && i + |sub| <= |s| && s[i..i + |sub|] == sub
  }

  /** str.find(sub, from): the first index at or after `from` where `sub` occurs. */
  function Find(s: string, sub: string, from: nat): (r: Option<nat>)
    ensures r.Some? ==> from <= r.value && r.value + |sub| <= |s|
    decreases |s| - from
  {
    if from + |sub| > |s| then None
    else if MatchAt(s, sub, from) then Some(from)
    else Find(s, sub, from + 1)
  }

  /** Find names an occurrence, no earlier one from `from` on, and None only when there is none. */
  lemma {:induction false} FindFacts(s: string, sub: string, from: nat)
    ensures Find(s, sub, from).Some? ==> MatchAt(s, sub, Find(s, sub, from).value)
    ensures Find(s, sub, from).Some? ==> forall i :: from <= i < Find(s, sub, from).value ==> !MatchAt(s, sub, i)
    ensures Find(s, sub, from).None? ==> forall i :: from <= i ==> !MatchAt(s, sub, i)
    decreases |s| - from
  {
    if from + |sub| <= |s| && !MatchAt(s, sub, from) {
      FindFacts(s, sub, from + 1);
    }
  }

  /** Search downwards from index `at` for the last occurrence of `sub`. */
  function RFindFrom(s: string, sub: string, at: int): (r: Option<nat>)
    ensures r.Some? ==> r.value <= at
    decreases at + 1
  {
    if at < 0 then None
    else if MatchAt(s, sub, at) then Some(at)
    else RFindFrom(s, sub, at - 1)
  }

  lemma {:induction false} RFindFromFacts(s: string, sub: string, at: int)
    ensures RFindFrom(s, sub, at).Some? ==> MatchAt(s, sub, RFindFrom(s, sub, at).value)
    ensures RFindFrom(s, sub, at).Some? ==> forall i :: RFindFrom(s, sub, at).value < i <= at ==> !MatchAt(s, sub, i)
    ensures RFindFrom(s, sub, at).None? ==> forall i :: i <= at ==> !MatchAt(s, sub, i)
    decreases at + 1
  {
    if at >= 0 && !MatchAt(s, sub, at) {
      RFindFromFacts(s, sub, at - 1);
    }
  }

  /** str.rfind(sub): the last index where `sub` occurs. */
  function RFind(s: string, sub: string): (r: Option<nat>)
    ensures r.Some? ==> r.value + |sub| <= |s|
  {
    RFindFrom(s, sub, |s| - |sub|)
  }

  /** RFind names an occurrence with none after it, and None only when there is none. */
  lemma {:induction false} RFindFacts(s: string, sub: string)
    ensures RFind(s, sub).Some? ==> MatchAt(s, sub, RFind(s, sub).value)
    ensures RFind(s, sub).Some? ==> forall i :: RFind(s, sub).value < i ==> !MatchAt(s, sub, i)
    ensures RFind(s, sub).None? ==> forall i :: !MatchAt(s, sub, i)
  {
    RFindFromFacts(s, sub, |s| - |sub|);
  }

  /** The `in` operator on strings. */
  predicate Contains(s: string, sub: string) {
    Find(s, sub, 0).Some?
  }

  lemma {:induction false} ContainsIffOccurs(s: string, sub: string)
    ensures Contains(s, sub) <==> exists i :: MatchAt(s, sub, i)
  {
    FindFacts(s, sub, 0);
    if Contains(s, sub) {
      assert MatchAt(s, sub, Find(s, sub, 0).value);
    }
  }

  // ---------------------------------------------------------------- join and split

  /** sep.join(xs). */
  function Join(sep: string, xs: seq<string>): string {
    if |xs| == 0 then ""
    else if |xs| == 1 then xs[0]
    else xs[0] + sep + Join(sep, xs[1..])
  }

  /** The first index at or after `from` holding `c`. */
  function IndexOfCharFrom(s: string, c: char, from: nat): (r: Option<nat>)
    requires from <= |s|
    ensures r.Some? ==> from <= r.value < |s| && s[r.value] == c
    ensures r.Some? ==> forall k :: from <= k < r.value ==> s[k] != c
    ensures r.None? ==> forall k :: from <= k < |s| ==> s[k] != c
    decreases |s| - from
  {
    if from == |s| then None
    else if s[from] == c then Some(from)
    else IndexOfCharFrom(s, c, from + 1)
  }

  /** str.find(c) for one character. */
  function IndexOfChar(s: string, c: char): (r: Option<nat>)
    ensures r.Some? ==> r.value < |s| && s[r.value] == c && c !in s[..r.value]
    ensures r.None? ==> c !in s
  {
    var r := IndexOfCharFrom(s, c, 0);
    if r.Some? then
      assert forall k :: 0 <= k < r.value ==> s[..r.value][k] != c;
      r
    else r
  }

  /** s.split(c) for a one-character separator. */
  function Split(s: string, c: char): (r: seq<string>)
    ensures |r| >= 1
    decreases |s|
  {
    match IndexOfChar(s, c)
    case None => [s]
    case Some(i) => [s[..i]] + Split(s[i + 1..], c)
  }

  lemma {:induction false} SplitNoSeparator(s: string, c: char)
    requires c !in s
    ensures Split(s, c) == [s]
  {
  }

  lemma {:induction false} SplitAtFirst(p: string, c: char, q: string)
    requires c !in p
    ensures Split(p + [c] + q, c) == [p] + Split(q, c)
  {
    var s := p + [c] + q;
    var k := IndexOfChar(s, c);
    assert s[|p|] == c;
    assert k.Some?;
    var i := k.value;
    assert i == |p|;
    assert s[..i] == p;
    assert s[i + 1..] == q;
  }

  // ---------------------------------------------------------------- numbers

  function DigitChar(d: nat): (c: char)
    requires d < 10
    ensures IsDigit(c)
  {
    ('0' as int + d) as char
  }

  function DigitValue(c: char): nat
    requires IsDigit(c)
  {
    c as int - '0' as int
  }

  predicate AllDigits(s: string) {
    forall i :: 0 <= i < |s| ==> IsDigit(s[i])
  }

  /** The decimal value of a string of digits (leading zeros allowed). */
  function DigitsValue(s: string): nat
    requires AllDigits(s)
  {
    if |s| == 0 then 0 else DigitsValue(s[..|s| - 1]) * 10 + DigitValue(s[|s| - 1])
  }

  /** str(n) for a natural number: decimal, no leading zeros. */
  function NatToString(n: nat): (s: string)
    ensures |s| >= 1 && AllDigits(s)
  {
    if n < 10 then [DigitChar(n)] else NatToString(n / 10) + [DigitChar(n % 10)]
  }

  /** str(i) for an integer. */
  function IntToString(i: int): string {
    if i < 0 then "-" + NatToString(-i) else NatToString(i)
  }

  function Zeros(k: nat): (s: string)
    ensures |s| == k && AllDigits(s)
    ensures forall i :: 0 <= i < k ==> s[i] == '0'
  {
    if k == 0 then "" else "0" + Zeros(k - 1)
  }

  /** f"{n:04d}": at least four digits, zero padded on the left. */
  function Pad4(n: nat): (s: string)
    ensures |s| >= 4 && AllDigits(s)
  {
    var d := NatToString(n);
    if |d| < 4 then Zeros(4 - |d|) + d else d
  }

  /** int(s) restricted to strings of ASCII digits; None where Python's int() would raise
      or where the text is outside that restriction. */
  function ParseNat(s: string): Option<nat> {
    if |s| > 0 && AllDigits(s) then Some(DigitsValue(s)) else None
  }

  /** int(s) for text: surrounding whitespace, an optional sign, then ASCII digits. */
  function ParseInt(s: string): (r: Option<int>) {
    var t := Strip(s);
    if |t| > 0 && t[0] == '-' then
      match ParseNat(t[1..]) case Some(n) => Some(0 - n as int) case None => None
    else if |t| > 0 && t[0] == '+' then
      match ParseNat(t[1..]) case Some(n) => Some(n) case None => None
    else
      match ParseNat(t) case Some(n) => Some(n) case None => None
  }

  /** int(str(i)) == i */
  lemma {:induction false} IntRoundTrip(i: int)
    ensures ParseInt(IntToString(i)) == Some(i)
  {
    if i < 0 {
      var d := NatToString(-i);
      DigitsOfNat(-i);
      var t := "-" + d;
      assert d[|d| - 1] == t[|t| - 1];
      assert IsStripped(t);
      assert Strip(t) == t;
      assert t[1..] == d;
      assert ParseNat(d) == Some(-i);
    } else {
      var d := NatToString(i);
      DigitsOfNat(i);
      assert IsStripped(d);
      assert ParseNat(d) == Some(i);
    }
  }

  lemma {:induction false} DigitsOfNat(n: nat)
    ensures DigitsValue(NatToString(n)) == n
  {
    if n >= 10 {
      DigitsOfNat(n / 10);
      var s := NatToString(n);
      assert s[..|s| - 1] == NatToString(n / 10);
    }
  }

  lemma {:induction false} PrependZero(t: string)
    requires AllDigits(t)
    ensures AllDigits("0" + t) && DigitsValue("0" + t) == DigitsValue(t)
  {
    var s := "0" + t;
    if |t| > 0 {
      assert s[..|s| - 1] == "0" + t[..|t| - 1];
      PrependZero(t[..|t| - 1]);
    }
  }

  lemma {:induction false} LeadingZeros(k: nat, d: string)
    requires AllDigits(d)
    ensures AllDigits(Zeros(k) + d) && DigitsValue(Zeros(k) + d) == DigitsValue(d)
  {
    if k > 0 {
      LeadingZeros(k - 1, d);
      assert Zeros(k) + d == "0" + (Zeros(k - 1) + d);
      PrependZero(Zeros(k - 1) + d);
    } else {
      assert Zeros(k) + d == d;
    }
  }

  /** int(f"{n:04d}") == n: the zero-padded rendering parses back to the number. */
  lemma {:induction false} Pad4RoundTrip(n: nat)
    ensures ParseNat(Pad4(n)) == Some(n)
  {
    var d := NatToString(n);
    DigitsOfNat(n);
    if |d| < 4 {
      LeadingZeros(4 - |d|, d);
    }
  }

  lemma {:induction false} Pad4One()
    ensures Pad4(1) == "0001"
  {
  }

  /** strip() keeps a contiguous piece of its input, so it adds no character. */
  lemma {:induction false} StripExcludes(s: string, c: char)
    requires c !in s
    ensures c !in Strip(s)
  {
    var l := LStrip(s);
    assert forall i :: 0 <= i < |l| ==> l[i] == s[|s| - |l| + i];
    var r := RStrip(l);
    assert forall i :: 0 <= i < |r| ==> r[i] == l[i];
  }

  /** No piece of s.split(c) contains c. */
  lemma {:induction false} SplitPartsExclude(s: string, c: char)
    ensures forall k :: 0 <= k < |Split(s, c)| ==> c !in Split(s, c)[k]
    decreases |s|
  {
    match IndexOfChar(s, c)
    case None =>
    case Some(i) =>
      SplitPartsExclude(s[i + 1..], c);
  }

  /** int() of text without a minus sign is never negative. */
  lemma {:induction false} ParseIntUnsigned(s: string)
    requires '-' !in s
    ensures ParseInt(s).Some? ==> ParseInt(s).value >= 0
  {
    StripExcludes(s, '-');
  }

  /** int(f"{n:04d}") == n through the general int() as well. */
  lemma {:induction false} Pad4Parses(n: nat)
    ensures ParseInt(Pad4(n)) == Some(n) && '-' !in Pad4(n)
  {
    var d := Pad4(n);
    Pad4RoundTrip(n);
    DigitsLeadUnsigned(d);
  }

  /** A non-empty run of digits is its own strip() and int() reads it as digits. */
  lemma {:induction false} DigitsLeadUnsigned(d: string)
    requires |d| > 0 && AllDigits(d)
    ensures ParseInt(d) == ParseNat(d) && '-' !in d
  {
    assert IsDigit(d[0]) && IsDigit(d[|d| - 1]);
    assert Strip(d) == d;
    assert forall i :: 0 <= i < |d| ==> d[i] != '-';
  }

  /** Joining a list whose first element is non-empty gives a non-empty string. */
  lemma {:induction false} JoinNonEmpty(sep: string, xs: seq<string>)
    requires |xs| > 0 && xs[0] != ""
    ensures Join(sep, xs) != ""
  {
  }
}
