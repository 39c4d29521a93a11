// The JSON values the orchestrator reads out of agent replies, with the parts of Python's
// dict/str semantics the validator relies on: lookup, truthiness and str().

module JsonValue {
  import opened Text

  /** A decoded JSON document. Numbers are integers; an object keeps its members in order. */
  datatype Json =
    | JNull
    | JBool(b: bool)
    | JNum(n: int)
    | JStr(s: string)
    | JArr(items: seq<Json>)
    | JObj(fields: seq<(string, Json)>)

  /** The members of a JSON object, i.e. a Python dict produced by json.loads. */
  type Fields = seq<(string, Json)>

  /** `key in d`. */
  predicate Has(d: Fields, key: string) {
    exists i :: 0 <= i < |d| && d[i].0 == key
  }

  /** d.get(key): json.loads keeps the last of repeated keys, so the last binding wins. */
  function Get(d: Fields, key: string): (r: Option<Json>)
    ensures r.Some? <==> Has(d, key)
  {
    if |d| == 0 then None
    else if d[|d| - 1].0 == key then Some(d[|d| - 1].1)
    else
      var r := Get(d[..|d| - 1], key);
      assert forall i :: 0 <= i < |d| - 1 ==> d[..|d| - 1][i] == d[i];
      r
  }

  /** A lookup returns the value of the last field carrying the key. */
  lemma {:induction false} GetLast(d: Fields, key: string)
    ensures Get(d, key).Some? ==> exists i :: 0 <= i < |d| && d[i] == (key, Get(d, key).value) &&
                                             forall j :: i < j < |d| ==> d[j].0 != key
    decreases |d|
  {
    if |d| > 0 && d[|d| - 1].0 == key {
      assert d[|d| - 1] == (key, Get(d, key).value);
    } else if |d| > 0 {
      var init := d[..|d| - 1];
      GetLast(init, key);
      if Get(d, key).Some? {
        assert Get(d, key) == Get(init, key);
        var i :| 0 <= i < |init| && init[i] == (key, Get(init, key).value) &&
                 forall j :: i < j < |init| ==> init[j].0 != key;
        assert d[i] == init[i];
        assert forall j :: i < j < |d| ==> d[j].0 != key by {
          forall j | i < j < |d| ensures d[j].0 != key {
            if j < |init| { assert d[j] == init[j]; }
          }
        }
      }
    }
  }

  /** d.get(key, default). */
  function GetOr(d: Fields, key: string, default: Json): (r: Json)
    ensures !Has(d, key) ==> r == default
  {
    match Get(d, key)
    case Some(v) => v
    case None => default
  }

  /** Python truthiness of a decoded value. */
  predicate Truthy(j: Json) {
    match j
    case JNull => false
    case JBool(b) => b
    case JNum(n) => n != 0
    case JStr(s) => |s| > 0
    case JArr(xs) => |xs| > 0
    case JObj(f) => |f| > 0
  }

  /** isinstance(v, list) and len(v) > 0 */
  predicate IsNonEmptyList(j: Json) {
    j.JArr? && |j.items| > 0
  }

  /** isinstance(v, str) and v.strip() */
  predicate IsNonBlankStr(j: Json) {
    j.JStr? && !IsBlank(j.s)
  }

  /** The quote repr() puts around a string: double quotes when the string holds a single
      quote and no double quote, single quotes otherwise. */
  function QuoteChar(s: string): (q: char)
    ensures q == '"' <==> '\'' in s && '"' !in s
    ensures q == '"' || q == '\''
  {
    if '\'' in s && '"' !in s then '"' else '\''
  }

  /** A lower-case hexadecimal digit. */
  function HexDigit(n: nat): char
    requires n < 16
  {
    "0123456789abcdef"[n]
  }

  /** The value of a lower-case hexadecimal digit, None for any other character. */
  function HexValue(c: char): (r: Option<nat>)
    ensures r.Some? ==> r.value < 16
  {
    if '0' <= c <= '9' then Some(c as int - '0' as int)
    else if 'a' <= c <= 'f' then Some(c as int - 'a' as int + 10)
    else None
  }

  /** An ASCII control character, which repr() writes as \xNN unless it has a short escape. */
  predicate IsControl(c: char) {
    c < ' ' || c as int == 127
  }

  /** How repr() writes one character of a string quoted with q: the backslash and the quote
      are escaped, tab, newline and carriage return get their short escapes, other ASCII
      control characters become \xNN, everything else stands for itself. */
  function EscapeChar(c: char, q: char): (r: string)
    requires q == '"' || q == '\''
    ensures 1 <= |r| <= 4
    ensures r[0] != q && forall i :: 0 < i < |r| && r[i] == q ==> r[i - 1] == '\\'
    ensures r[0] == '\\' <==> c == q || c == '\\' || IsControl(c)
  {
    if c == q || c == '\\' then ['\\', c]
    else if c == '\t' then "\\t"
    else if c == '\n' then "\\n"
    else if c == '\r' then "\\r"
    else if IsControl(c) then ['\\', 'x', HexDigit(c as int / 16), HexDigit(c as int % 16)]
    else [c]
  }

  /** The body of repr() of s quoted with q: each character escaped in turn. */
  function Escape(s: string, q: char): (r: string)
    requires q == '"' || q == '\''
    ensures |s| <= |r| <= 4 * |s|
    ensures |r| > 0 ==> r[0] != q
  {
    if |s| == 0 then "" else EscapeChar(s[0], q) + Escape(s[1..], q)
  }

  /** repr() of a string, as it appears inside a container. Characters outside ASCII are kept
      as they are. */
  function QuoteRepr(s: string): (r: string)
    ensures |r| >= 2 && r[0] == r[|r| - 1] == QuoteChar(s)
  {
    var q := QuoteChar(s);
    [q] + Escape(s, q) + [q]
  }

  /** Reading an escaped body back, as Python's parser reads a string literal: None when a
      backslash starts no escape that repr() writes. */
  function Unescape(t: string): Option<string>
    decreases |t|
  {
    if |t| == 0 then Some("")
    else if t[0] != '\\' then Prepend(t[0], Unescape(t[1..]))
    else if |t| >= 2 && t[1] == 't' then Prepend('\t', Unescape(t[2..]))
    else if |t| >= 2 && t[1] == 'n' then Prepend('\n', Unescape(t[2..]))
    else if |t| >= 2 && t[1] == 'r' then Prepend('\r', Unescape(t[2..]))
    else if |t| >= 2 && (t[1] == '\\' || t[1] == '\'' || t[1] == '"') then Prepend(t[1], Unescape(t[2..]))
    else if |t| >= 4 && t[1] == 'x' && HexValue(t[2]).Some? && HexValue(t[3]).Some? then
      Prepend((16 * HexValue(t[2]).value + HexValue(t[3]).value) as char, Unescape(t[4..]))
    else None
  }

  function Prepend(c: char, r: Option<string>): Option<string> {
    if r.Some? then Some([c] + r.value) else None
  }

  /** Reading a quoted repr() back: the text between matching quotes, unescaped. */
  function UnquoteRepr(t: string): Option<string> {
    if |t| >= 2 && (t[0] == '\'' || t[0] == '"') && t[|t| - 1] == t[0] then Unescape(t[1..|t| - 1])
    else None
  }

  /** One escaped character followed by any escaped text reads back as that character first. */
  lemma {:induction false} UnescapeChar(c: char, q: char, rest: string)
    requires q == '"' || q == '\''
    ensures Unescape(EscapeChar(c, q) + rest) == Prepend(c, Unescape(rest))
  {
    var t := EscapeChar(c, q) + rest;
    if IsControl(c) && c != '\t' && c != '\n' && c != '\r' {
      var n := c as int;
      assert t[4..] == rest;
      assert HexValue(HexDigit(n / 16)) == Some(n / 16);
      assert HexValue(HexDigit(n % 16)) == Some(n % 16);
    } else if c == q || c == '\\' || c == '\t' || c == '\n' || c == '\r' {
      assert t[2..] == rest;
    } else {
      assert t[1..] == rest;
    }
  }

  /** Escaping round-trips: reading the escaped body back gives the string. */
  lemma {:induction false} EscapeRoundTrip(s: string, q: char)
    requires q == '"' || q == '\''
    ensures Unescape(Escape(s, q)) == Some(s)
    decreases |s|
  {
    if |s| > 0 {
      EscapeRoundTrip(s[1..], q);
      UnescapeChar(s[0], q, Escape(s[1..], q));
      assert [s[0]] + s[1..] == s;
    }
  }

  /** repr() of a string round-trips: the quoted text reads back as the string. */
  lemma {:induction false} QuoteReprRoundTrip(s: string)
    ensures UnquoteRepr(QuoteRepr(s)) == Some(s)
  {
    var q := QuoteChar(s);
    var r := QuoteRepr(s);
    assert r[1..|r| - 1] == Escape(s, q);
    EscapeRoundTrip(s, q);
  }

  /** The quote repr() chose never stands bare in the body: every occurrence follows a backslash
      that escapes it, so the closing quote is the only bare one. */
  lemma {:induction false} EscapeHidesQuote(s: string, q: char)
    requires q == '"' || q == '\''
    ensures forall i :: 0 <= i < |Escape(s, q)| && Escape(s, q)[i] == q ==> i > 0 && Escape(s, q)[i - 1] == '\\'
    decreases |s|
  {
    if |s| > 0 {
      EscapeHidesQuote(s[1..], q);
      var e := EscapeChar(s[0], q);
      var t := Escape(s[1..], q);
      assert Escape(s, q) == e + t;
      forall i | 0 <= i < |e + t| && (e + t)[i] == q
        ensures i > 0 && (e + t)[i - 1] == '\\'
      {
        if i >= |e| {
          assert t[i - |e|] == q;
          if i - |e| > 0 {
            assert (e + t)[i - 1] == t[i - |e| - 1];
          }
        } else if i > 0 {
          assert e[i] == q;
        }
      }
    }
  }

  /** str(v): a string is itself; None, booleans and integers are rendered as Python renders them;
      lists and dicts become their repr. */
  function PyStr(j: Json): string
    decreases j, 1
  {
    match j
    case JStr(s) => s
    case _ => Repr(j)
  }

  /** repr(v) */
  function Repr(j: Json): (r: string)
    ensures |r| > 0
    decreases j, 0
  {
    match j
    case JNull => "None"
    case JBool(b) => if b then "True" else "False"
    case JNum(n) => IntToString(n)
    case JStr(s) => QuoteRepr(s)
    case JArr(items) =>
      "[" + Join(", ", seq(|items|, i requires 0 <= i < |items| => Repr(items[i]))) + "]"
    case JObj(fields) =>
      "{" + Join(", ", seq(|fields|, i requires 0 <= i < |fields| =>
                                 QuoteRepr(fields[i].0) + ": " + Repr(fields[i].1))) + "}"
  }

  /** Only the empty string prints as the empty string, so `if str(v):` fails exactly for "". */
  lemma {:induction false} PyStrEmptyIff(j: Json)
    ensures PyStr(j) == "" <==> j == JStr("")
  {
  }

  /** The string a non-string value prints as never equals a string that starts with a letter,
      digit or underscore: it begins with one of `N T F - [ {` or a digit. */
  lemma {:induction false} PyStrOfNonString(j: Json)
    requires !j.JStr?
    ensures PyStr(j)[0] in {'N', 'T', 'F', '-', '[', '{'} || IsDigit(PyStr(j)[0])
  {
    match j
    case JNum(n) =>
      if n < 0 {
      } else {
        assert IsDigit(NatToString(n)[0]);
      }
    case _ =>
  }

  /** d.pop(key, None): every binding of `key` goes, the others keep their order. */
  function Remove(d: Fields, key: string): (r: Fields)
    ensures |r| <= |d|
  {
    if |d| == 0 then []
    else
      var init := Remove(d[..|d| - 1], key);
      if d[|d| - 1].0 == key then init else init + [d[|d| - 1]]
  }

  /** After d.pop(key) the key is gone and every other key reads as before. */
  lemma {:induction false} RemoveGet(d: Fields, key: string, k: string)
    ensures Get(Remove(d, key), k) == if k == key then None else Get(d, k)
    decreases |d|
  {
    if |d| > 0 {
      var init := d[..|d| - 1];
      RemoveGet(init, key, k);
      var ri := Remove(init, key);
      if d[|d| - 1].0 != key {
        var r := ri + [d[|d| - 1]];
        assert r[..|r| - 1] == ri;
      }
    }
  }

  /** d[key] = value */
  function Put(d: Fields, key: string, value: Json): (r: Fields)
    ensures |r| > 0
  {
    Remove(d, key) + [(key, value)]
  }

  /** After d[key] = value the key reads as `value` and every other key reads as before. */
  lemma {:induction false} PutGet(d: Fields, key: string, value: Json, k: string)
    ensures Get(Put(d, key, value), k) == if k == key then Some(value) else Get(d, k)
  {
    RemoveGet(d, key, k);
    var r := Put(d, key, value);
    assert r[..|r| - 1] == Remove(d, key);
  }

  /** Two assignments to other keys leave a key's lookup as it was. */
  lemma {:induction false} PutPutOther(d: Fields, k1: string, v1: Json, k2: string, v2: Json, k: string)
    requires k != k1 && k != k2
    ensures Get(Put(Put(d, k1, v1), k2, v2), k) == Get(d, k)
  {
    PutGet(d, k1, v1, k);
    PutGet(Put(d, k1, v1), k2, v2, k);
  }
}
