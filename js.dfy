/** The slice of JavaScript's value semantics that the application's handlers
    rely on: JSON request values, truthiness, the string built-ins they call,
    `Array.prototype.filter` and `join`, and the two numeric coercions
    (`Number(v)` and `new Date(v)`), which are left abstract. */
module Js {

  datatype Option<T> = None | Some(value: T)

  /** A JSON value as it reaches a handler inside a request body. Arrays and
      nested objects are not modelled; numbers are integers. */
  datatype JsValue = Null | Bool(b: bool) | Num(n: int) | Str(s: string)

  /** A parsed JSON object (`req.body`). An absent key reads as `undefined`. */
  type Body = map<string, JsValue>

  /** `body[key]`, with `None` standing for `undefined`. */
  function Get(body: Body, key: string): Option<JsValue>
  {
    if key in body then Some(body[key]) else None
  }

  /** JavaScript truthiness (`!!v`): undefined, null, false, 0 and "" are falsy. */
  predicate Truthy(v: Option<JsValue>)
  {
    match v
    case None => false
    case Some(Null) => false
    case Some(Bool(b)) => b
    case Some(Num(n)) => n != 0
    case Some(Str(s)) => s != ""
  }

  /** The five falsy values a body field can hold, and no others. */
  lemma FalsyValues(v: Option<JsValue>)
    ensures !Truthy(v) <==> v in {None, Some(Null), Some(Bool(false)), Some(Num(0)), Some(Str(""))}
  {
  }

  /** The characters the regular-expression class `\s` matches (and that
      `String.prototype.trim` removes): ECMAScript WhiteSpace and LineTerminator. */
  predicate IsSpace(c: char)
  {
    var n := c as int;
    (0x09 <= n <= 0x0D) || n == 0x20 || n == 0xA0 || n == 0x1680
    || (0x2000 <= n <= 0x200A) || n == 0x2028 || n == 0x2029 || n == 0x202F
    || n == 0x205F || n == 0x3000 || n == 0xFEFF
  }

  predicate NoLeadingSpace(s: string)
  {
    s == [] || !IsSpace(s[0])
  }

  predicate NoTrailingSpace(s: string)
  {
    s == [] || !IsSpace(s[|s| - 1])
  }

  /** `s.replace(/^\s+/, '')`: drops the longest all-whitespace prefix. */
  function TrimStart(s: string): (r: string)
    ensures |r| <= |s| && r == s[|s| - |r|..]
    ensures NoLeadingSpace(r)
    ensures forall k :: 0 <= k < |s| - |r| ==> IsSpace(s[k])
  {
    if |s| > 0 && IsSpace(s[0]) then TrimStart(s[1..]) else s
  }

  /** Drops the longest all-whitespace suffix. */
  function TrimEnd(s: string): (r: string)
    ensures |r| <= |s| && r == s[..|r|]
    ensures NoTrailingSpace(r)
    ensures forall k :: |r| <= k < |s| ==> IsSpace(s[k])
  {
    if |s| > 0 && IsSpace(s[|s| - 1]) then TrimEnd(s[..|s| - 1]) else s
  }

  /** `s.trim()`. */
  function Trim(s: string): string
  {
    TrimEnd(TrimStart(s))
  }

  predicate IsUpper(c: char)
  {
    'A' <= c <= 'Z'
  }

  predicate NoUpper(s: string)
  {
    forall k :: 0 <= k < |s| ==> !IsUpper(s[k])
  }

  /** Lower-casing of one character; only the ASCII letters are mapped. */
  function LowerChar(c: char): (d: char)
    ensures !IsUpper(d)
    ensures IsSpace(d) <==> IsSpace(c)
    ensures !IsUpper(c) ==> d == c
  {
    if IsUpper(c) then (c as int + 32) as char else c
  }

  /** `s.toLowerCase()`, restricted to the ASCII letters. */
  function ToLower(s: string): (r: string)
    ensures |r| == |s|
    ensures forall k :: 0 <= k < |s| ==> r[k] == LowerChar(s[k])
    ensures NoUpper(r)
  {
    if s == [] then [] else [LowerChar(s[0])] + ToLower(s[1..])
  }

  predicate StartsWith(s: string, prefix: string)
  {
    |prefix| <= |s| && s[..|prefix|] == prefix
  }

  /** The number a string of decimal digits denotes, most significant first. */
  function DigitsValue(r: string): int
  {
    if r == [] then 0 else DigitsValue(r[..|r| - 1]) * 10 + (r[|r| - 1] as int - '0' as int)
  }

  /** The decimal digits of a natural number, most significant first: they
      denote the number, and there is no leading zero. */
  function Digits(n: nat): (r: string)
    ensures |r| > 0
    ensures forall k :: 0 <= k < |r| ==> '0' <= r[k] <= '9'
    ensures DigitsValue(r) == n
    ensures |r| > 1 ==> r[0] != '0'
    decreases n
  {
    var d := ['0' + (n % 10) as char];
    if n < 10 then d
    else
      var high := Digits(n / 10);
      assert (high + d)[..|high + d| - 1] == high;
      high + d
  }

  /** `String(n)` for an integer: a minus sign exactly for a negative
      number, followed by the digits of its magnitude. */
  function Decimal(n: int): (r: string)
    ensures |r| > 0
    ensures r[0] == '-' <==> n < 0
    ensures n < 0 ==> DigitsValue(r[1..]) == -n
    ensures n >= 0 ==> DigitsValue(r) == n
  {
    if n < 0 then
      assert ("-" + Digits(-n))[1..] == Digits(-n);
      "-" + Digits(-n)
    else Digits(n)
  }

  /** How a JSON value is read as text, both by the schema's String paths and
      by the request validators: numbers and booleans are printed, null has no
      text. */
  function CastText(v: JsValue): (r: Option<string>)
    ensures r.None? <==> v.Null?
    ensures v.Str? ==> r == Some(v.s)
    ensures v.Bool? ==> r == Some(if v.b then "true" else "false")
    ensures v.Num? ==> r.Some? && r.value != "" && (r.value[0] == '-' <==> v.n < 0)
  {
    match v
    case Null => None
    case Bool(b) => Some(if b then "true" else "false")
    case Num(n) => Some(Decimal(n))
    case Str(s) => Some(s)
  }

  /** `r` lists elements of `s` in the order they occur in `s`. */
  predicate IsSubsequence<T(==)>(r: seq<T>, s: seq<T>)
    decreases |s|
  {
    if r == [] then true
    else if s == [] then false
    else if r[0] == s[0] then IsSubsequence(r[1..], s[1..])
    else IsSubsequence(r, s[1..])
  }

  /** `s.filter(keep)`: exactly the kept elements, in their original order. */
  function Filter<T(==,!new)>(s: seq<T>, keep: T -> bool): (r: seq<T>)
    ensures forall x :: x in r <==> x in s && keep(x)
    ensures IsSubsequence(r, s)
    ensures |r| <= |s|
  {
    if s == [] then []
    else
      var rest := Filter(s[1..], keep);
      if keep(s[0]) then
        assert ([s[0]] + rest)[1..] == rest;
        [s[0]] + rest
      else
        assert rest != [] ==> rest[0] in rest && rest[0] != s[0];
        rest
  }

  /** A kept element occurs in the result exactly as often as in the input,
      and a dropped one not at all. */
  lemma {:induction false} FilterCount<T(!new)>(s: seq<T>, keep: T -> bool)
    ensures forall x :: multiset(Filter(s, keep))[x] == if keep(x) then multiset(s)[x] else 0
    decreases |s|
  {
    if s != [] {
      FilterCount(s[1..], keep);
      var rest := Filter(s[1..], keep);
      assert s == [s[0]] + s[1..];
      assert multiset(s) == multiset{s[0]} + multiset(s[1..]);
      if keep(s[0]) {
        assert Filter(s, keep) == [s[0]] + rest;
        assert multiset([s[0]] + rest) == multiset{s[0]} + multiset(rest);
      }
    }
  }

  /** Filtering with a predicate that every element meets keeps the whole sequence. */
  lemma {:induction false} FilterKeepsAll<T(!new)>(s: seq<T>, keep: T -> bool)
    requires forall k :: 0 <= k < |s| ==> keep(s[k])
    ensures Filter(s, keep) == s
    decreases |s|
  {
    if s != [] {
      FilterKeepsAll(s[1..], keep);
    }
  }

  /** Filtering distributes over appending one element. */
  lemma {:induction false} FilterAppend<T(!new)>(s: seq<T>, x: T, keep: T -> bool)
    ensures Filter(s + [x], keep) == Filter(s, keep) + (if keep(x) then [x] else [])
    decreases |s|
  {
    if s == [] {
      assert [] + [x] == [x];
    } else {
      assert (s + [x])[0] == s[0];
      assert (s + [x])[1..] == s[1..] + [x];
      FilterAppend(s[1..], x, keep);
    }
  }

  /** Filtering depends only on what the predicate says about the elements. */
  lemma {:induction false} FilterCongruent<T(!new)>(s: seq<T>, p: T -> bool, q: T -> bool)
    requires forall k :: 0 <= k < |s| ==> p(s[k]) == q(s[k])
    ensures Filter(s, p) == Filter(s, q)
    decreases |s|
  {
    if s != [] {
      FilterCongruent(s[1..], p, q);
    }
  }

  /** `xs.join(sep)`. */
  function Join(xs: seq<string>, sep: string): string
  {
    if |xs| == 0 then "" else if |xs| == 1 then xs[0] else xs[0] + sep + Join(xs[1..], sep)
  }

  /** The two numeric coercions the handlers apply. `fromText` is how
      `Number` reads a string with no surrounding whitespace (`None` for NaN),
      left abstract, and `toDate` is the time value of `new Date(v)` in
      milliseconds since the epoch (`None` for an Invalid Date). */
  datatype Coercions = Coercions(fromText: string -> Option<int>, toDate: JsValue -> Option<int>)
  {
    /** `Number(v)`: a number is itself, true and false are 1 and 0, null and
        a string of whitespace are 0; only another string can give NaN. */
    function Number(v: JsValue): (r: Option<int>)
      ensures v.Num? ==> r == Some(v.n)
      ensures v.Bool? ==> r == Some(if v.b then 1 else 0)
      ensures r.None? ==> v.Str? && Trim(v.s) != ""
    {
      match v
      case Null => Some(0)
      case Bool(b) => Some(if b then 1 else 0)
      case Num(n) => Some(n)
      case Str(s) => if Trim(s) == "" then Some(0) else fromText(Trim(s))
    }

    /** How a Number path of the schema casts a value: null and "" become
        null, which this record cannot hold (`None`); anything else goes
        through `Number`, a number unchanged. */
    function CastNumber(v: JsValue): (r: Option<int>)
      ensures v.Num? ==> r == Some(v.n)
      ensures r.Some? ==> r == Number(v)
    {
      if v.Null? || v == Str("") then None else Number(v)
    }

    /** How a Date path of the schema casts a value: a number is a time value. */
    function CastDate(v: JsValue): Option<int>
    {
      if v.Num? then Some(v.n) else toDate(v)
    }
  }

  lemma {:induction false} TrimStartIdempotent(s: string)
    ensures TrimStart(TrimStart(s)) == TrimStart(s)
  {
    var r := TrimStart(s);
    assert r == [] || !IsSpace(r[0]);
  }

  /** Lower-casing works character by character, so it commutes with slicing. */
  lemma {:induction false} ToLowerSlice(s: string, i: int, j: int)
    requires 0 <= i <= j <= |s|
    ensures ToLower(s[i..j]) == ToLower(s)[i..j]
  {
    var a, b := ToLower(s[i..j]), ToLower(s)[i..j];
    assert |a| == |b|;
    forall k | 0 <= k < |a| ensures a[k] == b[k] {
      assert s[i..j][k] == s[i + k];
    }
  }

  lemma {:induction false} ToLowerOfLower(s: string)
    requires NoUpper(s)
    ensures ToLower(s) == s
  {
    var r := ToLower(s);
    forall k | 0 <= k < |s| ensures r[k] == s[k] {
      assert r[k] == LowerChar(s[k]);
    }
  }

  lemma {:induction false} TrimOfTrimmed(s: string)
    requires NoLeadingSpace(s) && NoTrailingSpace(s)
    ensures Trim(s) == s
  {
    assert TrimStart(s) == s;
    assert TrimEnd(s) == s;
  }
}
