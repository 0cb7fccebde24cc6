/** The pieces of JavaScript semantics that the screens' handlers rely on:
    optional values, truthiness and the `||` and `??` defaults on strings,
    `String.prototype.trim`, `toLowerCase`, `includes`, `Array.prototype.filter`,
    loose equality with 1, and the alert dialogs the screens show. */
module Js {

  /** A value that a JSON response may or may not carry (absent, `null` or `undefined` is `None`). */
  datatype Option<+T> = None | Some(value: T)

  /** `o || d` on a string that may be absent: both an absent value and "" are falsy. */
  function Or(o: Option<string>, d: string): (r: string)
    ensures Truthy(o) ==> r == o.value
    ensures !Truthy(o) ==> r == d
    ensures r == "" ==> d == ""
  {
    if Truthy(o) then o.value else d
  }

  /** `o ?? d`: only an absent value is replaced; "" is kept. */
  function Nullish(o: Option<string>, d: string): (r: string)
    ensures o.Some? ==> r == o.value
    ensures o.None? ==> r == d
    ensures Truthy(o) || o.None? ==> r == Or(o, d)
  {
    if o.Some? then o.value else d
  }

  /** `s.length`: JavaScript counts UTF-16 code units, so a code point above U+FFFF counts twice. */
  function Utf16Length(s: string): (n: nat)
    ensures |s| <= n <= 2 * |s|
    ensures (forall k :: 0 <= k < |s| ==> s[k] as int <= 0xFFFF) ==> n == |s|
  {
    if s == [] then 0
    else Utf16Length(s[..|s| - 1]) + (if s[|s| - 1] as int > 0xFFFF then 2 else 1)
  }

  /** An optional string is truthy when present and not "". */
  predicate Truthy(o: Option<string>)
  {
    o.Some? && o.value != ""
  }

  /** One `Alert.alert(title, message)` dialog; the message may be left out. */
  datatype Alerta = Alerta(titulo: string, mensaje: Option<string>)

  // ---------------------------------------------------------------------------
  // trim

  /** WhiteSpace and LineTerminator code points of ECMAScript (sections 12.2 and 12.3 of ECMA-262):
      TAB, LF, VT, FF, CR, the space separators of category Zs, LS, PS and ZWNBSP. */
  predicate IsWhitespace(c: char)
  {
    c == '\t' || c == '\n' || c == '\U{B}' || c == '\U{C}' || c == '\r' || c == ' ' ||
    c == '\U{A0}' || c == '\U{1680}' || ('\U{2000}' <= c <= '\U{200A}') ||
    c == '\U{2028}' || c == '\U{2029}' || c == '\U{202F}' || c == '\U{205F}' ||
    c == '\U{3000}' || c == '\U{FEFF}'
  }

  predicate AllWhitespace(s: string)
  {
    forall k :: 0 <= k < |s| ==> IsWhitespace(s[k])
  }

  /** Drops the leading whitespace: the result is a suffix, and what was dropped is all whitespace. */
  function TrimStart(s: string): (r: string)
    ensures |r| <= |s| && r == s[|s| - |r|..]
    ensures AllWhitespace(s[..|s| - |r|])
    ensures r == [] || !IsWhitespace(r[0])
  {
    if s != [] && IsWhitespace(s[0]) then
      var r := TrimStart(s[1..]);
      assert s[..|s| - |r|] == [s[0]] + s[1..][..|s| - 1 - |r|];
      r
    else s
  }

  /** Drops the trailing whitespace: the result is a prefix, and what was dropped is all whitespace. */
  function TrimEnd(s: string): (r: string)
    ensures |r| <= |s| && r == s[..|r|]
    ensures AllWhitespace(s[|r|..])
    ensures r == [] || !IsWhitespace(r[|r| - 1])
  {
    if s != [] && IsWhitespace(s[|s| - 1]) then
      var r := TrimEnd(s[..|s| - 1]);
      assert s[|r|..] == s[..|s| - 1][|r|..] + [s[|s| - 1]];
      r
    else s
  }

  /** `r` is a slice of `s` that neither starts nor ends with whitespace, everything around it
      being whitespace. */
  predicate TrimmedSliceOf(r: string, s: string)
  {
    (r == [] || (!IsWhitespace(r[0]) && !IsWhitespace(r[|r| - 1])))
    && exists i :: 0 <= i && i + |r| <= |s| && r == s[i..i + |r|]
                   && AllWhitespace(s[..i]) && AllWhitespace(s[i + |r|..])
  }

  /** `s.trim()`: the longest slice of `s` that neither starts nor ends with whitespace. */
  function Trim(s: string): (r: string)
    ensures TrimmedSliceOf(r, s)
  {
    var t := TrimStart(s);
    var r := TrimEnd(t);
    var i := |s| - |t|;
    assert r == s[i..i + |r|];
    assert s[i + |r|..] == t[|r|..];
    r
  }

  /** Trimming a string that already neither starts nor ends with whitespace changes nothing. */
  lemma {:induction false} TrimOfTrimmed(s: string)
    requires s == [] || (!IsWhitespace(s[0]) && !IsWhitespace(s[|s| - 1]))
    ensures Trim(s) == s
  {
  }

  /** `trim` is idempotent. */
  lemma {:induction false} TrimIdempotent(s: string)
    ensures Trim(Trim(s)) == Trim(s)
  {
    TrimOfTrimmed(Trim(s));
  }

  /** Leading whitespace before a string that does not start with whitespace is all dropped. */
  lemma {:induction false} TrimStartRelleno(a: string, x: string)
    requires AllWhitespace(a)
    requires x == [] || !IsWhitespace(x[0])
    ensures TrimStart(a + x) == x
    decreases |a|
  {
    if a != [] {
      assert (a + x)[1..] == a[1..] + x;
      TrimStartRelleno(a[1..], x);
    }
  }

  /** Trailing whitespace after a string that does not end with whitespace is all dropped. */
  lemma {:induction false} TrimEndRelleno(x: string, b: string)
    requires AllWhitespace(b)
    requires x == [] || !IsWhitespace(x[|x| - 1])
    ensures TrimEnd(x + b) == x
    decreases |b|
  {
    if b != [] {
      assert (x + b)[..|x + b| - 1] == x + b[..|b| - 1];
      TrimEndRelleno(x, b[..|b| - 1]);
    }
  }

  /** The converse of `Trim`'s contract: a string that neither starts nor ends with whitespace,
      padded with whitespace on both sides, trims back to itself. */
  lemma {:induction false} TrimDeRelleno(a: string, x: string, b: string)
    requires AllWhitespace(a) && AllWhitespace(b)
    requires x == [] || (!IsWhitespace(x[0]) && !IsWhitespace(x[|x| - 1]))
    ensures Trim(a + x + b) == x
  {
    if x == [] {
      var s := a + x + b;
      assert AllWhitespace(s);
      assert TrimStart(s) == [];
    } else {
      assert a + x + b == a + (x + b);
      TrimStartRelleno(a, x + b);
      TrimEndRelleno(x, b);
    }
  }

  // ---------------------------------------------------------------------------
  // toLowerCase

  /** Upper-case letters of Basic Latin and of Latin-1 Supplement (U+00C0 to U+00DE except U+00D7). */
  predicate IsUpper(c: char)
  {
    ('A' <= c <= 'Z') || ('\U{C0}' <= c <= '\U{DE}' && c != '\U{D7}')
  }

  /** The lower-case form of one character; both upper-case ranges are 32 code points below their lower case. */
  function LowerChar(c: char): (r: char)
    ensures !IsUpper(r)
    ensures IsWhitespace(r) <==> IsWhitespace(c)
  {
    if IsUpper(c) then (c as int + 32) as char else c
  }

  /** `s.toLowerCase()` restricted to Basic Latin and Latin-1 Supplement. */
  function ToLower(s: string): (r: string)
    ensures |r| == |s|
    ensures forall k :: 0 <= k < |s| ==> r[k] == LowerChar(s[k])
  {
    seq(|s|, k requires 0 <= k < |s| => LowerChar(s[k]))
  }

  lemma {:induction false} ToLowerIdempotent(s: string)
    ensures ToLower(ToLower(s)) == ToLower(s)
  {
  }

  /** Lower-casing keeps a trimmed string trimmed, so it commutes with `trim` on such strings. */
  lemma {:induction false} TrimOfLower(s: string)
    requires Trim(s) == s
    ensures Trim(ToLower(s)) == ToLower(s)
  {
    var t := ToLower(s);
    if s != [] {
      assert !IsWhitespace(s[0]) && !IsWhitespace(s[|s| - 1]);
      assert !IsWhitespace(t[0]) && !IsWhitespace(t[|t| - 1]);
    }
    TrimOfTrimmed(t);
  }

  // ---------------------------------------------------------------------------
  // includes

  predicate StartsWith(s: string, p: string)
  {
    |p| <= |s| && s[..|p|] == p
  }

  /** `sub` occurs in `s` at position `i`. */
  predicate OccursAt(s: string, sub: string, i: int)
  {
    0 <= i && i + |sub| <= |s| && s[i..i + |sub|] == sub
  }

  /** An occurrence past the first position of `s` is an occurrence in `s[1..]`, one place earlier. */
  lemma OccursAtShift(s: string, sub: string, i: int)
    requires s != [] && 1 <= i
    ensures OccursAt(s, sub, i) <==> OccursAt(s[1..], sub, i - 1)
  {
    if i + |sub| <= |s| {
      assert s[1..][i - 1..i - 1 + |sub|] == s[i..i + |sub|];
    }
  }

  /** `s.includes(sub)`, tried position by position from the left: true exactly when `sub`
      occurs somewhere in `s` (the empty string occurs everywhere). */
  function Contains(s: string, sub: string): (r: bool)
    ensures r <==> exists i :: OccursAt(s, sub, i)
    decreases |s|
  {
    if StartsWith(s, sub) then
      assert OccursAt(s, sub, 0);
      true
    else if s == [] then
      false
    else
      var r := Contains(s[1..], sub);
      if r then
        var i :| OccursAt(s[1..], sub, i);
        OccursAtShift(s, sub, i + 1);
        true
      else
        assert forall i :: !OccursAt(s, sub, i) by {
          forall i ensures !OccursAt(s, sub, i) {
            if i == 0 {
              if |sub| <= |s| { assert s[..|sub|] == s[0..|sub|]; }
            } else if i > 0 {
              OccursAtShift(s, sub, i);
            }
          }
        }
        false
  }

  // ---------------------------------------------------------------------------
  // Array.prototype.filter

  /** `s.filter(p)`, built left to right as the JavaScript callback visits the array. */
  function Filter<T(!new)>(s: seq<T>, p: T -> bool): (r: seq<T>)
    ensures |r| <= |s|
    ensures forall k :: 0 <= k < |r| ==> p(r[k])
  {
    if s == [] then []
    else
      var n := |s| - 1;
      assert s == s[..n] + [s[n]];
      Filter(s[..n], p) + (if p(s[n]) then [s[n]] else [])
  }

  /** Filtering keeps every element that satisfies `p`, as often as it occurs, and drops the others. */
  lemma {:induction false} FilterCount<T(!new)>(s: seq<T>, p: T -> bool, x: T)
    ensures multiset(Filter(s, p))[x] == if p(x) then multiset(s)[x] else 0
  {
    if s != [] {
      var n := |s| - 1;
      assert s == s[..n] + [s[n]];
      FilterCount(s[..n], p, x);
    }
  }

  /** Filtering keeps the original order: it distributes over concatenation. */
  lemma {:induction false} FilterConcat<T(!new)>(a: seq<T>, b: seq<T>, p: T -> bool)
    ensures Filter(a + b, p) == Filter(a, p) + Filter(b, p)
    decreases |b|
  {
    if b == [] {
      assert a + b == a;
    } else {
      var n := |b| - 1;
      var ab := a + b;
      assert ab[..|ab| - 1] == a + b[..n];
      assert ab[|ab| - 1] == b[n];
      var tail := if p(b[n]) then [b[n]] else [];
      assert Filter(ab, p) == Filter(a + b[..n], p) + tail;
      assert Filter(b, p) == Filter(b[..n], p) + tail;
      FilterConcat(a, b[..n], p);
    }
  }

  /** A JSON answer that should be an array but may be something else. */
  datatype Lista<T> = Arreglo(elementos: seq<T>) | NoArreglo

  /** `Array.isArray(data) ? data : []`. */
  function ArregloOVacio<T>(l: Lista<T>): (r: seq<T>)
    ensures l.Arreglo? ==> r == l.elementos
    ensures l.NoArreglo? ==> r == []
  {
    if l.Arreglo? then l.elementos else []
  }

  // ---------------------------------------------------------------------------
  // loose equality

  /** A JSON scalar as the API may send it in a field such as `estado`. */
  datatype Scalar = Number(n: real) | Text(t: string) | Boolean(b: bool) | Null

  /** `v == 1` with JavaScript's loose equality: a number equal to 1, `true`, or a string whose
      numeric value is 1 (here: "1" with surrounding whitespace); `null` is never equal to 1. */
  predicate LooseEqualsOne(v: Scalar): (r: bool)
    ensures v.Text? && r ==> TrimmedSliceOf("1", v.t)
    ensures v.Null? ==> !r
  {
    match v
    case Number(n) => n == 1.0
    case Boolean(b) => b
    case Text(t) => Trim(t) == "1"
    case Null => false
  }

  /** A string "1" with any whitespace around it is loosely equal to 1. */
  lemma TextoUno(a: string, b: string)
    requires AllWhitespace(a) && AllWhitespace(b)
    ensures LooseEqualsOne(Text(a + "1" + b))
  {
    TrimDeRelleno(a, "1", b);
  }
}
