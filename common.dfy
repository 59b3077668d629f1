/**
 * Values shared by the backend and frontend models: optional values, the
 * whitespace that Python's `str.strip` and JavaScript's `trim` remove, and
 * the JavaScript conversions `parseInt(s, 10)`, `String(n)` and
 * `Number(s) || 0` that the React pages apply to form inputs.
 */
module Common {

  datatype Option<T> = None | Some(value: T)
  {
    predicate IsSome() { this.Some? }
  }

  // ---------------------------------------------------------------------
  // Whitespace and trimming
  // ---------------------------------------------------------------------

  /** The whitespace characters both `str.strip()` and `String.prototype.trim()` remove. */
  predicate IsSpace(c: char)
  {
    c == ' ' || c == '\t' || c == '\n' || c == '\r' || c == '\U{000B}' || c == '\U{000C}'
    || c == '\U{00A0}' || c == '\U{3000}'
  }

  predicate IsDigit(c: char) { '0' <= c <= '9' }

  predicate AllSpace(s: string) { forall i :: 0 <= i < |s| ==> IsSpace(s[i]) }

  /** Drops leading whitespace: the result is the suffix starting at the first non-space. */
  function TrimStart(s: string): (r: string)
    ensures |r| <= |s| && r == s[|s| - |r|..]
    ensures r == [] || !IsSpace(r[0])
    ensures forall i :: 0 <= i < |s| - |r| ==> IsSpace(s[i])
  {
    if s != [] && IsSpace(s[0]) then TrimStart(s[1..]) else s
  }

  /** Drops trailing whitespace: the result is the prefix ending at the last non-space. */
  function TrimEnd(s: string): (r: string)
    ensures |r| <= |s| && r == s[..|r|]
    ensures r == [] || !IsSpace(r[|r| - 1])
    ensures forall i :: |r| <= i < |s| ==> IsSpace(s[i])
  {
    if s != [] && IsSpace(s[|s| - 1]) then TrimEnd(s[..|s| - 1]) else s
  }

  /** Python `s.strip()` and JavaScript `s.trim()` over the characters of `IsSpace`. */
  function Strip(s: string): string
  {
    TrimEnd(TrimStart(s))
  }

  /** Whitespace only trims away entirely. */
  lemma {:induction false} TrimStartAllSpace(s: string)
    requires AllSpace(s)
    ensures TrimStart(s) == []
  {
    if s != [] {
      assert AllSpace(s[1..]) by {
        forall i | 0 <= i < |s[1..]| ensures IsSpace(s[1..][i]) {
          assert s[1..][i] == s[i + 1];
        }
      }
      TrimStartAllSpace(s[1..]);
    }
  }

  /** A non-space character survives both trims. */
  lemma StripKeepsNonSpace(s: string, i: int)
    requires 0 <= i < |s| && !IsSpace(s[i])
    ensures Strip(s) != []
  {
    var t := TrimStart(s);
    var k := i - (|s| - |t|);
    assert 0 <= k < |t| && t[k] == s[i];
    var u := TrimEnd(t);
    assert |u| > k;
  }

  /** A string strips to "" exactly when it consists of whitespace only. */
  lemma StripEmptyIff(s: string)
    ensures Strip(s) == [] <==> AllSpace(s)
  {
    if AllSpace(s) {
      TrimStartAllSpace(s);
    } else {
      var i :| 0 <= i < |s| && !IsSpace(s[i]);
      StripKeepsNonSpace(s, i);
    }
  }

  /** Stripping a string with no surrounding whitespace leaves it unchanged. */
  lemma {:induction false} StripUnpadded(s: string)
    requires s != [] && !IsSpace(s[0]) && !IsSpace(s[|s| - 1])
    ensures Strip(s) == s
  {
  }

  /** Stripping only removes characters: one absent from `s` is absent from `Strip(s)`. */
  lemma {:induction false} StripKeepsAbsent(s: string, c: char)
    requires c !in s
    ensures c !in Strip(s)
  {
    var t := TrimStart(s);
    assert forall x :: x in t ==> x in s;
    var u := TrimEnd(t);
    assert forall x :: x in u ==> x in t;
  }

  /** `str.split(c)`: the pieces between the separators, in order; "" splits into [""]. */
  function SplitOn(s: string, c: char): (r: seq<string>)
    ensures |r| >= 1
    ensures forall k :: 0 <= k < |r| ==> c !in r[k]
  {
    if s == [] then [""]
    else
      var rest := SplitOn(s[1..], c);
      if s[0] == c then [""] + rest
      else [[s[0]] + rest[0]] + rest[1..]
  }

  /** A text without the separator is one piece. */
  lemma {:induction false} SplitOnAbsent(s: string, c: char)
    requires c !in s
    ensures SplitOn(s, c) == [s]
  {
    if s != [] {
      assert c !in s[1..] by {
        assert forall j :: 0 <= j < |s[1..]| ==> s[1..][j] == s[j + 1];
      }
      SplitOnAbsent(s[1..], c);
      assert [s[0]] + s[1..] == s;
    }
  }

  /** Splitting at the first separator: the piece before it, then the pieces of the rest. */
  lemma {:induction false} SplitOnAfter(a: string, c: char, b: string)
    requires c !in a
    ensures SplitOn(a + [c] + b, c) == [a] + SplitOn(b, c)
    decreases |a|
  {
    var s := a + [c] + b;
    if a == [] {
      assert s == [c] + b && s[1..] == b;
    } else {
      assert s[0] == a[0] && s[1..] == a[1..] + [c] + b;
      assert c !in a[1..] by {
        assert forall j :: 0 <= j < |a[1..]| ==> a[1..][j] == a[j + 1];
      }
      SplitOnAfter(a[1..], c, b);
      assert [a[0]] + a[1..] == a;
    }
  }

  /** JavaScript truthiness of a string value: only "" is falsy. */
  predicate Truthy(s: string) { s != [] }

  /** `a || b` on two strings. */
  function OrElse(a: string, b: string): (r: string)
    ensures Truthy(a) ==> r == a
    ensures !Truthy(a) ==> r == b
  {
    if a != [] then a else b
  }

  /** `a || b` on an optional string (`undefined`/`null` and "" are falsy). */
  function OptOrElse(a: Option<string>, b: string): (r: string)
    ensures a.Some? && a.value != [] ==> r == a.value
    ensures (a.None? || a.value == []) ==> r == b
  {
    if a.Some? && a.value != [] then a.value else b
  }

  // ---------------------------------------------------------------------
  // Decimal numerals
  // ---------------------------------------------------------------------

  predicate AllDigits(s: string) { forall i :: 0 <= i < |s| ==> IsDigit(s[i]) }

  /** The value of a string of decimal digits. */
  function DigitsValue(s: string): nat
    requires AllDigits(s)
  {
    if s == [] then 0 else DigitsValue(s[..|s| - 1]) * 10 + (s[|s| - 1] as int - '0' as int)
  }

  function DigitChar(d: nat): (c: char)
    requires d < 10
    ensures IsDigit(c) && c as int - '0' as int == d
  {
    ('0' as int + d) as char
  }

  /** `String(n)` for a natural number: its decimal numeral without leading zeros. */
  function NatToString(n: nat): (r: string)
    ensures r != [] && AllDigits(r)
    ensures |r| > 1 ==> r[0] != '0'
    decreases n
  {
    if n < 10 then [DigitChar(n)] else NatToString(n / 10) + [DigitChar(n % 10)]
  }

  /** `String(i)` for any integer. */
  function IntToString(i: int): (r: string)
    ensures r != []
  {
    if i < 0 then "-" + NatToString(-i) else NatToString(i)
  }

  lemma {:induction false} DigitsValueOfNatToString(n: nat)
    ensures DigitsValue(NatToString(n)) == n
    decreases n
  {
    var s := NatToString(n);
    if n >= 10 {
      DigitsValueOfNatToString(n / 10);
      assert s[..|s| - 1] == NatToString(n / 10);
    }
  }

  /** The longest prefix of `s` made of digits. */
  function DigitPrefix(s: string): (r: string)
    ensures |r| <= |s| && r == s[..|r|] && AllDigits(r)
    ensures |r| < |s| ==> !IsDigit(s[|r|])
  {
    if s != [] && IsDigit(s[0]) then [s[0]] + DigitPrefix(s[1..]) else []
  }

  lemma {:induction false} DigitPrefixOfDigits(s: string)
    requires AllDigits(s)
    ensures DigitPrefix(s) == s
  {
  }

  /** The value `parseInt(s, 10)` reads from the digits after an optional sign. */
  function SignedDigits(t: string): Option<int>
  {
    if t != [] && (t[0] == '-' || t[0] == '+') then
      var d := DigitPrefix(t[1..]);
      if d == [] then None else if t[0] == '-' then Some(-(DigitsValue(d) as int)) else Some(DigitsValue(d))
    else
      var d := DigitPrefix(t);
      if d == [] then None else Some(DigitsValue(d))
  }

  /**
   * JavaScript `parseInt(s, 10)`: leading whitespace is skipped, then an
   * optional sign and the longest run of digits are read; anything after the
   * digits is ignored. `None` stands for NaN (no digit at all).
   */
  function ParseInt(s: string): (r: Option<int>)
    ensures r.Some? ==> exists i :: 0 <= i < |s| && IsDigit(s[i])
  {
    var t := TrimStart(s);
    var r := SignedDigits(t);
    if r.Some? then
      var s0 := |s| - |t|;
      if t[0] == '-' || t[0] == '+' then
        assert IsDigit(t[1..][0]) && s[s0 + 1] == t[1];
        r
      else
        assert IsDigit(t[0]) && s[s0] == t[0];
        r
    else r
  }

  /** Nothing to trim in front of a non-space first character. */
  lemma TrimStartUnpadded(s: string)
    requires s != [] && !IsSpace(s[0])
    ensures TrimStart(s) == s
  {
  }

  /** The sign-and-digits reader reads a written integer back. */
  lemma SignedDigitsOfIntToString(i: int)
    ensures SignedDigits(IntToString(i)) == Some(i)
  {
    var n: nat := if i < 0 then -i else i;
    var d := NatToString(n);
    DigitsValueOfNatToString(n);
    DigitPrefixOfDigits(d);
    if i < 0 {
      var s := "-" + d;
      assert s[1..] == d;
    } else {
      assert IsDigit(d[0]);
    }
  }

  /** `parseInt(String(i), 10) === i`: a numeral written by the page reads back as itself. */
  lemma ParseIntOfIntToString(i: int)
    ensures ParseInt(IntToString(i)) == Some(i)
  {
    var s := IntToString(i);
    assert !IsSpace(s[0]) by {
      if i >= 0 {
        assert IsDigit(NatToString(i)[0]);
      }
    }
    TrimStartUnpadded(s);
    SignedDigitsOfIntToString(i);
  }

  /**
   * An integer numeral after trimming: an optional sign and at least one
   * digit, nothing else. This is what Python's `int(str)` accepts (digit
   * separators aside) and what JavaScript's `Number` reads as a whole number.
   */
  function IntegerText(s: string): (r: Option<int>)
    ensures AllDigits(Strip(s)) && Strip(s) != [] ==> r == Some(DigitsValue(Strip(s)) as int)
    ensures r.Some? ==> Strip(s) != []
  {
    var t := Strip(s);
    if t != [] && AllDigits(t) then Some(DigitsValue(t))
    else if |t| > 1 && (t[0] == '-' || t[0] == '+') && AllDigits(t[1..]) then
      Some(if t[0] == '-' then -(DigitsValue(t[1..]) as int) else DigitsValue(t[1..]))
    else None
  }

  /** A written integer has no surrounding whitespace, so stripping keeps it. */
  lemma StripIntToString(i: int)
    ensures Strip(IntToString(i)) == IntToString(i)
  {
    var n: nat := if i < 0 then -i else i;
    var d := NatToString(n);
    var s := IntToString(i);
    assert IsDigit(d[0]) && IsDigit(d[|d| - 1]);
    assert s[|s| - 1] == d[|d| - 1];
    assert !IsSpace(s[0]);
    StripUnpadded(s);
  }

  /** A numeral written by `str(i)` reads back as `i`. */
  lemma IntegerTextOfIntToString(i: int)
    ensures IntegerText(IntToString(i)) == Some(i)
  {
    var n: nat := if i < 0 then -i else i;
    var d := NatToString(n);
    DigitsValueOfNatToString(n);
    StripIntToString(i);
    if i < 0 {
      var s := "-" + d;
      assert s[1..] == d;
      assert !AllDigits(s) by {
        assert !IsDigit(s[0]);
      }
    }
  }

  /**
   * JavaScript `Number(s) || 0` on an integer-valued input: the trimmed text
   * must be an optional sign and digits; anything else (NaN) and "" give 0.
   * Fractional and exponent notation is not modelled.
   */
  function NumberOrZero(s: string): (r: int)
    ensures IntegerText(s).Some? ==> r == IntegerText(s).value
    ensures IntegerText(s).None? ==> r == 0
  {
    var n := IntegerText(s);
    if n.Some? then n.value else 0
  }

  /** ASCII lower-casing, as `str.lower()` treats the ASCII letters. */
  function LowerAscii(s: string): string
  {
    if s == [] then []
    else [if 'A' <= s[0] <= 'Z' then (s[0] as int + 32) as char else s[0]] + LowerAscii(s[1..])
  }

  /** Lower-casing keeps the length and maps each ASCII capital to its small letter. */
  lemma {:induction false} LowerAsciiAt(s: string)
    ensures |LowerAscii(s)| == |s|
    ensures forall i :: 0 <= i < |s| ==> LowerAscii(s)[i] == (if 'A' <= s[i] <= 'Z' then (s[i] as int + 32) as char else s[i])
  {
    if s != [] {
      LowerAsciiAt(s[1..]);
    }
  }

  /** `needle` occurs in `s` starting at position `i`. */
  predicate OccursAt(s: string, needle: string, i: int)
  {
    0 <= i <= |s| - |needle| && s[i..i + |needle|] == needle
  }

  /** `needle` occurs in `s` at some position. */
  predicate Contains(s: string, needle: string)
  {
    exists i | 0 <= i <= |s| - |needle| :: OccursAt(s, needle, i)
  }

  /** The ORM's `field__icontains=needle`: a NULL field never matches. */
  predicate IContains(field: Option<string>, needle: string)
  {
    field.Some? && Contains(LowerAscii(field.value), LowerAscii(needle))
  }

  // ---------------------------------------------------------------------
  // Query strings
  // ---------------------------------------------------------------------

  /** One `URLSearchParams` entry; a query string is the sequence of its entries in order. */
  datatype Param = Param(key: string, value: string)

  /** The values sent under `key`, in order. */
  function ValuesOf(ps: seq<Param>, key: string): (vs: seq<string>)
    ensures |vs| <= |ps|
  {
    if ps == [] then []
    else (if ps[0].key == key then [ps[0].value] else []) + ValuesOf(ps[1..], key)
  }

  /** Nothing is read under a key exactly when no entry has it. */
  lemma {:induction false} ValuesOfEmpty(ps: seq<Param>, key: string)
    ensures ValuesOf(ps, key) == [] <==> forall i :: 0 <= i < |ps| ==> ps[i].key != key
  {
    if ps != [] {
      ValuesOfEmpty(ps[1..], key);
      assert forall i :: 1 <= i < |ps| ==> ps[i] == ps[1..][i - 1];
    }
  }

  /** Reading one key of a concatenation reads both halves in turn. */
  lemma {:induction false} ValuesOfAppend(a: seq<Param>, b: seq<Param>, key: string)
    ensures ValuesOf(a + b, key) == ValuesOf(a, key) + ValuesOf(b, key)
    decreases |a|
  {
    if a == [] {
      assert a + b == b;
    } else {
      var h := if a[0].key == key then [a[0].value] else [];
      assert (a + b)[0] == a[0];
      assert (a + b)[1..] == a[1..] + b;
      assert ValuesOf(a + b, key) == h + ValuesOf(a[1..] + b, key);
      assert ValuesOf(a, key) == h + ValuesOf(a[1..], key);
      ValuesOfAppend(a[1..], b, key);
    }
  }

  /** When every entry under `key` carries `v`, every value read under `key` is `v`. */
  lemma {:induction false} ValuesOfUniform(ps: seq<Param>, key: string, v: string)
    requires forall i :: 0 <= i < |ps| && ps[i].key == key ==> ps[i].value == v
    ensures forall x :: x in ValuesOf(ps, key) ==> x == v
  {
    if ps != [] {
      assert forall i :: 1 <= i < |ps| ==> ps[i] == ps[1..][i - 1];
      ValuesOfUniform(ps[1..], key, v);
    }
  }

  /** The value of the first entry with that key, as `URLSearchParams.get` reads it. */
  function ParamGet(ps: seq<Param>, key: string): (r: Option<string>)
    ensures r.None? <==> forall i :: 0 <= i < |ps| ==> ps[i].key != key
  {
    if ps == [] then None
    else if ps[0].key == key then Some(ps[0].value)
    else ParamGet(ps[1..], key)
  }

  /** Django's `QueryDict.get`: the last value sent under `key`. */
  function QueryGet(ps: seq<Param>, key: string): (r: Option<string>)
    ensures r.None? <==> forall i :: 0 <= i < |ps| ==> ps[i].key != key
    ensures r.Some? ==> r.value in ValuesOf(ps, key)
  {
    var vs := ValuesOf(ps, key);
    ValuesOfEmpty(ps, key);
    if vs == [] then None else Some(vs[|vs| - 1])
  }

  // ---------------------------------------------------------------------
  // Times
  // ---------------------------------------------------------------------

  /** Times are integer numbers of seconds, counted in the server's current time zone. */
  const SecondsPerDay := 86400

  /** The `__date` transform: the number of the day a time falls on. */
  function DayOf(t: int): (d: int)
    ensures d * SecondsPerDay <= t < (d + 1) * SecondsPerDay
  {
    t / SecondsPerDay
  }

  // ---------------------------------------------------------------------
  // Page numbers
  // ---------------------------------------------------------------------

  /** `Math.min` and `Math.max` on integers. */
  function Min(a: int, b: int): int { if a <= b then a else b }
  function Max(a: int, b: int): int { if a >= b then a else b }

  /** The consecutive page numbers `lo..hi`. */
  function PageRange(lo: int, hi: int): (r: seq<int>)
    ensures |r| == if hi >= lo then hi - lo + 1 else 0
    ensures forall k :: 0 <= k < |r| ==> r[k] == lo + k
    decreases hi - lo
  {
    if hi < lo then [] else [lo] + PageRange(lo + 1, hi)
  }

  // ---------------------------------------------------------------------
  // Sequences
  // ---------------------------------------------------------------------

  /** `s.filter(p)`: the elements satisfying `p`, in their original order. */
  function Filter<T>(s: seq<T>, p: T -> bool): (r: seq<T>)
    ensures |r| <= |s|
    ensures forall i :: 0 <= i < |r| ==> r[i] in s && p(r[i])
    ensures forall i :: 0 <= i < |s| && p(s[i]) ==> s[i] in r
  {
    if s == [] then [] else (if p(s[0]) then [s[0]] else []) + Filter(s[1..], p)
  }

  /** `Filter` looks at the first element, then filters the rest. */
  lemma FilterCons<T>(x: T, rest: seq<T>, p: T -> bool)
    ensures Filter([x] + rest, p) == (if p(x) then [x] else []) + Filter(rest, p)
  {
    assert ([x] + rest)[1..] == rest;
  }

  /** Filtering on a predicate every element satisfies keeps the sequence. */
  lemma {:induction false} FilterAll<T>(s: seq<T>, p: T -> bool)
    requires forall i :: 0 <= i < |s| ==> p(s[i])
    ensures Filter(s, p) == s
  {
    if s != [] {
      FilterAll(s[1..], p);
    }
  }

  /** Filtering on a predicate no element satisfies gives the empty sequence. */
  lemma {:induction false} FilterNone<T>(s: seq<T>, p: T -> bool)
    requires forall i :: 0 <= i < |s| ==> !p(s[i])
    ensures Filter(s, p) == []
  {
    if s != [] {
      FilterNone(s[1..], p);
    }
  }

  /** Filtering distributes over concatenation. */
  lemma {:induction false} FilterAppend<T>(a: seq<T>, b: seq<T>, p: T -> bool)
    ensures Filter(a + b, p) == Filter(a, p) + Filter(b, p)
  {
    if a != [] {
      assert (a + b)[0] == a[0];
      assert (a + b)[1..] == a[1..] + b;
      FilterAppend(a[1..], b, p);
      assert Filter(a + b, p) == (if p(a[0]) then [a[0]] else []) + Filter(a[1..] + b, p);
      assert Filter(a, p) == (if p(a[0]) then [a[0]] else []) + Filter(a[1..], p);
    } else {
      assert a + b == b;
    }
  }

  /** Filtering a sequence extended by one element. */
  lemma FilterSnoc<T>(s: seq<T>, x: T, p: T -> bool)
    ensures Filter(s + [x], p) == Filter(s, p) + (if p(x) then [x] else [])
  {
    FilterAppend(s, [x], p);
    assert Filter([x], p) == (if p(x) then [x] else []) + Filter([x][1..], p);
    assert [x][1..] == [];
  }

  /** Filtering by a stronger predicate after a weaker one is filtering by the stronger one. */
  lemma {:induction false} FilterOfFilter<T>(s: seq<T>, p: T -> bool, q: T -> bool)
    requires forall i :: 0 <= i < |s| && p(s[i]) ==> q(s[i])
    ensures Filter(Filter(s, q), p) == Filter(s, p)
  {
    if s != [] {
      FilterOfFilter(s[1..], p, q);
      var head := if q(s[0]) then [s[0]] else [];
      assert Filter(s, q) == head + Filter(s[1..], q);
      FilterAppend(head, Filter(s[1..], q), p);
      if q(s[0]) {
        assert Filter(head, p) == (if p(s[0]) then [s[0]] else []) + Filter(head[1..], p);
        assert head[1..] == [];
      }
    }
  }

  function Count<T>(s: seq<T>, p: T -> bool): nat
  {
    |Filter(s, p)|
  }

  /** `s.startsWith(prefix)` / Python `str.startswith`. */
  predicate StartsWith(s: string, prefix: string)
  {
    |prefix| <= |s| && s[..|prefix|] == prefix
  }

  /** A concatenation starts with its first part. */
  lemma StartsWithPrefix(a: string, b: string)
    ensures StartsWith(a + b, a)
  {
    assert (a + b)[..|a|] == a;
  }

  /** Python `dict.get` / JavaScript `Map.get` with no entry giving `None`. */
  function Lookup<K, V>(m: map<K, V>, k: K): (r: Option<V>)
    ensures r.Some? <==> k in m
    ensures r.Some? ==> r.value == m[k]
  {
    if k in m then Some(m[k]) else None
  }

  /** Python `sep.join(parts)` / JavaScript `parts.join(sep)`. */
  function Join(parts: seq<string>, sep: string): (r: string)
    ensures parts == [] ==> r == ""
    ensures |parts| == 1 ==> r == parts[0]
    ensures parts != [] ==> StartsWith(r, parts[0])
    ensures forall k :: 0 <= k < |parts| ==> |parts[k]| <= |r|
  {
    if parts == [] then "" else if |parts| == 1 then parts[0]
    else
      var r := parts[0] + sep + Join(parts[1..], sep);
      assert r[..|parts[0]|] == parts[0];
      assert forall k :: 1 <= k < |parts| ==> parts[k] == parts[1..][k - 1];
      r
  }

  /** Splitting a join on a separator that no part holds gives the parts back. */
  lemma {:induction false} SplitOnJoin(parts: seq<string>, c: char)
    requires parts != []
    requires forall k :: 0 <= k < |parts| ==> c !in parts[k]
    ensures SplitOn(Join(parts, [c]), c) == parts
    decreases |parts|
  {
    if |parts| == 1 {
      SplitOnAbsent(parts[0], c);
    } else {
      var rest := parts[1..];
      assert forall k :: 0 <= k < |rest| ==> rest[k] == parts[k + 1];
      SplitOnJoin(rest, c);
      SplitOnAfter(parts[0], c, Join(rest, [c]));
      assert parts == [parts[0]] + rest;
    }
  }

  /** One entry of a Django `choices` list: the stored key and its label. */
  datatype Choice = Choice(key: string, display: string)

  /** `get_FOO_display()`: the label of the first choice with that key, else the raw value. */
  function ChoiceDisplay(choices: seq<Choice>, v: string): (r: string)
    ensures (forall i :: 0 <= i < |choices| ==> choices[i].key != v) ==> r == v
    ensures choices != [] && choices[0].key == v ==> r == choices[0].display
  {
    if choices == [] then v
    else if choices[0].key == v then choices[0].display
    else ChoiceDisplay(choices[1..], v)
  }

  /** With distinct keys, a listed key displays as its own label. */
  lemma {:induction false} ChoiceDisplayOfKey(choices: seq<Choice>, i: nat)
    requires i < |choices|
    requires forall j, k :: 0 <= j < k < |choices| ==> choices[j].key != choices[k].key
    ensures ChoiceDisplay(choices, choices[i].key) == choices[i].display
  {
    if i > 0 {
      assert choices[0].key != choices[i].key;
      assert choices[1..][i - 1] == choices[i];
      ChoiceDisplayOfKey(choices[1..], i - 1);
    }
  }
}
