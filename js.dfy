/**
 * The small slice of JavaScript semantics the storefront relies on:
 * truthiness, string length in UTF-16 code units, `trim`, ASCII case mapping, `includes`, `Array.prototype.filter`,
 * the truncating `%` operator, and decimal numbers as `parseInt`/`parseFloat`
 * read them.  Every other module imports this one.
 */
module Js {

  datatype Option<T> = None | Some(value: T)

  /** A number as the storefront sees one: NaN or a finite decimal mantissa / 10^scale. */
  datatype Number = NaN | Dec(mantissa: int, scale: nat)

  /**
   * A JavaScript value, as far as the storefront inspects one.  Objects are
   * represented by their own enumerable keys only (no code here reads the values
   * through this type).
   */
  datatype Value =
    | Undefined
    | Null
    | Bool(b: bool)
    | Num(x: Number)
    | Str(s: string)
    | Arr(items: seq<Value>)
    | Obj(keys: set<string>)

  /** Characters beyond U+FFFF, which JavaScript stores as a surrogate pair. */
  predicate Astral(c: char)
  {
    c as int >= 0x1_0000
  }

  /**
   * `s.length`: the number of UTF-16 code units, one per character and one more
   * for each character beyond U+FFFF.
   */
  function Utf16Length(s: string): (n: nat)
    ensures |s| <= n <= 2 * |s|
  {
    if s == [] then 0 else (if Astral(s[0]) then 2 else 1) + Utf16Length(s[1..])
  }

  /** The length of a concatenation is the sum of the lengths. */
  lemma {:induction false} Utf16LengthAppend(s: string, t: string)
    ensures Utf16Length(s + t) == Utf16Length(s) + Utf16Length(t)
  {
    if s == [] {
      assert s + t == t;
    } else {
      assert (s + t)[0] == s[0] && (s + t)[1..] == s[1..] + t;
      Utf16LengthAppend(s[1..], t);
    }
  }

  /**
   * `s.substring(0, n)` on whole characters: a prefix of at most `n` code
   * units that stops one unit short only where JavaScript would cut a
   * surrogate pair in two.  `Utf16PrefixIsLongest` shows that taking one more
   * character would exceed `n`.
   */
  function Utf16Prefix(s: string, n: int): (r: string)
    ensures |r| <= |s| && r == s[..|r|]
    ensures Utf16Length(r) <= (if n < 0 then 0 else n)
    ensures Utf16Length(s) <= n ==> r == s
    ensures |r| < |s| ==> Utf16Length(r) + 1 >= n
  {
    if s == [] then []
    else
      var w := if Astral(s[0]) then 2 else 1;
      if w > n then
        assert s[..1] == [s[0]] + [];
        Utf16LengthCons(s[0], []);
        []
      else
        var rest := Utf16Prefix(s[1..], n - w);
        PrefixStep(s, rest);
        Utf16LengthCons(s[0], rest);
        [s[0]] + rest
  }

  /** The prefix is the longest that fits: one more character would exceed `n`. */
  lemma {:induction false} Utf16PrefixIsLongest(s: string, n: int)
    ensures var r := Utf16Prefix(s, n);
      |r| < |s| ==> Utf16Length(s[..|r| + 1]) > (if n < 0 then 0 else n)
  {
    if s != [] {
      var w := if Astral(s[0]) then 2 else 1;
      if w > n {
        assert s[..1] == [s[0]] + [];
        Utf16LengthCons(s[0], []);
      } else {
        var rest := Utf16Prefix(s[1..], n - w);
        assert Utf16Prefix(s, n) == [s[0]] + rest;
        if |rest| < |s| - 1 {
          Utf16PrefixIsLongest(s[1..], n - w);
          NextStep(s, rest);
        }
      }
    }
  }

  /** Taking one more character of `s` after `s[0]` and a prefix of the rest. */
  lemma NextStep(s: string, rest: string)
    requires s != []
    ensures |rest| < |s| - 1 ==>
      Utf16Length(s[..|rest| + 2]) == (if Astral(s[0]) then 2 else 1) + Utf16Length(s[1..][..|rest| + 1])
  {
    if |rest| < |s| - 1 {
      assert s[..|rest| + 2] == [s[0]] + s[1..][..|rest| + 1];
      Utf16LengthCons(s[0], s[1..][..|rest| + 1]);
    }
  }

  /** A non-empty string longer than `n` code units is cut short of its end. */
  lemma Utf16PrefixIsProper(s: string, n: int)
    requires s != [] && Utf16Length(s) > n
    ensures |Utf16Prefix(s, n)| < |s|
  {
    var r := Utf16Prefix(s, n);
    assert r != s by {
      assert Utf16Length(r) < Utf16Length(s);
    }
    assert s[..|s|] == s;
  }

  /** Putting back the first character of `s` in front of a prefix of the rest. */
  lemma PrefixStep<T>(s: seq<T>, rest: seq<T>)
    requires s != [] && |rest| < |s| && rest == s[1..][..|rest|]
    ensures [s[0]] + rest == s[..1 + |rest|]
  {
    assert rest == s[1..1 + |rest|];
  }

  /** One more character in front adds its code units. */
  lemma Utf16LengthCons(c: char, rest: string)
    ensures Utf16Length([c] + rest) == (if Astral(c) then 2 else 1) + Utf16Length(rest)
  {
    assert ([c] + rest)[0] == c && ([c] + rest)[1..] == rest;
  }

  /** A slice from position `k` is at least `k` code units shorter. */
  lemma {:induction false} Utf16LengthOfSlice(s: string, k: int, e: int)
    requires 0 <= k <= e <= |s|
    ensures Utf16Length(s[k..e]) + k <= Utf16Length(s)
  {
    if k == 0 {
      Utf16LengthOfPrefix(s, e);
    } else {
      SliceOfTail(s, k, e);
      Utf16LengthOfSlice(s[1..], k - 1, e - 1);
    }
  }

  /** A slice that skips the first element is a slice of the tail. */
  lemma SliceOfTail<T>(s: seq<T>, k: int, e: int)
    requires 0 < k <= e <= |s|
    ensures s[k..e] == s[1..][k - 1..e - 1]
  {
    var a, b := s[k..e], s[1..][k - 1..e - 1];
    assert |a| == |b|;
    forall i | 0 <= i < |a| ensures a[i] == b[i] {
      assert a[i] == s[k + i] && b[i] == s[1..][k - 1 + i];
    }
  }

  /** A prefix is no longer than the whole. */
  lemma {:induction false} Utf16LengthOfPrefix(s: string, e: int)
    requires 0 <= e <= |s|
    ensures Utf16Length(s[..e]) <= Utf16Length(s)
  {
    if e > 0 {
      assert s[..e][0] == s[0] && s[..e][1..] == s[1..][..e - 1];
      Utf16LengthOfPrefix(s[1..], e - 1);
    }
  }

  /** Trimming never lengthens a text. */
  lemma Utf16LengthOfTrim(s: string)
    ensures Utf16Length(Trim(s)) <= Utf16Length(s)
  {
    TrimIsSlice(s);
    var k := |s| - |TrimStart(s)|;
    Utf16LengthOfSlice(s, k, k + |Trim(s)|);
  }

  /** Without characters beyond U+FFFF the JavaScript length is the character count. */
  lemma {:induction false} Utf16LengthOfBasic(s: string)
    requires forall k :: 0 <= k < |s| ==> !Astral(s[k])
    ensures Utf16Length(s) == |s|
  {
    if s != [] {
      assert !Astral(s[0]);
      Utf16LengthOfBasic(s[1..]);
    }
  }

  /** Every character beyond U+FFFF counts twice. */
  lemma {:induction false} Utf16LengthOfAstral(s: string)
    requires forall k :: 0 <= k < |s| ==> Astral(s[k])
    ensures Utf16Length(s) == 2 * |s|
  {
    if s != [] {
      assert Astral(s[0]);
      Utf16LengthOfAstral(s[1..]);
    }
  }

  /** `!!v` */
  predicate Truthy(v: Value)
  {
    match v
    case Undefined => false
    case Null => false
    case Bool(b) => b
    case Num(x) => x.Dec? && x.mantissa != 0
    case Str(s) => s != ""
    case Arr(_) => true
    case Obj(_) => true
  }

  // ---------------------------------------------------------------------------
  // Strings
  // ---------------------------------------------------------------------------

  /** The characters matched by `\s` and removed by `String.prototype.trim`. */
  predicate IsWhitespace(c: char)
  {
    c == ' ' || c == '\t' || c == '\n' || c == '\r' || c == '\U{000B}' || c == '\U{000C}'
    || c == '\U{00A0}' || c == '\U{1680}' || ('\U{2000}' <= c <= '\U{200A}')
    || c == '\U{2028}' || c == '\U{2029}' || c == '\U{202F}' || c == '\U{205F}'
    || c == '\U{3000}' || c == '\U{FEFF}'
  }

  predicate AllWhitespace(s: string)
  {
    forall i :: 0 <= i < |s| ==> IsWhitespace(s[i])
  }

  /** `s.trimStart()`: the suffix left after the leading whitespace run. */
  function TrimStart(s: string): (r: string)
    ensures |r| <= |s|
  {
    if s == [] || !IsWhitespace(s[0]) then s else TrimStart(s[1..])
  }

  /** `s.trimEnd()`: the prefix left after the trailing whitespace run. */
  function TrimEnd(s: string): (r: string)
    ensures |r| <= |s|
  {
    if s == [] || !IsWhitespace(s[|s| - 1]) then s else TrimEnd(s[..|s| - 1])
  }

  /** `trimStart` removes a run of whitespace from the front and stops at a non-whitespace character. */
  lemma {:induction false} TrimStartShape(s: string)
    ensures TrimStart(s) == s[|s| - |TrimStart(s)|..]
    ensures AllWhitespace(s[..|s| - |TrimStart(s)|])
    ensures TrimStart(s) == [] || !IsWhitespace(TrimStart(s)[0])
  {
    if s != [] && IsWhitespace(s[0]) {
      TrimStartShape(s[1..]);
      var r := TrimStart(s[1..]);
      assert s[1..][..|s[1..]| - |r|] == s[1..|s| - |r|];
    }
  }

  /** `trimEnd` removes a run of whitespace from the back and stops at a non-whitespace character. */
  lemma {:induction false} TrimEndShape(s: string)
    ensures TrimEnd(s) == s[..|TrimEnd(s)|]
    ensures AllWhitespace(s[|TrimEnd(s)|..])
    ensures TrimEnd(s) == [] || !IsWhitespace(TrimEnd(s)[|TrimEnd(s)| - 1])
  {
    if s != [] && IsWhitespace(s[|s| - 1]) {
      var init := s[..|s| - 1];
      TrimEndShape(init);
      var r := TrimEnd(init);
      assert TrimEnd(s) == r;
      assert r == s[..|r|] by {
        assert init[..|r|] == s[..|r|];
      }
      assert AllWhitespace(s[|r|..]) by {
        forall k | |r| <= k < |s| ensures IsWhitespace(s[k]) {
          if k < |s| - 1 {
            assert s[k] == init[|r|..][k - |r|];
          }
        }
      }
    }
  }

  /** `s.trim()` */
  function Trim(s: string): string
  {
    TrimEnd(TrimStart(s))
  }

  /** `s.trim() === ''`, equivalently `!s.trim()` */
  predicate IsBlank(s: string)
  {
    Trim(s) == ""
  }

  /** A string is blank exactly when every one of its characters is whitespace. */
  lemma BlankIffAllWhitespace(s: string)
    ensures IsBlank(s) <==> AllWhitespace(s)
  {
    var t := TrimStart(s);
    TrimStartShape(s);
    TrimEndShape(t);
    var k := |s| - |t|;
    var r := TrimEnd(t);
    assert t != [] ==> t[0] == s[k];
    assert r == [] ==> t[|r|..] == t;
    assert forall i :: k <= i < |s| ==> s[i] == t[i - k];
    assert forall i :: 0 <= i < k ==> s[i] == s[..k][i];
  }

  /** The trimmed string is the slice of the input that starts after the leading whitespace. */
  lemma TrimIsSlice(s: string)
    ensures |s| - |TrimStart(s)| + |Trim(s)| <= |s|
    ensures Trim(s) == s[|s| - |TrimStart(s)|..|s| - |TrimStart(s)| + |Trim(s)|]
  {
    var t := TrimStart(s);
    TrimStartShape(s);
    TrimEndShape(t);
    var r := TrimEnd(t);
    var k := |s| - |t|;
    assert r == t[..|r|] && t == s[k..];
    assert s[k..][..|r|] == s[k..k + |r|];
  }

  /** The trimmed string neither starts nor ends with whitespace. */
  lemma TrimEnds(s: string)
    ensures Trim(s) == [] || (!IsWhitespace(Trim(s)[0]) && !IsWhitespace(Trim(s)[|Trim(s)| - 1]))
  {
    var t := TrimStart(s);
    TrimStartShape(s);
    TrimEndShape(t);
    var r := TrimEnd(t);
    if r != [] {
      assert r[0] == t[..|r|][0] == t[0];
    }
  }

  /** ASCII `toLowerCase` of one character. */
  function LowerChar(c: char): char
  {
    if 'A' <= c <= 'Z' then (c as int + 32) as char else c
  }

  /** ASCII `toUpperCase` of one character. */
  function UpperChar(c: char): char
  {
    if 'a' <= c <= 'z' then (c as int - 32) as char else c
  }

  /** `s.toLowerCase()` (ASCII letters only) */
  function ToLower(s: string): (r: string)
    ensures |r| == |s|
    ensures forall i :: 0 <= i < |s| ==> r[i] == LowerChar(s[i])
  {
    seq(|s|, i requires 0 <= i < |s| => LowerChar(s[i]))
  }

  /** `s.toUpperCase()` (ASCII letters only) */
  function ToUpper(s: string): (r: string)
    ensures |r| == |s|
    ensures forall i :: 0 <= i < |s| ==> r[i] == UpperChar(s[i])
  {
    seq(|s|, i requires 0 <= i < |s| => UpperChar(s[i]))
  }

  /** `needle` occurs in `hay` starting at index `i`. */
  predicate OccursAt(hay: string, needle: string, i: int)
  {
    0 <= i <= |hay| - |needle| && hay[i..i + |needle|] == needle
  }

  /** `hay.includes(needle)` */
  predicate Includes(hay: string, needle: string)
  {
    exists i | 0 <= i <= |hay| - |needle| :: OccursAt(hay, needle, i)
  }

  /** `hay.toLowerCase().includes(needle.toLowerCase())` */
  predicate IncludesIgnoringCase(hay: string, needle: string)
  {
    Includes(ToLower(hay), ToLower(needle))
  }

  /** Every string includes the empty string, so an empty search term matches everything. */
  lemma EmptyNeedleMatches(hay: string)
    ensures IncludesIgnoringCase(hay, "")
  {
    assert ToLower("") == "";
    assert OccursAt(ToLower(hay), ToLower(""), 0);
  }

  // ---------------------------------------------------------------------------
  // Arrays
  // ---------------------------------------------------------------------------

  /** `s.filter(p)` */
  function Filter<T(==)>(s: seq<T>, p: T -> bool): (r: seq<T>)
    ensures |r| <= |s|
    ensures forall i :: 0 <= i < |r| ==> r[i] in s && p(r[i])
    ensures forall i :: 0 <= i < |s| && p(s[i]) ==> s[i] in r
  {
    if s == [] then []
    else if p(s[0]) then [s[0]] + Filter(s[1..], p)
    else Filter(s[1..], p)
  }

  /** `r` is `s` with some elements left out, the rest in their original order. */
  predicate IsSubsequence<T(==)>(r: seq<T>, s: seq<T>)
  {
    if r == [] then true
    else if s == [] then false
    else (r[0] == s[0] && IsSubsequence(r[1..], s[1..])) || IsSubsequence(r, s[1..])
  }

  lemma {:induction false} FilterIsSubsequence<T>(s: seq<T>, p: T -> bool)
    ensures IsSubsequence(Filter(s, p), s)
  {
    if s != [] {
      FilterIsSubsequence(s[1..], p);
    }
  }

  /** Filtering twice keeps what both predicates accept, in the same order. */
  lemma {:induction false} FilterFilter<T>(s: seq<T>, p: T -> bool, q: T -> bool)
    ensures Filter(Filter(s, p), q) == Filter(s, x => p(x) && q(x))
  {
    if s != [] {
      FilterFilter(s[1..], p, q);
    }
  }

  /** A filter that keeps everything returns its input. */
  lemma {:induction false} FilterAll<T>(s: seq<T>, p: T -> bool)
    requires forall x :: x in s ==> p(x)
    ensures Filter(s, p) == s
  {
    if s != [] {
      FilterAll(s[1..], p);
    }
  }

  /** Filters with the same verdict on every element of `s` give the same result. */
  lemma {:induction false} FilterCongruent<T>(s: seq<T>, p: T -> bool, q: T -> bool)
    requires forall x :: x in s ==> p(x) == q(x)
    ensures Filter(s, p) == Filter(s, q)
  {
    if s != [] {
      FilterCongruent(s[1..], p, q);
    }
  }

  lemma {:induction false} FilterAppend<T>(s: seq<T>, t: seq<T>, p: T -> bool)
    ensures Filter(s + t, p) == Filter(s, p) + Filter(t, p)
  {
    if s == [] {
      assert s + t == t;
    } else {
      assert (s + t)[1..] == s[1..] + t;
      FilterAppend(s[1..], t, p);
    }
  }

  /**
   * One step of a chain of optional filters: applying `step` when `active` (or nothing
   * when not) to the result of filtering by `prev` is filtering once by the conjunction.
   */
  lemma FilterStep<T>(s: seq<T>, prev: T -> bool, step: T -> bool, active: bool)
    ensures (if active then Filter(Filter(s, prev), step) else Filter(s, prev)) == Filter(s, Also(prev, active, step))
  {
    if active {
      FilterFilter(s, prev, step);
      FilterCongruent(s, x => prev(x) && step(x), Also(prev, active, step));
    } else {
      FilterCongruent(s, prev, Also(prev, active, step));
    }
  }

  /** Accepts what `prev` accepts and, when `active`, what `step` also accepts. */
  function Also<T>(prev: T -> bool, active: bool, step: T -> bool): T -> bool
  {
    x => prev(x) && (!active || step(x))
  }

  function AcceptAll<T>(x: T): bool
  {
    true
  }

  /** `s.findIndex(p)`: the first index whose element satisfies `p`, or -1. */
  function FindIndex<T>(s: seq<T>, p: T -> bool): (r: int)
    ensures -1 <= r < |s|
    ensures r == -1 <==> forall i :: 0 <= i < |s| ==> !p(s[i])
    ensures r >= 0 ==> p(s[r]) && forall i :: 0 <= i < r ==> !p(s[i])
  {
    if s == [] then -1
    else if p(s[0]) then 0
    else
      var k := FindIndex(s[1..], p);
      assert forall i :: 1 <= i < |s| ==> s[i] == s[1..][i - 1];
      if k == -1 then -1 else k + 1
  }

  /** `s.splice(i, 1)` applied to a copy: `s` without its element at `i`. */
  function RemoveAt<T>(s: seq<T>, i: int): (r: seq<T>)
    requires 0 <= i < |s|
    ensures |r| == |s| - 1
    ensures forall j :: 0 <= j < i ==> r[j] == s[j]
    ensures forall j :: i <= j < |r| ==> r[j] == s[j + 1]
  {
    s[..i] + s[i + 1..]
  }

  /** `s.filter(p).length` */
  function CountWhere<T(==)>(s: seq<T>, p: T -> bool): nat
  {
    |Filter(s, p)|
  }

  /** `s.reduce((total, x) => total + f(x), acc)`: a left fold, element by element. */
  function Reduce<T>(s: seq<T>, f: T -> int, acc: int): int
  {
    if s == [] then acc else Reduce(s[1..], f, acc + f(s[0]))
  }

  /** The sum of `f` over `s`, as a reference definition. */
  function Sum<T>(s: seq<T>, f: T -> int): int
  {
    if s == [] then 0 else f(s[0]) + Sum(s[1..], f)
  }

  lemma {:induction false} ReduceIsSum<T>(s: seq<T>, f: T -> int, acc: int)
    ensures Reduce(s, f, acc) == acc + Sum(s, f)
  {
    if s != [] {
      ReduceIsSum(s[1..], f, acc + f(s[0]));
    }
  }

  lemma {:induction false} SumAppend<T>(s: seq<T>, t: seq<T>, f: T -> int)
    ensures Sum(s + t, f) == Sum(s, f) + Sum(t, f)
  {
    if s == [] {
      assert s + t == t;
    } else {
      assert (s + t)[1..] == s[1..] + t;
      SumAppend(s[1..], t, f);
    }
  }

  /** A sum of non-negative terms is non-negative. */
  lemma {:induction false} SumNonNegative<T>(s: seq<T>, f: T -> int)
    requires forall i :: 0 <= i < |s| ==> f(s[i]) >= 0
    ensures Sum(s, f) >= 0
  {
    if s != [] {
      SumNonNegative(s[1..], f);
    }
  }

  // ---------------------------------------------------------------------------
  // Numbers
  // ---------------------------------------------------------------------------

  /** `a % n` in JavaScript: the remainder truncates toward zero and takes the sign of `a`. */
  function JsRem(a: int, n: int): (r: int)
    requires n > 0
    ensures a >= 0 ==> 0 <= r < n && r == a % n
    ensures a < 0 ==> -n < r <= 0
  {
    if a >= 0 then a % n else -((-a) % n)
  }

  function Pow10(k: nat): (r: nat)
    ensures r >= 1
  {
    if k == 0 then 1 else 10 * Pow10(k - 1)
  }

  /** The whole number `n` as a Number. */
  function FromInt(n: int): Number
  {
    Dec(n, 0)
  }

  /** `a < b` on Numbers; false whenever either side is NaN. */
  predicate Less(a: Number, b: Number)
  {
    a.Dec? && b.Dec? && a.mantissa * Pow10(b.scale) < b.mantissa * Pow10(a.scale)
  }

  /** `a <= b` on Numbers; false whenever either side is NaN. */
  predicate AtMost(a: Number, b: Number)
  {
    a.Dec? && b.Dec? && a.mantissa * Pow10(b.scale) <= b.mantissa * Pow10(a.scale)
  }

  predicate IsDigit(c: char)
  {
    '0' <= c <= '9'
  }

  function DigitValue(c: char): nat
    requires IsDigit(c)
  {
    c as int - '0' as int
  }

  /** Length of the run of decimal digits at the start of `s`. */
  function DigitRun(s: string): (k: nat)
    ensures k <= |s|
    ensures forall i :: 0 <= i < k ==> IsDigit(s[i])
    ensures k < |s| ==> !IsDigit(s[k])
  {
    if s == [] || !IsDigit(s[0]) then 0 else 1 + DigitRun(s[1..])
  }

  /** The value of a string of decimal digits, most significant first. */
  function DigitsValue(d: string): nat
    requires forall i :: 0 <= i < |d| ==> IsDigit(d[i])
  {
    if d == [] then 0 else 10 * DigitsValue(d[..|d| - 1]) + DigitValue(d[|d| - 1])
  }

  /** The sign and the text after an optional leading `+` or `-`. */
  function SplitSign(t: string): (bool, string)
  {
    if |t| > 0 && t[0] == '-' then (true, t[1..])
    else if |t| > 0 && t[0] == '+' then (false, t[1..])
    else (false, t)
  }

  /**
   * `parseInt(s)` in base 10: leading whitespace, an optional sign, then the
   * longest run of digits; NaN when there is no digit.
   */
  function ParseInt(s: string): Number
  {
    var (negative, u) := SplitSign(TrimStart(s));
    LeadingInteger(negative, u)
  }

  /** The signed value of the digit run that starts `u`; NaN when `u` does not start with a digit. */
  function LeadingInteger(negative: bool, u: string): Number
  {
    var k := DigitRun(u);
    if k == 0 then NaN
    else
      var v: int := DigitsValue(u[..k]);
      FromInt(if negative then -v else v)
  }

  /**
   * `parseFloat(s)` without exponents or `Infinity`: leading whitespace, an
   * optional sign, digits, optionally `.` and more digits; NaN when there is no digit.
   */
  function ParseFloat(s: string): Number
  {
    var (negative, u) := SplitSign(TrimStart(s));
    var k := DigitRun(u);
    var hasPoint := k < |u| && u[k] == '.';
    var f := if hasPoint then DigitRun(u[k + 1..]) else 0;
    if k == 0 && f == 0 then NaN
    else
      var digits := u[..k] + (if hasPoint then u[k + 1..k + 1 + f] else "");
      assert forall i :: 0 <= i < |digits| ==> IsDigit(digits[i]) by {
        forall i | 0 <= i < |digits| ensures IsDigit(digits[i]) {
          if i >= k { assert digits[i] == u[k + 1..][i - k]; }
        }
      }
      var v: int := DigitsValue(digits);
      Dec(if negative then -v else v, f)
  }

  /** `String(n)` for a whole number. */
  function DecimalString(n: int): (r: string)
    ensures r != []
    decreases if n < 0 then 1 - n else n
  {
    if n < 0 then "-" + DecimalString(-n)
    else if n < 10 then [('0' as int + n) as char]
    else DecimalString(n / 10) + [('0' as int + n % 10) as char]
  }

  lemma {:induction false} DecimalDigits(n: nat)
    ensures forall i :: 0 <= i < |DecimalString(n)| ==> IsDigit(DecimalString(n)[i])
    ensures DigitsValue(DecimalString(n)) == n
  {
    if n >= 10 {
      DecimalDigits(n / 10);
      var d := DecimalString(n);
      assert d[..|d| - 1] == DecimalString(n / 10);
    }
  }

  lemma {:induction false} DigitRunOfDigits(d: string)
    requires forall i :: 0 <= i < |d| ==> IsDigit(d[i])
    ensures DigitRun(d) == |d|
  {
    if d != [] {
      DigitRunOfDigits(d[1..]);
    }
  }

  lemma LeadingIntegerOfDigits(negative: bool, d: string)
    requires d != [] && forall i :: 0 <= i < |d| ==> IsDigit(d[i])
    ensures LeadingInteger(negative, d) == FromInt(if negative then 0 - DigitsValue(d) else DigitsValue(d))
  {
    DigitRunOfDigits(d);
    assert d[..DigitRun(d)] == d;
  }

  /** A non-empty digit string reads back as its value. */
  lemma ParseDigits(d: string)
    requires d != [] && forall i :: 0 <= i < |d| ==> IsDigit(d[i])
    ensures ParseInt(d) == FromInt(DigitsValue(d))
  {
    assert !IsWhitespace(d[0]) && d[0] != '-' && d[0] != '+';
    assert TrimStart(d) == d;
    LeadingIntegerOfDigits(false, d);
  }

  /** A minus sign followed by a non-empty digit string reads back as the negated value. */
  lemma ParseNegatedDigits(d: string)
    requires d != [] && forall i :: 0 <= i < |d| ==> IsDigit(d[i])
    ensures ParseInt("-" + d) == FromInt(0 - DigitsValue(d))
  {
    var e := "-" + d;
    assert e[0] == '-' && !IsWhitespace(e[0]);
    assert TrimStart(e) == e;
    assert e[1..] == d;
    LeadingIntegerOfDigits(true, d);
  }

  /** `parseInt(String(n)) === n`: printing a whole number and reading it back is the identity. */
  lemma ParseIntOfDecimalString(n: int)
    ensures ParseInt(DecimalString(n)) == FromInt(n)
  {
    if n < 0 {
      var d := DecimalString(-n);
      DecimalDigits(-n);
      assert DecimalString(n) == "-" + d;
      ParseNegatedDigits(d);
      assert 0 - DigitsValue(d) == n;
    } else {
      DecimalDigits(n);
      ParseDigits(DecimalString(n));
    }
  }
}
