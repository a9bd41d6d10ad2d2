/**
 * The general helpers of `utils/helpers.jsx`: relative-time bucketing, text
 * truncation, the emptiness test, the discount percentage, slugs, word
 * capitalisation, sorting by a key and grouping by a key.
 */
module Helpers {
  import opened Js
  import opened Sorting

  // ---------------------------------------------------------------------------
  // getRelativeTime
  // ---------------------------------------------------------------------------

  /** The unit names of `getRelativeTime`, largest first. */
  const Units: seq<string> := ["year", "month", "week", "day", "hour", "minute", "second"]

  /** The length of each unit in seconds, in the same order. */
  const UnitSeconds: seq<int> := [31536000, 2592000, 604800, 86400, 3600, 60, 1]

  /** `${count} ${unit}${count > 1 ? 's' : ''} ago` */
  function Phrase(count: int, unit: string): string
  {
    DecimalString(count) + " " + unit + (if count > 1 then "s" else "") + " ago"
  }

  /** The first unit, from index `i` on, that fits at least once into `d` seconds. */
  function LargestUnit(d: int, i: nat): (r: nat)
    requires d >= 1 && i < |UnitSeconds|
    ensures i <= r < |UnitSeconds|
    ensures 1 <= UnitSeconds[r] <= d
    ensures forall j :: i <= j < r ==> d < UnitSeconds[j]
    decreases |UnitSeconds| - i
  {
    if UnitSeconds[i] <= d then i else LargestUnit(d, i + 1)
  }

  /**
   * What `getRelativeTime` shows for a date `diffMs` milliseconds in the past:
   * whole seconds are counted down (`Math.floor`), then the largest unit that fits.
   */
  function RelativeTime(diffMs: int): string
  {
    var d := diffMs / 1000;
    if d < 1 then "just now"
    else
      var u := LargestUnit(d, 0);
      Phrase(d / UnitSeconds[u], Units[u])
  }

  /**
   * `getRelativeTime(date)`, with `now - date` passed in as `diffMs`: walks the
   * units from the largest and returns at the first whose floor count is at least 1.
   */
  method GetRelativeTime(diffMs: int) returns (text: string)
    ensures text == RelativeTime(diffMs)
  {
    var diffInSeconds := diffMs / 1000;
    var i := 0;
    while i < |Units|
      invariant 0 <= i <= |Units|
      invariant forall j :: 0 <= j < i ==> diffInSeconds < UnitSeconds[j]
    {
      var interval := diffInSeconds / UnitSeconds[i];
      if interval >= 1 {
        assert diffInSeconds >= 1;
        assert LargestUnit(diffInSeconds, 0) == i by {
          LargestUnitIsFirstFit(diffInSeconds, i);
        }
        return Phrase(interval, Units[i]);
      }
      i := i + 1;
    }
    text := "just now";
  }

  /** A unit that fits, with every larger unit too big, is the one `LargestUnit` picks. */
  lemma LargestUnitIsFirstFit(d: int, i: nat)
    requires d >= 1 && i < |UnitSeconds|
    requires UnitSeconds[i] <= d
    requires forall j :: 0 <= j < i ==> d < UnitSeconds[j]
    ensures LargestUnit(d, 0) == i
  {
  }

  /**
   * Under one second (including a date in the future) the text is 'just now';
   * otherwise it counts the largest unit that fits, at least once, and every
   * larger unit fits zero times.
   */
  lemma RelativeTimeBuckets(diffMs: int)
    ensures diffMs < 1000 ==> RelativeTime(diffMs) == "just now"
    ensures diffMs >= 1000 ==>
      exists u :: (0 <= u < |Units| &&
        diffMs / 1000 / UnitSeconds[u] >= 1 &&
        (forall j :: 0 <= j < u ==> diffMs / 1000 / UnitSeconds[j] == 0) &&
        RelativeTime(diffMs) == Phrase(diffMs / 1000 / UnitSeconds[u], Units[u]))
  {
    if diffMs >= 1000 {
      var d := diffMs / 1000;
      var u := LargestUnit(d, 0);
      forall j | 0 <= j < u ensures d / UnitSeconds[j] == 0 {
        DivBelowDivisor(d, UnitSeconds[j]);
      }
      DivAtLeastOne(d, UnitSeconds[u]);
      assert RelativeTime(diffMs) == Phrase(d / UnitSeconds[u], Units[u]);
    }
  }

  lemma DivBelowDivisor(a: int, b: int)
    requires 0 <= a < b
    ensures a / b == 0
  {
  }

  lemma DivAtLeastOne(a: int, b: int)
    requires 1 <= b <= a
    ensures a / b >= 1
  {
  }

  /** Only a count above one takes the plural. */
  lemma PluralOnlyAboveOne(count: int, unit: string)
    ensures count == 1 ==> Phrase(count, unit) == "1 " + unit + " ago"
    ensures count > 1 ==> Phrase(count, unit) == DecimalString(count) + " " + unit + "s ago"
  {
  }

  // ---------------------------------------------------------------------------
  // truncateText
  // ---------------------------------------------------------------------------

  /**
   * `truncateText(text, maxLength)`: a falsy or short enough text comes back as
   * it is; a longer one is cut to `maxLength` code units, trimmed, and ends in
   * '...'.  A negative `maxLength` cuts to nothing, as `substring` does.  Lengths
   * are JavaScript's, in UTF-16 code units.
   */
  function TruncateText(text: string, maxLength: int): (r: string)
    ensures text == "" || Utf16Length(text) <= maxLength ==> r == text
    ensures text != "" && Utf16Length(text) > maxLength ==>
      Utf16Length(r) <= (if maxLength < 0 then 0 else maxLength) + 3
      && |r| >= 3 && r[|r| - 3..] == "..."
      && Includes(text, r[..|r| - 3])
    ensures text != "" && Utf16Length(text) > maxLength ==> TruncatedFromStart(text, maxLength, r[..|r| - 3])
  {
    if text == "" || Utf16Length(text) <= maxLength then text
    else
      var r := Trim(Utf16Prefix(text, maxLength)) + "...";
      TruncatedShape(text, maxLength, r);
      r
  }

  /**
   * What a text longer than `maxLength` code units becomes: a piece of the text
   * of at most `maxLength` units followed by '...'.
   */
  lemma TruncatedShape(text: string, maxLength: int, r: string)
    requires text != "" && Utf16Length(text) > maxLength
    requires r == Trim(Utf16Prefix(text, maxLength)) + "..."
    ensures Utf16Length(r) <= (if maxLength < 0 then 0 else maxLength) + 3
    ensures |r| >= 3 && r[|r| - 3..] == "..."
    ensures Includes(text, r[..|r| - 3])
    ensures TruncatedFromStart(text, maxLength, r[..|r| - 3])
  {
    var cut := Utf16Prefix(text, maxLength);
    var kept := Trim(cut);
    assert r[..|r| - 3] == kept && r[|r| - 3..] == "...";
    assert Utf16Length(r) <= (if maxLength < 0 then 0 else maxLength) + 3 by {
      Utf16LengthAppend(kept, "...");
      Utf16LengthOfTrim(cut);
    }
    TrimmedPrefixOccurs(text, |cut|);
    KeptIsTrimmedPrefix(text, maxLength);
  }

  /**
   * `kept` is a prefix of `text` of at most `maxLength` code units, trimmed, where
   * the prefix could not have taken another whole character.
   */
  ghost predicate TruncatedFromStart(text: string, maxLength: int, kept: string)
  {
    exists k :: 0 <= k < |text| && kept == Trim(text[..k])
                && Utf16Length(text[..k]) <= (if maxLength < 0 then 0 else maxLength)
                && Utf16Length(text[..k + 1]) > (if maxLength < 0 then 0 else maxLength)
  }

  /** The kept part of a truncated text is its `substring(0, maxLength)`, trimmed. */
  lemma KeptIsTrimmedPrefix(text: string, maxLength: int)
    requires text != "" && Utf16Length(text) > maxLength
    ensures TruncatedFromStart(text, maxLength, Trim(Utf16Prefix(text, maxLength)))
  {
    var cut := Utf16Prefix(text, maxLength);
    Utf16PrefixIsProper(text, maxLength);
    Utf16PrefixIsLongest(text, maxLength);
    assert cut == text[..|cut|];
  }

  /** The trimmed first `cut` characters of `text` occur in `text`. */
  lemma TrimmedPrefixOccurs(text: string, cut: nat)
    requires cut <= |text|
    ensures Includes(text, Trim(text[..cut]))
  {
    var p := text[..cut];
    TrimIsSlice(p);
    var k := |p| - |TrimStart(p)|;
    var kept := Trim(p);
    assert kept == p[k..k + |kept|] == text[k..k + |kept|];
    assert OccursAt(text, kept, k);
  }

  /** With the default limit of 100, a longer text becomes at most 103 code units long. */
  lemma TruncateDefaultBound(text: string)
    requires Utf16Length(text) > 100
    ensures Utf16Length(TruncateText(text, 100)) <= 103
  {
  }

  // ---------------------------------------------------------------------------
  // isEmpty
  // ---------------------------------------------------------------------------

  /** `isEmpty(value)` */
  function IsEmpty(v: Value): (r: bool)
  {
    match v
    case Null => true
    case Undefined => true
    case Str(s) => Trim(s) == ""
    case Arr(items) => |items| == 0
    case Obj(keys) => |keys| == 0
    case _ => false
  }

  /**
   * What `isEmpty` means: null and undefined are empty, a string exactly when it
   * is all whitespace, an array or object when it has no element or key, and no
   * number or boolean is (not even 0 or false).
   */
  lemma IsEmptyMeaning(v: Value)
    ensures v.Null? || v.Undefined? ==> IsEmpty(v)
    ensures v.Str? ==> (IsEmpty(v) <==> AllWhitespace(v.s))
    ensures v.Arr? ==> (IsEmpty(v) <==> v.items == [])
    ensures v.Obj? ==> (IsEmpty(v) <==> v.keys == {})
    ensures v.Num? || v.Bool? ==> !IsEmpty(v)
  {
    if v.Str? {
      BlankIffAllWhitespace(v.s);
    }
  }

  /** Every falsy string is empty, but `isEmpty` and falsiness part ways on ' ', 0, false and []. */
  lemma EmptyVersusFalsy()
    ensures IsEmpty(Str(" ")) && Truthy(Str(" "))
    ensures !IsEmpty(Num(FromInt(0))) && !Truthy(Num(FromInt(0)))
    ensures !IsEmpty(Bool(false)) && !Truthy(Bool(false))
    ensures IsEmpty(Arr([])) && Truthy(Arr([]))
  {
    assert TrimStart(" ") == "" by {
      assert TrimStart(" ") == TrimStart(" "[1..]);
    }
  }

  // ---------------------------------------------------------------------------
  // calculateDiscount
  // ---------------------------------------------------------------------------

  /** `Math.round(n / d)` for a non-zero `d`: the nearest whole number, halves rounded up. */
  function RoundQuotient(n: int, d: int): (r: int)
    requires d != 0
    ensures d > 0 ==> (2 * r - 1) * d <= 2 * n < (2 * r + 1) * d
    ensures d < 0 ==> (2 * r - 1) * -d <= -2 * n < (2 * r + 1) * -d
  {
    if d > 0 then (2 * n + d) / (2 * d) else (-2 * n - d) / (-2 * d)
  }

  /**
   * `calculateDiscount(originalPrice, discountedPrice)` on prices in cents, where
   * 0 stands for a missing price: the percentage off, rounded to the nearest
   * whole, and 0 when either price is missing or zero.
   */
  function CalculateDiscount(originalCents: int, discountedCents: int): (r: int)
    ensures originalCents == 0 || discountedCents == 0 ==> r == 0
    ensures originalCents > 0 && discountedCents != 0 ==>
      (2 * r - 1) * originalCents <= 200 * (originalCents - discountedCents) < (2 * r + 1) * originalCents
  {
    if originalCents == 0 || discountedCents == 0 then 0
    else RoundQuotient((originalCents - discountedCents) * 100, originalCents)
  }

  /** A discounted price between zero (excluded) and the original gives a percentage from 0 to 100. */
  lemma DiscountInRange(originalCents: int, discountedCents: int)
    requires 0 < discountedCents <= originalCents
    ensures 0 <= CalculateDiscount(originalCents, discountedCents) <= 100
  {
    var r := CalculateDiscount(originalCents, discountedCents);
    var o := originalCents;
    PositiveFactor(2 * r + 1, o);
    PositiveFactor(201 - 2 * r, o);
  }

  /** A product with a positive factor is positive only when the other factor is. */
  lemma PositiveFactor(a: int, b: int)
    requires b > 0 && a * b > 0
    ensures a > 0
  {
  }

  /** A product given away (discounted price 0) shows no discount, not 100%. */
  lemma FreeShowsNoDiscount(originalCents: int)
    ensures CalculateDiscount(originalCents, 0) == 0
  {
  }

  /** The percentage rounds to the nearest whole percent, halves up: 599.99 down to 549.99 (8.3%) is 8, 2.00 down to 1.99 (0.5%) is 1. */
  lemma DiscountExample()
    ensures CalculateDiscount(59999, 54999) == 8
    ensures CalculateDiscount(200, 199) == 1
  {
  }

  // ---------------------------------------------------------------------------
  // slugify
  // ---------------------------------------------------------------------------

  /** The characters of the class `\w`. */
  predicate IsWordChar(c: char)
  {
    'a' <= c <= 'z' || 'A' <= c <= 'Z' || '0' <= c <= '9' || c == '_'
  }

  /** What `/[^\w\-]+/g` leaves in place. */
  predicate KeptInSlug(c: char)
  {
    IsWordChar(c) || c == '-'
  }

  predicate IsDash(c: char)
  {
    c == '-'
  }

  /** The characters a slug is made of: lower-case letters, digits, '_' and '-'. */
  predicate IsSlugChar(c: char)
  {
    'a' <= c <= 'z' || '0' <= c <= '9' || c == '_' || c == '-'
  }

  /** `s` drops the leading run of characters that satisfy `p`. */
  function DropRun(s: string, p: char -> bool): (r: string)
    ensures |r| <= |s| && r == s[|s| - |r|..]
    ensures r == [] || !p(r[0])
    ensures s != [] && p(s[0]) ==> |r| < |s|
  {
    if s == [] || !p(s[0]) then s else DropRun(s[1..], p)
  }

  /** `s.replace(/x+/g, c)` for the character class `p`: each maximal run of `p` becomes one `c`. */
  function CollapseRuns(s: string, p: char -> bool, c: char): (r: string)
    decreases |s|
  {
    if s == [] then []
    else if p(s[0]) then [c] + CollapseRuns(DropRun(s, p), p, c)
    else [s[0]] + CollapseRuns(s[1..], p, c)
  }

  /**
   * `slugify(text)` on a string: lower-case, trim, every whitespace run to one '-',
   * drop everything but word characters and '-', then every run of '-' to one '-'.
   */
  function Slugify(text: string): string
  {
    var lowered := ToLower(text);
    var trimmed := Trim(lowered);
    var dashed := CollapseRuns(trimmed, IsWhitespace, '-');
    var cleaned := Filter(dashed, KeptInSlug);
    CollapseRuns(cleaned, IsDash, '-')
  }

  /** A slug: only slug characters, and never two '-' in a row. */
  predicate IsSlug(s: string)
  {
    (forall i :: 0 <= i < |s| ==> IsSlugChar(s[i])) && NoDoubleDash(s)
  }

  /** No two '-' stand side by side in `s`. */
  predicate NoDoubleDash(s: string)
  {
    forall i :: 0 <= i < |s| - 1 ==> !(s[i] == '-' && s[i + 1] == '-')
  }

  /** Collapsing runs into a character that `q` accepts keeps "every character satisfies `q`". */
  lemma {:induction false} CollapseKeeps(s: string, p: char -> bool, c: char, q: char -> bool)
    requires q(c)
    requires forall i :: 0 <= i < |s| ==> q(s[i])
    ensures forall i :: 0 <= i < |CollapseRuns(s, p, c)| ==> q(CollapseRuns(s, p, c)[i])
    decreases |s|
  {
    if s != [] {
      if p(s[0]) {
        var rest := DropRun(s, p);
        assert forall i :: 0 <= i < |rest| ==> rest[i] == s[|s| - |rest| + i];
        CollapseKeeps(rest, p, c, q);
      } else {
        CollapseKeeps(s[1..], p, c, q);
      }
    }
  }

  /** The first character of a collapsed string: `c` for a run, otherwise the first character. */
  lemma CollapseHead(s: string, p: char -> bool, c: char)
    requires s != []
    ensures CollapseRuns(s, p, c) != []
    ensures CollapseRuns(s, p, c)[0] == if p(s[0]) then c else s[0]
  {
  }

  /** After collapsing runs of '-' into '-', no two '-' stand side by side. */
  lemma {:induction false} CollapseDashes(s: string)
    ensures NoDoubleDash(CollapseRuns(s, IsDash, '-'))
    decreases |s|
  {
    if s != [] {
      var r := CollapseRuns(s, IsDash, '-');
      if IsDash(s[0]) {
        var rest := DropRun(s, IsDash);
        CollapseDashes(rest);
        if rest != [] {
          CollapseHead(rest, IsDash, '-');
        }
        assert r == ['-'] + CollapseRuns(rest, IsDash, '-');
      } else {
        CollapseDashes(s[1..]);
        assert r == [s[0]] + CollapseRuns(s[1..], IsDash, '-');
      }
    }
  }

  /** Collapsing changes nothing in a string with no character of the class. */
  lemma {:induction false} CollapseNone(s: string, p: char -> bool, c: char)
    requires forall i :: 0 <= i < |s| ==> !p(s[i])
    ensures CollapseRuns(s, p, c) == s
    decreases |s|
  {
    if s != [] {
      CollapseNone(s[1..], p, c);
    }
  }

  /** Collapsing '-' runs changes nothing in a string with no '--'. */
  lemma {:induction false} CollapseNoDoubleDash(s: string)
    requires NoDoubleDash(s)
    ensures CollapseRuns(s, IsDash, '-') == s
    decreases |s|
  {
    if s != [] {
      CollapseNoDoubleDash(s[1..]);
      if IsDash(s[0]) {
        assert DropRun(s, IsDash) == s[1..] by {
          assert DropRun(s, IsDash) == DropRun(s[1..], IsDash);
        }
      }
    }
  }

  predicate NotUpper(c: char)
  {
    !('A' <= c <= 'Z')
  }

  /** Lower-casing leaves no upper-case letter. */
  lemma LoweredHasNoUpper(text: string)
    ensures forall i :: 0 <= i < |ToLower(text)| ==> NotUpper(ToLower(text)[i])
  {
    forall i | 0 <= i < |text| ensures NotUpper(LowerChar(text[i])) {
      var c := text[i];
      if 'A' <= c <= 'Z' {
        assert 'a' as int <= c as int + 32 <= 'z' as int;
      }
    }
  }

  /** Trimming keeps any property every character has. */
  lemma TrimKeeps(s: string, q: char -> bool)
    requires forall i :: 0 <= i < |s| ==> q(s[i])
    ensures forall i :: 0 <= i < |Trim(s)| ==> q(Trim(s)[i])
  {
    TrimIsSlice(s);
    var k := |s| - |TrimStart(s)|;
    var t := Trim(s);
    forall i | 0 <= i < |t| ensures q(t[i]) {
      assert t[i] == s[k + i];
    }
  }

  /** Lower-casing, trimming and dashing whitespace leave no upper-case letter. */
  lemma DashedHasNoUpper(text: string)
    ensures forall i :: 0 <= i < |CollapseRuns(Trim(ToLower(text)), IsWhitespace, '-')| ==>
      NotUpper(CollapseRuns(Trim(ToLower(text)), IsWhitespace, '-')[i])
  {
    LoweredHasNoUpper(text);
    TrimKeeps(ToLower(text), NotUpper);
    CollapseKeeps(Trim(ToLower(text)), IsWhitespace, '-', NotUpper);
  }

  /** Keeping only word characters and '-' of a string with no upper-case letter leaves slug characters. */
  lemma CleanedIsSlugChars(dashed: string)
    requires forall i :: 0 <= i < |dashed| ==> NotUpper(dashed[i])
    ensures forall i :: 0 <= i < |Filter(dashed, KeptInSlug)| ==> IsSlugChar(Filter(dashed, KeptInSlug)[i])
  {
    var cleaned := Filter(dashed, KeptInSlug);
    forall i | 0 <= i < |cleaned| ensures IsSlugChar(cleaned[i]) {
      assert cleaned[i] in dashed && KeptInSlug(cleaned[i]);
    }
  }

  /** `slugify` produces a slug: lower-case letters, digits, '_' and '-' only, with no '--'. */
  lemma SlugifyIsSlug(text: string)
    ensures IsSlug(Slugify(text))
  {
    var dashed := CollapseRuns(Trim(ToLower(text)), IsWhitespace, '-');
    var cleaned := Filter(dashed, KeptInSlug);
    DashedHasNoUpper(text);
    CleanedIsSlugChars(dashed);
    var r := CollapseRuns(cleaned, IsDash, '-');
    assert Slugify(text) == r;
    CollapseKeeps(cleaned, IsDash, '-', IsSlugChar);
    assert forall i :: 0 <= i < |r| ==> IsSlugChar(r[i]);
    CollapseDashes(cleaned);
  }

  /** A slug is left as it is by every step of `slugify`, so slugifying twice is slugifying once. */
  lemma SlugifyIdempotent(text: string)
    ensures Slugify(Slugify(text)) == Slugify(text)
  {
    var s := Slugify(text);
    SlugifyIsSlug(text);
    assert ToLower(s) == s;
    assert TrimStart(s) == s by {
      if s != [] { assert !IsWhitespace(s[0]); }
    }
    assert TrimEnd(s) == s by {
      if s != [] { assert !IsWhitespace(s[|s| - 1]); }
    }
    CollapseNone(s, IsWhitespace, '-');
    FilterAll(s, KeptInSlug);
    CollapseNoDoubleDash(s);
  }


  // ---------------------------------------------------------------------------
  // capitalize
  // ---------------------------------------------------------------------------

  /** `s.split(' ')`: always at least one piece, and no piece holds a space. */
  function SplitSpaces(s: string): (words: seq<string>)
    ensures |words| >= 1
    ensures forall i :: 0 <= i < |words| ==> ' ' !in words[i]
  {
    if s == [] then [""]
    else
      var rest := SplitSpaces(s[1..]);
      if s[0] == ' ' then [""] + rest else [[s[0]] + rest[0]] + rest[1..]
  }

  /** `words.join(' ')` */
  function JoinSpaces(words: seq<string>): string
    requires |words| >= 1
  {
    if |words| == 1 then words[0] else words[0] + " " + JoinSpaces(words[1..])
  }

  lemma JoinConsFirst(c: char, words: seq<string>)
    requires |words| >= 1
    ensures JoinSpaces([[c] + words[0]] + words[1..]) == [c] + JoinSpaces(words)
  {
    var w := [[c] + words[0]] + words[1..];
    if |words| > 1 {
      var rest := JoinSpaces(words[1..]);
      assert JoinSpaces(w) == (([c] + words[0]) + " ") + rest by {
        assert w[1..] == words[1..];
      }
      ConsBeforeJoin(c, words[0], rest);
    }
  }

  lemma ConsBeforeJoin(c: char, first: string, rest: string)
    ensures (([c] + first) + " ") + rest == [c] + ((first + " ") + rest)
  {
  }

  /** Joining the pieces of a split gives the text back. */
  lemma {:induction false} JoinSplit(s: string)
    ensures JoinSpaces(SplitSpaces(s)) == s
  {
    if s != [] {
      var rest := SplitSpaces(s[1..]);
      JoinSplit(s[1..]);
      if s[0] == ' ' {
        assert ([""] + rest)[1..] == rest;
      } else {
        JoinConsFirst(s[0], rest);
      }
    }
  }

  /** A word without spaces followed by ' ' splits off as the first piece. */
  lemma {:induction false} SplitAfterWord(w: string, t: string)
    requires ' ' !in w
    ensures SplitSpaces(w + " " + t) == [w] + SplitSpaces(t)
  {
    if w == [] {
      assert w + " " + t == [' '] + t;
      assert ([' '] + t)[1..] == t;
    } else {
      var u := w + " " + t;
      assert u[1..] == w[1..] + " " + t;
      SplitAfterWord(w[1..], t);
      assert [w[0]] + w[1..] == w;
    }
  }

  /** A word without spaces splits into itself. */
  lemma {:induction false} SplitWord(w: string)
    requires ' ' !in w
    ensures SplitSpaces(w) == [w]
  {
    if w != [] {
      SplitWord(w[1..]);
      assert [w[0]] + w[1..] == w;
    }
  }

  /** Splitting joined words that hold no space gives the words back. */
  lemma {:induction false} SplitJoin(words: seq<string>)
    requires |words| >= 1
    requires forall i :: 0 <= i < |words| ==> ' ' !in words[i]
    ensures SplitSpaces(JoinSpaces(words)) == words
  {
    if |words| == 1 {
      SplitWord(words[0]);
    } else {
      SplitJoin(words[1..]);
      SplitAfterWord(words[0], JoinSpaces(words[1..]));
      assert [words[0]] + words[1..] == words;
    }
  }

  /** `word.charAt(0).toUpperCase() + word.slice(1).toLowerCase()` */
  function CapitalizeWord(w: string): (r: string)
    ensures |r| == |w|
    ensures w != "" ==> r[0] == UpperChar(w[0])
    ensures forall i :: 1 <= i < |w| ==> r[i] == LowerChar(w[i])
  {
    if w == "" then "" else [UpperChar(w[0])] + ToLower(w[1..])
  }

  function CapitalizeWords(words: seq<string>): (r: seq<string>)
    ensures |r| == |words|
    ensures forall i :: 0 <= i < |words| ==> r[i] == CapitalizeWord(words[i])
  {
    seq(|words|, i requires 0 <= i < |words| => CapitalizeWord(words[i]))
  }

  /** `capitalize(text)` */
  function Capitalize(text: string): string
  {
    if text == "" then "" else JoinSpaces(CapitalizeWords(SplitSpaces(text)))
  }

  /** Case mapping never produces a space out of another character. */
  lemma CapitalizeWordKeepsSpaces(w: string)
    ensures ' ' in CapitalizeWord(w) <==> ' ' in w
  {
    var r := CapitalizeWord(w);
    forall i | 0 <= i < |w| ensures r[i] == ' ' <==> w[i] == ' ' {
    }
  }

  /**
   * `capitalize` keeps the words: the result splits into exactly as many words as
   * the input, and each is the input word with its first letter upper-cased and
   * the rest lower-cased.
   */
  lemma CapitalizeKeepsWords(text: string)
    ensures SplitSpaces(Capitalize(text)) == CapitalizeWords(SplitSpaces(text))
    ensures |SplitSpaces(Capitalize(text))| == |SplitSpaces(text)|
  {
    var words := CapitalizeWords(SplitSpaces(text));
    forall i | 0 <= i < |words| ensures ' ' !in words[i] {
      CapitalizeWordKeepsSpaces(SplitSpaces(text)[i]);
    }
    SplitJoin(words);
    if text == "" {
      assert words == [""];
    }
  }

  /** A capitalised word is left as it is by capitalising it again. */
  lemma CapitalizeWordIdempotent(w: string)
    ensures CapitalizeWord(CapitalizeWord(w)) == CapitalizeWord(w)
  {
    var c := CapitalizeWord(w);
    var cc := CapitalizeWord(c);
    forall j | 0 <= j < |w| ensures cc[j] == c[j] {
    }
  }

  /** Capitalizing twice is capitalizing once. */
  lemma CapitalizeIdempotent(text: string)
    ensures Capitalize(Capitalize(text)) == Capitalize(text)
  {
    var once := Capitalize(text);
    if once != "" {
      CapitalizeKeepsWords(text);
      var words := SplitSpaces(text);
      var capitalized := CapitalizeWords(words);
      assert SplitSpaces(once) == capitalized;
      forall i | 0 <= i < |capitalized| ensures CapitalizeWord(capitalized[i]) == capitalized[i] {
        CapitalizeWordIdempotent(words[i]);
      }
      assert CapitalizeWords(capitalized) == capitalized;
      JoinSplit(once);
    }
  }

  // ---------------------------------------------------------------------------
  // sortByKey
  // ---------------------------------------------------------------------------

  /**
   * `sortByKey(array, key, order)` on a numeric key: sorts a copy, ascending for
   * 'asc' and descending for any other order; the input is left alone.
   */
  method SortByKey<T>(items: seq<T>, key: T -> int, order: string) returns (sorted: seq<T>)
    ensures multiset(sorted) == multiset(items)
    ensures SortedBy(sorted, key, order != "asc")
  {
    var a := new T[|items|](i requires 0 <= i < |items| => items[i]);
    assert a[..] == items;
    SortInPlace(a, key, order != "asc");
    sorted := a[..];
  }

  // ---------------------------------------------------------------------------
  // groupBy
  // ---------------------------------------------------------------------------

  /** The items whose key is `g`. */
  function HasKey<T>(key: T -> string, g: string): T -> bool
  {
    (x: T) => key(x) == g
  }

  /** The keys that occur in `items`. */
  function KeysOf<T>(items: seq<T>, key: T -> string): set<string>
  {
    set i | 0 <= i < |items| :: key(items[i])
  }

  /** The grouping `groupBy` builds, as a reference definition: each key to its items, in order. */
  function Grouped<T(==)>(items: seq<T>, key: T -> string): map<string, seq<T>>
  {
    map g | g in KeysOf(items, key) :: Filter(items, HasKey(key, g))
  }

  /** No item has a key that does not occur, so its group would be empty. */
  lemma AbsentKeyGroupEmpty<T>(items: seq<T>, key: T -> string, g: string)
    requires g !in KeysOf(items, key)
    ensures Filter(items, HasKey(key, g)) == []
  {
    assert forall x :: x in items ==> !HasKey(key, g)(x) by {
      forall x | x in items ensures key(x) != g {
        var j :| 0 <= j < |items| && items[j] == x;
        assert key(items[j]) in KeysOf(items, key);
      }
    }
  }

  /** One more item lands at the end of the group of its key, which it opens if needed. */
  lemma GroupedStep<T>(items: seq<T>, x: T, key: T -> string)
    ensures Grouped(items + [x], key) ==
      Grouped(items, key)[key(x) := (if key(x) in Grouped(items, key) then Grouped(items, key)[key(x)] else []) + [x]]
  {
    var before := Grouped(items, key);
    var after := Grouped(items + [x], key);
    var expected := before[key(x) := (if key(x) in before then before[key(x)] else []) + [x]];
    KeysOfStep(items, x, key);
    forall g | g in after ensures after[g] == expected[g] {
      GroupOfStep(items, x, key, g);
      if g == key(x) && g !in before {
        AbsentKeyGroupEmpty(items, key, g);
      }
    }
    assert after.Keys == expected.Keys;
  }

  lemma KeysOfStep<T>(items: seq<T>, x: T, key: T -> string)
    ensures KeysOf(items + [x], key) == KeysOf(items, key) + {key(x)}
  {
    assert forall i :: 0 <= i < |items| ==> (items + [x])[i] == items[i];
    assert (items + [x])[|items|] == x;
  }

  lemma GroupOfStep<T>(items: seq<T>, x: T, key: T -> string, g: string)
    ensures Filter(items + [x], HasKey(key, g)) == Filter(items, HasKey(key, g)) + (if key(x) == g then [x] else [])
  {
    FilterAppend(items, [x], HasKey(key, g));
    assert Filter([x], HasKey(key, g)) == if key(x) == g then [x] else [];
  }

  /** `groupBy(array, key)`: one pass that pushes each item onto the list of its key. */
  method GroupBy<T(==)>(items: seq<T>, key: T -> string) returns (groups: map<string, seq<T>>)
    ensures groups == Grouped(items, key)
  {
    groups := map[];
    var i := 0;
    while i < |items|
      invariant 0 <= i <= |items|
      invariant groups == Grouped(items[..i], key)
    {
      var item := items[i];
      var group := key(item);
      ghost var before := groups;
      if group !in groups {
        groups := groups[group := []];
      }
      groups := groups[group := groups[group] + [item]];
      assert groups == before[group := (if group in before then before[group] else []) + [item]];
      assert groups == Grouped(items[..i + 1], key) by {
        assert items[..i + 1] == items[..i] + [item];
        GroupedStep(items[..i], item, key);
      }
      i := i + 1;
    }
    assert items[..i] == items;
  }

  /**
   * Each group holds exactly the items with its key, in their original order, and
   * every item is in the group of its key.
   */
  lemma GroupsPartition<T>(items: seq<T>, key: T -> string)
    ensures forall g :: g in Grouped(items, key) ==>
      IsSubsequence(Grouped(items, key)[g], items) &&
      (forall j :: 0 <= j < |Grouped(items, key)[g]| ==> key(Grouped(items, key)[g][j]) == g)
    ensures forall i :: 0 <= i < |items| ==>
      key(items[i]) in Grouped(items, key) && items[i] in Grouped(items, key)[key(items[i])]
  {
    forall g | g in Grouped(items, key) ensures IsSubsequence(Grouped(items, key)[g], items) {
      FilterIsSubsequence(items, HasKey(key, g));
    }
  }

  /** The size of the group of `g`. */
  function GroupSize<T(==)>(items: seq<T>, key: T -> string): string -> int
  {
    g => |Filter(items, HasKey(key, g))|
  }

  /** 1 for `k`, 0 for any other key. */
  function Indicator(k: string): string -> int
  {
    g => if g == k then 1 else 0
  }

  predicate Distinct(ks: seq<string>)
  {
    forall i, j :: 0 <= i < j < |ks| ==> ks[i] != ks[j]
  }

  lemma {:induction false} SumPointwise(ks: seq<string>, f: string -> int, g: string -> int, h: string -> int)
    requires forall i :: 0 <= i < |ks| ==> f(ks[i]) == g(ks[i]) + h(ks[i])
    ensures Sum(ks, f) == Sum(ks, g) + Sum(ks, h)
  {
    if ks != [] {
      SumPointwise(ks[1..], f, g, h);
    }
  }

  lemma {:induction false} SumIndicator(ks: seq<string>, k: string)
    requires Distinct(ks)
    ensures Sum(ks, Indicator(k)) == if k in ks then 1 else 0
  {
    if ks != [] {
      SumIndicator(ks[1..], k);
      if ks[0] == k {
        assert k !in ks[1..];
      }
    }
  }

  /** The group sizes, over any list of distinct keys that covers every key, add up to the item count. */
  lemma {:induction false} GroupSizesSum<T>(items: seq<T>, key: T -> string, ks: seq<string>)
    requires Distinct(ks)
    requires forall i :: 0 <= i < |items| ==> key(items[i]) in ks
    ensures Sum(ks, GroupSize(items, key)) == |items|
  {
    if items == [] {
      forall i | 0 <= i < |ks| ensures GroupSize(items, key)(ks[i]) == 0 { }
      SumZero(ks, GroupSize(items, key));
    } else {
      var x := items[0];
      var rest := items[1..];
      assert items == [x] + rest;
      forall i | 0 <= i < |ks|
        ensures GroupSize(items, key)(ks[i]) == Indicator(key(x))(ks[i]) + GroupSize(rest, key)(ks[i])
      {
        FilterAppend([x], rest, HasKey(key, ks[i]));
      }
      SumPointwise(ks, GroupSize(items, key), Indicator(key(x)), GroupSize(rest, key));
      SumIndicator(ks, key(x));
      GroupSizesSum(rest, key, ks);
    }
  }

  lemma {:induction false} SumZero(ks: seq<string>, f: string -> int)
    requires forall i :: 0 <= i < |ks| ==> f(ks[i]) == 0
    ensures Sum(ks, f) == 0
  {
    if ks != [] {
      SumZero(ks[1..], f);
    }
  }
}
