/** The string operations of the Kotlin standard library that the core relies on:
    `isNullOrBlank`, `contains` (with and without `ignoreCase`), `joinToString`,
    and the decimal rendering of a `Long` inside a string template. */
module Text {
  import opened Wrappers

  /** `Char.isWhitespace()` on the JVM: `Character.isWhitespace(c) || Character.isSpaceChar(c)`,
      i.e. the ASCII controls TAB..CR and FS..US plus every space, line or paragraph separator. */
  predicate IsWhitespace(c: char) {
    || '\t' <= c <= '\r'
    || '\U{1C}' <= c <= ' '
    || c == '\U{A0}' || c == '\U{1680}'
    || '\U{2000}' <= c <= '\U{200A}'
    || c == '\U{2028}' || c == '\U{2029}' || c == '\U{202F}' || c == '\U{205F}' || c == '\U{3000}'
  }

  /** `CharSequence.isBlank()`: empty, or whitespace only. */
  predicate IsBlank(s: string) {
    forall i :: 0 <= i < |s| ==> IsWhitespace(s[i])
  }

  /** `String?.isNullOrBlank()`. */
  predicate IsNullOrBlank(s: Option<string>) {
    s.None? || IsBlank(s.value)
  }

  /** Kotlin's string template renders `null` as the text "null". */
  function Interpolate(s: Option<string>): string {
    s.GetOr("null")
  }

  // ---------------------------------------------------------------------------
  // contains / indexOf

  /** ASCII case folding; letters outside A..Z are left as they are. */
  function ToLowerAscii(c: char): char {
    if 'A' <= c <= 'Z' then (c as int + 32) as char else c
  }

  /** `Char.equals(other, ignoreCase)`, restricted to ASCII folding. */
  predicate CharEquals(a: char, b: char, ignoreCase: bool) {
    a == b || (ignoreCase && ToLowerAscii(a) == ToLowerAscii(b))
  }

  /** `regionMatches`: `k` occurs in `s` at position `i`. */
  predicate MatchesAt(s: string, k: string, i: int, ignoreCase: bool) {
    0 <= i && i + |k| <= |s| &&
    forall j :: 0 <= j < |k| ==> CharEquals(s[i + j], k[j], ignoreCase)
  }

  /** `indexOf(k, from, ignoreCase)`: scans `s` left to right from `from`
      for the first position where `k` occurs. */
  function IndexOf(s: string, k: string, from: nat, ignoreCase: bool): (r: Option<nat>)
    decreases |s| - from
    ensures r.Some? ==> from <= r.value && MatchesAt(s, k, r.value, ignoreCase)
    ensures r.Some? ==> forall i :: from <= i < r.value ==> !MatchesAt(s, k, i, ignoreCase)
    ensures r.None? ==> forall i :: from <= i ==> !MatchesAt(s, k, i, ignoreCase)
  {
    if from + |k| > |s| then None
    else if MatchesAt(s, k, from, ignoreCase) then Some(from)
    else IndexOf(s, k, from + 1, ignoreCase)
  }

  /** `CharSequence.contains(k, ignoreCase)`, which is `indexOf(k, 0, ignoreCase) >= 0`. */
  predicate Contains(s: string, k: string, ignoreCase: bool) {
    IndexOf(s, k, 0, ignoreCase).Some?
  }

  /** `contains` holds exactly when some position of `s` matches `k`. */
  lemma ContainsIffOccurs(s: string, k: string, ignoreCase: bool)
    ensures Contains(s, k, ignoreCase) <==> exists i :: MatchesAt(s, k, i, ignoreCase)
  {
    var r := IndexOf(s, k, 0, ignoreCase);
    if r.Some? {
      assert MatchesAt(s, k, r.value, ignoreCase);
    }
  }

  /** A case-sensitive occurrence is also a case-insensitive one. */
  lemma ContainsIgnoringCaseWeakens(s: string, k: string)
    ensures Contains(s, k, false) ==> Contains(s, k, true)
  {
    if Contains(s, k, false) {
      var i := IndexOf(s, k, 0, false).value;
      assert MatchesAt(s, k, i, true);
      ContainsIffOccurs(s, k, true);
    }
  }

  // ---------------------------------------------------------------------------
  // joinToString

  /** `items.joinToString(separator)`. */
  function Join(items: seq<string>, separator: string): string
    decreases |items|
  {
    if |items| == 0 then ""
    else if |items| == 1 then items[0]
    else items[0] + separator + Join(items[1..], separator)
  }

  /** Where the `i`-th item starts in `Join(items, separator)`: after all earlier
      items and one separator per earlier item. */
  function ItemStart(items: seq<string>, separator: string, i: nat): nat
    requires i < |items|
    decreases i
  {
    if i == 0 then 0 else |items[0]| + |separator| + ItemStart(items[1..], separator, i - 1)
  }

  /** A slice that lies inside the right part of a concatenation is a slice of that part. */
  lemma SliceOfRight(a: string, b: string, lo: nat, hi: nat)
    requires |a| <= lo <= hi <= |a| + |b|
    ensures (a + b)[lo..hi] == b[lo - |a| .. hi - |a|]
  {
    assert forall k :: lo <= k < hi ==> (a + b)[k] == b[k - |a|];
  }

  /** Every item appears in the joined text, in input order, at `ItemStart`. */
  lemma {:induction false} JoinPlacesItems(items: seq<string>, separator: string, i: nat)
    requires i < |items|
    ensures ItemStart(items, separator, i) + |items[i]| <= |Join(items, separator)|
    ensures Join(items, separator)[ItemStart(items, separator, i) .. ItemStart(items, separator, i) + |items[i]|] == items[i]
    decreases i
  {
    if |items| > 1 {
      var rest := Join(items[1..], separator);
      if i == 0 {
        var joined := items[0] + (separator + rest);
        assert Join(items, separator) == joined;
        assert joined[..|items[0]|] == items[0];
      } else {
        var offset := |items[0]| + |separator|;
        assert Join(items, separator) == (items[0] + separator) + rest;
        JoinPlacesItems(items[1..], separator, i - 1);
        var s := ItemStart(items[1..], separator, i - 1);
        assert items[1..][i - 1] == items[i];
        assert ItemStart(items, separator, i) == offset + s;
        SliceOfRight(items[0] + separator, rest, offset + s, offset + s + |items[i]|);
      }
    }
  }

  /** Between two consecutive items stands exactly one separator. */
  lemma {:induction false} JoinSeparatesItems(items: seq<string>, separator: string, i: nat)
    requires i + 1 < |items|
    ensures ItemStart(items, separator, i + 1) == ItemStart(items, separator, i) + |items[i]| + |separator|
    ensures ItemStart(items, separator, i + 1) <= |Join(items, separator)|
    ensures Join(items, separator)[ItemStart(items, separator, i) + |items[i]| .. ItemStart(items, separator, i + 1)] == separator
    decreases i
  {
    var rest := Join(items[1..], separator);
    if i == 0 {
      assert Join(items, separator) == (items[0] + separator) + rest;
    } else {
      var offset := |items[0]| + |separator|;
      assert Join(items, separator) == (items[0] + separator) + rest;
      JoinSeparatesItems(items[1..], separator, i - 1);
      var s := ItemStart(items[1..], separator, i - 1);
      var t := ItemStart(items[1..], separator, i);
      SliceOfRight(items[0] + separator, rest, offset + s + |items[i]|, offset + t);
    }
  }

  /** The joined text is exactly as long as the items plus one separator between each pair. */
  lemma {:induction false} JoinLength(items: seq<string>, separator: string)
    requires |items| > 0
    ensures |Join(items, separator)| == ItemStart(items, separator, |items| - 1) + |items[|items| - 1]|
    decreases |items|
  {
    if |items| > 1 {
      JoinLength(items[1..], separator);
    }
  }

  // ---------------------------------------------------------------------------
  // Decimal rendering of integers in string templates

  function DigitChar(d: nat): char
    requires d < 10
  {
    ('0' as int + d) as char
  }

  predicate IsDigit(c: char) {
    '0' <= c <= '9'
  }

  /** The decimal digits of a natural number, most significant first, no leading zeros. */
  function NatDigits(n: nat): (r: string)
    ensures |r| > 0 && forall i :: 0 <= i < |r| ==> IsDigit(r[i])
    decreases n
  {
    if n < 10 then [DigitChar(n)] else NatDigits(n / 10) + [DigitChar(n % 10)]
  }

  /** `"$n"` for a `Long` or `Int` n: an optional minus sign and the digits of |n|. */
  function Decimal(n: int): (r: string)
    ensures |r| > 0
  {
    if n < 0 then "-" + NatDigits(-n) else NatDigits(n)
  }

  /** Reads decimal digits back (the inverse of `NatDigits`). */
  function ParseDigits(s: string): nat
    requires forall i :: 0 <= i < |s| ==> IsDigit(s[i])
    decreases |s|
  {
    if |s| == 0 then 0 else 10 * ParseDigits(s[..|s| - 1]) + DigitValue(s[|s| - 1])
  }

  function DigitValue(c: char): nat
    requires IsDigit(c)
  {
    c as int - '0' as int
  }

  /** Reads an optionally signed decimal numeral (the inverse of `Decimal`). */
  function ParseDecimal(s: string): Option<int> {
    if |s| > 1 && s[0] == '-' && forall i :: 1 <= i < |s| ==> IsDigit(s[i]) then Some(-(ParseDigits(s[1..]) as int))
    else if |s| > 0 && forall i :: 0 <= i < |s| ==> IsDigit(s[i]) then Some(ParseDigits(s))
    else None
  }

  lemma {:induction false} ParseNatDigits(n: nat)
    ensures ParseDigits(NatDigits(n)) == n
    decreases n
  {
    if n >= 10 {
      var s := NatDigits(n);
      assert s[..|s| - 1] == NatDigits(n / 10);
      ParseNatDigits(n / 10);
    }
  }

  /** The rendered number can always be read back: rendering loses nothing. */
  lemma DecimalRoundTrip(n: int)
    ensures ParseDecimal(Decimal(n)) == Some(n)
  {
    if n < 0 {
      var s := Decimal(n);
      assert s[1..] == NatDigits(-n);
      ParseNatDigits(-n);
    } else {
      ParseNatDigits(n);
    }
  }

  /** Distinct numbers render as distinct texts. */
  lemma DecimalInjective(m: int, n: int)
    ensures Decimal(m) == Decimal(n) ==> m == n
  {
    DecimalRoundTrip(m);
    DecimalRoundTrip(n);
  }
}
