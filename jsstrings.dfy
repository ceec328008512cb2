/**
 * The JavaScript string built-ins the toolbar code relies on, over strings as
 * sequences of characters: `includes`, `indexOf`, `replace` with a string
 * pattern (first occurrence only), `split` on one character, and the decimal
 * rendering of a positive integer by `n + 'ms'`.
 */
module JsStrings {
  import opened Options

  /** `pat` occurs in `s` starting at index `i`. */
  predicate OccursAt(s: string, pat: string, i: nat) {
    i + |pat| <= |s| && s[i..i + |pat|] == pat
  }

  /** The first index at or after `from` where `pat` occurs, scanning left to right. */
  function IndexFrom(s: string, pat: string, from: nat): (r: Option<nat>)
    requires from <= |s|
    ensures r.Some? ==> from <= r.value && OccursAt(s, pat, r.value)
    ensures r.Some? ==> forall j :: from <= j < r.value ==> !OccursAt(s, pat, j)
    ensures r.None? ==> forall j :: from <= j ==> !OccursAt(s, pat, j)
    decreases |s| - from
  {
    if OccursAt(s, pat, from) then Some(from)
    else if from == |s| then None
    else IndexFrom(s, pat, from + 1)
  }

  /** `s.indexOf(pat)`, with -1 as `None`. */
  function IndexOf(s: string, pat: string): (r: Option<nat>)
    ensures r.Some? ==> OccursAt(s, pat, r.value) && forall j :: 0 <= j < r.value ==> !OccursAt(s, pat, j)
    ensures r.None? ==> forall j: nat :: !OccursAt(s, pat, j)
  {
    IndexFrom(s, pat, 0)
  }

  /** `s.includes(pat)`. */
  predicate Includes(s: string, pat: string) {
    IndexOf(s, pat).Some?
  }

  /** `includes` holds exactly when the pattern occurs somewhere. */
  lemma IncludesIffOccurs(s: string, pat: string)
    ensures Includes(s, pat) <==> exists i: nat :: OccursAt(s, pat, i)
  {
  }

  /**
   * `s.replace(pat, rep)` with a string pattern: only the first occurrence is
   * replaced, and `rep` is inserted literally (JavaScript would interpret `$`
   * sequences in `rep`; the model is faithful for replacements without `$`).
   */
  function ReplaceFirst(s: string, pat: string, rep: string): (r: string)
    ensures (forall j: nat :: !OccursAt(s, pat, j)) ==> r == s
    ensures forall i: nat :: OccursAt(s, pat, i) && (forall j :: 0 <= j < i ==> !OccursAt(s, pat, j)) ==>
              r == s[..i] + rep + s[i + |pat|..]
  {
    match IndexOf(s, pat)
    case None => s
    case Some(i) => s[..i] + rep + s[i + |pat|..]
  }

  // ---------------------------------------------------------------------------
  // split on a single character

  /** The number of occurrences of `c` in `s`. */
  function Count(s: string, c: char): nat {
    if s == [] then 0 else (if s[0] == c then 1 else 0) + Count(s[1..], c)
  }

  /** The parts joined back together with `sep` between neighbours (`parts.join(sep)`). */
  function Join(parts: seq<string>, sep: char): string
    requires |parts| >= 1
  {
    if |parts| == 1 then parts[0] else parts[0] + [sep] + Join(parts[1..], sep)
  }

  /**
   * `s.split(sep)` for a one-character separator: the maximal separator-free
   * pieces, always at least one (`"".split(";")` is `[""]`), one more than the
   * number of separators, and joining them back gives `s`.
   */
  function Split(s: string, sep: char): (parts: seq<string>)
    ensures |parts| == Count(s, sep) + 1
    ensures forall k :: 0 <= k < |parts| ==> sep !in parts[k]
    ensures Join(parts, sep) == s
  {
    if s == [] then [""]
    else
      var rest := Split(s[1..], sep);
      if s[0] == sep then
        [""] + rest
      else
        assert rest == [rest[0]] + rest[1..];
        [[s[0]] + rest[0]] + rest[1..]
  }

  /** Splitting a string that starts with a separator-free piece and a separator yields that piece first. */
  lemma {:induction false} SplitAfterPiece(p: string, sep: char, tail: string)
    requires sep !in p
    ensures Split(p + [sep] + tail, sep) == [p] + Split(tail, sep)
  {
    if p == [] {
      assert p + [sep] + tail == [sep] + tail;
      assert ([sep] + tail)[1..] == tail;
    } else {
      SplitAfterPiece(p[1..], sep, tail);
      assert (p + [sep] + tail)[1..] == p[1..] + [sep] + tail;
      assert [p[0]] + p[1..] == p;
    }
  }

  /** Splitting undoes joining separator-free parts. */
  lemma {:induction false} SplitJoin(parts: seq<string>, sep: char)
    requires |parts| >= 1
    requires forall k :: 0 <= k < |parts| ==> sep !in parts[k]
    ensures Split(Join(parts, sep), sep) == parts
  {
    if |parts| == 1 {
      SplitOfSeparatorFree(parts[0], sep);
    } else {
      SplitJoin(parts[1..], sep);
      SplitAfterPiece(parts[0], sep, Join(parts[1..], sep));
      assert [parts[0]] + parts[1..] == parts;
    }
  }

  /** A string without the separator splits into itself alone. */
  lemma SplitOfSeparatorFree(p: string, sep: char)
    requires sep !in p
    ensures Split(p, sep) == [p]
  {
  }

  // ---------------------------------------------------------------------------
  // decimal rendering of a natural number, as JavaScript's number-to-string

  predicate IsDigit(c: char) {
    '0' <= c <= '9'
  }

  function DigitChar(d: nat): (c: char)
    requires d < 10
    ensures IsDigit(c)
  {
    "0123456789"[d]
  }

  function DigitValue(c: char): nat
    requires IsDigit(c)
  {
    (c as int - '0' as int) as nat
  }

  /** The decimal digits of `n`, without leading zeros. */
  function Decimal(n: nat): (s: string)
    ensures |s| >= 1
    ensures forall k :: 0 <= k < |s| ==> IsDigit(s[k])
    ensures |s| > 1 ==> s[0] != '0'
  {
    if n < 10 then [DigitChar(n)] else Decimal(n / 10) + [DigitChar(n % 10)]
  }

  /** Reading a string of digits back as a number. */
  function ParseDecimal(s: string): nat
    requires forall k :: 0 <= k < |s| ==> IsDigit(s[k])
  {
    if s == [] then 0 else ParseDecimal(s[..|s| - 1]) * 10 + DigitValue(s[|s| - 1])
  }

  /** Parsing undoes rendering, so distinct numbers render differently. */
  lemma {:induction false} ParseDecimalOfDecimal(n: nat)
    ensures ParseDecimal(Decimal(n)) == n
  {
    if n >= 10 {
      ParseDecimalOfDecimal(n / 10);
      var s := Decimal(n);
      assert s[..|s| - 1] == Decimal(n / 10);
    }
  }

  lemma DecimalInjective(a: nat, b: nat)
    requires Decimal(a) == Decimal(b)
    ensures a == b
  {
    ParseDecimalOfDecimal(a);
    ParseDecimalOfDecimal(b);
  }
}
