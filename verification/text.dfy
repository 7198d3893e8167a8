/**
 * The pieces of Rust's standard library the core leans on, as functions on
 * `string` (a sequence of chars): `str::find`, `str::trim`,
 * `char::is_whitespace`, the `Display` of an unsigned integer, `usize::from_str`
 * and the `{:?}` rendering of a string.
 */
module Text {
  import opened Wrappers

  /** `pat` occurs in `s` starting at index `i`. */
  predicate OccursAt(s: string, pat: string, i: int) {
    0 <= i && i + |pat| <= |s| && s[i..i + |pat|] == pat
  }

  lemma ShiftOccurrence(s: string, pat: string)
    requires |s| >= 1
    ensures forall j :: 1 <= j ==> (OccursAt(s, pat, j) <==> OccursAt(s[1..], pat, j - 1))
  {
    forall j | 1 <= j
      ensures OccursAt(s, pat, j) <==> OccursAt(s[1..], pat, j - 1)
    {
      if j + |pat| <= |s| {
        var t := s[1..];
        assert t[j - 1..] == s[j..];
        assert t[j - 1..j - 1 + |pat|] == t[j - 1..][..|pat|] == s[j..][..|pat|] == s[j..j + |pat|];
      }
    }
  }

  /** `str::find`: the index of the first occurrence of `pat` in `s`, if there is one. */
  function FindFirst(s: string, pat: string): (r: Option<nat>)
    ensures r.Some? ==> OccursAt(s, pat, r.value)
    ensures r.Some? ==> forall j :: 0 <= j < r.value ==> !OccursAt(s, pat, j)
    ensures r.None? ==> forall j :: !OccursAt(s, pat, j)
    decreases |s|
  {
    if |s| < |pat| then None
    else if s[..|pat|] == pat then Some(0)
    else
      ShiftOccurrence(s, pat);
      match FindFirst(s[1..], pat)
      case None => None
      case Some(k) => Some(k + 1)
  }

  // ---------------------------------------------------------------- decimal numbers

  predicate IsDigit(c: char) {
    '0' <= c <= '9'
  }

  ghost predicate AllDigits(s: string) {
    forall i :: 0 <= i < |s| ==> IsDigit(s[i])
  }

  function DigitChar(d: nat): (c: char)
    requires d < 10
    ensures IsDigit(c) && c as int - '0' as int == d
  {
    ('0' as int + d) as char
  }

  /** `format!("{}", n)` for an unsigned integer: decimal digits, most significant first. */
  function Decimal(n: nat): (r: string)
    ensures |r| >= 1 && AllDigits(r)
    ensures r[0] == '0' ==> n == 0
    decreases n
  {
    if n < 10 then [DigitChar(n)] else Decimal(n / 10) + [DigitChar(n % 10)]
  }

  /** The number a string of decimal digits denotes (0 for the empty string). */
  function DigitsValue(s: string): nat
    requires AllDigits(s)
  {
    if s == [] then 0 else DigitsValue(s[..|s| - 1]) * 10 + (s[|s| - 1] as int - '0' as int)
  }

  /** Reading the digits back gives the number that was rendered. */
  lemma {:induction false} DecimalValue(n: nat)
    ensures DigitsValue(Decimal(n)) == n
    decreases n
  {
    if n >= 10 {
      DecimalValue(n / 10);
      var d := Decimal(n);
      assert d[..|d| - 1] == Decimal(n / 10);
    }
  }

  /** Two different numbers never render the same. */
  lemma DecimalInjective(a: nat, b: nat)
    ensures Decimal(a) == Decimal(b) <==> a == b
  {
    DecimalValue(a);
    DecimalValue(b);
  }

  /** The 2^64 bound of `usize` on a 64-bit target. */
  const USIZE_LIMIT: nat := 0x1_0000_0000_0000_0000

  /**
   * `usize::from_str`: an optional '+', then one or more ASCII digits (leading
   * zeros allowed) denoting a value below 2^64; anything else is an error.
   */
  function ParseUsize(s: string): (r: Option<nat>)
    ensures r.Some? ==> r.value < USIZE_LIMIT
    ensures r.Some? ==> exists digits :: (s == digits || s == "+" + digits) && digits != []
                                         && AllDigits(digits) && DigitsValue(digits) == r.value
  {
    var digits := if |s| > 0 && s[0] == '+' then s[1..] else s;
    assert s == digits || s == "+" + digits;
    if digits == [] || exists i :: 0 <= i < |digits| && !IsDigit(digits[i]) then None
    else if DigitsValue(digits) < USIZE_LIMIT then Some(DigitsValue(digits))
    else None
  }

  /**
   * The converse of ParseUsize's contract: one or more digits, with or without
   * a leading '+', denoting a value below 2^64 parse to that value, leading
   * zeros included.
   */
  lemma ParseUsizeAccepts(digits: string, plus: bool)
    requires digits != [] && AllDigits(digits) && DigitsValue(digits) < USIZE_LIMIT
    ensures ParseUsize(if plus then "+" + digits else digits) == Some(DigitsValue(digits))
  {
    var s := if plus then "+" + digits else digits;
    if plus {
      assert s[1..] == digits;
    } else {
      assert IsDigit(digits[0]);
    }
  }

  /** Parsing what `Display` printed gives the number back. */
  lemma ParseDecimal(n: nat)
    requires n < USIZE_LIMIT
    ensures ParseUsize(Decimal(n)) == Some(n)
  {
    DecimalValue(n);
  }

  // ---------------------------------------------------------------- trimming

  /** `char::is_whitespace`: the characters with the Unicode White_Space property. */
  predicate IsWhitespace(c: char) {
    c == ' ' || ('\t' <= c <= '\r') || c == '\U{85}' || c == '\U{A0}' || c == '\U{1680}'
    || ('\U{2000}' <= c <= '\U{200A}') || c == '\U{2028}' || c == '\U{2029}'
    || c == '\U{202F}' || c == '\U{205F}' || c == '\U{3000}'
  }

  ghost predicate AllWhitespace(s: string) {
    forall i :: 0 <= i < |s| ==> IsWhitespace(s[i])
  }

  /** `str::trim_start`: drops the leading whitespace, and only that. */
  function TrimStart(s: string): (r: string)
    ensures |r| <= |s| && r == s[|s| - |r|..]
    ensures AllWhitespace(s[..|s| - |r|])
    ensures r != [] ==> !IsWhitespace(r[0])
  {
    if s != [] && IsWhitespace(s[0]) then
      var r := TrimStart(s[1..]);
      DropFirst(s, |s| - 1 - |r|);
      WhitespaceCons(s[0], s[1..][..|s| - 1 - |r|]);
      r
    else s
  }

  /** `str::trim_end`: drops the trailing whitespace, and only that. */
  function TrimEnd(s: string): (r: string)
    ensures |r| <= |s| && r == s[..|r|]
    ensures AllWhitespace(s[|r|..])
    ensures r != [] ==> !IsWhitespace(r[|r| - 1])
  {
    if s != [] && IsWhitespace(s[|s| - 1]) then
      var r := TrimEnd(s[..|s| - 1]);
      DropLast(s, |r|);
      WhitespaceSnoc(s[..|s| - 1][|r|..], s[|s| - 1]);
      r
    else s
  }

  lemma DropFirst(s: string, k: nat)
    requires 1 + k <= |s|
    ensures s[1..][k..] == s[1 + k..] && s[..1 + k] == [s[0]] + s[1..][..k]
  {
  }

  lemma DropLast(s: string, k: nat)
    requires k < |s|
    ensures s[..|s| - 1][..k] == s[..k] && s[k..] == s[..|s| - 1][k..] + [s[|s| - 1]]
  {
  }

  lemma WhitespaceCons(c: char, w: string)
    requires IsWhitespace(c) && AllWhitespace(w)
    ensures AllWhitespace([c] + w)
  {
  }

  lemma WhitespaceSnoc(w: string, c: char)
    requires AllWhitespace(w) && IsWhitespace(c)
    ensures AllWhitespace(w + [c])
  {
  }

  /** `r` is the slice of `s` at `i`, with nothing but whitespace before and after it. */
  ghost predicate PaddedAt(s: string, i: int, r: string) {
    0 <= i && i + |r| <= |s| && r == s[i..i + |r|]
    && AllWhitespace(s[..i]) && AllWhitespace(s[i + |r|..])
  }

  /** `str::trim`: the slice of `s` left after dropping whitespace at both ends. */
  function Trim(s: string): (r: string)
    ensures PaddedAt(s, |s| - |TrimStart(s)|, r)
    ensures r != [] ==> !IsWhitespace(r[0]) && !IsWhitespace(r[|r| - 1])
  {
    TrimmedSlice(s);
    TrimEnd(TrimStart(s))
  }

  /** Trimming the start, then the end, leaves a slice of `s` with whitespace around it. */
  lemma TrimmedSlice(s: string)
    ensures PaddedAt(s, |s| - |TrimStart(s)|, TrimEnd(TrimStart(s)))
    ensures var r := TrimEnd(TrimStart(s));
            r != [] ==> !IsWhitespace(r[0]) && !IsWhitespace(r[|r| - 1])
  {
    var t := TrimStart(s);
    var r := TrimEnd(t);
    PaddedFromParts(s, t, r);
    if r != [] {
      assert r[0] == t[0];
    }
  }

  /** A whitespace-led suffix `t` of `s`, then a prefix `r` of `t` followed by whitespace. */
  lemma PaddedFromParts(s: string, t: string, r: string)
    requires |t| <= |s| && t == s[|s| - |t|..] && AllWhitespace(s[..|s| - |t|])
    requires |r| <= |t| && r == t[..|r|] && AllWhitespace(t[|r|..])
    ensures PaddedAt(s, |s| - |t|, r)
  {
    SliceOfSuffix(s, |s| - |t|, |r|);
  }

  lemma SliceOfSuffix(s: string, i: nat, k: nat)
    requires i + k <= |s|
    ensures s[i..][..k] == s[i..i + k] && s[i..][k..] == s[i + k..]
  {
  }

  lemma {:induction false} TrimStartPadded(w: string, x: string)
    requires AllWhitespace(w)
    requires x == [] || !IsWhitespace(x[0])
    ensures TrimStart(w + x) == x
    decreases |w|
  {
    if w != [] {
      assert (w + x)[1..] == w[1..] + x;
      TrimStartPadded(w[1..], x);
    } else {
      assert w + x == x;
    }
  }

  lemma {:induction false} TrimEndPadded(x: string, w: string)
    requires AllWhitespace(w)
    requires x == [] || !IsWhitespace(x[|x| - 1])
    ensures TrimEnd(x + w) == x
    decreases |w|
  {
    if w != [] {
      assert (x + w)[..|x + w| - 1] == x + w[..|w| - 1];
      TrimEndPadded(x, w[..|w| - 1]);
    } else {
      assert x + w == x;
    }
  }

  /**
   * The converse of Trim's contract: surrounding a text that neither starts nor
   * ends with whitespace by whitespace on both sides trims back to that text.
   */
  lemma TrimPadded(w1: string, core: string, w2: string)
    requires AllWhitespace(w1) && AllWhitespace(w2)
    requires core != [] && !IsWhitespace(core[0]) && !IsWhitespace(core[|core| - 1])
    ensures Trim(w1 + core + w2) == core
  {
    assert w1 + core + w2 == w1 + (core + w2);
    TrimStartPadded(w1, core + w2);
    TrimEndPadded(core, w2);
  }

  // ---------------------------------------------------------------- {:?} of a String

  function HexDigit(d: nat): char
    requires d < 16
  {
    "0123456789abcdef"[d]
  }

  function Hex(n: nat): (r: string)
    ensures |r| >= 1
    decreases n
  {
    if n < 16 then [HexDigit(n)] else Hex(n / 16) + [HexDigit(n % 16)]
  }

  /** Characters that `{:?}` does not print as themselves (ASCII ones; see the README). */
  predicate NeedsEscape(c: char) {
    c == '"' || c == '\\' || c < ' ' || c == '\U{7F}'
  }

  /** `char::escape_debug` for the characters of a string. */
  function EscapeChar(c: char): (r: string)
    ensures NeedsEscape(c) <==> r != [c]
    ensures NeedsEscape(c) ==> |r| >= 2 && r[0] == '\\'
  {
    if c == '"' then "\\\""
    else if c == '\\' then "\\\\"
    else if c == '\n' then "\\n"
    else if c == '\r' then "\\r"
    else if c == '\t' then "\\t"
    else if c == '\0' then "\\0"
    else if c < ' ' || c == '\U{7F}' then "\\u{" + Hex(c as nat) + "}"
    else [c]
  }

  function Escape(s: string): (r: string)
    ensures |r| >= |s|
    ensures (forall i :: 0 <= i < |s| ==> !NeedsEscape(s[i])) ==> r == s
  {
    if s == [] then [] else EscapeChar(s[0]) + Escape(s[1..])
  }

  /** `format!("{:?}", s)` for a `String` s: quoted and escaped. */
  function Quoted(s: string): (r: string)
    ensures |r| >= |s| + 2 && r[0] == '"' && r[|r| - 1] == '"'
    ensures (forall i :: 0 <= i < |s| ==> !NeedsEscape(s[i])) ==> r == "\"" + s + "\""
  {
    "\"" + Escape(s) + "\""
  }
}
