/**
 * Character classes and string helpers used by the daemon: ASCII letters and
 * digits, lower-casing, substring search, splitting on a separator, trimming,
 * and the decimal printing and parsing of a `u32` (`write!("{}")` and
 * `str::parse::<u32>`).
 */
module Text {
  import opened Types

  const U32Limit: nat := 0x1_0000_0000

  predicate IsDigit(c: char) { '0' <= c <= '9' }
  predicate IsUpper(c: char) { 'A' <= c <= 'Z' }
  predicate IsLower(c: char) { 'a' <= c <= 'z' }
  predicate IsAlphanumeric(c: char) { IsDigit(c) || IsUpper(c) || IsLower(c) }
  /** ASCII whitespace as `char::is_whitespace` sees it: space, tab, line feed, vertical tab, form feed, carriage return. */
  predicate IsWhitespace(c: char) {
    c == ' ' || c == '\t' || c == '\n' || c == '\U{000B}' || c == '\U{000C}' || c == '\r'
  }

  function LowerChar(c: char): (r: char)
    ensures IsUpper(c) ==> IsLower(r) && r as int == c as int + 32
    ensures !IsUpper(c) ==> r == c
    ensures !IsUpper(r)
  {
    if IsUpper(c) then (c as int + 32) as char else c
  }

  /** `str::to_lowercase` on the ASCII letters. */
  function Lower(s: string): (r: string)
    ensures |r| == |s|
    ensures forall i :: 0 <= i < |s| ==> r[i] == LowerChar(s[i])
  {
    seq(|s|, i requires 0 <= i < |s| => LowerChar(s[i]))
  }

  /** `str::contains` with a string pattern. */
  predicate HasInfix(s: string, t: string) {
    exists i :: 0 <= i <= |s| && OccursAt(s, t, i)
  }

  predicate OccursAt(s: string, t: string, i: nat) {
    i + |t| <= |s| && s[i..i + |t|] == t
  }

  /** Index of the first occurrence of `c` in `s`. */
  function IndexOf(s: string, c: char): (k: nat)
    requires c in s
    ensures k < |s| && s[k] == c && c !in s[..k]
  {
    if s[0] == c then 0 else 1 + IndexOf(s[1..], c)
  }

  /** `str::split(sep)`: the pieces between the separators, in order; never empty. */
  function Split(s: string, sep: char): (parts: seq<string>)
    ensures |parts| >= 1
    ensures forall i :: 0 <= i < |parts| ==> sep !in parts[i]
    decreases |s|
  {
    if sep !in s then [s]
    else
      var k := IndexOf(s, sep);
      [s[..k]] + Split(s[k + 1..], sep)
  }

  /** `r` is `s[a..b]`, and everything `s` has before `a` and from `b` on is whitespace. */
  predicate StripsTo(s: string, r: string, a: int, b: int) {
    && 0 <= a <= b <= |s| && r == s[a..b]
    && (forall i :: 0 <= i < a ==> IsWhitespace(s[i]))
    && (forall i :: b <= i < |s| ==> IsWhitespace(s[i]))
  }

  /** Stripping a leading whitespace character first strips it as well. */
  lemma StripsAfterFirst(s: string, r: string, a: int, b: int)
    requires |s| > 0 && IsWhitespace(s[0]) && StripsTo(s[1..], r, a, b)
    ensures StripsTo(s, r, a + 1, b + 1)
  {
    assert r == s[a + 1..b + 1];
  }

  /** Stripping a trailing whitespace character first strips it as well. */
  lemma StripsBeforeLast(s: string, r: string, a: int, b: int)
    requires |s| > 0 && IsWhitespace(s[|s| - 1]) && StripsTo(s[..|s| - 1], r, a, b)
    ensures StripsTo(s, r, a, b)
  {
    assert r == s[a..b];
  }

  /** `str::trim` for the ASCII whitespace characters. */
  function Trim(s: string): (r: string)
    ensures |r| <= |s|
    ensures |r| > 0 ==> !IsWhitespace(r[0]) && !IsWhitespace(r[|r| - 1])
    ensures (|s| == 0 || (!IsWhitespace(s[0]) && !IsWhitespace(s[|s| - 1]))) ==> r == s
    ensures exists a, b :: StripsTo(s, r, a, b)
    decreases |s|
  {
    if |s| > 0 && IsWhitespace(s[0]) then
      var r := Trim(s[1..]);
      assert exists a, b :: StripsTo(s, r, a, b) by {
        var a, b :| StripsTo(s[1..], r, a, b);
        StripsAfterFirst(s, r, a, b);
      }
      r
    else if |s| > 0 && IsWhitespace(s[|s| - 1]) then
      var r := Trim(s[..|s| - 1]);
      assert exists a, b :: StripsTo(s, r, a, b) by {
        var a, b :| StripsTo(s[..|s| - 1], r, a, b);
        StripsBeforeLast(s, r, a, b);
      }
      r
    else
      assert StripsTo(s, s, 0, |s|);
      s
  }

  predicate AllDigits(s: string) {
    forall i :: 0 <= i < |s| ==> IsDigit(s[i])
  }

  function DigitValue(c: char): nat
    requires IsDigit(c)
  {
    c as int - '0' as int
  }

  function DigitChar(d: nat): (c: char)
    requires d < 10
    ensures IsDigit(c) && DigitValue(c) == d
  {
    ('0' as int + d) as char
  }

  /** Value of a string of decimal digits, most significant first. */
  function DigitsValue(s: string): nat
    requires AllDigits(s)
  {
    if s == [] then 0 else DigitsValue(s[..|s| - 1]) * 10 + DigitValue(s[|s| - 1])
  }

  /** `format!("{}", n)` for a natural number. */
  function Decimal(n: nat): (s: string)
    ensures |s| > 0 && AllDigits(s)
  {
    if n < 10 then [DigitChar(n)] else Decimal(n / 10) + [DigitChar(n % 10)]
  }

  /** The `Display` texts of the three `ParseIntError` kinds a `u32` parse can report. */
  const EmptyMessage := "cannot parse integer from empty string"
  const InvalidDigitMessage := "invalid digit found in string"
  const OverflowMessage := "number too large to fit in target type"

  /** The digits `str::parse::<u32>` reads: `s` without one leading `+`. */
  function Unsigned(s: string): string {
    if |s| > 0 && s[0] == '+' then s[1..] else s
  }

  /**
   * Read left to right, the digits of `ds` pass `u32::MAX` before any
   * character that is not a digit is reached.
   */
  predicate Overflows(ds: string) {
    exists n :: 0 < n <= |ds| && PrefixTooLarge(ds, n)
  }

  /** The first `n` characters of `ds` are digits whose value does not fit in a `u32`. */
  predicate PrefixTooLarge(ds: string, n: int) {
    0 < n <= |ds| && AllDigits(ds[..n]) && DigitsValue(ds[..n]) >= U32Limit
  }

  /**
   * `str::parse::<u32>`: an optional leading `+`, then at least one decimal
   * digit, with a value that fits in 32 bits. The empty string is `Empty`;
   * digits that pass `u32::MAX` before any other character are
   * `PosOverflow`; anything else is `InvalidDigit`. The error carries its
   * `Display` text.
   */
  function ParseU32(s: string): (r: Result<nat>)
    ensures r.Ok? ==> r.value < U32Limit
    ensures r == Err(EmptyMessage) <==> s == []
    ensures r.Err? ==> r.error == EmptyMessage || r.error == InvalidDigitMessage || r.error == OverflowMessage
  {
    var ds := Unsigned(s);
    if s == [] then Err(EmptyMessage)
    else if |ds| > 0 && AllDigits(ds) && DigitsValue(ds) < U32Limit then Ok(DigitsValue(ds))
    else if Overflows(ds) then Err(OverflowMessage)
    else Err(InvalidDigitMessage)
  }

  /** Dropping trailing digits never raises the value. */
  lemma {:induction false} DigitsValuePrefix(ds: string, k: nat)
    requires AllDigits(ds) && k <= |ds|
    ensures AllDigits(ds[..k]) && DigitsValue(ds[..k]) <= DigitsValue(ds)
    decreases |ds|
  {
    if k < |ds| {
      var init := ds[..|ds| - 1];
      DigitsValuePrefix(init, k);
      assert init[..k] == ds[..k];
      assert DigitsValue(ds) == DigitsValue(init) * 10 + DigitValue(ds[|ds| - 1]);
    } else {
      assert ds[..k] == ds;
    }
  }

  /**
   * On a string of digits (after an optional `+`) the error is
   * `PosOverflow` exactly when the value does not fit in a `u32`; the parse
   * succeeds otherwise.
   */
  lemma OverflowIffTooLarge(s: string)
    requires |Unsigned(s)| > 0 && AllDigits(Unsigned(s))
    ensures ParseU32(s) == Err(OverflowMessage) <==> DigitsValue(Unsigned(s)) >= U32Limit
    ensures ParseU32(s).Ok? <==> DigitsValue(Unsigned(s)) < U32Limit
  {
    var ds := Unsigned(s);
    if DigitsValue(ds) >= U32Limit {
      assert ds[..|ds|] == ds;
      assert PrefixTooLarge(ds, |ds|);
    } else {
      forall n | 0 < n <= |ds|
        ensures !PrefixTooLarge(ds, n)
      {
        DigitsValuePrefix(ds, n);
      }
    }
  }

  /** An empty string, a lone `+`, a sign `-` and a stray letter are each reported as such. */
  lemma ParseErrorExamples()
    ensures ParseU32("") == Err(EmptyMessage)
    ensures ParseU32("+") == Err(InvalidDigitMessage)
    ensures ParseU32("-1") == Err(InvalidDigitMessage)
    ensures ParseU32("1x") == Err(InvalidDigitMessage)
  {
    assert !IsDigit('-') && !IsDigit('x');
    forall n | 0 < n <= 2
      ensures !PrefixTooLarge("-1", n) && !PrefixTooLarge("1x", n)
    {
      assert "-1"[..n][0] == '-';
      if n == 1 {
        assert "1x"[..1] == "1" && "1"[..0] == "";
      } else {
        assert "1x"[..2] == "1x" && !IsDigit("1x"[1]);
      }
    }
  }

  lemma {:induction false} DecimalValue(n: nat)
    ensures DigitsValue(Decimal(n)) == n
    decreases n
  {
    if n >= 10 {
      DecimalValue(n / 10);
      var s := Decimal(n);
      assert s[..|s| - 1] == Decimal(n / 10);
    }
  }

  /** Printing a `u32` in decimal and parsing it back gives the number again. */
  lemma DecimalParses(n: nat)
    requires n < U32Limit
    ensures ParseU32(Decimal(n)) == Ok(n)
    ensures ParseU32(Trim(Decimal(n))) == Ok(n)
  {
    DecimalValue(n);
    var s := Decimal(n);
    assert IsDigit(s[0]) && IsDigit(s[|s| - 1]);
  }

  /** The first occurrence is the only index with `c` and no `c` before it. */
  lemma {:induction false} IndexOfUnique(s: string, c: char, k: nat)
    requires k < |s| && s[k] == c && c !in s[..k]
    ensures IndexOf(s, c) == k
  {
  }

  /** One step of `Split`: the piece before the first separator, then the rest split. */
  lemma SplitStep(s: string, sep: char, k: nat)
    requires k < |s| && s[k] == sep && sep !in s[..k]
    ensures Split(s, sep) == [s[..k]] + Split(s[k + 1..], sep)
  {
    IndexOfUnique(s, sep, k);
  }

  /** Without a separator in `a`, the first piece is all of `a`. */
  lemma SplitAppendFirst(a: string, b: string, sep: char)
    requires sep !in a
    ensures Split(a + [sep] + b, sep) == [a] + Split(b, sep)
  {
    var s := a + [sep] + b;
    assert s[..|a|] == a;
    SplitStep(s, sep, |a|);
    assert s[|a| + 1..] == b;
  }

  /** The first separator of `a` is the first separator of `a + [sep] + b`. */
  lemma SplitAppendLater(a: string, b: string, sep: char, k: nat)
    requires k < |a| && a[k] == sep && sep !in a[..k]
    ensures Split(a + [sep] + b, sep) == [a[..k]] + Split(a[k + 1..] + [sep] + b, sep)
  {
    var s := a + [sep] + b;
    assert s[..k] == a[..k];
    SplitStep(s, sep, k);
    assert s[k + 1..] == a[k + 1..] + [sep] + b;
  }

  lemma AppendAssoc(x: seq<string>, y: seq<string>, z: seq<string>)
    ensures x + (y + z) == (x + y) + z
  {
  }

  /** Splitting at a separator splits both sides independently. */
  lemma {:induction false} SplitAppend(a: string, b: string, sep: char)
    ensures Split(a + [sep] + b, sep) == Split(a, sep) + Split(b, sep)
    decreases |a|
  {
    if sep !in a {
      SplitAppendFirst(a, b, sep);
    } else {
      var k := IndexOf(a, sep);
      var rest := a[k + 1..];
      var x, y, z := [a[..k]], Split(rest, sep), Split(b, sep);
      assert Split(a + [sep] + b, sep) == x + Split(rest + [sep] + b, sep) by {
        SplitAppendLater(a, b, sep, k);
      }
      assert Split(rest + [sep] + b, sep) == y + z by {
        SplitAppend(rest, b, sep);
      }
      assert Split(a, sep) == x + y by {
        SplitStep(a, sep, k);
      }
      AppendAssoc(x, y, z);
    }
  }
}
