/**
 The text side of plate recognition: the post-filter that turns a raw OCR
 reading into a plate text or nothing, the decimal rendering Python's
 f-strings use, and the `UNKNOWN_<n>` placeholder stored for plates whose
 text could not be read.
 */
module PlateText {
  import opened Wrappers

  /** Shortest and longest text accepted as a plate reading. */
  const MinTextLength: nat := 4
  const MaxTextLength: nat := 15

  /** Python's `str.isspace`: the separators `str.split()` splits on. */
  predicate IsSpace(c: char) {
    var n := c as int;
    || n == 0x20 || 0x09 <= n <= 0x0D || 0x1C <= n <= 0x1F || n == 0x85 || n == 0xA0
    || n == 0x1680 || 0x2000 <= n <= 0x200A || n == 0x2028 || n == 0x2029
    || n == 0x202F || n == 0x205F || n == 0x3000
  }

  predicate NoSpaces(s: string) {
    forall i :: 0 <= i < |s| ==> !IsSpace(s[i])
  }

  /**
   `''.join(s.split())`: joining the maximal whitespace-free runs of `s`
   is the same as deleting every whitespace character.
   */
  function RemoveSpaces(s: string): (r: string)
    ensures NoSpaces(r)
    ensures |r| <= |s|
    ensures forall c :: c in r ==> c in s
  {
    if |s| == 0 then ""
    else (if IsSpace(s[0]) then "" else [s[0]]) + RemoveSpaces(s[1..])
  }

  /** Deleting whitespace distributes over concatenation. */
  lemma {:induction false} RemoveSpacesConcat(a: string, b: string)
    ensures RemoveSpaces(a + b) == RemoveSpaces(a) + RemoveSpaces(b)
    decreases |a|
  {
    if |a| == 0 {
      assert a + b == b;
    } else {
      assert (a + b)[1..] == a[1..] + b;
      RemoveSpacesConcat(a[1..], b);
    }
  }

  /** Deleting whitespace changes a string exactly when it holds some. */
  lemma {:induction false} RemoveSpacesFixedPoint(s: string)
    ensures RemoveSpaces(s) == s <==> NoSpaces(s)
    decreases |s|
  {
    if |s| > 0 {
      RemoveSpacesFixedPoint(s[1..]);
      assert NoSpaces(s) <==> !IsSpace(s[0]) && NoSpaces(s[1..]) by {
        forall i | 0 <= i < |s[1..]| ensures s[1..][i] == s[i + 1] {}
      }
      if IsSpace(s[0]) {
        assert |RemoveSpaces(s)| < |s|;
      } else {
        assert s == [s[0]] + s[1..];
        assert RemoveSpaces(s) == [s[0]] + RemoveSpaces(s[1..]);
      }
    }
  }

  /** `str.lstrip()` with no argument. */
  function TrimLeft(s: string): string
    decreases |s|
  {
    if |s| > 0 && IsSpace(s[0]) then TrimLeft(s[1..]) else s
  }

  /** `str.rstrip()` with no argument. */
  function TrimRight(s: string): string
    decreases |s|
  {
    if |s| > 0 && IsSpace(s[|s| - 1]) then TrimRight(s[..|s| - 1]) else s
  }

  /** `str.strip()` with no argument. */
  function Strip(s: string): string {
    TrimRight(TrimLeft(s))
  }

  lemma {:induction false} TrimLeftKeepsContent(s: string)
    ensures RemoveSpaces(TrimLeft(s)) == RemoveSpaces(s)
    decreases |s|
  {
    if |s| > 0 && IsSpace(s[0]) {
      TrimLeftKeepsContent(s[1..]);
    }
  }

  lemma {:induction false} TrimRightKeepsContent(s: string)
    ensures RemoveSpaces(TrimRight(s)) == RemoveSpaces(s)
    decreases |s|
  {
    if |s| > 0 && IsSpace(s[|s| - 1]) {
      var init := s[..|s| - 1];
      TrimRightKeepsContent(init);
      assert s == init + [s[|s| - 1]];
      RemoveSpacesConcat(init, [s[|s| - 1]]);
      assert RemoveSpaces([s[|s| - 1]]) == "";
    }
  }

  /** The `strip()` before the split-and-join removes nothing the join would keep. */
  lemma StripIsRedundant(s: string)
    ensures RemoveSpaces(Strip(s)) == RemoveSpaces(s)
  {
    TrimLeftKeepsContent(s);
    TrimRightKeepsContent(TrimLeft(s));
  }

  /**
   The post-filter of `extract_plate_text`: `raw` is tesseract's output, or
   None when tesseract is not installed or raised. The reading is stripped,
   all whitespace is deleted, and a result shorter than 4 or longer than 15
   characters is rejected.
   */
  function ExtractPlateText(raw: Option<string>): (r: Option<string>)
    ensures r.Some? <==> raw.Some? && MinTextLength <= |RemoveSpaces(raw.value)| <= MaxTextLength
    ensures r.Some? ==> r.value == RemoveSpaces(raw.value)
    ensures r.Some? ==> NoSpaces(r.value) && MinTextLength <= |r.value| <= MaxTextLength
  {
    match raw
    case None => None
    case Some(reading) =>
      var text := RemoveSpaces(Strip(reading));
      StripIsRedundant(reading);
      if |text| < MinTextLength || |text| > MaxTextLength then None else Some(text)
  }

  /** A reading that is already a clean plate text passes the filter unchanged. */
  lemma CleanReadingPasses(s: string)
    requires NoSpaces(s) && MinTextLength <= |s| <= MaxTextLength
    ensures ExtractPlateText(Some(s)) == Some(s)
  {
    RemoveSpacesFixedPoint(s);
  }

  /** Filtering a filtered reading again changes nothing. */
  lemma ExtractIsIdempotent(raw: Option<string>)
    ensures ExtractPlateText(ExtractPlateText(raw)) == ExtractPlateText(raw)
  {
    var r := ExtractPlateText(raw);
    if r.Some? {
      CleanReadingPasses(r.value);
    }
  }

  function DigitChar(d: nat): (c: char)
    requires d < 10
    ensures '0' <= c <= '9'
  {
    ('0' as int + d) as char
  }

  function DigitValue(c: char): nat {
    if '0' <= c <= '9' then (c as int - '0' as int) else 0
  }

  /** `str(n)` for a non-negative integer: its decimal digits, no leading zeros. */
  function Decimal(n: nat): (s: string)
    ensures |s| >= 1 && (|s| == 1 <==> n < 10)
    // a leading '0' only for zero itself
    ensures s[0] == '0' <==> n == 0
    ensures forall i :: 0 <= i < |s| ==> '0' <= s[i] <= '9'
    decreases n
  {
    if n < 10 then [DigitChar(n)] else Decimal(n / 10) + [DigitChar(n % 10)]
  }

  /** Reads a string of decimal digits back as a number. */
  function ParseDecimal(s: string): nat
    decreases |s|
  {
    if |s| == 0 then 0 else ParseDecimal(s[..|s| - 1]) * 10 + DigitValue(s[|s| - 1])
  }

  lemma {:induction false} DecimalRoundTrip(n: nat)
    ensures ParseDecimal(Decimal(n)) == n
    decreases n
  {
    if n >= 10 {
      var s := Decimal(n);
      assert s[..|s| - 1] == Decimal(n / 10);
      assert s[|s| - 1] == DigitChar(n % 10);
      DecimalRoundTrip(n / 10);
    }
  }

  lemma DecimalInjective(a: nat, b: nat)
    requires Decimal(a) == Decimal(b)
    ensures a == b
  {
    DecimalRoundTrip(a);
    DecimalRoundTrip(b);
  }

  const UnknownPrefix: string := "UNKNOWN_"

  /** The `UNKNOWN_{n}` text stored for a plate whose text was not read. */
  function Placeholder(n: nat): (s: string)
    ensures IsPlaceholder(s)
  {
    UnknownPrefix + Decimal(n)
  }

  predicate IsPlaceholder(s: string) {
    |s| >= |UnknownPrefix| && s[..|UnknownPrefix|] == UnknownPrefix
  }

  /** Distinct numbers give distinct placeholders. */
  lemma PlaceholderInjective(a: nat, b: nat)
    requires Placeholder(a) == Placeholder(b)
    ensures a == b
  {
    assert Placeholder(a)[|UnknownPrefix|..] == Decimal(a);
    assert Placeholder(b)[|UnknownPrefix|..] == Decimal(b);
    DecimalInjective(a, b);
  }

  /** A text without an underscore is never mistaken for a placeholder. */
  lemma NoUnderscoreNoPlaceholder(s: string)
    requires '_' !in s
    ensures !IsPlaceholder(s)
  {
    if |s| >= |UnknownPrefix| {
      assert s[..|UnknownPrefix|][7] == s[7];
      assert s[7] in s;
    }
  }
}
