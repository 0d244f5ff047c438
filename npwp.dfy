/**
 * The NPWP helpers: an NPWP is the 15-digit Indonesian taxpayer number, kept
 * bare ("123456789012345") for storage and shown punctuated as
 * XX.XXX.XXX.X-XXX.XXX ("12.345.678.9-012.345").
 *
 * JavaScript's falsy inputs (null, undefined and '') all take the same
 * early-return branch in each function, so they are modelled by "".
 */
module Npwp {

  /** The characters the regular expression /[.-]/g removes. */
  predicate IsSeparator(c: char) {
    c == '.' || c == '-'
  }

  /** The characters \d matches in a JavaScript regular expression. */
  predicate IsDigit(c: char) {
    '0' <= c <= '9'
  }

  predicate NoSeparators(s: string) {
    forall i :: 0 <= i < |s| ==> !IsSeparator(s[i])
  }

  predicate AllDigits(s: string) {
    forall i :: 0 <= i < |s| ==> IsDigit(s[i])
  }

  /** Length of a bare NPWP. */
  const NpwpLength := 15

  /** cleanNPWP: every '.' and '-' removed, every other character kept, in order. */
  function Clean(s: string): (r: string)
    ensures |r| <= |s|
    ensures NoSeparators(r)
  {
    if s == [] then ""
    else (if IsSeparator(s[0]) then "" else [s[0]]) + Clean(s[1..])
  }

  /** The template XX.XXX.XXX.X-XXX.XXX filled with the 15 characters of `d`. */
  function Punctuate(d: string): string
    requires |d| == NpwpLength
  {
    d[0..2] + "." + d[2..5] + "." + d[5..8] + "." + d[8..9] + "-" + d[9..12] + "." + d[12..15]
  }

  /** formatNPWP: the punctuated form when the cleaned input has 15 characters, else the input itself. */
  function Format(s: string): (r: string)
    ensures |Clean(s)| != NpwpLength ==> r == s
    ensures |Clean(s)| == NpwpLength ==> Punctuated(r, Clean(s))
  {
    if s == [] then ""
    else
      var d := Clean(s);
      if |d| != NpwpLength then s
      else PunctuateLayout(d); Punctuate(d)
  }

  /** validateNPWP: the cleaned input matches /^\d{15}$/. */
  function Validate(s: string): (ok: bool)
    ensures ok <==> s != [] && |Clean(s)| == NpwpLength && AllDigits(Clean(s))
  {
    if s == [] then false
    else MatchesDigits(Clean(s), NpwpLength)
  }

  /** The regular expression /^\d{n}$/: exactly n digits and nothing else. */
  function MatchesDigits(c: string, n: nat): (m: bool)
    ensures m <==> |c| == n && AllDigits(c)
  {
    if n == 0 then c == []
    else c != [] && IsDigit(c[0]) && MatchesDigits(c[1..], n - 1)
  }

  /** Position of the k-th bare character in the punctuated form. */
  function Slot(k: nat): nat
    requires k < NpwpLength
  {
    if k < 2 then k
    else if k < 5 then k + 1
    else if k < 8 then k + 2
    else if k < 9 then k + 3
    else if k < 12 then k + 4
    else k + 5
  }

  /**
   * `r` is `d` laid out as XX.XXX.XXX.X-XXX.XXX: 20 characters, dots at 2, 6,
   * 10 and 16, a dash at 12, and the characters of `d` in order elsewhere.
   */
  ghost predicate Punctuated(r: string, d: string) {
    |d| == NpwpLength && |r| == 20 &&
    r[2] == '.' && r[6] == '.' && r[10] == '.' && r[12] == '-' && r[16] == '.' &&
    forall k :: 0 <= k < NpwpLength ==> r[Slot(k)] == d[k]
  }

  lemma PunctuateLayout(d: string)
    requires |d| == NpwpLength
    ensures Punctuated(Punctuate(d), d)
  {
  }

  /** The layout determines the string: at most one string punctuates `d`. */
  lemma PunctuatedUnique(r1: string, r2: string, d: string)
    requires Punctuated(r1, d) && Punctuated(r2, d)
    ensures r1 == r2
  {
    forall i | 0 <= i < 20
      ensures r1[i] == r2[i]
    {
      if i != 2 && i != 6 && i != 10 && i != 12 && i != 16 {
        var k := if i < 2 then i else if i < 6 then i - 1 else if i < 10 then i - 2
                 else if i < 12 then i - 3 else if i < 16 then i - 4 else i - 5;
        assert Slot(k) == i;
      }
    }
  }

  /** Removing separators distributes over concatenation. */
  lemma {:induction false} CleanAppend(a: string, b: string)
    ensures Clean(a + b) == Clean(a) + Clean(b)
  {
    if a == [] {
      assert a + b == b;
    } else {
      assert (a + b)[1..] == a[1..] + b;
      CleanAppend(a[1..], b);
    }
  }

  /** Clean keeps every other character as often as it occurs and drops every separator. */
  lemma {:induction false} CleanContents(s: string)
    ensures forall c :: multiset(Clean(s))[c] == if IsSeparator(c) then 0 else multiset(s)[c]
  {
    if s != [] {
      CleanContents(s[1..]);
      assert s == [s[0]] + s[1..];
    }
  }

  /** A string without separators is already clean (the test "already clean NPWP"). */
  lemma {:induction false} CleanIdentity(s: string)
    requires NoSeparators(s)
    ensures Clean(s) == s
  {
    if s != [] {
      CleanIdentity(s[1..]);
    }
  }

  lemma CleanIdempotent(s: string)
    ensures Clean(Clean(s)) == Clean(s)
  {
    CleanIdentity(Clean(s));
  }

  /** Cleaning the punctuated form gives back the bare characters. */
  lemma PunctuateRoundTrip(d: string)
    requires |d| == NpwpLength && NoSeparators(d)
    ensures Clean(Punctuate(d)) == d
  {
    var p0, p1, p2, p3, p4, p5 := d[0..2], d[2..5], d[5..8], d[8..9], d[9..12], d[12..15];
    CleanIdentity(p0);
    CleanIdentity(p1);
    CleanIdentity(p2);
    CleanIdentity(p3);
    CleanIdentity(p4);
    CleanIdentity(p5);
    CleanAppend(p0, ".");
    CleanAppend(p0 + ".", p1);
    CleanAppend(p0 + "." + p1, ".");
    CleanAppend(p0 + "." + p1 + ".", p2);
    CleanAppend(p0 + "." + p1 + "." + p2, ".");
    CleanAppend(p0 + "." + p1 + "." + p2 + ".", p3);
    CleanAppend(p0 + "." + p1 + "." + p2 + "." + p3, "-");
    CleanAppend(p0 + "." + p1 + "." + p2 + "." + p3 + "-", p4);
    CleanAppend(p0 + "." + p1 + "." + p2 + "." + p3 + "-" + p4, ".");
    CleanAppend(p0 + "." + p1 + "." + p2 + "." + p3 + "-" + p4 + ".", p5);
    assert p0 + p1 + p2 + p3 + p4 + p5 == d;
  }

  /** Round trip: when the input formats, cleaning the formatted string gives the cleaned input. */
  lemma FormatCleanRoundTrip(s: string)
    requires |Clean(s)| == NpwpLength
    ensures Clean(Format(s)) == Clean(s)
  {
    PunctuateRoundTrip(Clean(s));
  }

  /** Formatting twice is formatting once, for every input. */
  lemma FormatIdempotent(s: string)
    ensures Format(Format(s)) == Format(s)
  {
    if |Clean(s)| == NpwpLength {
      FormatCleanRoundTrip(s);
    }
  }

  /** The guard `if (!npwp) return false` is subsumed by the length test. */
  lemma ValidateWithoutGuard(s: string)
    ensures Validate(s) <==> |Clean(s)| == NpwpLength && AllDigits(Clean(s))
  {
    if s == [] {
      assert Clean(s) == [];
    }
  }

  /** A valid NPWP is always punctuated by Format, with 15 digits in the slots, and stays valid. */
  lemma ValidFormats(s: string)
    requires Validate(s)
    ensures Punctuated(Format(s), Clean(s))
    ensures forall k :: 0 <= k < NpwpLength ==> IsDigit(Format(s)[Slot(k)])
    ensures Validate(Format(s))
  {
    FormatCleanRoundTrip(s);
  }

  /** A bare 15-digit string validates, is its own cleaned form and formats to its punctuated layout. */
  lemma BareDigitsRoundTrip(d: string)
    requires |d| == NpwpLength && AllDigits(d)
    ensures Validate(d) && Clean(d) == d
    ensures Punctuated(Format(d), d) && Clean(Format(d)) == d
  {
    CleanIdentity(d);
    FormatCleanRoundTrip(d);
  }

  /** A bare string of any other length neither validates nor changes under Format. */
  lemma BareWrongLength(s: string)
    requires NoSeparators(s) && |s| != NpwpLength
    ensures !Validate(s) && Format(s) == s
  {
    CleanIdentity(s);
  }

  /** Format of a bare 15-digit string is the one string that punctuates it. */
  lemma FormatBareIs(d: string, r: string)
    requires |d| == NpwpLength && AllDigits(d) && Punctuated(r, d)
    ensures Format(d) == r
  {
    BareDigitsRoundTrip(d);
    PunctuatedUnique(Format(d), r, d);
  }

  /** Format does not check for digits: a 15-character non-digit string is punctuated, yet does not validate. */
  lemma FormatIgnoresDigits()
    ensures exists s :: !Validate(s) && Punctuated(Format(s), s)
  {
    var s := seq(NpwpLength, _ => 'x');
    CleanIdentity(s);
    assert !IsDigit(s[0]);
    assert !Validate(s) && Punctuated(Format(s), s);
  }

  /** Unit-test example: separators are removed from the punctuated form. */
  lemma CleanExample()
    ensures Clean("12.345.678.9-012.345") == "123456789012345"
  {
    var d := "123456789012345";
    PunctuateLayout(d);
    assert Punctuated("12.345.678.9-012.345", d);
    PunctuatedUnique(Punctuate(d), "12.345.678.9-012.345", d);
    assert NoSeparators(d);
    PunctuateRoundTrip(d);
  }

  /** Unit-test example: a bare NPWP is punctuated. */
  lemma FormatExample()
    ensures Format("123456789012345") == "12.345.678.9-012.345"
  {
    assert AllDigits("123456789012345");
    assert Punctuated("12.345.678.9-012.345", "123456789012345");
    FormatBareIs("123456789012345", "12.345.678.9-012.345");
  }

  /** Unit-test example: a formatted NPWP is formatted again to itself. */
  lemma FormatFormattedExample()
    ensures Format("12.345.678.9-012.345") == "12.345.678.9-012.345"
  {
    FormatExample();
    FormatIdempotent("123456789012345");
  }

  /** Unit-test example: a formatted NPWP validates. */
  lemma ValidateFormattedExample()
    ensures Validate("12.345.678.9-012.345")
  {
    var d := "123456789012345";
    assert AllDigits(d);
    BareDigitsRoundTrip(d);
    FormatExample();
    ValidFormats(d);
  }

  /** Unit-test example: 13 digits are passed through by Format and rejected by Validate. */
  lemma ShortExample()
    ensures Format("1234567890123") == "1234567890123"
    ensures !Validate("1234567890123")
  {
    assert NoSeparators("1234567890123");
    BareWrongLength("1234567890123");
  }

  /** Unit-test example: 17 digits are rejected by Validate. */
  lemma LongExample()
    ensures !Validate("12345678901234567")
  {
    assert NoSeparators("12345678901234567");
    BareWrongLength("12345678901234567");
  }
}
