/**
 * What the standard C++ stream extractions used by the loader read from text:
 * `stream >> word` into a std::string, and `stream >> n` into an `unsigned int`
 * under C++11 rules, in the "C" locale with the default decimal base.
 */
module StreamText {

  /** The largest `unsigned int`; the source's unsigned arithmetic wraps modulo UINT_MAX + 1. */
  const UINT_MAX: int := 0xFFFF_FFFF

  type UInt32 = x: int | 0 <= x <= 0xFFFF_FFFF

  /** Whitespace as `isspace` classifies it in the "C" locale: space, \t, \n, \v, \f, \r. */
  predicate IsSpace(c: char) {
    c == ' ' || ('\t' <= c <= '\r')
  }

  predicate IsDigit(c: char) {
    '0' <= c <= '9'
  }

  /** A word as `>>` into a string delivers it: non-empty, without whitespace. */
  predicate IsWord(w: string) {
    |w| > 0 && forall i :: 0 <= i < |w| ==> !IsSpace(w[i])
  }

  predicate AllDigits(s: string) {
    forall i :: 0 <= i < |s| ==> IsDigit(s[i])
  }

  /** `(x - 1)` evaluated on `unsigned int`: wraps 0 around to UINT_MAX. */
  function Decrement(x: UInt32): (r: UInt32)
    ensures x > 0 ==> r == x - 1
    ensures x == 0 ==> r == UINT_MAX
  {
    (x - 1) % (UINT_MAX + 1)
  }

  // ---------------------------------------------------------------------------
  // Words

  /** Length of the run of non-whitespace characters at the front of `s`. */
  function WordLength(s: string): (n: nat)
    ensures n <= |s|
    ensures forall i :: 0 <= i < n ==> !IsSpace(s[i])
    ensures n == |s| || IsSpace(s[n])
  {
    if s == [] || IsSpace(s[0]) then 0 else 1 + WordLength(s[1..])
  }

  /** The words that repeated `stream >> word` extracts from `s`, in order, until extraction fails. */
  function Tokens(s: string): (ts: seq<string>)
    ensures forall j :: 0 <= j < |ts| ==> IsWord(ts[j])
    decreases |s|
  {
    if s == [] then []
    else if IsSpace(s[0]) then Tokens(s[1..])
    else
      var n := WordLength(s);
      [s[..n]] + Tokens(s[n..])
  }

  /** What a string stream has left after `>>` skips leading whitespace. */
  function SkipSpace(s: string): (r: string)
    ensures |r| <= |s| && r == s[|s| - |r|..]
    ensures r == [] || !IsSpace(r[0])
    ensures Tokens(r) == Tokens(s)
  {
    if s != [] && IsSpace(s[0]) then
      var r := SkipSpace(s[1..]);
      assert s[1..][|s| - 1 - |r|..] == s[|s| - |r|..];
      assert Tokens(s) == Tokens(s[1..]);
      r
    else s
  }

  /** Words separated by single spaces: the simplest text that carries them. */
  function JoinWords(ws: seq<string>): string {
    if ws == [] then []
    else if |ws| == 1 then ws[0]
    else ws[0] + " " + JoinWords(ws[1..])
  }

  lemma {:induction false} WordLengthOfWord(w: string, rest: string)
    requires IsWord(w)
    requires rest == [] || IsSpace(rest[0])
    ensures WordLength(w + rest) == |w|
  {
    if |w| > 1 {
      assert (w + rest)[1..] == w[1..] + rest;
      WordLengthOfWord(w[1..], rest);
    } else {
      assert (w + rest)[1..] == rest;
    }
  }

  /** A word followed by whitespace or the end of the text is extracted whole. */
  lemma TokensOfWord(w: string, rest: string)
    requires IsWord(w)
    requires rest == [] || IsSpace(rest[0])
    ensures Tokens(w + rest) == [w] + Tokens(rest)
  {
    WordLengthOfWord(w, rest);
    var s := w + rest;
    assert s[..|w|] == w && s[|w|..] == rest;
  }

  /** Extracting the words of space-joined words gives back exactly those words. */
  lemma {:induction false} TokensOfJoinWords(ws: seq<string>)
    requires forall j :: 0 <= j < |ws| ==> IsWord(ws[j])
    ensures Tokens(JoinWords(ws)) == ws
  {
    if |ws| == 1 {
      TokensOfWord(ws[0], []);
      assert ws[0] + [] == ws[0];
    } else if |ws| > 1 {
      var tail := " " + JoinWords(ws[1..]);
      assert JoinWords(ws) == ws[0] + tail;
      TokensOfWord(ws[0], tail);
      assert tail[1..] == JoinWords(ws[1..]);
      TokensOfJoinWords(ws[1..]);
    }
  }

  // ---------------------------------------------------------------------------
  // Unsigned decimal numbers

  /** The digits `>>` on an integer accumulates: the run of decimal digits at the front of `s`. */
  function LeadingDigits(s: string): (d: string)
    ensures |d| <= |s| && d == s[..|d|]
    ensures AllDigits(d)
    ensures |d| == |s| || !IsDigit(s[|d|])
  {
    if s != [] && IsDigit(s[0]) then [s[0]] + LeadingDigits(s[1..]) else []
  }

  function DigitValue(c: char): nat
    requires IsDigit(c)
  {
    c as int - '0' as int
  }

  /** The number a run of decimal digits denotes, most significant digit first. */
  function DecimalValue(d: string): nat
    requires AllDigits(d)
  {
    if d == [] then 0 else 10 * DecimalValue(d[..|d| - 1]) + DigitValue(d[|d| - 1])
  }

  /** The canonical decimal spelling of `n`, without leading zeros. */
  function DecimalString(n: nat): (d: string)
    ensures |d| > 0 && AllDigits(d)
  {
    if n < 10 then [('0' as int + n) as char]
    else DecimalString(n / 10) + [('0' as int + n % 10) as char]
  }

  /**
   * `stream >> x` into an `unsigned int`, C++11: the leading decimal digits; 0 when
   * there are none (failed extraction stores zero); UINT_MAX when the value does not fit.
   */
  function ExtractUInt(s: string): UInt32 {
    var d := LeadingDigits(s);
    if d == [] then 0
    else if DecimalValue(d) > UINT_MAX then UINT_MAX
    else DecimalValue(d)
  }

  lemma {:induction false} DecimalRoundTrip(n: nat)
    ensures DecimalValue(DecimalString(n)) == n
  {
    if n >= 10 {
      var d := DecimalString(n);
      assert d[..|d| - 1] == DecimalString(n / 10);
      DecimalRoundTrip(n / 10);
    }
  }

  /** Extraction stops at the first non-digit: digits followed by anything else read as the digits. */
  lemma {:induction false} LeadingDigitsOfNumber(d: string, rest: string)
    requires AllDigits(d)
    requires rest == [] || !IsDigit(rest[0])
    ensures LeadingDigits(d + rest) == d
  {
    if d == [] {
      assert d + rest == rest;
    } else {
      assert (d + rest)[1..] == d[1..] + rest;
      LeadingDigitsOfNumber(d[1..], rest);
    }
  }

  /** A number in range spelled in decimal, followed by a non-digit or nothing, is read back exactly. */
  lemma ExtractUIntOfDecimal(n: nat, rest: string)
    requires n <= UINT_MAX
    requires rest == [] || !IsDigit(rest[0])
    ensures ExtractUInt(DecimalString(n) + rest) == n
  {
    LeadingDigitsOfNumber(DecimalString(n), rest);
    DecimalRoundTrip(n);
  }

  /** Only the leading digits matter: whatever follows them never reaches the value read. */
  lemma ExtractUIntOnlyDigits(s: string)
    ensures ExtractUInt(s) == ExtractUInt(LeadingDigits(s))
  {
    var d := LeadingDigits(s);
    LeadingDigitsOfNumber(d, []);
    assert d + [] == d;
  }
}
