/**
 * The numbers the response reports: Python's int() on the running cost
 * (app.py:180) and the confidence sentence built from the anchor's score
 * (app.py:181), with its integer written out in decimal as str() does.
 */
module Analysis {

  /** Python's int() on a float: truncation toward zero. */
  function Truncate(x: real): (r: int)
    ensures 0.0 <= x ==> 0 <= r && r as real <= x < r as real + 1.0
    ensures x < 0.0 ==> r <= 0 && r as real - 1.0 < x <= r as real
  {
    if x >= 0.0 then x.Floor else -((-x).Floor)
  }

  /** On a whole number int() changes nothing: with whole prices total_cost is the sum. */
  lemma TruncateWhole(n: int)
    ensures Truncate(n as real) == n
  {
  }

  // ---------------------------------------------------------------------------
  // Decimal notation of an int, as str() writes it
  // ---------------------------------------------------------------------------

  function DigitChar(d: nat): (ch: char)
    requires d < 10
    ensures '0' <= ch <= '9' && ch as int - '0' as int == d
  {
    ('0' as int + d) as char
  }

  /** The decimal digits of `n`, without leading zeros. */
  function Digits(n: nat): (r: string)
    ensures r != []
    ensures forall k :: 0 <= k < |r| ==> '0' <= r[k] <= '9'
    ensures r[0] == '0' ==> n == 0 && r == "0"
  {
    if n < 10 then [DigitChar(n)] else Digits(n / 10) + [DigitChar(n % 10)]
  }

  function DecimalString(i: int): string {
    if i < 0 then "-" + Digits(-i) else Digits(i)
  }

  /** Reads a string of decimal digits back as a number. */
  function DigitsValue(s: string): int {
    if s == [] then 0 else DigitsValue(s[..|s| - 1]) * 10 + (s[|s| - 1] as int - '0' as int)
  }

  /** Reads an optionally negative decimal numeral back as a number. */
  function DecimalValue(s: string): int {
    if s != [] && s[0] == '-' then -DigitsValue(s[1..]) else DigitsValue(s)
  }

  lemma {:induction false} DigitsRoundTrip(n: nat)
    ensures DigitsValue(Digits(n)) == n
    decreases n
  {
    var s := Digits(n);
    if n < 10 {
      assert s == [DigitChar(n)] && s[..0] == [];
    } else {
      var front := Digits(n / 10);
      DigitsRoundTrip(n / 10);
      assert s == front + [DigitChar(n % 10)];
      assert s[..|s| - 1] == front && s[|s| - 1] == DigitChar(n % 10);
    }
  }

  /** The numeral that the confidence sentence shows denotes exactly the integer. */
  lemma {:induction false} DecimalRoundTrip(i: int)
    ensures DecimalValue(DecimalString(i)) == i
  {
    var s := DecimalString(i);
    if i < 0 {
      var d := Digits(-i);
      DigitsRoundTrip(-i);
      assert s == "-" + d;
      assert s[0] == '-' && s[1..] == d;
    } else {
      var d := Digits(i);
      DigitsRoundTrip(i);
      assert s == d && d[0] != '-';
    }
  }

  // ---------------------------------------------------------------------------
  // The confidence sentence (app.py:181)
  // ---------------------------------------------------------------------------

  /** The anchor's score as a whole percentage: int(score * 100). */
  function Percent(score: real): (r: int)
    ensures 0.0 <= score ==> r as real <= 100.0 * score < r as real + 1.0
    ensures score < 0.0 ==> r as real - 1.0 < 100.0 * score <= r as real
  {
    Truncate(score * 100.0)
  }

  function IntentAnalysis(vibe: string, anchorScore: real): string {
    "Analysis: Optimized for '" + vibe + "' vibe with " + DecimalString(Percent(anchorScore)) +
    "% confidence."
  }

  /** The sentence names the vibe right after its fixed 25-character opening. */
  lemma IntentAnalysisNamesVibe(vibe: string, anchorScore: real)
    ensures IntentAnalysis(vibe, anchorScore)[25..25 + |vibe|] == vibe
  {
    var rest := "' vibe with " + DecimalString(Percent(anchorScore)) + "% confidence.";
    assert IntentAnalysis(vibe, anchorScore) == "Analysis: Optimized for '" + vibe + rest;
  }
}
