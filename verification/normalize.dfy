/**
 * Normalisation of the three fields of an inbound webhook signal: the
 * direction ("buy"/"sell" become "LONG"/"SHORT"), the timeframe (spellings
 * of minutes become a trailing "m") and the symbol (upper-cased, everything
 * but A-Z dropped). Case mapping is modelled for ASCII text only.
 */
module Normalize {

  predicate IsAscii(s: string) {
    forall i :: 0 <= i < |s| ==> s[i] as int < 128
  }

  predicate IsUpperLetter(c: char) {
    'A' <= c <= 'Z'
  }

  predicate IsLowerLetter(c: char) {
    'a' <= c <= 'z'
  }

  /** Every character of `s` is one of A-Z. */
  predicate AllUpperLetters(s: string) {
    forall i :: 0 <= i < |s| ==> IsUpperLetter(s[i])
  }

  function LowerChar(c: char): char {
    if IsUpperLetter(c) then (c as int + 32) as char else c
  }

  function UpperChar(c: char): char {
    if IsLowerLetter(c) then (c as int - 32) as char else c
  }

  /** Python's `str.lower()` on ASCII text. */
  function Lower(s: string): string {
    seq(|s|, i requires 0 <= i < |s| => LowerChar(s[i]))
  }

  /** Python's `str.upper()` on ASCII text. */
  function Upper(s: string): string {
    seq(|s|, i requires 0 <= i < |s| => UpperChar(s[i]))
  }

  /** A lower-cased string holds no upper-case letter, and upper-casing it again gives back the upper-cased original. */
  lemma LowerThenUpper(s: string)
    ensures forall i :: 0 <= i < |Lower(s)| ==> !IsUpperLetter(Lower(s)[i])
    ensures Upper(Lower(s)) == Upper(s)
  {
  }

  /** On text without upper-case letters, upper-casing is undone by lower-casing. */
  lemma UpperRoundTrip(s: string)
    requires forall i :: 0 <= i < |s| ==> !IsUpperLetter(s[i])
    ensures Lower(Upper(s)) == s
  {
  }

  /**
   * Python's `s.replace(pat, rep)`: scanning from the left, every
   * non-overlapping occurrence of `pat` is replaced by `rep`.
   */
  function ReplaceAll(s: string, pat: string, rep: string): string
    requires |pat| > 0
    decreases |s|
  {
    if |s| < |pat| then s
    else if s[..|pat|] == pat then rep + ReplaceAll(s[|pat|..], pat, rep)
    else [s[0]] + ReplaceAll(s[1..], pat, rep)
  }

  /** A prefix containing no occurrence of `pat`'s first character passes through the replacement unchanged. */
  lemma {:induction false} ReplaceAllSkips(a: string, b: string, pat: string, rep: string)
    requires |pat| > 0
    requires forall i :: 0 <= i < |a| ==> a[i] != pat[0]
    ensures ReplaceAll(a + b, pat, rep) == a + ReplaceAll(b, pat, rep)
    decreases |a|
  {
    if |a| > 0 {
      var s := a + b;
      assert s[0] == a[0] != pat[0];
      if |s| >= |pat| {
        assert s[..|pat|] != pat;
        assert s[1..] == a[1..] + b;
        ReplaceAllSkips(a[1..], b, pat, rep);
        assert [a[0]] + a[1..] == a;
      } else {
        assert |b| < |pat|;
      }
    } else {
      assert a + b == b;
    }
  }

  // ---------------------------------------------------------------------
  // Signal
  // ---------------------------------------------------------------------

  /** The direction of a signal: "buy" and "sell" in any case become "LONG" and "SHORT"; anything else is upper-cased. */
  function NormalizeSignal(raw: string): (r: string)
    requires IsAscii(raw)
    ensures r == "LONG" <==> Lower(raw) == "buy" || Lower(raw) == "long"
    ensures r == "SHORT" <==> Lower(raw) == "sell" || Lower(raw) == "short"
    ensures Lower(raw) != "buy" && Lower(raw) != "sell" ==> r == Upper(raw)
  {
    var s := Lower(raw);
    LowerThenUpper(raw);
    UpperRoundTrip(s);
    if s == "buy" then "LONG"
    else if s == "sell" then "SHORT"
    else Upper(s)
  }

  /** A normalised signal normalises to itself. */
  lemma NormalizeSignalIdempotent(raw: string)
    requires IsAscii(raw)
    ensures IsAscii(NormalizeSignal(raw))
    ensures NormalizeSignal(NormalizeSignal(raw)) == NormalizeSignal(raw)
  {
    var r := NormalizeSignal(raw);
    if Lower(raw) != "buy" && Lower(raw) != "sell" {
      LowerThenUpper(raw);
      assert Lower(r) == Lower(raw) by {
        LowerThenUpper(Lower(raw));
        UpperRoundTrip(Lower(raw));
      }
    }
  }

  // ---------------------------------------------------------------------
  // Timeframe
  // ---------------------------------------------------------------------

  predicate EndsInM(s: string) {
    |s| > 0 && s[|s| - 1] == 'm'
  }

  /** The timeframe, lower-cased, with "minutes" and then "min" replaced by "m", and "m" appended unless it already ends so. */
  function NormalizeTimeframe(raw: string): (r: string)
    requires IsAscii(raw)
    ensures EndsInM(r)
  {
    var t := ReplaceAll(ReplaceAll(Lower(raw), "minutes", "m"), "min", "m");
    if EndsInM(t) then t else t + "m"
  }

  predicate AllDigits(s: string) {
    forall i :: 0 <= i < |s| ==> '0' <= s[i] <= '9'
  }

  /**
   * A count of minutes written bare, or followed by "m", "min" or "minutes"
   * in any case, normalises to the count followed by "m"; so "5", "5m",
   * "5min" and "5MINUTES" all become "5m".
   */
  lemma MinuteSpellings(n: string, unit: string)
    requires AllDigits(n) && IsAscii(unit)
    requires Lower(unit) in {"", "m", "min", "minutes"}
    ensures NormalizeTimeframe(n + unit) == n + "m"
  {
    var u := Lower(unit);
    assert Lower(n + unit) == n + u;
    ReplaceAllSkips(n, u, "minutes", "m");
    var v := ReplaceAll(u, "minutes", "m");
    assert v == (if u == "" then "" else if u == "min" then "min" else "m");
    ReplaceAllSkips(n, v, "min", "m");
    var w := ReplaceAll(v, "min", "m");
    assert w == (if u == "" then "" else "m");
    if u == "" {
      assert n + w == n;
    }
  }

  /** "5MINUTES" is the five-minute timeframe: the timeframe is lower-cased before the units are replaced. */
  lemma FiveMinutesUpperCase()
    ensures NormalizeTimeframe("5MINUTES") == "5m"
  {
    var u := "MINUTES";
    assert Lower(u) == "minutes" by {
      var l := Lower(u);
      assert |l| == 7;
      assert l[0] == 'm' && l[1] == 'i' && l[2] == 'n' && l[3] == 'u';
      assert l[4] == 't' && l[5] == 'e' && l[6] == 's';
    }
    MinuteSpellings("5", u);
    assert "5" + u == "5MINUTES";
  }

  // ---------------------------------------------------------------------
  // Symbol
  // ---------------------------------------------------------------------

  /** `re.sub(r'[^A-Z]', '', s)`: the characters A-Z of `s`, in order. */
  function KeepUpperLetters(s: string): (r: string)
    ensures AllUpperLetters(r)
    ensures |r| <= |s|
  {
    if |s| == 0 then []
    else (if IsUpperLetter(s[0]) then [s[0]] else []) + KeepUpperLetters(s[1..])
  }

  lemma {:induction false} KeepUpperLettersConcat(a: string, b: string)
    ensures KeepUpperLetters(a + b) == KeepUpperLetters(a) + KeepUpperLetters(b)
    decreases |a|
  {
    if |a| > 0 {
      assert (a + b)[1..] == a[1..] + b;
      KeepUpperLettersConcat(a[1..], b);
    } else {
      assert a + b == b;
    }
  }

  /** Text made of A-Z only is kept whole; in the other direction the result is always A-Z only. */
  lemma {:induction false} KeepUpperLettersFixpoint(s: string)
    ensures KeepUpperLetters(s) == s <==> AllUpperLetters(s)
    decreases |s|
  {
    if |s| > 0 && AllUpperLetters(s) {
      KeepUpperLettersFixpoint(s[1..]);
    }
  }

  /** Text without any ASCII letter leaves nothing. */
  lemma {:induction false} KeepUpperLettersNone(s: string)
    requires forall i :: 0 <= i < |s| ==> !IsUpperLetter(UpperChar(s[i]))
    ensures KeepUpperLetters(Upper(s)) == []
    decreases |s|
  {
    if |s| > 0 {
      assert Upper(s)[1..] == Upper(s[1..]);
      KeepUpperLettersNone(s[1..]);
    }
  }

  /** The inbound symbol: upper-cased, then everything but A-Z dropped. */
  function CleanSymbol(raw: string): (r: string)
    requires IsAscii(raw)
    ensures AllUpperLetters(r)
    ensures |r| <= |raw|
  {
    KeepUpperLetters(Upper(raw))
  }

  /** Cleaning distributes over concatenation. */
  lemma CleanSymbolConcat(a: string, b: string)
    requires IsAscii(a) && IsAscii(b)
    ensures IsAscii(a + b)
    ensures CleanSymbol(a + b) == CleanSymbol(a) + CleanSymbol(b)
  {
    assert Upper(a + b) == Upper(a) + Upper(b);
    KeepUpperLettersConcat(Upper(a), Upper(b));
  }

  /** A symbol is left unchanged by cleaning exactly when it is made of A-Z only. */
  lemma CleanSymbolFixpoint(s: string)
    requires IsAscii(s)
    ensures CleanSymbol(s) == s <==> AllUpperLetters(s)
  {
    if AllUpperLetters(s) {
      assert Upper(s) == s;
      KeepUpperLettersFixpoint(s);
    }
  }

  /** Cleaning a cleaned symbol changes nothing. */
  lemma CleanSymbolIdempotent(raw: string)
    requires IsAscii(raw)
    ensures IsAscii(CleanSymbol(raw))
    ensures CleanSymbol(CleanSymbol(raw)) == CleanSymbol(raw)
  {
    CleanSymbolFixpoint(CleanSymbol(raw));
  }

  /** A symbol spelled with ASCII letters only comes back upper-cased. */
  lemma {:induction false} CleanSymbolLetters(s: string)
    requires forall i :: 0 <= i < |s| ==> IsUpperLetter(s[i]) || IsLowerLetter(s[i])
    ensures IsAscii(s)
    ensures CleanSymbol(s) == Upper(s)
  {
    assert AllUpperLetters(Upper(s));
    KeepUpperLettersFixpoint(Upper(s));
  }

  /** An exchange prefix such as "NSE:" loses only its colon: its letters stay in the symbol. */
  lemma ExchangePrefixKept(s: string)
    requires IsAscii(s)
    ensures CleanSymbol("NSE:" + s) == "NSE" + CleanSymbol(s)
  {
    CleanSymbolConcat("NSE:", s);
    assert CleanSymbol("NSE:") == "NSE";
  }

  /** Punctuation, digits and spaces alone clean to the empty symbol. */
  lemma CleanSymbolNoLetters(s: string)
    requires IsAscii(s)
    requires forall i :: 0 <= i < |s| ==> !IsUpperLetter(s[i]) && !IsLowerLetter(s[i])
    ensures CleanSymbol(s) == []
  {
    KeepUpperLettersNone(s);
  }
}
