/**
 * Decimal text of integers, as Swift's string interpolation writes an `Int`,
 * and the `"<width>x<height>"` resolution text that `RTMPSession.setResolution`
 * stores. The parsers are the partners of the formatters: every resolution
 * text reads back as the width and height it was made from.
 */
module Numerals {
  import opened Channel

  predicate IsDigit(c: char) {
    '0' <= c <= '9'
  }

  /** A non-empty run of decimal digits. */
  predicate IsNumeral(s: string) {
    |s| > 0 && forall i :: 0 <= i < |s| ==> IsDigit(s[i])
  }

  function DigitChar(d: nat): (c: char)
    requires d < 10
    ensures IsDigit(c) && c as int - '0' as int == d
  {
    ('0' as int + d) as char
  }

  /** The digits of `n`, most significant first, without leading zeros. */
  function NatText(n: nat): string
    decreases n
  {
    if n < 10 then [DigitChar(n)] else NatText(n / 10) + [DigitChar(n % 10)]
  }

  /** `"\(n)"` for a Swift `Int`. */
  function IntText(n: int): string {
    if n < 0 then "-" + NatText(-n) else NatText(n)
  }

  /** The number a run of digits denotes. */
  function DigitsValue(s: string): nat
    requires forall i :: 0 <= i < |s| ==> IsDigit(s[i])
  {
    if |s| == 0 then 0
    else 10 * DigitsValue(s[..|s| - 1]) + DigitValue(s[|s| - 1])
  }

  function DigitValue(c: char): nat
    requires IsDigit(c)
  {
    c as int - '0' as int
  }

  /** Reads an optional minus sign followed by digits. */
  function ParseInt(s: string): Option<int> {
    if |s| > 0 && s[0] == '-' then
      if IsNumeral(s[1..]) then Some(0 - DigitsValue(s[1..]) as int) else None
    else if IsNumeral(s) then Some(DigitsValue(s))
    else None
  }

  lemma {:induction false} NatTextIsNumeral(n: nat)
    ensures IsNumeral(NatText(n))
    ensures DigitsValue(NatText(n)) == n
    decreases n
  {
    if n >= 10 {
      NatTextIsNumeral(n / 10);
      var s := NatText(n);
      assert s[..|s| - 1] == NatText(n / 10);
    }
  }

  lemma IntTextRoundTrip(n: int)
    ensures ParseInt(IntText(n)) == Some(n)
    ensures forall i :: 0 <= i < |IntText(n)| ==> IntText(n)[i] != 'x'
  {
    if n < 0 {
      NatTextIsNumeral(-n);
      assert IntText(n)[1..] == NatText(-n);
    } else {
      NatTextIsNumeral(n);
    }
  }

  /** The position of the first `c` in `s`, if any. */
  function IndexOf(s: string, c: char): (r: Option<nat>)
    ensures r.Some? ==> r.value < |s| && s[r.value] == c && forall i :: 0 <= i < r.value ==> s[i] != c
    ensures r.None? ==> forall i :: 0 <= i < |s| ==> s[i] != c
  {
    if |s| == 0 then None
    else if s[0] == c then Some(0)
    else
      match IndexOf(s[1..], c)
      case None => None
      case Some(k) => Some(k + 1)
  }

  /** `"\(width)x\(height)"`, the text `RTMPSession.setResolution` stores. */
  function ResolutionText(width: int, height: int): string {
    IntText(width) + "x" + IntText(height)
  }

  /** Splits a resolution text at its first `x` and reads both sides. */
  function ParseResolution(s: string): Option<(int, int)> {
    match IndexOf(s, 'x')
    case None => None
    case Some(k) =>
      match (ParseInt(s[..k]), ParseInt(s[k + 1..]))
      case (Some(w), Some(h)) => Some((w, h))
      case _ => None
  }

  /** Different (width, height) pairs never share a resolution text. */
  lemma ResolutionRoundTrip(width: int, height: int)
    ensures ParseResolution(ResolutionText(width, height)) == Some((width, height))
  {
    var w, h := IntText(width), IntText(height);
    var s := ResolutionText(width, height);
    IntTextRoundTrip(width);
    IntTextRoundTrip(height);
    assert s[|w|] == 'x';
    assert forall i :: 0 <= i < |w| ==> s[i] == w[i];
    assert IndexOf(s, 'x') == Some(|w|);
    assert s[..|w|] == w;
    assert s[|w| + 1..] == h;
  }

  /** The three texts the quality table produces. */
  lemma PresetResolutionTexts()
    ensures ResolutionText(1920, 1080) == "1920x1080"
    ensures ResolutionText(1280, 720) == "1280x720"
    ensures ResolutionText(640, 480) == "640x480"
  {
    NatTextOf(1920, 192, '0');
    NatTextOf(192, 19, '2');
    NatTextOf(19, 1, '9');
    NatTextOf(1080, 108, '0');
    NatTextOf(108, 10, '8');
    NatTextOf(10, 1, '0');
    NatTextOf(1280, 128, '0');
    NatTextOf(128, 12, '8');
    NatTextOf(12, 1, '2');
    NatTextOf(720, 72, '0');
    NatTextOf(72, 7, '2');
    NatTextOf(640, 64, '0');
    NatTextOf(64, 6, '4');
    NatTextOf(480, 48, '0');
    NatTextOf(48, 4, '8');
  }

  lemma NatTextOf(n: nat, prefix: nat, last: char)
    requires n >= 10 && prefix == n / 10 && last as int == '0' as int + n % 10
    ensures NatText(n) == NatText(prefix) + [last]
  {
  }
}
