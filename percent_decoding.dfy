/** The in-place percent-decoder of the web worker (webservice::decode in
    WS_commons/baseworker.h). A "%XY" whose hexadecimal value is at least 32 becomes the
    character with that code; control codes, short tails and anything a replacement produced
    are left alone. */
module PercentDecoding {
  import opened Wrappers
  import opened Text

  predicate IsHex(c: char) {
    IsDigit(c) || 'a' <= c <= 'f' || 'A' <= c <= 'F'
  }

  function HexDigitValue(c: char): (v: nat)
    requires IsHex(c)
    ensures v < 16
  {
    if IsDigit(c) then c as int - '0' as int
    else if 'a' <= c <= 'f' then c as int - 'a' as int + 10
    else c as int - 'A' as int + 10
  }

  /** What `ss << std::hex << number; ss >> code;` yields for a two-digit hex number. */
  function HexPairValue(hi: char, lo: char): (v: nat)
    requires IsHex(hi) && IsHex(lo)
    ensures v < 256
  {
    16 * HexDigitValue(hi) + HexDigitValue(lo)
  }

  /** The input the model covers: every '%' that has two characters after it is followed by two
      hexadecimal digits. */
  predicate WellEscaped(s: string) {
    forall i :: 0 <= i && i + 2 < |s| && s[i] == '%' ==> IsHex(s[i + 1]) && IsHex(s[i + 2])
  }

  /** `s` starts with an escape that decode replaces: '%', two hex digits, a code of at least 32. */
  predicate StartsWithReplacedEscape(s: string) {
    |s| >= 3 && s[0] == '%' && IsHex(s[1]) && IsHex(s[2]) && HexPairValue(s[1], s[2]) >= 32
  }

  /** The result of decode, read left to right: a replaced escape yields one character and the scan
      goes on after it, so a produced '%' is never decoded again. */
  function Decoded(s: string): string
    decreases |s|
  {
    if |s| == 0 then ""
    else if StartsWithReplacedEscape(s) then [HexPairValue(s[1], s[2]) as char] + Decoded(s[3..])
    else [s[0]] + Decoded(s[1..])
  }

  /** decode(str): the C++ loop `while ((pos = str.find("%", pos + 1)) != npos)`, with npos as None
      and the initial `size_t pos = -1` (so that the first search starts at 0). */
  method Decode(s: string) returns (str: string)
    requires WellEscaped(s)
    ensures str == Decoded(s)
  {
    str := s;
    var pos: int := -1;
    while true
      invariant 0 <= pos + 1 <= |str|
      invariant ScanInvariant(s, str, pos + 1)
      decreases |str| - (pos + 1)
    {
      var found := IndexOf(str, '%', pos + 1);
      if found.None? {
        AtEnd(s, str, pos + 1);
        break;
      }
      AdvanceTo(s, str, pos + 1, found.value);
      pos := found.value;
      var number := str[pos + 1..if pos + 3 <= |str| then pos + 3 else |str|];
      if |number| < 2 {
        PlainStep(s, str, pos);
        continue;
      }
      var code := HexPairValue(number[0], number[1]);
      if code < 32 {
        PlainStep(s, str, pos);
        continue;
      }
      ReplaceStep(s, str, pos);
      str := str[..pos] + [code as char] + str[pos + 3..];
    }
  }

  /** What the scan of Decode keeps: the part before `from` is final, and the part from `from` on
      is an unscanned suffix of the input. */
  ghost predicate ScanInvariant(s: string, str: string, from: nat)
  {
    from <= |str| && Decoded(s) == str[..from] + Decoded(str[from..]) && WellEscaped(str[from..])
  }

  lemma WellEscapedSuffix(s: string, i: nat, j: nat)
    requires i <= j <= |s| && WellEscaped(s[i..])
    ensures WellEscaped(s[j..])
  {
    forall k | 0 <= k && k + 2 < |s[j..]| && s[j..][k] == '%'
      ensures IsHex(s[j..][k + 1]) && IsHex(s[j..][k + 2])
    {
      assert s[j..][k] == s[i..][k + j - i];
      assert s[j..][k + 1] == s[i..][k + 1 + j - i];
      assert s[j..][k + 2] == s[i..][k + 2 + j - i];
    }
  }

  /** The search from `from` found nothing: the rest of the string is copied. */
  lemma AtEnd(s: string, str: string, from: nat)
    requires ScanInvariant(s, str, from)
    requires forall k :: from <= k < |str| ==> str[k] != '%'
    ensures str == Decoded(s)
  {
    SkipPlain(str[from..], |str| - from);
    assert str[from..][..|str| - from] == str[from..];
    assert str[from..][|str| - from..] == "";
    assert str[..from] + str[from..] == str;
  }

  /** The search from `from` found the next '%' at `pos`. */
  lemma AdvanceTo(s: string, str: string, from: nat, pos: nat)
    requires ScanInvariant(s, str, from)
    requires from <= pos < |str|
    requires forall k :: from <= k < pos ==> str[k] != '%'
    ensures ScanInvariant(s, str, pos)
  {
    SkipPlain(str[from..], pos - from);
    assert str[from..][..pos - from] == str[from..pos];
    assert str[from..][pos - from..] == str[pos..];
    assert str[..from] + str[from..pos] == str[..pos];
    WellEscapedSuffix(str, from, pos);
  }

  /** `str.replace(pos, 3, 1, code)`, after which the scan resumes one past the new character. */
  lemma ReplaceStep(s: string, str: string, pos: nat)
    requires ScanInvariant(s, str, pos)
    requires pos + 3 <= |str| && str[pos] == '%'
    ensures IsHex(str[pos + 1]) && IsHex(str[pos + 2])
    ensures HexPairValue(str[pos + 1], str[pos + 2]) >= 32 ==>
            ScanInvariant(s, str[..pos] + [HexPairValue(str[pos + 1], str[pos + 2]) as char] + str[pos + 3..], pos + 1)
  {
    assert str[pos..][0] == '%' && str[pos..][1] == str[pos + 1] && str[pos..][2] == str[pos + 2];
    var ch := HexPairValue(str[pos + 1], str[pos + 2]) as char;
    if ch as int >= 32 {
      var after := str[..pos] + [ch] + str[pos + 3..];
      assert StartsWithReplacedEscape(str[pos..]);
      assert str[pos..][3..] == str[pos + 3..];
      assert after[..pos + 1] == str[..pos] + [ch];
      assert after[pos + 1..] == str[pos + 3..];
      WellEscapedSuffix(str, pos, pos + 3);
    }
  }

  /** A '%' that is not replaced is kept and the scan resumes one past it. */
  lemma PlainStep(s: string, str: string, pos: nat)
    requires ScanInvariant(s, str, pos)
    requires pos < |str| && str[pos] == '%'
    requires pos + 3 <= |str| ==> IsHex(str[pos + 1]) && IsHex(str[pos + 2]) && HexPairValue(str[pos + 1], str[pos + 2]) < 32
    ensures ScanInvariant(s, str, pos + 1)
  {
    assert str[pos..][1..] == str[pos + 1..];
    assert str[..pos + 1] == str[..pos] + [str[pos]];
    assert !StartsWithReplacedEscape(str[pos..]);
    WellEscapedSuffix(str, pos, pos + 1);
  }

  /** Characters before the next '%' are copied unchanged. */
  lemma {:induction false} SkipPlain(s: string, k: nat)
    requires k <= |s|
    requires forall i :: 0 <= i < k ==> s[i] != '%'
    ensures Decoded(s) == s[..k] + Decoded(s[k..])
  {
    if k > 0 {
      var t := s[1..];
      assert forall i :: 0 <= i < k - 1 ==> t[i] == s[i + 1];
      SkipPlain(t, k - 1);
      assert s[0] != '%' && !StartsWithReplacedEscape(s);
      calc {
        Decoded(s);
        [s[0]] + Decoded(t);
        [s[0]] + (t[..k - 1] + Decoded(t[k - 1..]));
        { assert t[..k - 1] == s[1..k] && t[k - 1..] == s[k..]; }
        [s[0]] + (s[1..k] + Decoded(s[k..]));
        { assert s[..k] == [s[0]] + s[1..k]; }
        s[..k] + Decoded(s[k..]);
      }
    }
  }

  /** The number of escapes decode replaces, counted along the same left-to-right scan. */
  function ReplacedEscapes(s: string): nat
    decreases |s|
  {
    if |s| == 0 then 0
    else if StartsWithReplacedEscape(s) then 1 + ReplacedEscapes(s[3..])
    else ReplacedEscapes(s[1..])
  }

  /** Decoding never lengthens a string; each replacement removes exactly two characters. */
  lemma {:induction false} DecodedNotLonger(s: string)
    ensures |Decoded(s)| <= |s|
    ensures |Decoded(s)| == |s| - 2 * ReplacedEscapes(s)
    decreases |s|
  {
    if |s| > 0 {
      if StartsWithReplacedEscape(s) {
        DecodedNotLonger(s[3..]);
      } else {
        DecodedNotLonger(s[1..]);
      }
    }
  }

  /** A string without '%' is returned unchanged. */
  lemma DecodedWithoutPercent(s: string)
    requires '%' !in s
    ensures Decoded(s) == s
  {
    SkipPlain(s, |s|);
    assert s[..|s|] == s;
  }

  /** Single pass: "%2541" becomes "%41", not "A". */
  lemma DecodedIsSinglePass()
    ensures Decoded("%2541") == "%41"
  {
    var s := "%2541";
    assert StartsWithReplacedEscape(s);
    assert s[3..] == "41";
    DecodedWithoutPercent("41");
  }

  /** A control code is left as it is, and so is a '%' with fewer than two characters after it. */
  lemma DecodedKeepsControlCodesAndShortTails()
    ensures Decoded("%0A") == "%0A"
    ensures Decoded("a%4") == "a%4"
  {
    var s := "%0A";
    assert !StartsWithReplacedEscape(s);
    assert s[1..] == "0A";
    DecodedWithoutPercent("0A");
    var t := "a%4";
    assert t[1..] == "%4";
    assert !StartsWithReplacedEscape("%4");
    assert "%4"[1..] == "4";
    DecodedWithoutPercent("4");
  }

  /** The hex digit for a value below 16 (upper case, as a client would encode it). */
  function HexChar(n: nat): (c: char)
    requires n < 16
    ensures IsHex(c) && HexDigitValue(c) == n
  {
    if n < 10 then ('0' as int + n) as char else ('A' as int + n - 10) as char
  }

  /** Percent-encoding of one character: every code from 32 to 255 (which includes '%') is escaped. */
  function EscapeChar(c: char): (r: string)
  {
    if 32 <= c as int < 256 then ['%', HexChar(c as int / 16), HexChar(c as int % 16)] else [c]
  }

  /** Percent-encoding, the inverse that decode undoes. */
  function Escaped(s: string): (r: string)
  {
    if |s| == 0 then "" else EscapeChar(s[0]) + Escaped(s[1..])
  }

  /** Round trip: decode restores every percent-encoded string, and the encoding is in the input
      class the model covers. */
  lemma {:induction false} DecodeEscaped(s: string)
    ensures WellEscaped(Escaped(s))
    ensures Decoded(Escaped(s)) == s
  {
    if |s| > 0 {
      DecodeEscaped(s[1..]);
      var c := s[0];
      var e := EscapeChar(c);
      var rest := Escaped(s[1..]);
      assert Escaped(s) == e + rest;
      if 32 <= c as int < 256 {
        var t := e + rest;
        assert t[0] == '%' && t[1] == e[1] && t[2] == e[2];
        assert HexPairValue(t[1], t[2]) == c as int;
        assert StartsWithReplacedEscape(t);
        assert t[3..] == rest;
        forall i | 0 <= i && i + 2 < |t| && t[i] == '%'
          ensures IsHex(t[i + 1]) && IsHex(t[i + 2])
        {
          if i >= 3 { assert t[i] == rest[i - 3] && t[i + 1] == rest[i - 2] && t[i + 2] == rest[i - 1]; }
        }
      } else {
        var t := e + rest;
        assert t[0] == c && c != '%';
        assert t[1..] == rest;
        forall i | 0 <= i && i + 2 < |t| && t[i] == '%'
          ensures IsHex(t[i + 1]) && IsHex(t[i + 2])
        {
          assert t[i] == rest[i - 1] && t[i + 1] == rest[i] && t[i + 2] == rest[i + 1];
        }
      }
    }
  }
}
