/** The color rule of the notes markup (`parseColor` in search.kt): a blank
    or missing value means "unset", nine names match case-insensitively, and
    anything else must be 6 or 8 hexadecimal digits after at most one
    leading '#'. Colors are 32-bit ARGB values, as Compose's `Color(Long)`
    reads them. */
module Colors {
  import opened Wrappers

  type Argb = x: int | 0 <= x < 0x1_0000_0000

  /** `IllegalArgumentException("Bad color: ...")`, and the
      `NumberFormatException` of `toLong(16)` on a non-hexadecimal string. */
  datatype ColorError = BadColor(color: string) | BadHexNumber(digits: string)

  const Red: Argb := 0xFFFF_0000      // Color.Red
  const Green: Argb := 0xFF4C_AF50
  const Blue: Argb := 0xFF21_96F3
  const White: Argb := 0xFFFF_FFFF    // Color.White
  const Black: Argb := 0xFF00_0000    // Color.Black
  const Gray: Argb := 0xFF88_8888     // Color.Gray
  const Yellow: Argb := 0xFFFF_EB3B
  const Cyan: Argb := 0xFF00_BCD4
  const Magenta: Argb := 0xFFE9_1E63

  /** Kotlin's `Char.isWhitespace()` on the JVM: Java's `isWhitespace` or
      `isSpaceChar`. */
  predicate IsWhitespace(c: char) {
    || c == ' '
    || ('\t' <= c <= '\r')
    || ('\U{1C}' <= c <= '\U{1F}')
    || c == '\U{A0}'
    || c == '\U{1680}'
    || ('\U{2000}' <= c <= '\U{200A}')
    || c == '\U{2028}'
    || c == '\U{2029}'
    || c == '\U{202F}'
    || c == '\U{205F}'
    || c == '\U{3000}'
  }

  /** `isNullOrBlank()` once null is ruled out: every character is whitespace. */
  predicate IsBlank(s: string) {
    forall i :: 0 <= i < |s| ==> IsWhitespace(s[i])
  }

  /** Lower-casing as far as it matters for a comparison with the ASCII
      color names: A-Z, and the Kelvin sign, whose lower case is 'k'. Every
      other character is unchanged by `lowercase()` or lower-cases to text
      holding some character that is not an ASCII letter ('İ' becomes 'i'
      followed by U+0307), so a string holding one never matches a name,
      just as the model's unchanged character does not. */
  function LowerChar(c: char): char {
    if 'A' <= c <= 'Z' then (c as int + 32) as char
    else if c == '\U{212A}' then 'k'
    else c
  }

  function Lower(s: string): (r: string)
    ensures |r| == |s|
    ensures forall i :: 0 <= i < |s| ==> r[i] == LowerChar(s[i])
  {
    seq(|s|, i requires 0 <= i < |s| => LowerChar(s[i]))
  }

  /** The `when` table of names, matched against the lower-cased input. */
  function NamedColor(name: string): Option<Argb> {
    match name
    case "red" => Some(Red)
    case "green" => Some(Green)
    case "blue" => Some(Blue)
    case "white" => Some(White)
    case "black" => Some(Black)
    case "gray" => Some(Gray)
    case "grey" => Some(Gray)
    case "yellow" => Some(Yellow)
    case "cyan" => Some(Cyan)
    case "magenta" => Some(Magenta)
    case _ => None
  }

  function HexDigitValue(c: char): Option<nat> {
    if '0' <= c <= '9' then Some(c as int - '0' as int)
    else if 'a' <= c <= 'f' then Some(c as int - 'a' as int + 10)
    else if 'A' <= c <= 'F' then Some(c as int - 'A' as int + 10)
    else None
  }

  predicate IsHexDigit(c: char) {
    ('0' <= c <= '9') || ('a' <= c <= 'f') || ('A' <= c <= 'F')
  }

  function Pow16(n: nat): (r: nat)
    ensures r >= 1
  {
    if n == 0 then 1 else 16 * Pow16(n - 1)
  }

  /** The value of a string of hexadecimal digits, most significant first,
      as `toLong(16)` reads it; None when some character is not a digit. */
  function HexValue(s: string): (r: Option<nat>)
    ensures r.Some? <==> forall i :: 0 <= i < |s| ==> IsHexDigit(s[i])
    ensures r.Some? ==> r.value < Pow16(|s|)
    decreases |s|
  {
    if |s| == 0 then Some(0)
    else
      match (HexValue(s[..|s| - 1]), HexDigitValue(s[|s| - 1]))
      case (Some(high), Some(low)) => Some(16 * high + low)
      case _ => None
  }

  /** Kotlin's `String.length`: the number of UTF-16 code units, where a
      character outside the Basic Multilingual Plane takes two. */
  function Utf16Length(s: string): (r: nat)
    ensures r >= |s|
    decreases |s|
  {
    if |s| == 0 then 0
    else Utf16Length(s[..|s| - 1]) + (if s[|s| - 1] as int > 0xFFFF then 2 else 1)
  }

  /** Characters of the Basic Multilingual Plane, hexadecimal digits among
      them, take one code unit each. */
  lemma {:induction false} Utf16LengthOfBmp(s: string)
    requires forall i :: 0 <= i < |s| ==> s[i] as int <= 0xFFFF
    ensures Utf16Length(s) == |s|
    decreases |s|
  {
    if |s| > 0 {
      Utf16LengthOfBmp(s[..|s| - 1]);
    }
  }

  /** Lower-casing keeps the number of code units. */
  lemma {:induction false} Utf16LengthCaseInsensitive(s: string, t: string)
    requires |s| == |t|
    requires forall i :: 0 <= i < |s| ==> LowerChar(s[i]) == LowerChar(t[i])
    ensures Utf16Length(s) == Utf16Length(t)
    decreases |s|
  {
    if |s| > 0 {
      var n := |s| - 1;
      Utf16LengthCaseInsensitive(s[..n], t[..n]);
      assert LowerChar(s[n]) == LowerChar(t[n]);
    }
  }

  /** One more digit on the right: the value so far times 16, plus the digit. */
  lemma HexValueSnoc(s: string, c: char)
    requires HexValue(s).Some? && IsHexDigit(c)
    ensures HexValue(s + [c]) == Some(16 * HexValue(s).value + HexDigitValue(c).value)
  {
    assert (s + [c])[..|s|] == s;
  }

  /** `removePrefix("#")`: at most one leading '#' goes. */
  function StripHash(s: string): (r: string)
    ensures |s| > 0 && s[0] == '#' ==> r == s[1..]
    ensures !(|s| > 0 && s[0] == '#') ==> r == s
  {
    if |s| > 0 && s[0] == '#' then s[1..] else s
  }

  /** `parseColor(s)`: None stands for Kotlin's null, both for the input and
      for the result ("no color"). */
  function ParseColor(s: Option<string>): (r: Result<Option<Argb>, ColorError>)
    ensures (s.None? || IsBlank(s.value)) ==> r == Success(None)
    ensures s.Some? && !IsBlank(s.value) && NamedColor(Lower(s.value)).Some? ==>
      r == Success(NamedColor(Lower(s.value)))
    ensures r.Success? && r.value.Some? ==>
      s.Some? && (NamedColor(Lower(s.value)) == r.value || |StripHash(s.value)| in {6, 8})
    ensures r.Failure? <==>
      && s.Some? && !IsBlank(s.value) && NamedColor(Lower(s.value)).None?
      && (Utf16Length(StripHash(s.value)) !in {6, 8} || HexValue(StripHash(s.value)).None?)
  {
    if s.None? || IsBlank(s.value) then Success(None)
    else
      var named := NamedColor(Lower(s.value));
      if named.Some? then Success(named)
      else
        var clean := StripHash(s.value);
        var length := Utf16Length(clean);
        if length == 6 then
          match HexValue(clean)
          case Some(rgb) =>
            Utf16LengthOfBmp(clean);
            assert rgb < 0x100_0000 by { assert Pow16(6) == 0x100_0000; }
            // 0xFF000000 or rgb, with rgb below 2^24
            Success(Some(0xFF00_0000 + rgb))
          case None => Failure(BadHexNumber(clean))
        else if length == 8 then
          match HexValue(clean)
          case Some(argb) =>
            Utf16LengthOfBmp(clean);
            assert argb < 0x1_0000_0000 by { assert Pow16(8) == 0x1_0000_0000; }
            Success(Some(argb))
          case None => Failure(BadHexNumber(clean))
        else Failure(BadColor(s.value))
  }

  // ----- Properties of the color rule -----

  /** Without a name match, 6 digits are an opaque RGB color and 8 digits a
      full ARGB value; 6 or 8 code units that are not all digits are a bad
      hex number, and any other length is a bad color. */
  lemma HexForms(s: string)
    requires !IsBlank(s) && NamedColor(Lower(s)).None?
    ensures |StripHash(s)| == 6 && HexValue(StripHash(s)).Some? ==>
      ParseColor(Some(s)) == Success(Some(0xFF00_0000 + HexValue(StripHash(s)).value))
    ensures |StripHash(s)| == 8 && HexValue(StripHash(s)).Some? ==>
      ParseColor(Some(s)) == Success(Some(HexValue(StripHash(s)).value))
    ensures Utf16Length(StripHash(s)) in {6, 8} && HexValue(StripHash(s)).None? ==>
      ParseColor(Some(s)) == Failure(BadHexNumber(StripHash(s)))
    ensures Utf16Length(StripHash(s)) !in {6, 8} ==> ParseColor(Some(s)) == Failure(BadColor(s))
  {
    if HexValue(StripHash(s)).Some? {
      Utf16LengthOfBmp(StripHash(s));
    }
  }

  /** Lengths are UTF-16 lengths: three emoji are six code units, hence a bad
      hex number, and "#12345" followed by an emoji is seven, a bad color. */
  lemma SupplementaryCharacterExamples()
    ensures ParseColor(Some("\U{1F600}\U{1F600}\U{1F600}")) == Failure(BadHexNumber("\U{1F600}\U{1F600}\U{1F600}"))
    ensures ParseColor(Some("#12345\U{1F600}")) == Failure(BadColor("#12345\U{1F600}"))
  {
    var e := "\U{1F600}\U{1F600}\U{1F600}";
    assert !IsWhitespace(e[0]);
    assert e[..1][..0] == [];
    assert Utf16Length(e[..1]) == 2;
    assert e[..2][..1] == e[..1];
    assert Utf16Length(e[..2]) == 4;
    assert e[..3][..2] == e[..2] && e[..3] == e;
    assert Utf16Length(e) == 6;
    assert !IsHexDigit(e[0]);
    assert Lower(e) == e;
    var h := "#12345\U{1F600}";
    assert !IsWhitespace(h[0]);
    NotANameHex(h);
    var c := "12345\U{1F600}";
    assert StripHash(h) == c;
    Utf16LengthOfBmp(c[..5]);
    assert Utf16Length(c) == 7;
  }

  /** The color rule ignores letter case: two strings that lower-case alike
      are both accepted, with the same color, or both rejected. */
  lemma {:induction false} CaseInsensitive(s: string, t: string)
    requires Lower(s) == Lower(t)
    ensures ParseColor(Some(s)).Success? <==> ParseColor(Some(t)).Success?
    ensures ParseColor(Some(s)).Success? ==> ParseColor(Some(s)) == ParseColor(Some(t))
  {
    assert |s| == |Lower(s)| == |t|;
    assert forall i :: 0 <= i < |s| ==> LowerChar(s[i]) == LowerChar(t[i]) by {
      forall i | 0 <= i < |s| ensures LowerChar(s[i]) == LowerChar(t[i]) {
        assert Lower(s)[i] == Lower(t)[i];
      }
    }
    assert IsBlank(s) <==> IsBlank(t) by {
      forall i | 0 <= i < |s| ensures IsWhitespace(s[i]) <==> IsWhitespace(t[i]) {
        LowerCharKeepsWhitespace(s[i]);
        LowerCharKeepsWhitespace(t[i]);
      }
    }
    if !IsBlank(s) && NamedColor(Lower(s)).None? {
      var cs, ct := StripHash(s), StripHash(t);
      assert |s| > 0 && |t| > 0;
      LowerCharKeepsHash(s[0]);
      LowerCharKeepsHash(t[0]);
      assert (s[0] == '#') <==> (t[0] == '#');
      assert |cs| == |ct|;
      assert forall i :: 0 <= i < |cs| ==> LowerChar(cs[i]) == LowerChar(ct[i]);
      HexValueCaseInsensitive(cs, ct);
      Utf16LengthCaseInsensitive(cs, ct);
      HexForms(s);
      HexForms(t);
    }
  }

  lemma LowerCharKeepsWhitespace(c: char)
    ensures IsWhitespace(c) <==> IsWhitespace(LowerChar(c))
  {
  }

  lemma LowerCharKeepsHash(c: char)
    ensures c == '#' <==> LowerChar(c) == '#'
  {
  }

  lemma {:induction false} HexValueCaseInsensitive(s: string, t: string)
    requires |s| == |t|
    requires forall i :: 0 <= i < |s| ==> LowerChar(s[i]) == LowerChar(t[i])
    ensures HexValue(s) == HexValue(t)
    decreases |s|
  {
    if |s| > 0 {
      var n := |s| - 1;
      HexValueCaseInsensitive(s[..n], t[..n]);
      assert HexDigitValue(s[n]) == HexDigitValue(t[n]) by {
        assert LowerChar(s[n]) == LowerChar(t[n]);
        HexDigitLower(s[n]);
        HexDigitLower(t[n]);
      }
    }
  }

  lemma HexDigitLower(c: char)
    ensures HexDigitValue(c) == HexDigitValue(LowerChar(c))
  {
  }

  /** Upper-case hexadecimal rendering of `v` in exactly `n` digits. */
  function HexDigits(v: nat, n: nat): (r: string)
    requires v < Pow16(n)
    ensures |r| == n
    ensures forall i :: 0 <= i < n ==> IsHexDigit(r[i]) && r[i] != '#'
  {
    if n == 0 then ""
    else
      var d := v % 16;
      HexDigits(v / 16, n - 1) + [if d < 10 then ('0' as int + d) as char else ('A' as int + d - 10) as char]
  }

  lemma {:induction false} HexValueOfHexDigits(v: nat, n: nat)
    requires v < Pow16(n)
    ensures HexValue(HexDigits(v, n)) == Some(v)
    decreases n
  {
    if n > 0 {
      var s := HexDigits(v, n);
      assert s[..n - 1] == HexDigits(v / 16, n - 1);
      HexValueOfHexDigits(v / 16, n - 1);
    }
  }

  /** A string that starts with a hex digit or '#' and has 6 or 8 characters
      is no color name, so the hex rule decides it. */
  lemma NotANameHex(s: string)
    requires |s| in {6, 8, 7, 9}
    requires IsHexDigit(s[0]) || s[0] == '#'
    ensures NamedColor(Lower(s)).None?
  {
    var l := Lower(s);
    assert l[0] != 'y' && l[0] != 'm';
  }

  /** Round trip for 8-digit colors: rendering any ARGB value as "#AARRGGBB"
      (or without the '#') and parsing it gives back that value. */
  lemma ArgbRoundTrip(c: Argb)
    ensures ParseColor(Some("#" + HexDigits(c, 8))) == Success(Some(c))
    ensures ParseColor(Some(HexDigits(c, 8))) == Success(Some(c))
  {
    assert Pow16(8) == 0x1_0000_0000;
    var h := HexDigits(c, 8);
    HexValueOfHexDigits(c, 8);
    Utf16LengthOfBmp(h);
    assert ("#" + h)[1..] == h;
    NotANameHex("#" + h);
    NotANameHex(h);
    assert !IsBlank("#" + h) by { assert ("#" + h)[0] == '#'; }
    assert !IsBlank(h) by { assert IsHexDigit(h[0]); }
    HexForms("#" + h);
    HexForms(h);
  }

  /** Round trip for 6-digit colors: "#RRGGBB" parses to the opaque color. */
  lemma RgbRoundTrip(rgb: nat)
    requires rgb < 0x100_0000
    ensures ParseColor(Some("#" + HexDigits(rgb, 6))) == Success(Some(0xFF00_0000 + rgb))
    ensures ParseColor(Some(HexDigits(rgb, 6))) == Success(Some(0xFF00_0000 + rgb))
  {
    assert Pow16(6) == 0x100_0000;
    var h := HexDigits(rgb, 6);
    HexValueOfHexDigits(rgb, 6);
    Utf16LengthOfBmp(h);
    assert ("#" + h)[1..] == h;
    NotANameHex("#" + h);
    NotANameHex(h);
    assert !IsBlank("#" + h) by { assert ("#" + h)[0] == '#'; }
    assert !IsBlank(h) by { assert IsHexDigit(h[0]); }
    HexForms("#" + h);
    HexForms(h);
  }

  /** The name table matches regardless of case. */
  lemma NamedColorExamples()
    ensures ParseColor(Some("red")) == Success(Some(0xFFFF_0000))
    ensures ParseColor(Some("RED")) == Success(Some(0xFFFF_0000))
    ensures ParseColor(Some("Grey")) == Success(Some(0xFF88_8888))
    ensures ParseColor(Some("gray")) == Success(Some(0xFF88_8888))
  {
    assert Lower("RED") == "red";
    assert Lower("red") == "red";
    assert Lower("Grey") == "grey";
    assert Lower("gray") == "gray";
    assert !IsWhitespace("red"[0]);
    assert !IsWhitespace("RED"[0]);
    assert !IsWhitespace("Grey"[0]);
    assert !IsWhitespace("gray"[0]);
  }

  /** The hex forms agree with the name on opaque red; 8 digits carry alpha. */
  lemma HexColorExamples()
    ensures ParseColor(Some("#FF0000")) == Success(Some(0xFFFF_0000))
    ensures ParseColor(Some("ff0000")) == Success(Some(0xFFFF_0000))
    ensures ParseColor(Some("#80FF0000")) == Success(Some(0x80FF_0000))
  {
    OpaqueRedHex();
    AlphaRedHex();
    LowerCaseRedHex();
  }

  lemma HexValueOfFF0000()
    ensures HexValue("FF0000") == Some(0xFF0000)
  {
    assert HexValue("") == Some(0);
    HexValueSnoc("", 'F');
    assert "" + ['F'] == "F";
    HexValueSnoc("F", 'F');
    assert "F" + ['F'] == "FF";
    HexValueSnoc("FF", '0');
    assert "FF" + ['0'] == "FF0";
    HexValueSnoc("FF0", '0');
    assert "FF0" + ['0'] == "FF00";
    HexValueSnoc("FF00", '0');
    assert "FF00" + ['0'] == "FF000";
    HexValueSnoc("FF000", '0');
    assert "FF000" + ['0'] == "FF0000";
  }

  lemma OpaqueRedHex()
    ensures ParseColor(Some("#FF0000")) == Success(Some(0xFFFF_0000))
  {
    assert !IsWhitespace("#FF0000"[0]);
    NotANameHex("#FF0000");
    assert StripHash("#FF0000") == "FF0000";
    Utf16LengthOfBmp("FF0000");
    HexValueOfFF0000();
  }

  lemma HexValueOf80FF0000()
    ensures HexValue("80FF0000") == Some(0x80FF0000)
  {
    assert HexValue("") == Some(0);
    HexValueSnoc("", '8');
    assert "" + ['8'] == "8";
    HexValueSnoc("8", '0');
    assert "8" + ['0'] == "80";
    HexValueSnoc("80", 'F');
    assert "80" + ['F'] == "80F";
    HexValueSnoc("80F", 'F');
    assert "80F" + ['F'] == "80FF";
    HexValueSnoc("80FF", '0');
    assert "80FF" + ['0'] == "80FF0";
    HexValueSnoc("80FF0", '0');
    assert "80FF0" + ['0'] == "80FF00";
    HexValueSnoc("80FF00", '0');
    assert "80FF00" + ['0'] == "80FF000";
    HexValueSnoc("80FF000", '0');
    assert "80FF000" + ['0'] == "80FF0000";
  }

  lemma AlphaRedHex()
    ensures ParseColor(Some("#80FF0000")) == Success(Some(0x80FF_0000))
  {
    assert !IsWhitespace("#80FF0000"[0]);
    NotANameHex("#80FF0000");
    assert StripHash("#80FF0000") == "80FF0000";
    Utf16LengthOfBmp("80FF0000");
    HexValueOf80FF0000();
  }

  lemma LowerCaseRedHex()
    ensures ParseColor(Some("ff0000")) == Success(Some(0xFFFF_0000))
  {
    OpaqueRedHex();
    assert StripHash("#ff0000") == "ff0000";
    Utf16LengthOfBmp("ff0000");
    assert Lower("#ff0000") == Lower("#FF0000");
    CaseInsensitive("#ff0000", "#FF0000");
    assert !IsWhitespace("ff0000"[0]);
    NotANameHex("ff0000");
    NotANameHex("#ff0000");
  }

  /** Blank values mean "no color"; other strings are rejected. */
  lemma RejectedColorExamples()
    ensures ParseColor(Some("notacolor")) == Failure(BadColor("notacolor"))
    ensures ParseColor(Some("#12")) == Failure(BadColor("#12"))
    ensures ParseColor(Some("#GG0000")) == Failure(BadHexNumber("GG0000"))
    ensures ParseColor(Some("")) == Success(None)
    ensures ParseColor(Some(" \t")) == Success(None)
  {
    NoNameExample();
    ShortHexExample();
    BadDigitsExample();
    assert IsWhitespace(" \t"[0]) && IsWhitespace(" \t"[1]);
  }

  lemma NoNameExample()
    ensures ParseColor(Some("notacolor")) == Failure(BadColor("notacolor"))
  {
    assert !IsWhitespace("notacolor"[0]);
    assert Lower("notacolor") == "notacolor";
    assert StripHash("notacolor") == "notacolor";
    Utf16LengthOfBmp("notacolor");
    HexForms("notacolor");
  }

  lemma ShortHexExample()
    ensures ParseColor(Some("#12")) == Failure(BadColor("#12"))
  {
    assert !IsWhitespace("#12"[0]);
    assert Lower("#12")[0] == '#';
    assert StripHash("#12") == "12";
    Utf16LengthOfBmp("12");
    HexForms("#12");
  }

  lemma BadDigitsExample()
    ensures ParseColor(Some("#GG0000")) == Failure(BadHexNumber("GG0000"))
  {
    assert !IsWhitespace("#GG0000"[0]);
    NotANameHex("#GG0000");
    assert StripHash("#GG0000") == "GG0000";
    Utf16LengthOfBmp("GG0000");
    assert !IsHexDigit("GG0000"[0]);
    HexForms("#GG0000");
  }
}
