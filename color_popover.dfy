/**
 * The custom colour popover: the hex field it validates on every edit, the
 * RGB parse behind its contrast badge, and the submit and key handlers that
 * report a chosen colour and close the popover.
 */
module ColorPopover {
  import opened Wrappers
  import opened Text
  import ThemeStep

  /** `HEX_PATTERN`: `#` and three or six hex digits. */
  predicate ValidateHex(s: string)
    ensures ValidateHex(s) ==> ThemeStep.HexColor(s)
    ensures ValidateHex(s) && |s| == 7 ==> HexToRgb(s).Some?
  {
    (|s| == 4 || |s| == 7) && s[0] == '#' && forall i :: 1 <= i < |s| ==> IsHexDigit(s[i])
  }

  /** The popover accepts fewer forms than the theme step's colour input, which also takes four and eight digits. */
  lemma ValidateHexIsStricter(s: string)
    ensures ValidateHex(s) ==> ThemeStep.HexColor(s)
    ensures ThemeStep.HexColor("#FFFF") && !ValidateHex("#FFFF")
  {
    assert IsHexDigit("#FFFF"[1]);
  }

  /** The value of a hex digit, in either case. */
  function HexValue(c: char): (v: nat)
    requires IsHexDigit(c)
    ensures v < 16
  {
    if IsDigit(c) then c as int - '0' as int
    else if 'a' <= c <= 'f' then c as int - 'a' as int + 10
    else c as int - 'A' as int + 10
  }

  /** The lower-case hex digit of a value below 16. */
  function HexChar(v: nat): (c: char)
    requires v < 16
    ensures IsHexDigit(c) && HexValue(c) == v
  {
    if v < 10 then ('0' as int + v) as char else ('a' as int + v - 10) as char
  }

  /** `parseInt(pair, 16)` on two hex digits. */
  function ByteOf(hi: char, lo: char): (b: nat)
    requires IsHexDigit(hi) && IsHexDigit(lo)
    ensures b <= 255
  {
    HexValue(hi) * 16 + HexValue(lo)
  }

  datatype Rgb = Rgb(r: nat, g: nat, b: nat)

  /** Six hex digits. */
  predicate SixHex(d: string) {
    |d| == 6 && forall i :: 0 <= i < 6 ==> IsHexDigit(d[i])
  }

  /** `hexToRgb(hex)`: `/^#?([a-f\d]{2})([a-f\d]{2})([a-f\d]{2})$/i`; `None` is `null`. */
  function HexToRgb(hex: string): (r: Option<Rgb>)
    ensures r.Some? ==> r.value.r <= 255 && r.value.g <= 255 && r.value.b <= 255
    ensures r.Some? <==> SixHex(hex) || (hex != [] && hex[0] == '#' && SixHex(hex[1..]))
  {
    var digits := if hex != [] && hex[0] == '#' then hex[1..] else hex;
    if SixHex(digits) then
      Some(Rgb(ByteOf(digits[0], digits[1]), ByteOf(digits[2], digits[3]), ByteOf(digits[4], digits[5])))
    else None
  }

  /** The `#rrggbb` form of a colour. */
  function RgbToHex(c: Rgb): (s: string)
    requires c.r <= 255 && c.g <= 255 && c.b <= 255
    ensures |s| == 7 && s[0] == '#'
  {
    ['#', HexChar(c.r / 16), HexChar(c.r % 16), HexChar(c.g / 16), HexChar(c.g % 16), HexChar(c.b / 16), HexChar(c.b % 16)]
  }

  /** Every colour written as `#rrggbb` parses back to itself, and that form passes the popover's check. */
  lemma HexToRgbRoundTrip(c: Rgb)
    requires c.r <= 255 && c.g <= 255 && c.b <= 255
    ensures HexToRgb(RgbToHex(c)) == Some(c)
    ensures ValidateHex(RgbToHex(c))
  {
    var s := RgbToHex(c);
    assert s[1..] == [HexChar(c.r / 16), HexChar(c.r % 16), HexChar(c.g / 16), HexChar(c.g % 16), HexChar(c.b / 16), HexChar(c.b % 16)];
  }

  /** A valid six-digit colour always parses; a valid three-digit one never does. */
  lemma ValidHexParses(s: string)
    requires ValidateHex(s)
    ensures |s| == 7 ==> HexToRgb(s).Some?
    ensures |s| == 4 ==> HexToRgb(s).None?
  {
  }

  /** The badge under the field. */
  datatype ContrastStatus = Pass | Warning | Fail

  /**
   * `getContrastStatus(color, surface)`. The WCAG ratio of two parsed colours
   * is floating point and is a parameter; a colour that does not parse makes
   * the ratio 0.
   */
  function ContrastStatusOf(color: string, surface: string, ratioOf: (Rgb, Rgb) -> real): (r: ContrastStatus)
    ensures HexToRgb(color).None? || HexToRgb(surface).None? ==> r == Fail
    ensures HexToRgb(color).Some? && HexToRgb(surface).Some? ==>
      var ratio := ratioOf(HexToRgb(color).value, HexToRgb(surface).value);
      && (r == Pass <==> ratio >= 4.5)
      && (r == Warning <==> 3.0 <= ratio < 4.5)
      && (r == Fail <==> ratio < 3.0)
  {
    var c1 := HexToRgb(color);
    var c2 := HexToRgb(surface);
    var ratio := if c1.None? || c2.None? then 0.0 else ratioOf(c1.value, c2.value);
    if ratio >= 4.5 then Pass else if ratio >= 3.0 then Warning else Fail
  }

  /** A colour that does not parse, such as a valid three-digit one, is always shown as poor contrast. */
  lemma UnparsedColourFails(color: string, surface: string, ratioOf: (Rgb, Rgb) -> real)
    requires HexToRgb(color).None? || HexToRgb(surface).None?
    ensures ContrastStatusOf(color, surface, ratioOf) == Fail
  {
  }

  /** What the popover reports to its parent. */
  datatype Call = ColorSelect(hex: string) | Close

  /** The popover's state: the field, its validity, the colour it was opened with, and the calls made so far. */
  class Popover {
    var hexValue: string
    var isValidHex: bool
    var currentColor: string
    var calls: seq<Call>

    /** A field marked valid holds a valid colour, or the colour the popover was opened with. */
    predicate Valid()
      reads this
    {
      isValidHex ==> ValidateHex(hexValue) || hexValue == currentColor
    }

    constructor(current: string)
      ensures Valid()
      ensures hexValue == current && isValidHex && currentColor == current && calls == []
    {
      hexValue := current;
      isValidHex := true;
      currentColor := current;
      calls := [];
    }

    /** The effect that follows a new `currentColor` prop: the field is reset to it, its validity flag is left as it was. */
    method CurrentColorChanged(current: string)
      requires Valid()
      modifies this
      ensures Valid()
      ensures currentColor == current && hexValue == current
      ensures isValidHex == old(isValidHex) && calls == old(calls)
    {
      currentColor := current;
      hexValue := current;
    }

    /** `handleHexChange(value)`: the validity is recomputed from the new text. */
    method HexChange(value: string)
      requires Valid()
      modifies this
      ensures Valid()
      ensures hexValue == value && (isValidHex <==> ValidateHex(value))
      ensures currentColor == old(currentColor) && calls == old(calls)
    {
      hexValue := value;
      isValidHex := ValidateHex(value);
    }

    /** `handleSubmit()`: a valid, changed colour is selected, and it always passes the hex check; the popover always closes. */
    method Submit()
      requires Valid()
      modifies this
      ensures Valid()
      ensures calls == old(calls) + (if isValidHex && hexValue != currentColor then [ColorSelect(hexValue)] else []) + [Close]
      ensures isValidHex && hexValue != currentColor ==> ValidateHex(hexValue)
      ensures hexValue == old(hexValue) && isValidHex == old(isValidHex) && currentColor == old(currentColor)
    {
      if isValidHex && hexValue != currentColor {
        calls := calls + [ColorSelect(hexValue)];
      }
      calls := calls + [Close];
    }

    /** `handleKeyDown(event)`: Escape closes without selecting, Enter submits. */
    method KeyDown(key: string)
      requires Valid()
      modifies this
      ensures Valid()
      ensures key == "Escape" ==> calls == old(calls) + [Close]
      ensures key == "Enter" ==>
        calls == old(calls) + (if isValidHex && hexValue != currentColor then [ColorSelect(hexValue)] else []) + [Close]
      ensures key != "Escape" && key != "Enter" ==> calls == old(calls)
      ensures hexValue == old(hexValue) && isValidHex == old(isValidHex) && currentColor == old(currentColor)
    {
      if key == "Escape" {
        calls := calls + [Close];
      } else if key == "Enter" {
        Submit();
      }
    }
  }
}
