/** The colour rules of an issue's card (components/IssueListItem.tsx): the
    state's colour class, and the text colour printed on a label, chosen by
    the label's brightness. */
module IssueListItem {
  const OpenClass: string := "text-green-400"
  const ClosedClass: string := "text-red-400"

  /** An open issue is drawn green, and any other state red. */
  function StateColor(state: string): (r: string)
    ensures r == OpenClass <==> state == "open"
    ensures r == ClosedClass <==> state != "open"
  {
    if state == "open" then OpenClass else ClosedClass
  }

  predicate IsHexDigit(c: char) {
    '0' <= c <= '9' || 'a' <= c <= 'f' || 'A' <= c <= 'F'
  }

  function HexDigitValue(c: char): (v: nat)
    requires IsHexDigit(c)
    ensures v < 16
  {
    if '0' <= c <= '9' then c as int - '0' as int
    else if 'a' <= c <= 'f' then c as int - 'a' as int + 10
    else c as int - 'A' as int + 10
  }

  /** A label colour as GitHub gives it: six hexadecimal digits, no `#`. */
  predicate IsHexColor(s: string) {
    |s| == 6 && forall i :: 0 <= i < |s| ==> IsHexDigit(s[i])
  }

  /** `parseInt(pair, 16)` for a pair of hexadecimal digits. */
  function PairValue(pair: string): (v: nat)
    requires |pair| == 2 && IsHexDigit(pair[0]) && IsHexDigit(pair[1])
    ensures v < 256
  {
    16 * HexDigitValue(pair[0]) + HexDigitValue(pair[1])
  }

  /** The red, green and blue parts: characters 0-1, 2-3 and 4-5. */
  function Red(hex: string): nat requires IsHexColor(hex) { PairValue(hex[0..2]) }
  function Green(hex: string): nat requires IsHexColor(hex) { PairValue(hex[2..4]) }
  function Blue(hex: string): nat requires IsHexColor(hex) { PairValue(hex[4..6]) }

  const Black: string := "#000000"
  const White: string := "#FFFFFF"

  /** `getContrastColor`: black on an empty colour; otherwise the YIQ
      brightness `(299r + 587g + 114b) / 1000`, a real number in the source,
      picks black from 128 up and white below. Stated in integers, black is
      chosen exactly when `299r + 587g + 114b >= 128000`. */
  function ContrastColor(hexColor: string): (r: string)
    requires hexColor == "" || IsHexColor(hexColor)
    ensures r == Black || r == White
    ensures hexColor == "" ==> r == Black
    ensures hexColor != "" ==>
              (r == Black <==> 299 * Red(hexColor) + 587 * Green(hexColor) + 114 * Blue(hexColor) >= 128000)
  {
    if hexColor == "" then Black
    else
      var red, green, blue := Red(hexColor), Green(hexColor), Blue(hexColor);
      var yiq := (red * 299 + green * 587 + blue * 114) as real / 1000.0;
      if yiq >= 128.0 then Black else White
  }

  function HexDigitChar(d: nat): (c: char)
    requires d < 16
    ensures IsHexDigit(c)
  {
    if d < 10 then ('0' as int + d) as char else ('a' as int + d - 10) as char
  }

  /** A colour part written as two lower-case hexadecimal digits. */
  function HexPair(n: nat): (pair: string)
    requires n < 256
    ensures |pair| == 2 && IsHexDigit(pair[0]) && IsHexDigit(pair[1])
  {
    [HexDigitChar(n / 16), HexDigitChar(n % 16)]
  }

  /** Reading a written part back gives the part. */
  lemma PairRoundTrip(n: nat)
    requires n < 256
    ensures PairValue(HexPair(n)) == n
  {
    var p := HexPair(n);
    assert HexDigitValue(p[0]) == n / 16;
    assert HexDigitValue(p[1]) == n % 16;
  }

  /** The colour written from its three parts. */
  function HexColor(red: nat, green: nat, blue: nat): (hex: string)
    requires red < 256 && green < 256 && blue < 256
    ensures IsHexColor(hex)
  {
    HexPair(red) + HexPair(green) + HexPair(blue)
  }

  /** The contrast of a colour given by its parts, without hexadecimal:
      black exactly from a weighted brightness of 128000 up. */
  lemma ContrastOfParts(red: nat, green: nat, blue: nat)
    requires red < 256 && green < 256 && blue < 256
    ensures ContrastColor(HexColor(red, green, blue)) == Black <==> 299 * red + 587 * green + 114 * blue >= 128000
  {
    var hex := HexColor(red, green, blue);
    assert hex[0..2] == HexPair(red) && hex[2..4] == HexPair(green) && hex[4..6] == HexPair(blue);
    PairRoundTrip(red);
    PairRoundTrip(green);
    PairRoundTrip(blue);
  }

  /** Making any part of a colour brighter never turns black text white. */
  lemma BrighterKeepsBlack(red: nat, green: nat, blue: nat, red': nat, green': nat, blue': nat)
    requires red <= red' < 256 && green <= green' < 256 && blue <= blue' < 256
    requires ContrastColor(HexColor(red, green, blue)) == Black
    ensures ContrastColor(HexColor(red', green', blue')) == Black
  {
    ContrastOfParts(red, green, blue);
    ContrastOfParts(red', green', blue');
  }

  /** White gets black text, black gets white text, and pure green, the
      brightest part, is enough alone for black. */
  lemma ContrastExamples()
    ensures ContrastColor("ffffff") == Black
    ensures ContrastColor("000000") == White
    ensures ContrastColor(HexColor(0, 255, 0)) == Black
    ensures ContrastColor(HexColor(0, 0, 255)) == White
  {
    assert HexColor(255, 255, 255) == "ffffff";
    ContrastOfParts(255, 255, 255);
    assert HexColor(0, 0, 0) == "000000";
    ContrastOfParts(0, 0, 0);
    ContrastOfParts(0, 255, 0);
    ContrastOfParts(0, 0, 255);
  }
}
