/**
 * `rgbToHex` of the image service: `#` followed by each component in base 16,
 * a one-character rendering padded with a leading `0`. Components are integers;
 * nothing clamps them to 0..255.
 */
module HexColor {
  import opened Numerals

  /** `x.toString(16)` for an integer `x`: lower-case digits, a minus sign when negative. */
  function HexString(x: int): string {
    if x >= 0 then ToBase(x, 16) else "-" + ToBase(-x, 16)
  }

  lemma HexStringFacts(x: int)
    ensures x >= 0 ==> ValueIn(HexString(x), 16) == x && AllDigitsIn(HexString(x), 16)
    ensures 0 <= x < 16 <==> |HexString(x)| == 1
    ensures 16 <= x < 256 ==> |HexString(x)| == 2
    ensures 256 <= x ==> |HexString(x)| >= 3
    ensures x < 0 ==> HexString(x)[0] == '-'
  {
    if x >= 0 {
      ValueOfToBase(x, 16);
      HexLength(x);
    }
  }

  /** One component as `rgbToHex` renders it. */
  function Component(x: int): (s: string)
    ensures |s| >= 2
    ensures 0 <= x < 256 ==> |s| == 2 && AllDigitsIn(s, 16) && ValueIn(s, 16) == x
    ensures x >= 256 ==> |s| >= 3 && AllDigitsIn(s, 16) && ValueIn(s, 16) == x
    ensures x < 0 ==> s[0] == '-'
  {
    var hex := HexString(x);
    HexStringFacts(x);
    if |hex| == 1 then
      assert ("0" + hex)[..1] == "0";
      "0" + hex
    else hex
  }

  /** `rgbToHex(r, g, b)`. */
  function RgbToHex(r: int, g: int, b: int): (s: string)
    ensures |s| >= 7 && s[0] == '#'
    ensures s[1..] == Component(r) + Component(g) + Component(b)
  {
    "#" + (Component(r) + Component(g) + Component(b))
  }

  predicate InByteRange(x: int) {
    0 <= x < 256
  }

  /**
   * For components in 0..255 the colour is seven characters, and reading each
   * two-digit chunk back in base 16 gives the components in order.
   */
  lemma RgbRoundTrip(r: int, g: int, b: int)
    requires InByteRange(r) && InByteRange(g) && InByteRange(b)
    ensures var s := RgbToHex(r, g, b);
      && |s| == 7 && AllDigitsIn(s[1..], 16)
      && ValueIn(s[1..3], 16) == r && ValueIn(s[3..5], 16) == g && ValueIn(s[5..7], 16) == b
  {
    var s := RgbToHex(r, g, b);
    var cr, cg, cb := Component(r), Component(g), Component(b);
    Chunks(s, cr, cg, cb);
  }

  /** A `#` followed by three two-character chunks: where each chunk sits. */
  lemma Chunks(s: string, a: string, b: string, c: string)
    requires |a| == 2 && |b| == 2 && |c| == 2
    requires AllDigitsIn(a, 16) && AllDigitsIn(b, 16) && AllDigitsIn(c, 16)
    requires |s| >= 1 && s[1..] == a + b + c
    ensures |s| == 7 && s[1..3] == a && s[3..5] == b && s[5..7] == c
    ensures AllDigitsIn(s[1..], 16)
  {
    var body := a + b + c;
    assert s[1..3] == body[0..2] == a;
    assert s[3..5] == body[2..4] == b;
    assert s[5..7] == body[4..6] == c;
    assert forall i :: 0 <= i < 6 ==> body[i] == if i < 2 then a[i] else if i < 4 then b[i - 2] else c[i - 4];
  }

  /** Distinct colours in 0..255 get distinct strings. */
  lemma RgbInjective(r: int, g: int, b: int, r': int, g': int, b': int)
    requires InByteRange(r) && InByteRange(g) && InByteRange(b)
    requires InByteRange(r') && InByteRange(g') && InByteRange(b')
    requires RgbToHex(r, g, b) == RgbToHex(r', g', b')
    ensures r == r' && g == g' && b == b'
  {
    RgbRoundTrip(r, g, b);
    RgbRoundTrip(r', g', b');
  }

  /** A component of 256 or more is not clamped: the string grows past seven characters. */
  lemma RgbUnclamped(r: int, g: int, b: int)
    requires r >= 256 || g >= 256 || b >= 256
    ensures |RgbToHex(r, g, b)| >= 8
  {
  }
}
