/**
 * The hex label of a colour, `#${color.map(c => c.toString(16).padStart(2, '0')).join('')}`
 * (src/App.js:246, src/App.js:1075), and a decoder that reads it back.
 */
module HexColor {
  import opened Wrappers
  import opened Pairs

  const Digits := "0123456789abcdef"

  /** `Number.prototype.toString(16)` for a non-negative integer: no leading zeros, "0" for 0. */
  function ToBase16(v: nat): (r: string)
    ensures 0 < |r|
    ensures v < 256 ==> |r| <= 2
    ensures forall k :: 0 <= k < |r| ==> IsHexDigit(r[k])
    decreases v
  {
    if v < 16 then [Digits[v]] else ToBase16(v / 16) + [Digits[v % 16]]
  }

  /** `String.prototype.padStart(n, c)` with a one-character fill. */
  function PadStart(s: string, n: nat, c: char): (r: string)
    ensures |r| == if |s| >= n then |s| else n
    ensures |s| >= n ==> r == s
    ensures |s| < n ==> r[..n - |s|] == seq(n - |s|, _ => c) && r[n - |s|..] == s
  {
    if |s| >= n then s else seq(n - |s|, _ => c) + s
  }

  /** One channel as two hex digits. */
  function HexByte(v: Channel): (r: string)
    ensures |r| == 2 && IsHexDigit(r[0]) && IsHexDigit(r[1])
  {
    PadStart(ToBase16(v), 2, '0')
  }

  /** The palette label of a colour. */
  function Hex(c: Color): (r: string)
    ensures |r| == 7 && r[0] == '#'
  {
    "#" + HexByte(c.r) + HexByte(c.g) + HexByte(c.b)
  }

  /** The labels of a palette, left to right. */
  function Labels(colors: seq<Color>): (r: seq<string>)
    ensures |r| == |colors|
    ensures forall i :: 0 <= i < |colors| ==> |r[i]| == 7 && r[i][0] == '#'
    ensures forall i :: 0 <= i < |colors| ==> r[i] == Hex(colors[i])
  {
    seq(|colors|, i requires 0 <= i < |colors| => Hex(colors[i]))
  }

  /** The value of a lowercase hex digit, or None for any other character. */
  function DigitValue(ch: char): (r: Option<nat>)
    ensures r.Some? ==> r.value < 16 && Digits[r.value] == ch
    ensures ch in Digits ==> r.Some?
  {
    if '0' <= ch <= '9' then Some((ch as int) - ('0' as int))
    else if 'a' <= ch <= 'f' then Some((ch as int) - ('a' as int) + 10)
    else None
  }

  /** Reads two hex digits. */
  function ParseByte(s: string): (r: Option<Channel>)
    requires |s| == 2
  {
    match (DigitValue(s[0]), DigitValue(s[1]))
    case (Some(hi), Some(lo)) => Some(16 * hi + lo)
    case _ => None
  }

  /** Reads a `#rrggbb` label back; None for anything else. */
  function Decode(s: string): (r: Option<Color>)
    ensures r.Some? ==> |s| == 7 && s[0] == '#'
  {
    if |s| != 7 || s[0] != '#' then None
    else match (ParseByte(s[1..3]), ParseByte(s[3..5]), ParseByte(s[5..7]))
      case (Some(r), Some(g), Some(b)) => Some(Color(r, g, b))
      case _ => None
  }

  /** A channel is always written as exactly two digits: its high and its low nibble. */
  lemma HexByteNibbles(v: Channel)
    ensures HexByte(v) == [Digits[v / 16], Digits[v % 16]]
  {
    if v < 16 {
      assert ToBase16(v) == [Digits[v]];
      assert seq(1, _ => '0') == ['0'];
    } else {
      assert ToBase16(v / 16) == [Digits[v / 16]];
    }
  }

  /** The two digits of a channel read back as its value in base 16. */
  lemma HexByteReadsBack(v: Channel)
    ensures |HexByte(v)| == 2 && ParseByte(HexByte(v)) == Some(v)
  {
    HexByteNibbles(v);
    var s := HexByte(v);
    var hi, lo := DigitValue(s[0]), DigitValue(s[1]);
    assert hi.Some? && lo.Some?;
    DigitsDistinct(hi.value, v / 16);
    DigitsDistinct(lo.value, v % 16);
  }

  lemma DigitsDistinct(i: nat, j: nat)
    requires i < 16 && j < 16 && Digits[i] == Digits[j]
    ensures i == j
  {
  }

  /** A lowercase hexadecimal digit. */
  predicate IsHexDigit(ch: char)
  {
    '0' <= ch <= '9' || 'a' <= ch <= 'f'
  }

  lemma DigitsAreHexDigits(i: nat)
    requires i < 16
    ensures IsHexDigit(Digits[i])
  {
  }

  /** Every label is `#` followed by six lowercase hex digits. */
  lemma HexShape(c: Color)
    ensures |Hex(c)| == 7 && Hex(c)[0] == '#'
    ensures forall k :: 1 <= k < 7 ==> IsHexDigit(Hex(c)[k])
  {
    var r, g, b := HexByte(c.r), HexByte(c.g), HexByte(c.b);
    HexByteNibbles(c.r);
    HexByteNibbles(c.g);
    HexByteNibbles(c.b);
    DigitsAreHexDigits(c.r / 16); DigitsAreHexDigits(c.r % 16);
    DigitsAreHexDigits(c.g / 16); DigitsAreHexDigits(c.g % 16);
    DigitsAreHexDigits(c.b / 16); DigitsAreHexDigits(c.b % 16);
    var s := "#" + r + g + b;
    assert Hex(c) == s;
    assert s[1] == r[0] && s[2] == r[1] && s[3] == g[0] && s[4] == g[1] && s[5] == b[0] && s[6] == b[1];
  }

  /** Reading a label back gives the colour: each two-digit group is its channel in base 16. */
  lemma HexRoundTrip(c: Color)
    ensures Decode(Hex(c)) == Some(c)
  {
    var s := Hex(c);
    var r, g, b := HexByte(c.r), HexByte(c.g), HexByte(c.b);
    HexByteReadsBack(c.r);
    HexByteReadsBack(c.g);
    HexByteReadsBack(c.b);
    assert s == "#" + r + g + b;
    assert s[1..3] == r && s[3..5] == g && s[5..7] == b;
  }

  /** Distinct colours get distinct labels. */
  lemma HexInjective(c1: Color, c2: Color)
    requires Hex(c1) == Hex(c2)
    ensures c1 == c2
  {
    HexRoundTrip(c1);
    HexRoundTrip(c2);
  }

  /** Pure red and pure green are labelled `#ff0000` and `#00ff00`. */
  lemma RedGreenLabels()
    ensures Labels([Color(255, 0, 0), Color(0, 255, 0)]) == ["#ff0000", "#00ff00"]
  {
    HexByteNibbles(255);
    HexByteNibbles(0);
    var ff, zz := HexByte(255), HexByte(0);
    assert ff == "ff" && zz == "00";
    assert Hex(Color(255, 0, 0)) == "#" + ff + zz + zz == "#ff0000";
    assert Hex(Color(0, 255, 0)) == "#" + zz + ff + zz == "#00ff00";
  }
}
