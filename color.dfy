/** `Color(hex:)` and `UIColor(hex:)`: a hex string, trimmed of surrounding punctuation,
    read as 3-, 6- or 8-digit RGB / ARGB channels. */
module HexColor {

  /** `CharacterSet.alphanumerics`, restricted to ASCII letters and digits. */
  predicate IsAlphanumeric(c: char) {
    'a' <= c <= 'z' || 'A' <= c <= 'Z' || '0' <= c <= '9'
  }

  /** How many characters the trim removes from the front: the leading run of
      non-alphanumeric characters. */
  function TrimOffset(s: string): (n: nat)
    ensures n <= |s|
    ensures forall i :: 0 <= i < n ==> !IsAlphanumeric(s[i])
    ensures n < |s| ==> IsAlphanumeric(s[n])
  {
    if s != [] && !IsAlphanumeric(s[0]) then 1 + TrimOffset(s[1..]) else 0
  }

  /** How many characters the trim keeps of a string whose front is already trimmed:
      everything up to the last alphanumeric character. */
  function TrimKept(s: string): (n: nat)
    ensures n <= |s|
    ensures forall i :: n <= i < |s| ==> !IsAlphanumeric(s[i])
    ensures n > 0 ==> IsAlphanumeric(s[n - 1])
  {
    if s != [] && !IsAlphanumeric(s[|s| - 1]) then TrimKept(s[..|s| - 1]) else |s|
  }

  /** The leading half of `trimmingCharacters(in: .alphanumerics.inverted)`. */
  function TrimStart(s: string): (t: string)
    ensures t != [] ==> IsAlphanumeric(t[0])
  {
    s[TrimOffset(s)..]
  }

  /** The trailing half of the same trim. */
  function TrimEnd(s: string): (t: string)
    ensures t != [] ==> IsAlphanumeric(t[|t| - 1])
  {
    s[..TrimKept(s)]
  }

  /** `hex.trimmingCharacters(in: CharacterSet.alphanumerics.inverted)`. */
  function Trim(s: string): (t: string)
    ensures |t| <= |s|
    ensures t != [] ==> IsAlphanumeric(t[0]) && IsAlphanumeric(t[|t| - 1])
  {
    TrimEnd(TrimStart(s))
  }

  /** The trim removes only non-alphanumeric characters, and only from the two ends: what
      is left is one slice of the input that starts and ends with an alphanumeric
      character, whatever lies between. */
  lemma TrimKeepsInterior(s: string)
    ensures var i, t := TrimOffset(s), Trim(s);
            && i + |t| <= |s| && t == s[i..i + |t|]
            && (forall k :: 0 <= k < i ==> !IsAlphanumeric(s[k]))
            && (forall k :: i + |t| <= k < |s| ==> !IsAlphanumeric(s[k]))
            && (t != [] ==> IsAlphanumeric(t[0]) && IsAlphanumeric(t[|t| - 1]))
  {
    var i := TrimOffset(s);
    var u := s[i..];
    var n := TrimKept(u);
    assert Trim(s) == u[..n] == s[i..i + n];
    TrailingPunctuation(s, i, n);
  }

  /** What `TrimKept` drops from the trimmed front is dropped from the input. */
  lemma TrailingPunctuation(s: string, i: nat, n: nat)
    requires i + n <= |s|
    requires forall k :: n <= k < |s[i..]| ==> !IsAlphanumeric(s[i..][k])
    ensures forall k :: i + n <= k < |s| ==> !IsAlphanumeric(s[k])
  {
    forall k | i + n <= k < |s|
      ensures !IsAlphanumeric(s[k])
    {
      assert s[k] == s[i..][k - i];
    }
  }

  /** Trimming twice is trimming once. */
  lemma TrimIdempotent(s: string)
    ensures Trim(Trim(s)) == Trim(s)
  {
    var t := Trim(s);
    if t != [] {
      assert TrimStart(t) == t;
      assert TrimEnd(t) == t;
    }
  }

  predicate IsHexDigit(c: char) {
    '0' <= c <= '9' || 'a' <= c <= 'f' || 'A' <= c <= 'F'
  }

  predicate AllHex(d: string) {
    forall i :: 0 <= i < |d| ==> IsHexDigit(d[i])
  }

  function DigitValue(c: char): (v: nat)
    requires IsHexDigit(c)
    ensures v < 16
  {
    if '0' <= c <= '9' then c as int - '0' as int
    else if 'a' <= c <= 'f' then c as int - 'a' as int + 10
    else c as int - 'A' as int + 10
  }

  function Pow16(n: nat): (p: nat)
    ensures p >= 1
  {
    if n == 0 then 1 else 16 * Pow16(n - 1)
  }

  lemma {:induction false} Pow16Monotonic(m: nat, n: nat)
    requires m <= n
    ensures Pow16(m) <= Pow16(n)
    decreases n
  {
    if m < n {
      Pow16Monotonic(m, n - 1);
    }
  }

  /** The number a string of hex digits denotes, most significant digit first. */
  function HexValue(d: string): (v: nat)
    requires AllHex(d)
    ensures v < Pow16(|d|)
    decreases |d|
  {
    if d == [] then 0
    else
      var v := HexValue(d[..|d| - 1]);
      assert v <= Pow16(|d| - 1) - 1;
      v * 16 + DigitValue(d[|d| - 1])
  }

  /** The length of the leading run of hex digits. */
  function HexRun(s: string): (n: nat)
    ensures n <= |s|
    ensures forall i :: 0 <= i < n ==> IsHexDigit(s[i])
    ensures n < |s| ==> !IsHexDigit(s[n])
  {
    if s != [] && IsHexDigit(s[0]) then 1 + HexRun(s[1..]) else 0
  }

  const UInt64Max: nat := 0xFFFF_FFFF_FFFF_FFFF

  /** `Scanner(string:).scanHexInt64(&int)` from a variable holding 0: the value of the
      leading hex-digit run (0 when there is none), `UInt64.max` when it does not fit. */
  function ScanHex(s: string): (v: nat)
    ensures v <= UInt64Max
  {
    var x := HexValue(s[..HexRun(s)]);
    if x > UInt64Max then UInt64Max else x
  }

  /** The scanned value has no more hex digits than the string has characters. */
  lemma ScanHexBound(s: string)
    ensures ScanHex(s) < Pow16(|s|)
  {
    Pow16Monotonic(HexRun(s), |s|);
  }

  lemma {:induction false} HexRunAllHex(s: string)
    requires AllHex(s)
    ensures HexRun(s) == |s|
  {
    if s != [] {
      assert AllHex(s[1..]) by {
        forall i | 0 <= i < |s[1..]|
          ensures IsHexDigit(s[1..][i])
        {
          assert s[1..][i] == s[i + 1];
        }
      }
      HexRunAllHex(s[1..]);
    }
  }

  /** A string of at most 16 hex digits scans to exactly the number it denotes. */
  lemma ScanAllHex(s: string)
    requires AllHex(s) && |s| <= 16
    ensures ScanHex(s) == HexValue(s)
  {
    HexRunAllHex(s);
    assert s[..HexRun(s)] == s;
    Pow16Monotonic(|s|, 16);
    Pow16Sixteen();
  }

  /** Sixteen hex digits are exactly the range of a `UInt64`. */
  lemma Pow16Sixteen()
    ensures Pow16(16) == UInt64Max + 1
  {
    assert Pow16(4) == 65536;
    assert Pow16(8) == 65536 * Pow16(4);
    assert Pow16(12) == 65536 * Pow16(8);
    assert Pow16(16) == 65536 * Pow16(12);
  }

  /** A colour's four channels: alpha, red, green, blue. */
  datatype Argb = Argb(a: nat, r: nat, g: nat, b: nat)

  predicate InByteRange(c: Argb) {
    c.a <= 255 && c.r <= 255 && c.g <= 255 && c.b <= 255
  }

  /** The switch on the trimmed length: 3 digits are RGB nibbles scaled by 17, 6 digits
      RGB bytes, 8 digits ARGB bytes; any other length gives (1, 1, 1, 0). */
  function Channels(hex: string): (c: Argb)
    ensures |Trim(hex)| in {3, 6, 8} ==> InByteRange(c)
    ensures |Trim(hex)| in {3, 6} ==> c.a == 255
    ensures |Trim(hex)| !in {3, 6, 8} ==> c == Argb(1, 1, 1, 0)
  {
    var t := Trim(hex);
    var v := ScanHex(t);
    if |t| == 3 then
      ScanHexBound(t);
      ChannelsThreeBound(v);
      Argb(255, v / 256 * 17, v / 16 % 16 * 17, v % 16 * 17)
    else if |t| == 6 then
      ScanHexBound(t);
      ChannelsSixBound(v);
      Argb(255, v / 65536, v / 256 % 256, v % 256)
    else if |t| == 8 then
      ScanHexBound(t);
      ChannelsEightBound(v);
      Argb(v / 16777216, v / 65536 % 256, v / 256 % 256, v % 256)
    else Argb(1, 1, 1, 0)
  }

  lemma ChannelsThreeBound(v: nat)
    requires v < Pow16(3)
    ensures v / 256 * 17 <= 255
  {
    assert Pow16(3) == 4096;
  }

  lemma ChannelsSixBound(v: nat)
    requires v < Pow16(6)
    ensures v / 65536 <= 255
  {
    assert Pow16(6) == 16777216;
  }

  lemma ChannelsEightBound(v: nat)
    requires v < Pow16(8)
    ensures v / 16777216 <= 255
  {
    assert Pow16(8) == 4294967296;
  }

  /** With six characters the channels are the three bytes of the scanned value. */
  lemma SixCharactersAreRgbBytes(hex: string)
    requires |Trim(hex)| == 6
    ensures var c := Channels(hex);
            c.r * 65536 + c.g * 256 + c.b == ScanHex(Trim(hex))
  {
    ScanHexBound(Trim(hex));
    RgbBytes(ScanHex(Trim(hex)));
  }

  /** With eight characters the layout is ARGB: alpha is the top byte. */
  lemma EightCharactersAreArgbBytes(hex: string)
    requires |Trim(hex)| == 8
    ensures var c := Channels(hex);
            c.a * 16777216 + c.r * 65536 + c.g * 256 + c.b == ScanHex(Trim(hex))
  {
    ScanHexBound(Trim(hex));
    ArgbBytes(ScanHex(Trim(hex)));
  }

  lemma RgbBytes(v: nat)
    ensures v / 65536 * 65536 + v / 256 % 256 * 256 + v % 256 == v
  {
    ShiftsCompose(v);
    var q1 := v / 256;
    assert v == q1 * 256 + v % 256;
    assert q1 == q1 / 256 * 256 + q1 % 256;
  }

  lemma ArgbBytes(v: nat)
    ensures v / 16777216 * 16777216 + v / 65536 % 256 * 65536 + v / 256 % 256 * 256 + v % 256 == v
  {
    ShiftsCompose(v);
    var q1 := v / 256;
    var q2 := q1 / 256;
    assert v == q1 * 256 + v % 256;
    assert q1 == q2 * 256 + q1 % 256;
    assert q2 == q2 / 256 * 256 + q2 % 256;
  }

  /** The two hex digits of one byte. */
  function DigitPairValue(d: string): (v: nat)
    requires |d| == 2 && AllHex(d)
    ensures v < 256
  {
    DigitValue(d[0]) * 16 + DigitValue(d[1])
  }

  /** Peeling the last digit off a hex string. */
  lemma HexValueLastDigit(d: string)
    requires |d| >= 1 && AllHex(d)
    ensures AllHex(d[..|d| - 1])
    ensures HexValue(d) == HexValue(d[..|d| - 1]) * 16 + DigitValue(d[|d| - 1])
  {
  }

  /** Peeling the last two digits, one byte, off a hex string. */
  lemma HexValueLastPair(d: string)
    requires |d| >= 2 && AllHex(d)
    ensures AllHex(d[..|d| - 2]) && AllHex(d[|d| - 2..])
    ensures HexValue(d) == HexValue(d[..|d| - 2]) * 256 + DigitPairValue(d[|d| - 2..])
  {
    var e := d[..|d| - 1];
    var pair := d[|d| - 2..];
    assert e[..|e| - 1] == d[..|d| - 2];
    assert pair[0] == d[|d| - 2] && pair[1] == d[|d| - 1];
    HexValueLastDigit(d);
    HexValueLastDigit(e);
    var x, m, l := HexValue(d[..|d| - 2]), DigitValue(d[|d| - 2]), DigitValue(d[|d| - 1]);
    assert HexValue(e) == x * 16 + m;
    assert HexValue(d) == (x * 16 + m) * 16 + l;
    assert DigitPairValue(pair) == m * 16 + l;
  }

  /** Appending one hex digit: the shift and the mask give back the parts. */
  lemma SplitNibble(q: nat, d: nat)
    requires d < 16
    ensures (q * 16 + d) / 16 == q && (q * 16 + d) % 16 == d
  {
  }

  /** Appending one byte: the shift and the mask give back the parts. */
  lemma SplitByte(q: nat, d: nat)
    requires d < 256
    ensures (q * 256 + d) / 256 == q && (q * 256 + d) % 256 == d
  {
  }

  /** A shift by several places is that many single shifts. */
  lemma ShiftsCompose(v: nat)
    ensures v / 256 == v / 16 / 16
    ensures v / 65536 == v / 256 / 256
    ensures v / 16777216 == v / 65536 / 256
  {
  }

  /** Three hex digits: each channel is its digit times 17 (so "f" is 255, "8" is 136). */
  lemma ThreeDigitsAreScaledNibbles(hex: string)
    requires |Trim(hex)| == 3 && AllHex(Trim(hex))
    ensures var t, c := Trim(hex), Channels(hex);
            c == Argb(255, DigitValue(t[0]) * 17, DigitValue(t[1]) * 17, DigitValue(t[2]) * 17)
  {
    var t := Trim(hex);
    var v := HexValueThree(t);
    ScanAllHex(t);
    assert ScanHex(t) == v;
    ShiftsCompose(v);
  }

  /** The value of three hex digits, digit by digit. */
  lemma HexValueThree(t: string) returns (v: nat)
    requires |t| == 3 && AllHex(t)
    ensures v == HexValue(t)
    ensures v / 16 / 16 == DigitValue(t[0]) && v / 16 % 16 == DigitValue(t[1]) && v % 16 == DigitValue(t[2])
  {
    var p := t[..2];
    HexValueLastDigit(t);
    HexValueLastDigit(p);
    assert p[..1][..0] == [];
    HexValueLastDigit(p[..1]);
    var hi := HexValue(p);
    v := HexValue(t);
    SplitNibble(hi, DigitValue(t[2]));
    SplitNibble(DigitValue(t[0]), DigitValue(t[1]));
  }

  /** Six hex digits: the channels are the digit pairs in order, red first. */
  lemma SixDigitsArePairs(hex: string)
    requires |Trim(hex)| == 6 && AllHex(Trim(hex))
    ensures var t, c := Trim(hex), Channels(hex);
            c == Argb(255, DigitPairValue(t[..2]), DigitPairValue(t[2..4]), DigitPairValue(t[4..]))
  {
    var t := Trim(hex);
    var v := HexValueSix(t);
    ScanAllHex(t);
    assert ScanHex(t) == v;
    ShiftsCompose(v);
  }

  /** The value of six hex digits, pair by pair. */
  lemma HexValueSix(t: string) returns (v: nat)
    requires |t| == 6 && AllHex(t)
    ensures v == HexValue(t)
    ensures v / 256 / 256 == DigitPairValue(t[..2])
    ensures v / 256 % 256 == DigitPairValue(t[2..4]) && v % 256 == DigitPairValue(t[4..])
  {
    var p := t[..4];
    HexValueLastPair(t);
    HexValueLastPair(p);
    assert p[..2] == t[..2] && p[2..] == t[2..4];
    HexValueTwo(t[..2]);
    v := HexValue(t);
    SplitByte(HexValue(p), DigitPairValue(t[4..]));
    SplitByte(DigitPairValue(t[..2]), DigitPairValue(t[2..4]));
  }

  /** Two hex digits are one byte. */
  lemma HexValueTwo(p: string)
    requires |p| == 2 && AllHex(p)
    ensures HexValue(p) == DigitPairValue(p)
  {
    HexValueLastPair(p);
    assert p[..0] == [] && p[0..] == p;
  }

  /** Eight hex digits: alpha is the first pair, then red, green and blue. */
  lemma EightDigitsArePairs(hex: string)
    requires |Trim(hex)| == 8 && AllHex(Trim(hex))
    ensures var t, c := Trim(hex), Channels(hex);
            c == Argb(DigitPairValue(t[..2]), DigitPairValue(t[2..4]), DigitPairValue(t[4..6]), DigitPairValue(t[6..]))
  {
    var t := Trim(hex);
    var v := HexValueEight(t);
    ScanAllHex(t);
    assert ScanHex(t) == v;
    ShiftsCompose(v);
  }

  /** The value of eight hex digits, pair by pair. */
  lemma HexValueEight(t: string) returns (v: nat)
    requires |t| == 8 && AllHex(t)
    ensures v == HexValue(t)
    ensures v / 256 / 256 / 256 == DigitPairValue(t[..2]) && v / 256 / 256 % 256 == DigitPairValue(t[2..4])
    ensures v / 256 % 256 == DigitPairValue(t[4..6]) && v % 256 == DigitPairValue(t[6..])
  {
    var p := t[..6];
    HexValueLastPair(t);
    assert AllHex(p);
    var w := HexValueSix(p);
    assert p[..2] == t[..2] && p[2..4] == t[2..4] && p[4..] == t[4..6];
    v := HexValue(t);
    SplitByte(w, DigitPairValue(t[6..]));
  }

  /** The lower-case hex digit of a value below 16. */
  function HexDigitChar(n: nat): (c: char)
    requires n < 16
    ensures IsHexDigit(c) && IsAlphanumeric(c) && DigitValue(c) == n
  {
    if n < 10 then ('0' as int + n) as char else ('a' as int + n - 10) as char
  }

  /** A byte as two lower-case hex digits. */
  function ByteHex(n: nat): (d: string)
    requires n < 256
    ensures |d| == 2 && AllHex(d) && DigitPairValue(d) == n
    ensures IsAlphanumeric(d[0]) && IsAlphanumeric(d[1])
  {
    [HexDigitChar(n / 16), HexDigitChar(n % 16)]
  }

  /** `#rrggbb`, the usual way such colours are written. */
  function HexRgb(r: nat, g: nat, b: nat): (s: string)
    requires r < 256 && g < 256 && b < 256
    ensures |s| == 7
  {
    "#" + ByteHex(r) + ByteHex(g) + ByteHex(b)
  }

  /** Reading back a `#rrggbb` string gives its bytes, fully opaque. */
  lemma HexRgbRoundTrip(r: nat, g: nat, b: nat)
    requires r < 256 && g < 256 && b < 256
    ensures Channels(HexRgb(r, g, b)) == Argb(255, r, g, b)
  {
    var s := HexRgb(r, g, b);
    var d := s[1..];
    assert d == ByteHex(r) + ByteHex(g) + ByteHex(b);
    assert AllHex(d) by {
      forall i | 0 <= i < 6
        ensures IsHexDigit(d[i])
      {
        if i < 2 {
          assert d[i] == ByteHex(r)[i];
        } else if i < 4 {
          assert d[i] == ByteHex(g)[i - 2];
        } else {
          assert d[i] == ByteHex(b)[i - 4];
        }
      }
    }
    assert TrimStart(s) == d by {
      assert !IsAlphanumeric(s[0]);
      assert s[1..] == d;
      assert d[0] == ByteHex(r)[0];
    }
    assert d[5] == ByteHex(b)[1];
    assert Trim(s) == d;
    SixDigitsArePairs(s);
    assert d[..2] == ByteHex(r) && d[2..4] == ByteHex(g) && d[4..] == ByteHex(b);
  }

  /** Punctuation inside the digits survives the trim and is counted: "#12-345" has six
      characters, of which only "12" is scanned, so it reads as the blue 0x000012. */
  lemma InteriorPunctuationCounts()
    ensures Channels("#12-345") == Argb(255, 0, 0, 18)
  {
    var t := "12-345";
    assert "#12-345"[1..] == t;
    assert TrimStart("#12-345") == t;
    assert Trim("#12-345") == t;
    assert t[1..] == "2-345" && "2-345"[1..] == "-345";
    assert HexRun("-345") == 0;
    assert HexRun(t) == 2;
    assert t[..2] == "12" && "12"[..1] == "1" && "1"[..0] == "";
    assert HexValue("1") == 1;
    assert HexValue("12") == 18;
    assert ScanHex(t) == 18;
  }

  datatype ColorSpace = SRGB

  /** A SwiftUI `Color`: its components as fractions of 255 (exact rationals here). */
  datatype Color = Color(space: ColorSpace, red: real, green: real, blue: real, opacity: real)

  /** A UIKit `UIColor` in the same terms. */
  datatype UIColor = UIColor(red: real, green: real, blue: real, alpha: real)

  predicate IsUnitInterval(x: real) {
    0.0 <= x <= 1.0
  }

  /** `Color(hex:)`: the channels over 255, in the sRGB space. */
  function ColorFromHex(hex: string): (c: Color)
    ensures c.space == SRGB
    ensures |Trim(hex)| in {3, 6, 8} ==>
              IsUnitInterval(c.red) && IsUnitInterval(c.green) && IsUnitInterval(c.blue) && IsUnitInterval(c.opacity)
    ensures |Trim(hex)| !in {3, 6, 8} ==> c.red == c.green == c.opacity == 1.0 / 255.0 && c.blue == 0.0
  {
    var ch := Channels(hex);
    Color(SRGB, ch.r as real / 255.0, ch.g as real / 255.0, ch.b as real / 255.0, ch.a as real / 255.0)
  }

  /** `UIColor(hex:)`: the source writes the trim, the scan and the switch out a second
      time rather than sharing them with `Color(hex:)`, so they are written out here too. */
  function UIColorFromHex(hex: string): (c: UIColor)
    ensures |Trim(hex)| in {3, 6, 8} ==>
              IsUnitInterval(c.red) && IsUnitInterval(c.green) && IsUnitInterval(c.blue) && IsUnitInterval(c.alpha)
    ensures |Trim(hex)| !in {3, 6, 8} ==> c.red == c.green == c.alpha == 1.0 / 255.0 && c.blue == 0.0
  {
    var t := Trim(hex);
    var v := ScanHex(t);
    var (a, r, g, b) :=
      if |t| == 3 then
        ScanHexBound(t);
        ChannelsThreeBound(v);
        (255, v / 256 * 17, v / 16 % 16 * 17, v % 16 * 17)
      else if |t| == 6 then
        ScanHexBound(t);
        ChannelsSixBound(v);
        (255, v / 65536, v / 256 % 256, v % 256)
      else if |t| == 8 then
        ScanHexBound(t);
        ChannelsEightBound(v);
        (v / 16777216, v / 65536 % 256, v / 256 % 256, v % 256)
      else (1, 1, 1, 0);
    UIColor(r as real / 255.0, g as real / 255.0, b as real / 255.0, a as real / 255.0)
  }

  /** The two initialisers, written separately, produce the same components for every
      input. */
  lemma {:induction false} UIColorAgreesWithColor(hex: string)
    ensures var c, u := ColorFromHex(hex), UIColorFromHex(hex);
            u.red == c.red && u.green == c.green && u.blue == c.blue && u.alpha == c.opacity
  {
    var t := Trim(hex);
    var v := ScanHex(t);
    var ch := Channels(hex);
    if |t| == 3 {
      assert ch == Argb(255, v / 256 * 17, v / 16 % 16 * 17, v % 16 * 17);
    } else if |t| == 6 {
      assert ch == Argb(255, v / 65536, v / 256 % 256, v % 256);
    } else if |t| == 8 {
      assert ch == Argb(v / 16777216, v / 65536 % 256, v / 256 % 256, v % 256);
    } else {
      assert ch == Argb(1, 1, 1, 0);
    }
  }
}
