/** The hex-string side of `Color` in Misc/Colors.swift, at the level of byte components:
    `Color(hex:)` parsing, the `"#%02X%02X%02X"` formatting of `getColorHex`, and the palette `allList`. */
module Colors {
  import opened Wrappers

  type Byte = x: int | 0 <= x < 256

  /** A colour as the three 8-bit components that `Color(hex:)` extracts. */
  datatype Rgb = Rgb(red: Byte, green: Byte, blue: Byte)

  /** The fallback `Color(red: 0, green: 0, blue: 0)`. */
  const Black: Rgb := Rgb(0, 0, 0)

  /** The value of a character as a base-16 digit, as `Int(_:radix: 16)` reads it (either case). */
  function HexDigitValue(c: char): Optional<nat>
  {
    if '0' <= c <= '9' then Some(c as int - '0' as int)
    else if 'a' <= c <= 'f' then Some(c as int - 'a' as int + 10)
    else if 'A' <= c <= 'F' then Some(c as int - 'A' as int + 10)
    else Nil
  }

  ghost predicate AllHexDigits(s: string)
  {
    forall i :: 0 <= i < |s| ==> HexDigitValue(s[i]).Some?
  }

  /** The value of a run of base-16 digits, most significant first; `Nil` if one is not a digit. */
  function DigitsValue(s: string): (r: Optional<nat>)
    ensures r.Some? <==> AllHexDigits(s)
  {
    if s == [] then Some(0)
    else
      var init := s[..|s| - 1];
      assert forall i :: 0 <= i < |init| ==> init[i] == s[i];
      var high, low := DigitsValue(init), HexDigitValue(s[|s| - 1]);
      if high.Some? && low.Some? then Some(high.value * 16 + low.value) else Nil
  }

  /** Swift's `Int(text, radix: 16)`: an optional leading '+' or '-', then at least one digit.
      (At most six characters reach it here, so the 64-bit overflow check never applies.) */
  function ParseInt16(s: string): (r: Optional<int>)
    ensures s == [] ==> r == Nil
    ensures s != [] && s[0] != '+' && s[0] != '-' ==> (r.Some? <==> AllHexDigits(s))
  {
    if s == [] then Nil
    else if s[0] == '+' || s[0] == '-' then
      if |s| == 1 then Nil
      else match DigitsValue(s[1..])
        case Nil => Nil
        case Some(v) =>
          var signed: int := if s[0] == '-' then -(v as int) else v;
          Some(signed)
    else match DigitsValue(s)
      case Nil => Nil
      case Some(v) => Some(v)
  }

  /** `hex.hasPrefix("#") ? String(hex.dropFirst()) : hex`. */
  function StripHash(hex: string): (r: string)
    ensures |r| == if hex != [] && hex[0] == '#' then |hex| - 1 else |hex|
    ensures hex != [] && hex[0] == '#' ==> hex == "#" + r
    ensures !(hex != [] && hex[0] == '#') ==> r == hex
  {
    if hex != [] && hex[0] == '#' then hex[1..] else hex
  }

  /** `(v >> 16) & 0xFF`, `(v >> 8) & 0xFF`, `v & 0xFF` on a 64-bit Int. For a positive divisor
      Dafny's `/` is floor division, which is what an arithmetic right shift computes, and its
      non-negative `%` is what masking the two's-complement bits computes, also for negative `v`. */
  function Components(v: int): (c: Rgb)
    ensures 0 <= v < 0x100_0000 ==> v == c.red * 0x1_0000 + c.green * 0x100 + c.blue
  {
    Rgb((v / 0x1_0000) % 0x100, (v / 0x100) % 0x100, v % 0x100)
  }

  /** `Color(hex:)`: black unless what remains after one leading '#' is six characters
      that `Int(_:radix: 16)` accepts. */
  function ColorFromHex(hex: string): (c: Rgb)
    ensures |StripHash(hex)| != 6 ==> c == Black
    ensures ParseInt16(StripHash(hex)).Nil? ==> c == Black
  {
    var hexString := StripHash(hex);
    if |hexString| != 6 then Black
    else match ParseInt16(hexString)
      case Nil => Black
      case Some(hexValue) => Components(hexValue)
  }

  /** The upper-case digit `%X` prints for a value below 16. */
  function HexDigit(n: nat): (c: char)
    requires n < 16
    ensures HexDigitValue(c) == Some(n)
    ensures c != '#' && c != '+' && c != '-'
    ensures !('a' <= c <= 'f')
  {
    if n < 10 then ('0' as int + n) as char else ('A' as int + n - 10) as char
  }

  /** `%02X` for a component in 0...255: exactly two upper-case digits, zero-padded. */
  function Hex2(b: Byte): (s: string)
    ensures |s| == 2
  {
    [HexDigit(b / 16), HexDigit(b % 16)]
  }

  /** `String(format: "#%02X%02X%02X", red, green, blue)`. */
  function FormatHex(c: Rgb): (s: string)
    ensures |s| == 7 && s[0] == '#'
  {
    "#" + Hex2(c.red) + Hex2(c.green) + Hex2(c.blue)
  }

  /** Appending the two digits of a byte shifts the value left by eight bits. */
  lemma DigitsValueAppendByte(s: string, b: Byte)
    requires DigitsValue(s).Some?
    ensures DigitsValue(s + Hex2(b)) == Some(DigitsValue(s).value * 256 + b)
  {
    var v := DigitsValue(s).value;
    var s1 := s + [HexDigit(b / 16)];
    var t := s + Hex2(b);
    assert t[..|t| - 1] == s1 && t[|t| - 1] == HexDigit(b % 16);
    assert s1[..|s1| - 1] == s && s1[|s1| - 1] == HexDigit(b / 16);
    assert DigitsValue(s1) == Some(v * 16 + b / 16);
    assert DigitsValue(t) == Some((v * 16 + b / 16) * 16 + b % 16);
    assert (v * 16 + b / 16) * 16 + b % 16 == v * 256 + b;
  }

  /** The six digits of a formatted colour read back as the 24-bit value of its components. */
  lemma DigitsOfFormat(c: Rgb)
    ensures DigitsValue(FormatHex(c)[1..]) == Some(c.red * 0x1_0000 + c.green * 0x100 + c.blue)
  {
    var s := FormatHex(c)[1..];
    assert s == [] + Hex2(c.red) + Hex2(c.green) + Hex2(c.blue);
    DigitsValueAppendByte([], c.red);
    DigitsValueAppendByte([] + Hex2(c.red), c.green);
    DigitsValueAppendByte([] + Hex2(c.red) + Hex2(c.green), c.blue);
  }

  /** Splitting a 24-bit value into bytes recovers the components it was built from. */
  lemma ComponentsOfValue(c: Rgb)
    ensures Components(c.red * 0x1_0000 + c.green * 0x100 + c.blue) == c
  {
    var v := c.red * 0x1_0000 + c.green * 0x100 + c.blue;
    assert v / 0x100 == c.red * 0x100 + c.green;
    assert v / 0x1_0000 == c.red;
  }

  /** Formatting a colour and parsing the string back gives the same three bytes. */
  lemma FormatThenParse(c: Rgb)
    ensures ColorFromHex(FormatHex(c)) == c
  {
    var h := FormatHex(c);
    assert StripHash(h) == h[1..];
    DigitsOfFormat(c);
    assert h[1] == HexDigit(c.red / 16);
    ComponentsOfValue(c);
  }

  /** A leading '#' makes no difference to what a string parses to. */
  lemma HashIsOptional(s: string)
    requires s == [] || s[0] != '#'
    ensures ColorFromHex("#" + s) == ColorFromHex(s)
  {
    assert StripHash("#" + s) == s;
  }

  /** Six digits parse to their value split into the red, green and blue bytes. */
  lemma SixDigitsParse(s: string)
    requires |s| == 6 && AllHexDigits(s)
    ensures ColorFromHex(s) == Components(DigitsValue(s).value)
    ensures ColorFromHex("#" + s) == ColorFromHex(s)
  {
    assert HexDigitValue(s[0]).Some?;
    HashIsOptional(s);
  }

  /** `Int(_:radix:)` also takes a sign, so a six-character string such as "-00001" passes
      the length guard and, through two's-complement masking, gives white. */
  lemma SignedStringPassesGuard()
    ensures ColorFromHex("#-00001") == Rgb(255, 255, 255)
  {
    assert StripHash("#-00001") == "-00001";
    assert "-00001"[1..] == "00001";
    assert DigitsValue("00001") == Some(1) by {
      assert "00001"[..4] == "0000" && "0000"[..3] == "000" && "000"[..2] == "00" && "00"[..1] == "0";
    }
  }

  /** The hex literals `Color.allList` is built from, in order. */
  const PaletteHex: seq<string> := [
    "#CA5310", "#8F250C", "#96031A", "#32CD32", "#FFD700", "#1E90FF", "#800080",
    "#C44E30", "#FE0000", "#FF91AF", "#B57EDC", "#BA160C", "#0059CF", "#0466C8"]

  /** `Color.allList`, the palette the pickers offer: `Color(hex:)` of each literal. */
  const AllList: seq<Rgb> := seq(|PaletteHex|, i requires 0 <= i < |PaletteHex| => ColorFromHex(PaletteHex[i]))

  /** `Color.allList[0]`, the colour every form resets to. */
  const DefaultColor: Rgb := AllList[0]

  /** The palette has fourteen entries, and the first one, which every form resets to, is #CA5310. */
  lemma PaletteFacts()
    ensures |AllList| == 14
    ensures DefaultColor == AllList[0] == Rgb(0xCA, 0x53, 0x10)
    ensures FormatHex(DefaultColor) == "#CA5310"
  {
    var c := Rgb(0xCA, 0x53, 0x10);
    assert FormatHex(c) == "#CA5310";
    FormatThenParse(c);
    assert AllList[0] == ColorFromHex(PaletteHex[0]);
  }
}
