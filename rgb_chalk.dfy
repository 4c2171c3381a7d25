/** `RgbColor` of src/rgb_chalk.rs: three independent 8-bit channels. */
module RgbColors {
  import opened Prim

  datatype RgbColor = RgbColor(red: u8, green: u8, blue: u8) {
    function GetRed(): u8 { red }
    function GetGreen(): u8 { green }
    function GetBlue(): u8 { blue }
  }

  /** `RgbColor::new`: total over all byte triples, each getter returns its own argument. */
  function New(red: u8, green: u8, blue: u8): (c: RgbColor)
    ensures c.GetRed() == red && c.GetGreen() == green && c.GetBlue() == blue
  {
    RgbColor(red, green, blue)
  }

  /** Rebuilding a colour from its getters gives the same colour. */
  lemma NewFromGetters(c: RgbColor)
    ensures New(c.GetRed(), c.GetGreen(), c.GetBlue()) == c
  {
  }

  /**
   * Channels are independent: each getter depends only on its own argument
   * of `New`, and two colours are equal exactly when all three arguments are.
   */
  lemma ChannelsIndependent(r: u8, g: u8, b: u8, r': u8, g': u8, b': u8)
    ensures New(r, g, b).GetRed() == New(r, g', b').GetRed()
    ensures New(r, g, b).GetGreen() == New(r', g, b').GetGreen()
    ensures New(r, g, b).GetBlue() == New(r', g', b).GetBlue()
    ensures New(r, g, b) == New(r', g', b') <==> r == r' && g == g' && b == b'
  {
  }

  /** The derived `Default`: every channel is zero. */
  function DefaultColor(): (c: RgbColor)
    ensures c.GetRed() == 0 && c.GetGreen() == 0 && c.GetBlue() == 0
    ensures c == New(0, 0, 0)
  {
    RgbColor(0, 0, 0)
  }

  /** The colour as a 24-bit number `0xRRGGBB`, an independent ordering reference. */
  function Packed(c: RgbColor): (n: nat)
    ensures n < 0x100_0000
  {
    c.red * 0x1_0000 + c.green * 0x100 + c.blue
  }

  lemma {:induction false} PackedInjective(a: RgbColor, b: RgbColor)
    requires Packed(a) == Packed(b)
    ensures a == b
  {
    PackedChannels(a);
    PackedChannels(b);
  }

  /** Each channel can be read back from the packed number. */
  lemma PackedChannels(c: RgbColor)
    ensures Packed(c) / 0x1_0000 == c.red
    ensures (Packed(c) / 0x100) % 0x100 == c.green
    ensures Packed(c) % 0x100 == c.blue
  {
    var low := c.green * 0x100 + c.blue;
    assert 0 <= low < 0x1_0000;
    assert Packed(c) == c.red * 0x1_0000 + low;
    assert Packed(c) / 0x100 == c.red * 0x100 + c.green;
  }

  function CompareBytes(x: u8, y: u8): Ordering
  {
    if x < y then Less else if x == y then Equal else Greater
  }

  /**
   * The derived `Ord::cmp`: red first, then green, then blue.  It orders
   * colours as their packed 24-bit values are ordered.
   */
  function Cmp(a: RgbColor, b: RgbColor): (o: Ordering)
    ensures o == Less <==> Packed(a) < Packed(b)
    ensures o == Equal <==> a == b
    ensures o == Greater <==> Packed(a) > Packed(b)
  {
    match CompareBytes(a.red, b.red)
    case Equal =>
      (match CompareBytes(a.green, b.green)
       case Equal => CompareBytes(a.blue, b.blue)
       case o => o)
    case o => o
  }
}
