/**
 * examples/rgb_color.rs: a line of 78 letters `r`, `g`, `b` whose colour
 * runs from red through green to blue, computed in `u16` arithmetic and
 * narrowed to bytes with `try_into().unwrap()`.  The chalk's rendering for a
 * colour is a parameter: the rendering of an `RgbChalk` is not part of this model.
 */
module RgbExample {
  import opened Prim
  import RgbColors
  import Chalk

  const LineLength: u16 := 78

  /** The letter printed at position `i`: `r`, `g`, `b` in turn. */
  function Letter(i: nat): (c: char)
    ensures c == "rgb"[i % 3]
  {
    if i % 3 == 0 then 'r' else if i % 3 == 1 then 'g' else 'b'
  }

  /** Green before the fold: `i * 510 / 78`. */
  function RawGreen(i: nat): nat
  {
    i * 510 / LineLength
  }

  /**
   * The colour of position `i`.  Red and blue always sum to 255, and green is
   * folded back below 256.
   */
  function GradientColor(i: nat): (c: RgbColors.RgbColor)
    requires i < LineLength
    ensures c.GetRed() + c.GetBlue() == 255
    ensures c.GetGreen() == if RawGreen(i) > 255 then 510 - RawGreen(i) else RawGreen(i)
  {
    var b := i * 255 / LineLength;
    var g := RawGreen(i);
    RgbColors.New(255 - b, if g > 255 then 510 - g else g, b)
  }

  /** Blue never decreases along the line, so red never increases. */
  lemma BlueNonDecreasing(i: nat, j: nat)
    requires i <= j < LineLength
    ensures GradientColor(i).GetBlue() <= GradientColor(j).GetBlue()
    ensures GradientColor(i).GetRed() >= GradientColor(j).GetRed()
  {
    assert i * 255 <= j * 255;
  }

  /**
   * The `u16` products stay below 65536, blue stays in `0..=254`, and the raw
   * green stays in `0..=503`, so `510 - g` never underflows; the fold happens
   * from position 40 on.
   */
  lemma ChannelBounds(i: nat)
    requires i < LineLength
    ensures i * 255 < 0x1_0000 && i * 510 < 0x1_0000
    ensures i * 255 / LineLength <= 254
    ensures RawGreen(i) <= 503
    ensures RawGreen(i) > 255 <==> i >= 40
  {
  }

  /** Green rises up to position 39, where it is 255, and falls after it. */
  lemma GreenRisesThenFalls(i: nat, j: nat)
    requires i <= j < LineLength
    ensures j <= 39 ==> GradientColor(i).GetGreen() <= GradientColor(j).GetGreen()
    ensures 39 <= i ==> GradientColor(i).GetGreen() >= GradientColor(j).GetGreen()
    ensures GradientColor(39).GetGreen() == 255
  {
    ChannelBounds(i);
    ChannelBounds(j);
    assert i * 510 <= j * 510;
  }

  /** The colours of the first `n` positions, in order. */
  function Gradient(n: nat): (colors: seq<RgbColors.RgbColor>)
    requires n <= LineLength
    ensures |colors| == n
  {
    if n == 0 then [] else Gradient(n - 1) + [GradientColor(n - 1)]
  }

  lemma {:induction false} GradientAt(n: nat, k: nat)
    requires k < n <= LineLength
    ensures Gradient(n)[k] == GradientColor(k)
  {
    if k < n - 1 {
      GradientAt(n - 1, k);
    }
  }

  /** What the loop prints for its first `n` positions. */
  function GradientText(render: RgbColors.RgbColor -> string, n: nat): string
    requires n <= LineLength
  {
    if n == 0 then ""
    else GradientText(render, n - 1) + Chalk.Wrap(render(GradientColor(n - 1)), [Letter(n - 1)])
  }

  /**
   * The channel arithmetic of one iteration, in `u16`: each product is held
   * in a `u16`, so it provably does not overflow, and each channel is then
   * narrowed to `u8`, so `try_into().unwrap()` provably never panics.
   */
  method Channels(i: u16) returns (red: u8, green: u8, blue: u8)
    requires i < LineLength
    ensures RgbColors.New(red, green, blue) == GradientColor(i)
  {
    var scaled: u16 := i * 255;
    var r: u16 := 255 - scaled / LineLength;
    var doubled: u16 := i * 510;
    var g: u16 := doubled / LineLength;
    var b: u16 := scaled / LineLength;
    if g > 255 {
      g := 510 - g;
    }
    red, green, blue := r, g, b;
  }

  /** The three `if`s that print the letter for position `i` with the chalk's rendering `prefix`. */
  method PrintLetter(console: string, prefix: string, i: u16) returns (console': string)
    ensures console' == console + Chalk.Wrap(prefix, [Letter(i)])
  {
    console' := console;
    if i % 3 == 0 {
      console' := console' + Chalk.Wrap(prefix, "r");
    }
    if i % 3 == 1 {
      console' := console' + Chalk.Wrap(prefix, "g");
    }
    if i % 3 == 2 {
      console' := console' + Chalk.Wrap(prefix, "b");
    }
  }

  /**
   * One loop of the example: for each position, compute the colour, set it
   * on the chalk and print the letter.
   */
  method GradientLine(render: RgbColors.RgbColor -> string) returns (colors: seq<RgbColors.RgbColor>, out: string)
    ensures |colors| == LineLength
    ensures forall i :: 0 <= i < |colors| ==> colors[i] == GradientColor(i)
    ensures out == GradientText(render, LineLength)
  {
    colors, out := [], "";
    for i: u16 := 0 to LineLength
      invariant colors == Gradient(i)
      invariant out == GradientText(render, i)
    {
      var red, green, blue := Channels(i);
      var c := RgbColors.New(red, green, blue);
      assert c == GradientColor(i);
      colors := colors + [c];
      out := PrintLetter(out, render(c), i);
    }
    forall k | 0 <= k < LineLength
      ensures colors[k] == GradientColor(k)
    {
      GradientAt(LineLength as nat, k);
    }
  }

  /**
   * The whole example: the foreground line, a newline, the background line
   * (same colours, set as background after `reset_color`), a newline.
   */
  method RgbColorExample(foreground: RgbColors.RgbColor -> string, background: RgbColors.RgbColor -> string)
    returns (console: string)
    ensures console == GradientText(foreground, LineLength) + "\n" + GradientText(background, LineLength) + "\n"
  {
    var _, first := GradientLine(foreground);
    var _, second := GradientLine(background);
    console := first + "\n" + second + "\n";
  }
}
