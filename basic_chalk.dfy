/**
 * The discriminant tables of src/basic_chalk.rs: the seven basic styles, the
 * sixteen basic foreground colours plus `Default` (SGR 30-37, 39, 90-97), the
 * matching backgrounds (SGR 40-47, 49, 100-107), and the `BasicChalk` record.
 */
module BasicColors {
  import opened Prim
  import Styles

  /** The SGR parameters a basic foreground colour may use. */
  predicate IsForegroundCode(n: int)
  {
    30 <= n <= 37 || n == 39 || 90 <= n <= 97
  }

  /** The SGR parameters a basic background colour may use. */
  predicate IsBackgroundCode(n: int)
  {
    40 <= n <= 47 || n == 49 || 100 <= n <= 107
  }

  /** The two code ranges never overlap. */
  lemma ForegroundBackgroundDisjoint(n: int)
    ensures !(IsForegroundCode(n) && IsBackgroundCode(n))
  {
  }

  datatype BasicStyle = Normal | Bold | Dim | Underline | Blink | Invert | Hidden {
    function Code(): (n: u8)
      ensures n in {0, 1, 2, 4, 5, 7, 8}
    {
      match this
      case Normal => 0
      case Bold => 1
      case Dim => 2
      case Underline => 4
      case Blink => 5
      case Invert => 7
      case Hidden => 8
    }

    /** The attribute of the `Style` list with the same name; it has the same code. */
    function AsStyle(): (s: Styles.Style)
      ensures s.Code() == Code()
    {
      match this
      case Normal => Styles.Style.Default
      case Bold => Styles.Style.Bold
      case Dim => Styles.Style.Dim
      case Underline => Styles.Style.Underline
      case Blink => Styles.Style.Blink
      case Invert => Styles.Style.Invert
      case Hidden => Styles.Style.Hidden
    }
  }

  /** Seven styles, seven different codes. */
  lemma BasicStyleCodesDistinct(a: BasicStyle, b: BasicStyle)
    ensures a.Code() == b.Code() ==> a == b
  {
  }

  datatype BasicColor =
    | Black | Red | Green | Yellow | Blue | Magenta | Cyan | LightGrey | Default
    | DarkGrey | LightRed | LightGreen | LightYellow | LightBlue | LightMagenta | LightCyan | White
  {
    function Code(): (n: u8)
      ensures IsForegroundCode(n)
    {
      match this
      case Black => 30
      case Red => 31
      case Green => 32
      case Yellow => 33
      case Blue => 34
      case Magenta => 35
      case Cyan => 36
      case LightGrey => 37
      case Default => 39
      case DarkGrey => 90
      case LightRed => 91
      case LightGreen => 92
      case LightYellow => 93
      case LightBlue => 94
      case LightMagenta => 95
      case LightCyan => 96
      case White => 97
    }

    /** The background variant of the same name: its code is ten more. */
    function AsBackground(): (b: BasicBackground)
      ensures b.Code() == Code() + 10
    {
      match this
      case Black => BasicBackground.Black
      case Red => BasicBackground.Red
      case Green => BasicBackground.Green
      case Yellow => BasicBackground.Yellow
      case Blue => BasicBackground.Blue
      case Magenta => BasicBackground.Magenta
      case Cyan => BasicBackground.Cyan
      case LightGrey => BasicBackground.LightGrey
      case Default => BasicBackground.Default
      case DarkGrey => BasicBackground.DarkGrey
      case LightRed => BasicBackground.LightRed
      case LightGreen => BasicBackground.LightGreen
      case LightYellow => BasicBackground.LightYellow
      case LightBlue => BasicBackground.LightBlue
      case LightMagenta => BasicBackground.LightMagenta
      case LightCyan => BasicBackground.LightCyan
      case White => BasicBackground.White
    }
  }

  datatype BasicBackground =
    | Black | Red | Green | Yellow | Blue | Magenta | Cyan | LightGrey | Default
    | DarkGrey | LightRed | LightGreen | LightYellow | LightBlue | LightMagenta | LightCyan | White
  {
    function Code(): (n: u8)
      ensures IsBackgroundCode(n)
    {
      match this
      case Black => 40
      case Red => 41
      case Green => 42
      case Yellow => 43
      case Blue => 44
      case Magenta => 45
      case Cyan => 46
      case LightGrey => 47
      case Default => 49
      case DarkGrey => 100
      case LightRed => 101
      case LightGreen => 102
      case LightYellow => 103
      case LightBlue => 104
      case LightMagenta => 105
      case LightCyan => 106
      case White => 107
    }

    /** The foreground variant of the same name: its code is ten less. */
    function AsForeground(): (c: BasicColor)
      ensures c.Code() + 10 == Code()
      ensures c.AsBackground() == this
    {
      match this
      case Black => BasicColor.Black
      case Red => BasicColor.Red
      case Green => BasicColor.Green
      case Yellow => BasicColor.Yellow
      case Blue => BasicColor.Blue
      case Magenta => BasicColor.Magenta
      case Cyan => BasicColor.Cyan
      case LightGrey => BasicColor.LightGrey
      case Default => BasicColor.Default
      case DarkGrey => BasicColor.DarkGrey
      case LightRed => BasicColor.LightRed
      case LightGreen => BasicColor.LightGreen
      case LightYellow => BasicColor.LightYellow
      case LightBlue => BasicColor.LightBlue
      case LightMagenta => BasicColor.LightMagenta
      case LightCyan => BasicColor.LightCyan
      case White => BasicColor.White
    }
  }

  /** The colour whose foreground code is `n`, if any. */
  function ColorFromCode(n: int): (c: Option<BasicColor>)
    ensures c.Some? ==> c.value.Code() == n
    ensures c.Some? <==> IsForegroundCode(n)
  {
    if 30 <= n <= 37 then
      Some([BasicColor.Black, BasicColor.Red, BasicColor.Green, BasicColor.Yellow,
            BasicColor.Blue, BasicColor.Magenta, BasicColor.Cyan, BasicColor.LightGrey][n - 30])
    else if n == 39 then Some(BasicColor.Default)
    else if 90 <= n <= 97 then
      Some([BasicColor.DarkGrey, BasicColor.LightRed, BasicColor.LightGreen, BasicColor.LightYellow,
            BasicColor.LightBlue, BasicColor.LightMagenta, BasicColor.LightCyan, BasicColor.White][n - 90])
    else None
  }

  /** Reading a colour's code back gives the colour: no two colours share a code. */
  lemma ColorCodeRoundTrip(c: BasicColor)
    ensures ColorFromCode(c.Code()) == Some(c)
  {
  }

  lemma ColorCodesDistinct(a: BasicColor, b: BasicColor)
    ensures a.Code() == b.Code() ==> a == b
  {
    ColorCodeRoundTrip(a);
    ColorCodeRoundTrip(b);
  }

  /** Background codes are distinct too, including `Default` = 49. */
  lemma {:induction false} BackgroundCodesDistinct(a: BasicBackground, b: BasicBackground)
    ensures a.Code() == b.Code() ==> a == b
  {
    ColorCodesDistinct(a.AsForeground(), b.AsForeground());
  }

  /** Going to the background and back is the identity. */
  lemma ForegroundBackgroundRoundTrip(c: BasicColor)
    ensures c.AsBackground().AsForeground() == c
  {
  }

  /**
   * `BasicChalk`: both colour fields have type `BasicColor`, as the source
   * declares them, and a list of basic styles.
   */
  datatype BasicChalk = BasicChalk(fgcolor: BasicColor, bgcolor: BasicColor, styles: seq<BasicStyle>)

  /**
   * Because `bgcolor` is typed `BasicColor`, the code it holds is always a
   * foreground code and never a background code.
   */
  lemma BgColorHoldsForegroundCode(c: BasicChalk)
    ensures IsForegroundCode(c.bgcolor.Code())
    ensures !IsBackgroundCode(c.bgcolor.Code())
  {
    ForegroundBackgroundDisjoint(c.bgcolor.Code());
  }
}
