/**
 * Text attributes of src/style.rs in their two forms: the structured
 * `StyleMap` record, whose mutually exclusive sub-states cannot contradict
 * each other, and the list of `Style` values that the `ChalkStyle` macros
 * push onto and render as SGR control sequences (section 8.3.117 of ECMA-48).
 */
module Styles {
  import opened Prim
  import Utils

  const Esc: char := '\U{1b}'

  /** The Control Sequence Introducer `ESC [` (section 5.4 of ECMA-48). */
  const Csi: string := [Esc, '[']

  /** The final byte that makes a control sequence an SGR. */
  const SgrFinal: string := "m"

  /** Weight: bold and dim exclude each other. Discriminants 0, 1, 2. */
  datatype Weight = Default | Bold | Dim {
    function Code(): (n: u8)
      ensures n <= 2
      ensures n == 0 <==> this == Weight.Default
    {
      match this
      case Default => 0
      case Bold => 1
      case Dim => 2
    }

    /** The list-form attribute with the same SGR code. */
    function AsStyle(): (s: Style)
      ensures s.Code() == Code()
    {
      match this
      case Default => Style.Default
      case Bold => Style.Bold
      case Dim => Style.Dim
    }
  }

  /** The `Blink` enum of the record: slow and fast exclude each other. Discriminants 0, 5, 6. */
  datatype BlinkMode = Default | Slow | Fast {
    function Code(): (n: u8)
      ensures n == 0 || n == 5 || n == 6
      ensures n == 0 <==> this == BlinkMode.Default
    {
      match this
      case Default => 0
      case Slow => 5
      case Fast => 6
    }

    function AsStyle(): (s: Style)
      ensures s.Code() == Code()
    {
      match this
      case Default => Style.Default
      case Slow => Style.Blink
      case Fast => Style.FastBlink
    }
  }

  /** The `Underline` enum of the record: single and double exclude each other. Discriminants 0, 4, 21. */
  datatype UnderlineMode = Default | Single | Double {
    function Code(): (n: u8)
      ensures n == 0 || n == 4 || n == 21
      ensures n == 0 <==> this == UnderlineMode.Default
    {
      match this
      case Default => 0
      case Single => 4
      case Double => 21
    }

    function AsStyle(): (s: Style)
      ensures s.Code() == Code()
    {
      match this
      case Default => Style.Default
      case Single => Style.Underline
      case Double => Style.DoubleUnderline
    }
  }

  /** One attribute of the list form; its discriminant is its SGR parameter. */
  datatype Style =
    | Default | Bold | Dim | Italic | Underline | Blink | FastBlink | Invert | Hidden | DoubleUnderline
  {
    function Code(): (n: u8)
      ensures n <= 8 || n == 21
      ensures n == 0 <==> this == Style.Default
    {
      match this
      case Default => 0
      case Bold => 1
      case Dim => 2
      case Italic => 3
      case Underline => 4
      case Blink => 5
      case FastBlink => 6
      case Invert => 7
      case Hidden => 8
      case DoubleUnderline => 21
    }
  }

  /** The attribute whose discriminant is `n`, if there is one. */
  function StyleFromCode(n: int): (s: Option<Style>)
    ensures s.Some? ==> s.value.Code() == n
    ensures s.None? ==> forall st: Style :: st.Code() != n
  {
    if n == 0 then Some(Style.Default)
    else if n == 1 then Some(Style.Bold)
    else if n == 2 then Some(Style.Dim)
    else if n == 3 then Some(Style.Italic)
    else if n == 4 then Some(Style.Underline)
    else if n == 5 then Some(Style.Blink)
    else if n == 6 then Some(Style.FastBlink)
    else if n == 7 then Some(Style.Invert)
    else if n == 8 then Some(Style.Hidden)
    else if n == 21 then Some(Style.DoubleUnderline)
    else None
  }

  /** Distinct attributes have distinct codes: the code determines the attribute. */
  lemma StyleCodeRoundTrip(s: Style)
    ensures StyleFromCode(s.Code()) == Some(s)
  {
  }

  /**
   * `enum_default` applied to the four enums of this file: the variant named
   * `Default` is the one whose discriminant is 0.
   */
  lemma DefaultsHaveCodeZero()
    ensures Weight.Default.Code() == 0 && BlinkMode.Default.Code() == 0
    ensures UnderlineMode.Default.Code() == 0 && Style.Default.Code() == 0
    ensures Utils.Display(Style.Default.Code()) == "0"
  {
  }

  // ---------------------------------------------------------------------
  // Escape text

  /** `format!("\x1b[{}", code)`: `ESC[` and the decimal discriminant. */
  function Fragment(code: u8): string
  {
    Csi + Utils.Display(code)
  }

  /** A fragment closed by `final`: `""` as `StyleMap` writes it, `"m"` for a complete SGR. */
  function Piece(code: u8, final: string): string
  {
    Fragment(code) + final
  }

  /** `format!("\x1b[{}m", code)`: the complete SGR control sequence for one code. */
  function Sgr(code: u8): string
  {
    Piece(code, SgrFinal)
  }

  /** One `Piece` per code, in order. */
  function Pieces(codes: seq<u8>, final: string): string
  {
    if codes == [] then "" else Piece(codes[0], final) + Pieces(codes[1..], final)
  }

  lemma {:induction false} PiecesAppend(a: seq<u8>, b: seq<u8>, final: string)
    ensures Pieces(a + b, final) == Pieces(a, final) + Pieces(b, final)
  {
    if a == [] {
      assert a + b == b;
    } else {
      assert (a + b)[0] == a[0];
      assert (a + b)[1..] == a[1..] + b;
      PiecesAppend(a[1..], b, final);
    }
  }

  /** `[code]` when the attribute is set, `[]` when it is not. */
  function Optional<T>(present: bool, x: T): (r: seq<T>)
    ensures |r| <= 1
  {
    if present then [x] else []
  }

  lemma PiecesSnoc(done: seq<u8>, code: u8)
    ensures Pieces(done + [code], "") == Pieces(done, "") + Fragment(code)
  {
    PiecesAppend(done, [code], "");
    assert [code][1..] == [];
    UnterminatedPiece(code);
  }

  /**
   * One step of `StyleMap`'s `fmt`: text that renders the codes `done`,
   * extended by the fragment for `code` exactly when `present`, renders
   * `done` followed by the optional code.
   */
  lemma WroteOptional(before: string, after: string, done: seq<u8>, present: bool, code: u8)
    requires before == Pieces(done, "")
    requires after == if present then before + Fragment(code) else before
    ensures after == Pieces(done + Optional(present, code), "")
  {
    if present {
      PiecesSnoc(done, code);
    } else {
      assert done + Optional(present, code) == done;
    }
  }

  /** The fragments `StyleMap` writes as literals: `ESC[3` for italic, `ESC[8` for hidden. */
  lemma LiteralFragments()
    ensures Fragment(3) == Csi + "3"
    ensures Fragment(8) == Csi + "8"
  {
    assert Utils.Display(3) == "3";
    assert Utils.Display(8) == "8";
  }

  lemma UnterminatedPiece(code: u8)
    ensures Piece(code, "") == Fragment(code)
  {
    assert Fragment(code) + "" == Fragment(code);
  }

  /** The codes of a style list, element by element. */
  function CodesOf(styles: seq<Style>): (codes: seq<u8>)
    ensures |codes| == |styles|
  {
    seq(|styles|, k requires 0 <= k < |styles| => styles[k].Code())
  }

  /**
   * What `style()` of `impl_style_string` renders: `ESC[<code>m` for each
   * attribute of the list, in list order.
   */
  function StyleText(styles: seq<Style>): string
  {
    if styles == [] then "" else Sgr(styles[0].Code()) + StyleText(styles[1..])
  }

  lemma {:induction false} StyleTextAppend(a: seq<Style>, b: seq<Style>)
    ensures StyleText(a + b) == StyleText(a) + StyleText(b)
  {
    if a == [] {
      assert a + b == b;
    } else {
      assert (a + b)[0] == a[0];
      assert (a + b)[1..] == a[1..] + b;
      StyleTextAppend(a[1..], b);
    }
  }

  lemma PrefixSnoc(list: seq<Style>, i: nat)
    requires i < |list|
    ensures list[..i + 1] == list[..i] + [list[i]]
  {
  }

  lemma StyleTextSnoc(done: seq<Style>, style: Style)
    ensures StyleText(done + [style]) == StyleText(done) + Sgr(style.Code())
  {
    StyleTextAppend(done, [style]);
    assert [style][1..] == [];
    assert StyleText([style]) == Sgr(style.Code()) + "";
  }

  lemma CodesOfAppend(a: seq<Style>, b: seq<Style>)
    ensures CodesOf(a + b) == CodesOf(a) + CodesOf(b)
  {
  }

  lemma CodesOfOptional(present: bool, style: Style)
    ensures CodesOf(Optional(present, style)) == Optional(present, style.Code())
  {
  }

  /** The list rendering is the terminated pieces of the list's codes. */
  lemma {:induction false} StyleTextIsPieces(styles: seq<Style>)
    ensures StyleText(styles) == Pieces(CodesOf(styles), SgrFinal)
  {
    if styles != [] {
      assert CodesOf(styles)[1..] == CodesOf(styles[1..]);
      StyleTextIsPieces(styles[1..]);
    }
  }

  /** The first index at or after `from` that holds the final byte `m`, or `|s|`. */
  function IndexOfFinal(s: string, from: nat): (j: nat)
    requires from <= |s|
    ensures from <= j <= |s|
    ensures j < |s| ==> s[j] == 'm'
    ensures forall k :: from <= k < j ==> s[k] != 'm'
    decreases |s| - from
  {
    if from == |s| || s[from] == 'm' then from else IndexOfFinal(s, from + 1)
  }

  /** Reads a sequence of `ESC[<code>m` back into the attributes they name. */
  function ParseStyleText(s: string): Option<seq<Style>>
    decreases |s|
  {
    if s == [] then Some([])
    else if |s| < 2 || s[..2] != Csi then None
    else
      var j := IndexOfFinal(s, 2);
      if j == |s| then None
      else match Utils.Parse(s[2..j], Utils.Decimal)
        case None => None
        case Some(n) =>
          match StyleFromCode(n)
          case None => None
          case Some(style) =>
            match ParseStyleText(s[j + 1..])
            case None => None
            case Some(rest) => Some([style] + rest)
  }

  lemma DecimalHasNoFinal(code: u8)
    ensures forall k :: 0 <= k < |Utils.Display(code)| ==> Utils.Display(code)[k] != 'm'
  {
    var d := Utils.Display(code);
    forall k | 0 <= k < |d| ensures d[k] != 'm' {
      assert Utils.DigitValue(d[k], Utils.Decimal).Some?;
    }
  }

  /** Where the parser cuts a text that starts with one complete SGR. */
  lemma SgrSplit(code: u8, rest: string)
    ensures var s := Sgr(code) + rest;
      var digits := Utils.Display(code);
      && |s| >= 2 + |digits| + 1
      && s[..2] == Csi
      && IndexOfFinal(s, 2) == 2 + |digits|
      && s[2..2 + |digits|] == digits
      && s[2 + |digits| + 1..] == rest
  {
    var s := Sgr(code) + rest;
    var digits := Utils.Display(code);
    assert s == Csi + (digits + (SgrFinal + rest));
    DecimalHasNoFinal(code);
    assert forall k :: 2 <= k < 2 + |digits| ==> s[k] == digits[k - 2];
    assert s[2 + |digits|] == 'm';
  }

  /**
   * The list rendering is unambiguous: parsing it gives back exactly the
   * list, so two different lists never render to the same text.
   */
  lemma {:induction false} StyleTextRoundTrip(styles: seq<Style>)
    ensures ParseStyleText(StyleText(styles)) == Some(styles)
  {
    if styles != [] {
      var code := styles[0].Code();
      var rest := StyleText(styles[1..]);
      SgrSplit(code, rest);
      StyleCodeRoundTrip(styles[0]);
      StyleTextRoundTrip(styles[1..]);
      assert [styles[0]] + styles[1..] == styles;
    }
  }

  lemma StyleTextInjective(a: seq<Style>, b: seq<Style>)
    requires StyleText(a) == StyleText(b)
    ensures a == b
  {
    StyleTextRoundTrip(a);
    StyleTextRoundTrip(b);
  }

  // ---------------------------------------------------------------------
  // The structured record

  /** `StyleMap`: one field per attribute, changed in place by its setters. */
  class StyleMap {
    var weight: Weight
    var blink: BlinkMode
    var underline: UnderlineMode
    var italic: bool
    var invert: bool
    var hidden: bool

    /** `StyleMap::new`, the derived `Default`: no attribute set, nothing rendered. */
    constructor ()
      ensures weight == Weight.Default && blink == BlinkMode.Default && underline == UnderlineMode.Default
      ensures !italic && !invert && !hidden
      ensures Rendered() == ""
    {
      weight := Weight.Default;
      blink := BlinkMode.Default;
      underline := UnderlineMode.Default;
      italic := false;
      invert := false;
      hidden := false;
    }

    method ResetWeight()
      modifies this
      ensures IsNormalWeight() && !IsBold() && !IsDim()
      ensures blink == old(blink) && underline == old(underline)
      ensures italic == old(italic) && invert == old(invert) && hidden == old(hidden)
    {
      weight := Weight.Default;
    }

    method Bold()
      modifies this
      ensures IsBold() && !IsDim() && !IsNormalWeight()
      ensures blink == old(blink) && underline == old(underline)
      ensures italic == old(italic) && invert == old(invert) && hidden == old(hidden)
    {
      weight := Weight.Bold;
    }

    method Dim()
      modifies this
      ensures IsDim() && !IsBold() && !IsNormalWeight()
      ensures blink == old(blink) && underline == old(underline)
      ensures italic == old(italic) && invert == old(invert) && hidden == old(hidden)
    {
      weight := Weight.Dim;
    }

    /** Normal weight: `Display` writes neither the bold code 1 nor the dim code 2. */
    function IsNormalWeight(): (b: bool)
      reads this
      ensures b <==> 1 !in Codes() && 2 !in Codes()
    {
      weight == Weight.Default
    }

    /** Bold exactly when `Display` writes code 1. */
    function IsBold(): (b: bool)
      reads this
      ensures b <==> 1 in Codes()
    {
      weight == Weight.Bold
    }

    /** Dim exactly when `Display` writes code 2. */
    function IsDim(): (b: bool)
      reads this
      ensures b <==> 2 in Codes()
    {
      weight == Weight.Dim
    }

    method Italic()
      modifies this
      ensures IsItalicized()
      ensures weight == old(weight) && blink == old(blink) && underline == old(underline)
      ensures invert == old(invert) && hidden == old(hidden)
    {
      italic := true;
    }

    method Unitalicize()
      modifies this
      ensures !IsItalicized()
      ensures weight == old(weight) && blink == old(blink) && underline == old(underline)
      ensures invert == old(invert) && hidden == old(hidden)
    {
      italic := false;
    }

    /** Italic exactly when `Display` writes code 3. */
    function IsItalicized(): (b: bool)
      reads this
      ensures b <==> 3 in Codes()
    {
      italic
    }

    method Underline()
      modifies this
      ensures IsSingleUnderlined() && !IsDoubleUnderlined() && NumUnderlines() == 1
      ensures weight == old(weight) && blink == old(blink)
      ensures italic == old(italic) && invert == old(invert) && hidden == old(hidden)
    {
      underline := UnderlineMode.Single;
    }

    method DoubleUnderline()
      modifies this
      ensures IsDoubleUnderlined() && !IsSingleUnderlined() && NumUnderlines() == 2
      ensures weight == old(weight) && blink == old(blink)
      ensures italic == old(italic) && invert == old(invert) && hidden == old(hidden)
    {
      underline := UnderlineMode.Double;
    }

    /** How many lines are drawn under the text: 0, 1 or 2. */
    function NumUnderlines(): (n: u8)
      reads this
      ensures n <= 2
      ensures n == 1 <==> IsSingleUnderlined()
      ensures n == 2 <==> IsDoubleUnderlined()
    {
      match underline
      case Default => 0
      case Single => 1
      case Double => 2
    }

    function HasUnderlines(): (b: bool)
      reads this
      ensures b <==> NumUnderlines() > 0
    {
      underline != UnderlineMode.Default
    }

    /** Single underline exactly when `Display` writes code 4. */
    function IsSingleUnderlined(): (b: bool)
      reads this
      ensures b <==> 4 in Codes()
    {
      underline == UnderlineMode.Single
    }

    /** Double underline exactly when `Display` writes code 21. */
    function IsDoubleUnderlined(): (b: bool)
      reads this
      ensures b <==> 21 in Codes()
    {
      underline == UnderlineMode.Double
    }

    method StopBlink()
      modifies this
      ensures !IsBlinking() && !IsSlowlyBlinking() && !IsQuicklyBlinking()
      ensures weight == old(weight) && underline == old(underline)
      ensures italic == old(italic) && invert == old(invert) && hidden == old(hidden)
    {
      blink := BlinkMode.Default;
    }

    method Blink()
      modifies this
      ensures IsBlinking() && IsSlowlyBlinking() && !IsQuicklyBlinking()
      ensures weight == old(weight) && underline == old(underline)
      ensures italic == old(italic) && invert == old(invert) && hidden == old(hidden)
    {
      blink := BlinkMode.Slow;
    }

    method FastBlink()
      modifies this
      ensures IsBlinking() && IsQuicklyBlinking() && !IsSlowlyBlinking()
      ensures weight == old(weight) && underline == old(underline)
      ensures italic == old(italic) && invert == old(invert) && hidden == old(hidden)
    {
      blink := BlinkMode.Fast;
    }

    /** Blinking at all means blinking at exactly one of the two speeds. */
    function IsBlinking(): (b: bool)
      reads this
      ensures b <==> IsSlowlyBlinking() || IsQuicklyBlinking()
      ensures !(IsSlowlyBlinking() && IsQuicklyBlinking())
    {
      blink != BlinkMode.Default
    }

    /** Slow blink exactly when `Display` writes code 5. */
    function IsSlowlyBlinking(): (b: bool)
      reads this
      ensures b <==> 5 in Codes()
    {
      blink == BlinkMode.Slow
    }

    /** Fast blink exactly when `Display` writes code 6. */
    function IsQuicklyBlinking(): (b: bool)
      reads this
      ensures b <==> 6 in Codes()
    {
      blink == BlinkMode.Fast
    }

    method Invert()
      modifies this
      ensures IsInverted()
      ensures weight == old(weight) && blink == old(blink) && underline == old(underline)
      ensures italic == old(italic) && hidden == old(hidden)
      ensures Rendered() == old(Rendered())
    {
      invert := true;
    }

    method Uninvert()
      modifies this
      ensures !IsInverted()
      ensures weight == old(weight) && blink == old(blink) && underline == old(underline)
      ensures italic == old(italic) && hidden == old(hidden)
      ensures Rendered() == old(Rendered())
    {
      invert := false;
    }

    function IsInverted(): bool
      reads this
    {
      invert
    }

    method Hide()
      modifies this
      ensures IsHidden()
      ensures weight == old(weight) && blink == old(blink) && underline == old(underline)
      ensures italic == old(italic) && invert == old(invert)
    {
      hidden := true;
    }

    method Unhide()
      modifies this
      ensures !IsHidden()
      ensures weight == old(weight) && blink == old(blink) && underline == old(underline)
      ensures italic == old(italic) && invert == old(invert)
    {
      hidden := false;
    }

    /** Hidden exactly when `Display` writes code 8. */
    function IsHidden(): (b: bool)
      reads this
      ensures b <==> 8 in Codes()
    {
      hidden
    }

    /**
     * The codes `Display` emits, in its fixed order: weight, blink,
     * underline, italic (3), hidden (8); unset attributes are skipped and
     * `invert` never appears.
     */
    function Codes(): (codes: seq<u8>)
      reads this
      ensures |codes| <= 5
    {
      Optional(weight != Weight.Default, weight.Code())
      + Optional(blink != BlinkMode.Default, blink.Code())
      + Optional(underline != UnderlineMode.Default, underline.Code())
      + Optional(italic, 3)
      + Optional(hidden, 8)
    }

    /** What `Display` writes, as written: `ESC[<code>` per code, with no final byte. */
    function Rendered(): (s: string)
      reads this
      ensures s == "" <==> IsNormalWeight() && !IsBlinking() && !HasUnderlines() && !IsItalicized() && !IsHidden()
    {
      Pieces(Codes(), "")
    }

    /** `Display::fmt`: builds the text fragment by fragment. */
    method Fmt() returns (s: string)
      ensures s == Rendered()
    {
      // `done` holds the codes written so far; each step appends its optional code.
      ghost var done: seq<u8> := [];
      ghost var before: string;
      LiteralFragments();
      s := "";
      before := s;
      if weight != Weight.Default {
        s := s + Fragment(weight.Code());
      }
      WroteOptional(before, s, done, weight != Weight.Default, weight.Code());
      assert done + Optional(weight != Weight.Default, weight.Code()) == Optional(weight != Weight.Default, weight.Code());
      done, before := Optional(weight != Weight.Default, weight.Code()), s;
      if blink != BlinkMode.Default {
        s := s + Fragment(blink.Code());
      }
      WroteOptional(before, s, done, blink != BlinkMode.Default, blink.Code());
      done, before := done + Optional(blink != BlinkMode.Default, blink.Code()), s;
      if underline != UnderlineMode.Default {
        s := s + Fragment(underline.Code());
      }
      WroteOptional(before, s, done, underline != UnderlineMode.Default, underline.Code());
      done, before := done + Optional(underline != UnderlineMode.Default, underline.Code()), s;
      if italic {
        s := s + (Csi + "3");
      }
      WroteOptional(before, s, done, italic, 3);
      done, before := done + Optional(italic, 3), s;
      if hidden {
        s := s + (Csi + "8");
      }
      WroteOptional(before, s, done, hidden, 8);
      done := done + Optional(hidden, 8);
    }

    /** The attributes `Codes` names, as a list-form style list in the same order. */
    function AsStyleList(): (styles: seq<Style>)
      reads this
      ensures CodesOf(styles) == Codes()
    {
      var w := Optional(weight != Weight.Default, weight.AsStyle());
      var b := Optional(blink != BlinkMode.Default, blink.AsStyle());
      var u := Optional(underline != UnderlineMode.Default, underline.AsStyle());
      var i := Optional(italic, Style.Italic);
      var h := Optional(hidden, Style.Hidden);
      CodesOfOptional(weight != Weight.Default, weight.AsStyle());
      CodesOfOptional(blink != BlinkMode.Default, blink.AsStyle());
      CodesOfOptional(underline != UnderlineMode.Default, underline.AsStyle());
      CodesOfOptional(italic, Style.Italic);
      CodesOfOptional(hidden, Style.Hidden);
      CodesOfAppend(w, b);
      CodesOfAppend(w + b, u);
      CodesOfAppend(w + b + u, i);
      CodesOfAppend(w + b + u + i, h);
      w + b + u + i + h
    }

    /**
     * The rendering `Display` evidently intends: each fragment closed by the
     * final byte `m`. It is exactly what the list form renders for the same
     * attributes.
     */
    function RenderedTerminated(): (s: string)
      reads this
      ensures s == StyleText(AsStyleList())
    {
      StyleTextIsPieces(AsStyleList());
      Pieces(Codes(), SgrFinal)
    }
  }

  /** Exactly one of the three weight queries holds. */
  lemma ExactlyOneWeight(m: StyleMap)
    ensures m.IsNormalWeight() || m.IsBold() || m.IsDim()
    ensures !(m.IsNormalWeight() && m.IsBold()) && !(m.IsNormalWeight() && m.IsDim()) && !(m.IsBold() && m.IsDim())
  {
  }

  /** Exactly one of the three underline queries holds. */
  lemma ExactlyOneUnderline(m: StyleMap)
    ensures m.HasUnderlines() <==> m.IsSingleUnderlined() || m.IsDoubleUnderlined()
    ensures !(m.IsSingleUnderlined() && m.IsDoubleUnderlined())
  {
  }

  lemma {:induction false} UnterminatedPiecesLackFinal(codes: seq<u8>)
    ensures 'm' !in Pieces(codes, "")
  {
    if codes != [] {
      DecimalHasNoFinal(codes[0]);
      UnterminatedPiecesLackFinal(codes[1..]);
    }
  }

  /**
   * `Display` never writes the reset code 0, and never writes the code 7 of
   * `invert`, whatever the map holds.
   */
  lemma CodesAvoidResetAndInvert(m: StyleMap)
    ensures 0 !in m.Codes() && 7 !in m.Codes()
  {
    var w, b, u := m.weight.Code(), m.blink.Code(), m.underline.Code();
    assert w in {0, 1, 2} && b in {0, 5, 6} && u in {0, 4, 21};
  }

  /**
   * `is_inverted` is invisible in `Display`: two maps that agree on every
   * other attribute render the same text, inverted or not.
   */
  lemma InvertInvisible(a: StyleMap, b: StyleMap)
    requires a.weight == b.weight && a.blink == b.blink && a.underline == b.underline
    requires a.italic == b.italic && a.hidden == b.hidden
    ensures a.Rendered() == b.Rendered()
    ensures a.Codes() == b.Codes()
  {
  }

  /** As written, `Display` never emits the SGR final byte, whatever is set. */
  lemma RenderedNeverTerminated(m: StyleMap)
    ensures 'm' !in m.Rendered()
  {
    UnterminatedPiecesLackFinal(m.Codes());
  }

  /** A bold map renders as `ESC[1`, where a complete SGR would be `ESC[1m`. */
  lemma BoldRendersUnterminated(m: StyleMap)
    requires m.IsBold() && !m.IsBlinking() && !m.HasUnderlines() && !m.italic && !m.hidden
    ensures m.Rendered() == Csi + "1"
    ensures m.RenderedTerminated() == Csi + "1m"
    ensures m.Rendered() != m.RenderedTerminated()
  {
    assert m.Codes() == [1];
    assert Utils.Display(1) == "1";
    assert Pieces([1], "") == Piece(1, "") + Pieces([], "");
    assert Pieces([1], SgrFinal) == Piece(1, SgrFinal) + Pieces([], SgrFinal);
  }

  /** Setting bold and italic in either order renders the same text. */
  method SetterOrderIrrelevant() returns (first: string, second: string)
    ensures first == second
    ensures first == Csi + "1" + Csi + "3"
  {
    PiecesSnoc([], 1);
    PiecesSnoc([1], 3);
    assert [1] + [3] == [1, 3];
    assert Fragment(1) == Csi + "1" && Fragment(3) == Csi + "3" by {
      assert Utils.Display(1) == "1" && Utils.Display(3) == "3";
    }
    ghost var expected := Pieces([1, 3], "");
    assert expected == Csi + "1" + Csi + "3";

    var a := new StyleMap();
    a.Italic();
    a.Bold();
    assert a.Codes() == [1, 3];
    first := a.Fmt();

    var b := new StyleMap();
    b.Bold();
    b.Italic();
    assert b.Codes() == [1, 3];
    second := b.Fmt();
  }

  // ---------------------------------------------------------------------
  // The list form

  /**
   * A chalk carrying the `styles` list that `impl_chalk_style!` and
   * `impl_style_string!` operate on.
   */
  class StyledChalk {
    var styles: seq<Style>

    constructor (initial: seq<Style>)
      ensures styles == initial
    {
      styles := initial;
    }

    /** `set_style!`: the whole list is replaced. */
    method SetStyle(v: seq<Style>)
      modifies this
      ensures styles == v
    {
      styles := v;
    }

    /** `add_style!`: one attribute is pushed at the end, earlier ones kept. */
    method AddStyle(s: Style)
      modifies this
      ensures styles == old(styles) + [s]
      ensures |styles| == |old(styles)| + 1 && styles[..|old(styles)|] == old(styles)
    {
      styles := styles + [s];
    }

    method ResetStyle()
      modifies this
      ensures styles == [Style.Default]
    {
      SetStyle([Style.Default]);
    }

    method Hidden()
      modifies this
      ensures styles == [Style.Hidden]
    {
      SetStyle([Style.Hidden]);
    }

    method Bold()
      modifies this
      ensures styles == old(styles) + [Style.Bold]
    {
      AddStyle(Style.Bold);
    }

    method Dim()
      modifies this
      ensures styles == old(styles) + [Style.Dim]
    {
      AddStyle(Style.Dim);
    }

    method Italic()
      modifies this
      ensures styles == old(styles) + [Style.Italic]
    {
      AddStyle(Style.Italic);
    }

    method Underline()
      modifies this
      ensures styles == old(styles) + [Style.Underline]
    {
      AddStyle(Style.Underline);
    }

    method Inverse()
      modifies this
      ensures styles == old(styles) + [Style.Invert]
    {
      AddStyle(Style.Invert);
    }

    method Blink()
      modifies this
      ensures styles == old(styles) + [Style.Blink]
    {
      AddStyle(Style.Blink);
    }

    method FastBlink()
      modifies this
      ensures styles == old(styles) + [Style.FastBlink]
    {
      AddStyle(Style.FastBlink);
    }

    method DoubleUnderline()
      modifies this
      ensures styles == old(styles) + [Style.DoubleUnderline]
    {
      AddStyle(Style.DoubleUnderline);
    }

    /** `style()`: appends `ESC[<code>m` for each attribute, in list order. */
    method StyleCommand() returns (s: string)
      ensures s == StyleText(styles)
      ensures ParseStyleText(s) == Some(styles)
    {
      var list := styles;
      s := "";
      for i := 0 to |list|
        invariant s == StyleText(list[..i])
      {
        StyleTextSnoc(list[..i], list[i]);
        PrefixSnoc(list, i);
        s := s + Sgr(list[i].Code());
      }
      assert list[..|list|] == list;
      StyleTextRoundTrip(list);
    }
  }

  /** `reset_style` discards the earlier entries, and a later style call appends to `[Default]`. */
  method ResetThenUnderline() returns (text: string)
    ensures text == Csi + "0m" + Csi + "4m"
  {
    ghost var expected := [Style.Default, Style.Underline];
    assert StyleText(expected) == Csi + "0m" + Csi + "4m" by {
      StyleTextAppend([Style.Default], [Style.Underline]);
      assert [Style.Default] + [Style.Underline] == expected;
      assert StyleText([Style.Default]) == Sgr(0) && StyleText([Style.Underline]) == Sgr(4);
      assert Sgr(0) == Csi + "0m" && Sgr(4) == Csi + "4m" by {
        assert Utils.Display(0) == "0" && Utils.Display(4) == "4";
      }
    }
    var c := new StyledChalk([Style.Bold, Style.Italic]);
    c.ResetStyle();
    c.Underline();
    assert c.styles == expected;
    text := c.StyleCommand();
  }
}
