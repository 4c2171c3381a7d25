# chalk_rs in Dafny

A model of the value layer of the Rust crate `chalk_rs`. This layer turns
colour and text-attribute choices into ANSI escape text, that is, the SGR
control function `ESC [ <code> m` of section 8.3.117 of ECMA-48. The model
covers:

- **The `StyleMap` record** of `src/style.rs` (`Styles.StyleMap`): a class
  whose setters update the weight, blink, underline, italic, invert and
  hidden fields in place. It has the record's queries and its `Display`.
  `Display` is modelled as written: each fragment is `ESC[<code>` without
  the final `m`, and `invert` is never emitted (see Findings).
- **The list form of the text attributes** (`Styles.StyledChalk`):
  - `set_style!` replaces the list, and `add_style!` pushes onto it;
  - the ten `ChalkStyle` calls are built from those two;
  - `style()` concatenates `ESC[<code>m` over the list in order;
  - a parser for that text shows that the rendering loses nothing.
- **The discriminant tables** of `src/basic_chalk.rs` (`BasicColors`), and
  the `BasicChalk` record with its `bgcolor` field typed `BasicColor`.
- **`Chalk::string`, `print` and `println`** of `src/lib.rs` (`Chalk`):
  prefix, then text, then the reset `ESC[m`.
- **The enum macros** of `src/utils.rs` (`Utils`): an enum is rendered as its
  `u8` discriminant, in decimal or in one of the four radixes, and it parses
  back.
- **`RgbColor`** (`RgbColors`) and **`AnsiColor`** (`AnsiColors`): their
  constructors, getters, derived `Default` and derived `Ord`.
- **The two example programs**:
  - `examples/rgb_color.rs` (`RgbExample`): the `u16` gradient arithmetic,
    proved free of overflow and of `unwrap` panics.
  - `examples/ansi_color.rs` (`AnsiExample`): the 256-cell grid, proved to
    print 16 rows of 16 four-character cells.

The Rust enums `Blink` and `Underline` are called `BlinkMode` and
`UnderlineMode` here. Their names would otherwise clash with the setter
methods of the same names.

What a chalk renders as a whole is left out: no `Display` for
`BasicChalk`, `RgbChalk` or `AnsiChalk` is part of this model. So
`Chalk.Wrap` takes the chalk's rendering as a string `prefix`, and the
example loops take it as a function `render` from the colour just set to
that text. In the loops every other field of the chalk stays the same.
Console output is modelled as the text written so far.

## Model

| member | source | states |
|---|---|---|
| Utils.Format | src/utils.rs:18-25 | a number formatted in a radix is a non-empty run of that radix's digits, with a leading `0` exactly when the number is 0, and 0 itself is written as the single digit `0` |
| Utils.FormatParse | src/utils.rs:18-25 | parsing the formatted text gives the number back, in every radix |
| Utils.FormatInjective | src/utils.rs:18-25 | two numbers with the same text in the same radix are equal |
| Utils.Fmt | src/utils.rs:18-25 | `enum_fmt_impl`: the enum's `u8` discriminant rendered in a radix is non-empty digits of that radix, with no leading zero, that parse back to the discriminant; discriminant 0 (every `Default` variant) is written as exactly `0` |
| Utils.Display | src/utils.rs:33-40 | `enum_display`: the discriminant in canonical decimal: 1, 2 or 3 digits by magnitude, no leading zero unless it is 0, and the text parses back to it |
| Utils.DecimalLength | src/utils.rs:33-40 | the decimal text of a `u8` has 1, 2 or 3 digits according to whether it is below 10, below 100, or neither |
| Styles.DefaultsHaveCodeZero | src/utils.rs:7-11 | `enum_default`: for each of the four enums that `enum_impls` is applied to, the variant named `Default` has discriminant 0, which displays as `0` |
| Styles.Weight.Code | src/style.rs:12-17 | weight codes are 0, 1, 2, and 0 exactly for `Default` |
| Styles.Weight.AsStyle | src/style.rs:12-17 | each weight has the same code as the same-named `Style` |
| Styles.BlinkMode.Code | src/style.rs:19-24 | blink codes are 0, 5, 6, and 0 exactly for `Default` |
| Styles.BlinkMode.AsStyle | src/style.rs:19-24 | each blink mode has the same code as the matching `Style` (`Blink`, `FastBlink`) |
| Styles.UnderlineMode.Code | src/style.rs:26-31 | underline codes are 0, 4, 21, and 0 exactly for `Default` |
| Styles.UnderlineMode.AsStyle | src/style.rs:26-31 | each underline mode has the same code as the matching `Style` (`Underline`, `DoubleUnderline`) |
| Styles.Style.Code | src/style.rs:206-218 | the ten attribute codes are 0–8 or 21, and 0 exactly for `Default` |
| Styles.StyleFromCode | src/style.rs:206-218 | reading a code back gives the attribute with that code, or nothing when no attribute has it |
| Styles.StyleCodeRoundTrip | src/style.rs:206-218 | each attribute is recovered from its code, so the ten codes are distinct |
| Styles.StyleMap.constructor | src/style.rs:74-76 | `new`/`default`: every attribute unset, and the map renders as the empty string |
| Styles.StyleMap.ResetWeight | src/style.rs:78-81 | afterwards only `is_normal_weight` holds; every other field is unchanged |
| Styles.StyleMap.Bold | src/style.rs:83-86 | afterwards only `is_bold` holds, whatever the weight was (last call wins); every other field is unchanged |
| Styles.StyleMap.Dim | src/style.rs:88-91 | afterwards only `is_dim` holds; every other field is unchanged |
| Styles.StyleMap.IsNormalWeight | src/style.rs:93-95 | normal weight exactly when `Display` writes neither code 1 nor code 2 |
| Styles.StyleMap.IsBold | src/style.rs:97-99 | bold exactly when `Display` writes code 1 |
| Styles.StyleMap.IsDim | src/style.rs:101-103 | dim exactly when `Display` writes code 2 |
| Styles.ExactlyOneWeight | src/style.rs:93-103 | exactly one of `is_normal_weight`, `is_bold`, `is_dim` holds in every map |
| Styles.StyleMap.Italic | src/style.rs:105-108 | afterwards `is_italicized`; weight, blink, underline, invert and hidden unchanged |
| Styles.StyleMap.Unitalicize | src/style.rs:110-113 | afterwards not `is_italicized`; every other field unchanged |
| Styles.StyleMap.IsItalicized | src/style.rs:115-117 | italic exactly when `Display` writes code 3 |
| Styles.StyleMap.Underline | src/style.rs:119-122 | afterwards single-underlined, not double, `num_underlines` is 1; every other field unchanged |
| Styles.StyleMap.DoubleUnderline | src/style.rs:124-127 | afterwards double-underlined, not single, `num_underlines` is 2; every other field unchanged |
| Styles.StyleMap.NumUnderlines | src/style.rs:129-135 | at most 2; it is 1 exactly when single-underlined and 2 exactly when double-underlined |
| Styles.StyleMap.HasUnderlines | src/style.rs:137-139 | holds exactly when `num_underlines` is positive |
| Styles.ExactlyOneUnderline | src/style.rs:137-147 | `has_underlines` holds exactly when single or double underlining holds, and never both |
| Styles.StyleMap.IsSingleUnderlined | src/style.rs:141-143 | single underline exactly when `Display` writes code 4 |
| Styles.StyleMap.IsDoubleUnderlined | src/style.rs:145-147 | double underline exactly when `Display` writes code 21 |
| Styles.StyleMap.StopBlink | src/style.rs:149-152 | afterwards `is_blinking`, `is_slowly_blinking` and `is_quickly_blinking` are all false; every other field unchanged |
| Styles.StyleMap.Blink | src/style.rs:154-157 | afterwards blinking slowly and not quickly; every other field unchanged |
| Styles.StyleMap.FastBlink | src/style.rs:159-162 | afterwards blinking quickly and not slowly; every other field unchanged |
| Styles.StyleMap.IsBlinking | src/style.rs:164-174 | holds exactly when blinking slowly or quickly, which never both hold |
| Styles.StyleMap.IsSlowlyBlinking | src/style.rs:168-170 | slow blink exactly when `Display` writes code 5 |
| Styles.StyleMap.IsQuicklyBlinking | src/style.rs:172-174 | fast blink exactly when `Display` writes code 6 |
| Styles.StyleMap.Invert | src/style.rs:176-179 | afterwards `is_inverted`; every other field unchanged, and the rendering is unchanged |
| Styles.StyleMap.Uninvert | src/style.rs:181-184 | afterwards not `is_inverted`; every other field and the rendering unchanged |
| Styles.InvertInvisible | src/style.rs:186-188 | `is_inverted` has no effect on `Display`: two maps that agree on every other attribute write the same codes and the same text |
| Styles.StyleMap.Hide | src/style.rs:190-193 | afterwards `is_hidden`; every other field unchanged |
| Styles.StyleMap.Unhide | src/style.rs:195-198 | afterwards not `is_hidden`; every other field unchanged |
| Styles.StyleMap.IsHidden | src/style.rs:200-202 | hidden exactly when `Display` writes code 8 |
| Styles.StyleMap.Rendered | src/style.rs:45-70 | the text `Display` writes, as written; it is empty exactly when no visible attribute is set (normal weight, no blink, no underline, not italic, not hidden) |
| Styles.StyleMap.Fmt | src/style.rs:45-70 | `Display`, as written, builds one unterminated fragment per set attribute, in the fixed order weight, blink, underline, italic, hidden |
| Styles.CodesAvoidResetAndInvert | src/style.rs:45-70 | `Display` never writes the reset code 0 or the invert code 7 |
| Styles.LiteralFragments | src/style.rs:62-67 | the literal fragments written for italic and hidden are the fragments of codes 3 and 8 |
| Styles.UnterminatedPiecesLackFinal | src/style.rs:45-70 | text made of unterminated fragments contains no `m` |
| Styles.RenderedNeverTerminated | src/style.rs:45-70 | whatever the map holds, its `Display` output contains no SGR final byte `m` |
| Styles.BoldRendersUnterminated | src/style.rs:49-52 | a map with only bold renders `ESC[1`, not the complete `ESC[1m` |
| Styles.SetterOrderIrrelevant | src/style.rs:45-70 | setting italic then bold, or bold then italic, renders the same `ESC[1ESC[3` |
| Styles.StyleMap.AsStyleList | src/style.rs:45-70 | the attributes `Display` writes, as a `Style` list with the same codes in the same order |
| Styles.StyleMap.RenderedTerminated | src/style.rs:45-70 | the corrected `Display`, each fragment closed by `m`, is exactly the list-form rendering of the same attributes |
| Styles.StyledChalk.SetStyle | src/style.rs:224-232 | `set_style!`: the list becomes the given list |
| Styles.StyledChalk.AddStyle | src/style.rs:236-246 | `add_style!`: exactly one attribute is appended at the end, and earlier entries are kept in order |
| Styles.StyledChalk.ResetStyle | src/style.rs:287 | the list becomes `[Default]`, discarding earlier entries |
| Styles.StyledChalk.Hidden | src/style.rs:288 | the list becomes `[Hidden]`, discarding earlier entries |
| Styles.StyledChalk.Bold | src/style.rs:291 | appends `Bold` |
| Styles.StyledChalk.Dim | src/style.rs:292 | appends `Dim` |
| Styles.StyledChalk.Italic | src/style.rs:293 | appends `Italic` |
| Styles.StyledChalk.Underline | src/style.rs:294 | appends `Underline` |
| Styles.StyledChalk.Inverse | src/style.rs:295 | appends `Invert` |
| Styles.StyledChalk.Blink | src/style.rs:296 | appends `Blink` |
| Styles.StyledChalk.FastBlink | src/style.rs:297 | appends `FastBlink` |
| Styles.StyledChalk.DoubleUnderline | src/style.rs:298 | appends `DoubleUnderline` |
| Styles.StyledChalk.StyleCommand | src/style.rs:256-262 | `style()` is the in-order concatenation of `ESC[<code>m` over the list (`""` for the empty list), and parsing it gives the list back |
| Styles.StyleTextAppend | src/style.rs:256-262 | the rendering of two lists joined is the two renderings joined |
| Styles.StyleTextIsPieces | src/style.rs:256-262 | the list rendering is one complete SGR per code, in order |
| Styles.StyleTextRoundTrip | src/style.rs:256-262 | parsing the rendering of any list gives that list |
| Styles.StyleTextInjective | src/style.rs:256-262 | different lists render to different text |
| Styles.ResetThenUnderline | src/style.rs:287-298 | after `reset_style` then `underline`, on a chalk holding `[Bold, Italic]`, the style text is `ESC[0mESC[4m` |
| BasicColors.BasicStyle.Code | src/basic_chalk.rs:8-16 | the seven basic style codes lie in {0,1,2,4,5,7,8} |
| BasicColors.BasicStyleCodesDistinct | src/basic_chalk.rs:8-16 | the basic style codes are pairwise distinct |
| BasicColors.BasicStyle.AsStyle | src/basic_chalk.rs:8-16 | each basic style has the code of the `Style` attribute it corresponds to (`Normal` to `Default`) |
| BasicColors.BasicColor.Code | src/basic_chalk.rs:22-40 | foreground codes lie in 30–37, 39, 90–97 |
| BasicColors.ColorFromCode | src/basic_chalk.rs:22-40 | reading a foreground code back gives a colour exactly for the codes in 30–37, 39, 90–97, and that colour has the code |
| BasicColors.ColorCodeRoundTrip | src/basic_chalk.rs:22-40 | every colour is recovered from its code |
| BasicColors.ColorCodesDistinct | src/basic_chalk.rs:22-40 | the 17 foreground codes, `Default` = 39 included, are pairwise distinct |
| BasicColors.BasicBackground.Code | src/basic_chalk.rs:46-64 | background codes lie in 40–47, 49, 100–107 |
| BasicColors.BackgroundCodesDistinct | src/basic_chalk.rs:46-64 | the 17 background codes, `Default` = 49 included, are pairwise distinct |
| BasicColors.BasicColor.AsBackground | src/basic_chalk.rs:22-64 | the same-named background's code is the foreground code plus 10 |
| BasicColors.BasicBackground.AsForeground | src/basic_chalk.rs:22-64 | the same-named foreground's code is the background code minus 10, and going back gives the background |
| BasicColors.ForegroundBackgroundRoundTrip | src/basic_chalk.rs:22-64 | going from a foreground to its background and back is the identity |
| BasicColors.ForegroundBackgroundDisjoint | src/basic_chalk.rs:22-64 | no code is both a foreground and a background code |
| BasicColors.BgColorHoldsForegroundCode | src/basic_chalk.rs:66-71 | because `bgcolor` is typed `BasicColor`, it always holds a foreground code and never a background code |
| Chalk.Wrap | src/lib.rs:21-23 | `string`: the output starts with the chalk's rendering, then holds the text, and always ends with `ESC[m`; its length is the two lengths plus 3 |
| Chalk.WrapDecomposes | src/lib.rs:21-23 | any text with those three parts is the wrapped text: nothing else goes into the output |
| Chalk.Print | src/lib.rs:33-37 | `print` returns exactly the wrapped text, and that text is what it appends to the console |
| Chalk.Println | src/lib.rs:47-51 | `println` returns exactly the wrapped text, and appends it and a newline to the console |
| RgbColors.New | src/rgb_chalk.rs:95-98 | `new` is total over byte triples, and each getter returns its own argument |
| RgbColors.NewFromGetters | src/rgb_chalk.rs:96-113 | rebuilding a colour from its getters gives the same colour |
| RgbColors.ChannelsIndependent | src/rgb_chalk.rs:96-113 | each getter depends only on its own argument of `new`, and two colours are equal exactly when all three arguments are |
| RgbColors.PackedInjective | src/rgb_chalk.rs:86-91 | two colours with the same 24-bit value `0xRRGGBB` are the same colour |
| RgbColors.DefaultColor | src/rgb_chalk.rs:86-91 | the derived `Default` is (0, 0, 0) |
| RgbColors.Cmp | src/rgb_chalk.rs:86-91 | the derived `Ord` compares red, then green, then blue, which orders colours as their 24-bit values `0xRRGGBB`; `Equal` holds exactly for equal colours |
| AnsiColors.FromNum | src/ansi_chalk.rs:9-11 | `from_num` accepts every byte, and `as_num` gives it back |
| AnsiColors.AnsiColor.AsNum | src/ansi_chalk.rs:13-15 | `as_num` gives the index that rebuilds the colour |
| AnsiColors.FromNumAsNum | src/ansi_chalk.rs:9-15 | `from_num(as_num(a)) == a` |
| AnsiColors.FromNumInjective | src/ansi_chalk.rs:9-11 | distinct bytes give distinct colours |
| AnsiColors.DefaultColor | src/ansi_chalk.rs:2-5 | the derived `Default` has index 0 |
| AnsiColors.Cmp | src/ansi_chalk.rs:2-5 | the derived `Ord` is the numeric order of the index |
| RgbExample.GradientColor | examples/rgb_color.rs:14-17 | red and blue always sum to 255, and green is the raw value folded below 256 |
| RgbExample.ChannelBounds | examples/rgb_color.rs:14-17 | `i * 255` and `i * 510` fit in `u16`, blue is at most 254, raw green is at most 503 (so `510 - g` cannot underflow), and the fold applies from position 40 |
| RgbExample.BlueNonDecreasing | examples/rgb_color.rs:14-16 | along the line, blue never decreases and red never increases |
| RgbExample.GreenRisesThenFalls | examples/rgb_color.rs:15-17 | green rises up to position 39, where it is 255, and falls after it |
| RgbExample.Channels | examples/rgb_color.rs:14-22 | the `u16` arithmetic does not overflow, each channel fits in a `u8` (the `unwrap` never panics), and the result is the gradient colour |
| RgbExample.PrintLetter | examples/rgb_color.rs:23-25 | exactly one letter is printed, `r`, `g` or `b` by `i % 3`, wrapped by the chalk |
| RgbExample.GradientLine | examples/rgb_color.rs:13-26 | the loop sets the gradient colour at every position and prints the 78 wrapped letters |
| RgbExample.RgbColorExample | examples/rgb_color.rs:11-47 | the foreground and background loops print the same gradient line, each followed by a newline |
| AnsiExample.Padding | examples/ansi_color.rs:14-15 | the padding is spaces: one below 10, one more below 100 |
| AnsiExample.CellWidth | examples/ansi_color.rs:13-15 | every cell's number, space and padding are exactly 4 characters |
| AnsiExample.RowBreakAt | examples/ansi_color.rs:16 | a newline follows cell `16k + j` exactly when `j == 15` |
| AnsiExample.GridUpTo | examples/ansi_color.rs:12-17 | after `16k + j` cells the output is `k` complete rows followed by `j` cells of the next |
| AnsiExample.SixteenRows | examples/ansi_color.rs:12-17 | the 256 cells form exactly 16 rows of 16 cells, each row ending in a newline |
| AnsiExample.Grid | examples/ansi_color.rs:12-17 | the loop prints the 16 × 16 grid; `i as i16 + 1` is computed in an `i16`, so 255 + 1 does not overflow |
| AnsiExample.AnsiColorExample | examples/ansi_color.rs:12-27 | the foreground and background loops print the same layout, with a newline between them |

## Left out

- Console output. Printing is modelled as the text appended to a console string.
  `print!`/`println!` in the examples are modelled the same way.
- What a chalk renders as a whole. No `Display` for `BasicChalk`, `AnsiChalk`
  or `RgbChalk` is part of this model, so the chalk's rendering is a parameter.
  This means that `chalk.rgb`, `bg_rgb`, `ansi`, `bg_ansi` and `reset_color`,
  which the examples call, are not modelled. They appear only through the
  colour they set, passed to `render`.
- The `Formatter` flags (width, fill, `#` alternate form) that the radix traits
  would honour. Formatting uses the default flags.
- Derived `Hash` and `Debug`.
- Derived `Ord` of the style enums, of `StyleMap`, of `BasicStyle`,
  `BasicColor`, `BasicBackground` and of `BasicChalk`.
- The macros `chalk_trait_fns!` and `impl_enums!`. They are not part of this
  model, so the model assumes that `impl_enums!` applies `enum_impls!` to
  each enum.
- The 16-entry colour table of `src/rgb_chalk.rs`. It is commented out in the
  source.
- `src/tests.rs` and `src/prelude.rs`. The first only prints and the second
  only re-exports.
- `examples/basic_color.rs`, `examples/style.rs` and `examples/pride.rs`. They
  call builder methods that are not part of this model.
- Setters that return `&mut Self` for chaining. In the model they return
  nothing, and chained calls are consecutive calls.

## Findings

| source | as written | input that shows it | evidently intended | confidence | as-written member | corrected member |
|---|---|---|---|---|---|---|
| src/style.rs:51 | `StyleMap`'s `Display` writes `ESC[<code>` for each set attribute, without the SGR final byte `m`. The same holds at lines 55, 59, 63 and 66. | A map with only bold renders `ESC[1`. Wrapped around the text `hi`, this gives `ESC[1hi…`: the terminal reads `ESC[1h` as the Set Mode control sequence, which consumes the `h`, and no bold is applied. | `ESC[1m`: one complete SGR per attribute, as the list form's `style()` writes them. | not executed | Styles.StyleMap.Rendered, with Styles.RenderedNeverTerminated and Styles.BoldRendersUnterminated | Styles.StyleMap.RenderedTerminated, proved equal to the list-form rendering `Styles.StyleText` of `Styles.StyleMap.AsStyleList` |
