/**
 * examples/ansi_color.rs: the 256 indexed colours printed as a grid of 16
 * rows of 16 cells, first as foreground, then as background.  The chalk's
 * rendering for a colour is a parameter: the rendering of an `AnsiChalk` is
 * not part of this model.
 */
module AnsiExample {
  import opened Prim
  import Utils
  import AnsiColors
  import Chalk

  /** Concatenation regroups freely. */
  lemma AppendAssoc(a: string, b: string, c: string)
    ensures (a + b) + c == a + (b + c)
  {
  }

  /** The spaces printed after cell `i`: one if `i < 10`, one more if `i < 100`. */
  function Padding(i: u8): (p: string)
    ensures forall k :: 0 <= k < |p| ==> p[k] == ' '
    ensures |p| == (if i < 10 then 1 else 0) + (if i < 100 then 1 else 0)
  {
    (if i < 10 then " " else "") + (if i < 100 then " " else "")
  }

  /** Each cell's number, its space and its padding are four characters wide. */
  lemma CellWidth(i: u8)
    ensures |Utils.Display(i) + " " + Padding(i)| == 4
  {
  }

  /** The coloured part of cell `i`: its number and a space, wrapped by the chalk. */
  function Label(render: AnsiColors.AnsiColor -> string, i: u8): string
  {
    Chalk.Wrap(render(AnsiColors.FromNum(i)), Utils.Display(i) + " ")
  }

  /** The visible cells of one loop, by colour index; there is no cell past 255. */
  function Labels(render: AnsiColors.AnsiColor -> string): nat -> string
  {
    (i: nat) => if i < 256 then Label(render, i as u8) + Padding(i as u8) else ""
  }

  /*
   * The grid's layout is stated for any choice of visible cell, so that the
   * layout lemmas do not depend on what a cell looks like.
   */

  /** A line ends after cell `i` when `i + 1` is a multiple of 16. */
  predicate RowBreak(i: nat)
  {
    (i + 1) % 16 == 0
  }

  /** Everything one iteration prints: the visible cell and, at a row's end, a line break. */
  function Cell(visible: nat -> string, i: nat): string
  {
    visible(i) + (if RowBreak(i) then "\n" else "")
  }

  /** What the loop prints for colours `0 .. n`. */
  function GridText(visible: nat -> string, n: nat): string
  {
    if n == 0 then "" else GridText(visible, n - 1) + Cell(visible, n - 1)
  }

  /** The first `k` cells of row `r`, without the line break. */
  function RowCells(visible: nat -> string, r: nat, k: nat): string
  {
    if k == 0 then "" else RowCells(visible, r, k - 1) + visible(16 * r + k - 1)
  }

  /** Row `r` of the grid: its sixteen cells and a line break. */
  function Row(visible: nat -> string, r: nat): string
  {
    RowCells(visible, r, 16) + "\n"
  }

  /** The first `k` rows of the grid. */
  function Rows(visible: nat -> string, k: nat): string
  {
    if k == 0 then "" else Rows(visible, k - 1) + Row(visible, k - 1)
  }

  /** Cell `16 * k + j` ends its row exactly when it is the sixteenth, `j == 15`. */
  lemma RowBreakAt(k: nat, j: nat)
    requires j < 16
    ensures RowBreak(16 * k + j) <==> j == 15
  {
    assert 16 * k + j + 1 == 16 * k + (j + 1);
  }

  /** A cell that does not end its row only extends the row in progress. */
  lemma ExtendRow(visible: nat -> string, k: nat, j: nat)
    requires 0 < j < 16
    requires GridText(visible, 16 * k + j - 1) == Rows(visible, k) + RowCells(visible, k, j - 1)
    ensures GridText(visible, 16 * k + j) == Rows(visible, k) + RowCells(visible, k, j)
  {
    var n := 16 * k + j - 1;
    assert Cell(visible, n) == visible(n) by {
      RowBreakAt(k, j - 1);
    }
    assert GridText(visible, n + 1) == GridText(visible, n) + visible(n);
    assert RowCells(visible, k, j) == RowCells(visible, k, j - 1) + visible(n);
    AppendAssoc(Rows(visible, k), RowCells(visible, k, j - 1), visible(n));
  }

  /** The sixteenth cell of a row completes it with its line break. */
  lemma EndRow(visible: nat -> string, k: nat)
    requires GridText(visible, 16 * k + 15) == Rows(visible, k) + RowCells(visible, k, 15)
    ensures GridText(visible, 16 * k + 16) == Rows(visible, k + 1)
  {
    var n := 16 * k + 15;
    var done, partial, last := Rows(visible, k), RowCells(visible, k, 15), visible(n);
    assert Cell(visible, n) == last + "\n" by {
      RowBreakAt(k, 15);
    }
    assert GridText(visible, n + 1) == (done + partial) + (last + "\n");
    assert RowCells(visible, k, 16) == partial + last;
    assert Rows(visible, k + 1) == done + ((partial + last) + "\n");
    AppendAssoc(partial, last, "\n");
    AppendAssoc(done, partial, last + "\n");
  }

  /** After `16 * k + j` cells the output is `k` completed rows followed by `j` cells of the next. */
  lemma {:induction false} GridUpTo(visible: nat -> string, k: nat, j: nat)
    requires j < 16
    ensures GridText(visible, 16 * k + j) == Rows(visible, k) + RowCells(visible, k, j)
    decreases k, j
  {
    if j > 0 {
      GridUpTo(visible, k, j - 1);
      ExtendRow(visible, k, j);
    } else if k > 0 {
      GridUpTo(visible, k - 1, 15);
      EndRow(visible, k - 1);
    }
  }

  /** The whole loop prints exactly sixteen rows of sixteen cells. */
  lemma SixteenRows(visible: nat -> string)
    ensures GridText(visible, 256) == Rows(visible, 16)
  {
    GridUpTo(visible, 15, 15);
    EndRow(visible, 15);
  }

  /**
   * One loop of the example: for `i` in `0..=255`, print the coloured label,
   * the padding, and a line break when `i as i16 + 1` is a multiple of 16.
   * The sum is held in an `i16`, so `255 + 1` does not overflow.
   */
  method Grid(render: AnsiColors.AnsiColor -> string) returns (out: string)
    ensures out == GridText(Labels(render), 256)
    ensures out == Rows(Labels(render), 16)
  {
    out := "";
    for i := 0 to 256
      invariant out == GridText(Labels(render), i)
    {
      var n: u8 := i;
      ghost var before := out;
      var coloured := Chalk.Wrap(render(AnsiColors.FromNum(n)), Utils.Display(n) + " ");
      out := out + coloured;
      ghost var labelled := out;
      if n < 10 {
        out := out + " ";
      }
      if n < 100 {
        out := out + " ";
      }
      assert out == labelled + Padding(n);
      AppendAssoc(before, coloured, Padding(n));
      assert Labels(render)(i) == coloured + Padding(n);
      ghost var visible := out;
      var next: i16 := n as int + 1;
      if next % 16 == 0 {
        out := out + "\n";
      }
      assert out == visible + (if RowBreak(i) then "\n" else "");
      AppendAssoc(before, Labels(render)(i), if RowBreak(i) then "\n" else "");
    }
    SixteenRows(Labels(render));
  }

  /**
   * The whole example: the foreground grid, `reset_color` and a line break,
   * then the background grid.
   */
  method AnsiColorExample(foreground: AnsiColors.AnsiColor -> string, background: AnsiColors.AnsiColor -> string)
    returns (console: string)
    ensures console == Rows(Labels(foreground), 16) + "\n" + Rows(Labels(background), 16)
  {
    var first := Grid(foreground);
    var second := Grid(background);
    console := first + "\n" + second;
  }
}
