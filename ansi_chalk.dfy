/** `AnsiColor` of src/ansi_chalk.rs: one byte selecting an entry of the 256-colour palette. */
module AnsiColors {
  import opened Prim

  datatype AnsiColor = AnsiColor(color: u8) {
    /** `as_num`: the palette index. */
    function AsNum(): (n: u8)
      ensures AnsiColor(n) == this
    {
      color
    }
  }

  /** `from_num`: every byte is a valid colour, and `as_num` gives it back. */
  function FromNum(color: u8): (a: AnsiColor)
    ensures a.AsNum() == color
  {
    AnsiColor(color)
  }

  lemma FromNumAsNum(a: AnsiColor)
    ensures FromNum(a.AsNum()) == a
  {
  }

  lemma FromNumInjective(m: u8, n: u8)
    ensures FromNum(m) == FromNum(n) <==> m == n
  {
  }

  /** The derived `Default`: palette index 0. */
  function DefaultColor(): (a: AnsiColor)
    ensures a.AsNum() == 0
  {
    AnsiColor(0)
  }

  /** The derived `Ord::cmp`: the order of the palette indices. */
  function Cmp(a: AnsiColor, b: AnsiColor): (o: Ordering)
    ensures o == Less <==> a.AsNum() < b.AsNum()
    ensures o == Equal <==> a == b
    ensures o == Greater <==> a.AsNum() > b.AsNum()
  {
    if a.color < b.color then Less else if a.color == b.color then Equal else Greater
  }
}
