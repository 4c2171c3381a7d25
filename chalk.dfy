/**
 * The `Chalk` trait of src/lib.rs: a chalk wraps text between its own
 * rendering and the reset sequence `ESC[m`.  The chalk's rendering (its
 * `to_string()`) and the text argument's `to_string()` are given as strings.
 */
module Chalk {

  /** `ESC[m`: SGR with no parameter, which resets every attribute. */
  const Reset: string := ['\U{1b}', '[', 'm']

  /**
   * `Chalk::string`: the chalk's rendering, then the text, then the reset.
   * The reset is unconditional: whatever the chalk holds, the output ends
   * with it.
   */
  function Wrap(prefix: string, text: string): (r: string)
    ensures |r| == |prefix| + |text| + |Reset|
    ensures r[..|prefix|] == prefix
    ensures r[|prefix|..|prefix| + |text|] == text
    ensures r[|r| - |Reset|..] == Reset
  {
    prefix + text + Reset
  }

  /** The three parts of `Wrap` determine it: nothing else goes into the output. */
  lemma WrapDecomposes(prefix: string, text: string, r: string)
    requires |r| == |prefix| + |text| + |Reset|
    requires r[..|prefix|] == prefix
    requires r[|prefix|..|prefix| + |text|] == text
    requires r[|r| - |Reset|..] == Reset
    ensures r == Wrap(prefix, text)
  {
    assert r == r[..|prefix|] + r[|prefix|..|prefix| + |text|] + r[|r| - |Reset|..];
  }

  /**
   * `Chalk::print`: writes the wrapped text to standard output, modelled as
   * the text `console` written so far, and returns what it wrote.
   */
  method Print(console: string, prefix: string, text: string) returns (output: string, console': string)
    ensures output == Wrap(prefix, text)
    ensures console' == console + output
  {
    output := Wrap(prefix, text);
    console' := console + output;
  }

  /** `Chalk::println`: as `Print`, with a newline after the output; the newline is not returned. */
  method Println(console: string, prefix: string, text: string) returns (output: string, console': string)
    ensures output == Wrap(prefix, text)
    ensures console' == console + output + "\n"
  {
    output := Wrap(prefix, text);
    console' := console + output + "\n";
  }
}
