/**
 * The argument tests used when a command dispatches its arguments: `isAlias`,
 * `isFlagSet` and `helpRequested`. command.go and commands.go hold identical
 * copies; `isFlagSet` and `helpRequested` never look at the command they are
 * called on.
 */
module Dispatch {

  /** The loop of `isAlias`: `arg` is equal to some element of `xs`. */
  method Contains(xs: seq<string>, arg: string) returns (b: bool)
    ensures b <==> arg in xs
  {
    var i := 0;
    while i < |xs|
      invariant 0 <= i <= |xs|
      invariant arg !in xs[..i]
    {
      if arg == xs[i] {
        return true;
      }
      assert xs[..i + 1] == xs[..i] + [xs[i]];
      i := i + 1;
    }
    assert xs[..i] == xs;
    return false;
  }

  /** `isFlagSet`: the first argument, and only it, is one of `searchArgs`; false without arguments. */
  method IsFlagSet(args: seq<string>, searchArgs: seq<string>) returns (b: bool)
    ensures b <==> |args| > 0 && args[0] in searchArgs
  {
    if |args| == 0 {
      return false;
    }
    b := Contains(searchArgs, args[0]);
  }

  /** `-h` or `--help` as first argument. */
  predicate IsHelpRequest(args: seq<string>) {
    |args| > 0 && (args[0] == "-h" || args[0] == "--help")
  }

  /** `helpRequested`: the first argument is `-h` or `--help`. */
  method HelpRequested(args: seq<string>) returns (b: bool)
    ensures b <==> IsHelpRequest(args)
  {
    b := IsFlagSet(args, ["-h", "--help"]);
  }
}
