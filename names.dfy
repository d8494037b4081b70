/**
 * Naming rules shared by both generations of the command layer:
 * `mkOptStrs` (options.go and parameter.go hold identical copies), the
 * duplicate-name detection of `mkOpt`, `validArgName` (args.go and
 * parameter.go hold identical copies) and the configuration error messages.
 */
module Names {
  import opened Wrappers
  import opened GoStrings
  import opened Errors
  import opened Lexer
  import opened Container

  // ---------------------------------------------------------------------------
  // Option names

  /** A one-byte name gets a single dash, anything longer two (Go's `len` counts bytes). */
  function DashPrefix(field: string): string {
    if ByteLen(field) > 1 then "--" else "-"
  }

  /** The option names declared by `optName`: each of its fields with its dash prefix, in order. */
  function OptNames(optName: string): seq<string> {
    var fs := Fields(optName);
    seq(|fs|, i requires 0 <= i < |fs| => DashPrefix(fs[i]) + fs[i])
  }

  /** `mkOptStrs`: splits `optName` into fields and rewrites each field in place with its prefix. */
  method MkOptStrs(optName: string) returns (res: seq<string>)
    ensures res == OptNames(optName)
  {
    res := Fields(optName);
    ghost var fields := res;
    var i := 0;
    while i < |res|
      invariant 0 <= i <= |res| == |fields|
      invariant forall j :: 0 <= j < i ==> res[j] == DashPrefix(fields[j]) + fields[j]
      invariant forall j :: i <= j < |res| ==> res[j] == fields[j]
    {
      var name := res[i];
      var prefix := "-";
      if ByteLen(name) > 1 {
        prefix := "--";
      }
      res := res[i := prefix + name];
      i := i + 1;
    }
  }

  /** Removes the prefix `DashPrefix` put in front of a name. */
  function Undash(n: string): string {
    if HasPrefix(n, "--") && ByteLen(n[2..]) > 1 then n[2..]
    else if n == [] then n
    else n[1..]
  }

  lemma UndashDashed(f: string)
    requires IsWord(f)
    ensures Undash(DashPrefix(f) + f) == f
  {
    var n := DashPrefix(f) + f;
    if ByteLen(f) > 1 {
      assert n[..2] == "--" && n[2..] == f;
    } else {
      assert |f| == 1;
      assert n[1..] == f;
      if HasPrefix(n, "--") {
        assert n[2..] == [];
      }
    }
  }

  /** Round trip: removing the added prefix from every name gives back the fields of `optName`, in order. */
  lemma OptNamesUndash(optName: string)
    ensures |OptNames(optName)| == |Fields(optName)|
    ensures forall i :: 0 <= i < |Fields(optName)| ==> Undash(OptNames(optName)[i]) == Fields(optName)[i]
  {
    var fs := Fields(optName);
    forall i | 0 <= i < |fs| ensures Undash(OptNames(optName)[i]) == fs[i] {
      UndashDashed(fs[i]);
    }
  }

  /** A blank declaration declares no option name at all. */
  lemma OptNamesBlank(optName: string)
    ensures OptNames(optName) == [] <==> IsBlank(optName)
  {
    FieldsEmpty(optName);
  }

  /**
   * A declared name is two bytes long (`-x`) exactly when its field is one
   * byte, and longer than two bytes exactly when its field is longer than one.
   */
  lemma DashedByteLen(f: string)
    requires IsWord(f)
    ensures ByteLen(DashPrefix(f) + f) == 2 <==> ByteLen(f) == 1
    ensures ByteLen(DashPrefix(f) + f) > 2 <==> ByteLen(f) > 1
  {
    ByteLenAppend(DashPrefix(f), f);
    assert ByteLen("-") == 1 by { assert "-"[1..] == []; }
    assert ByteLen("--") == 2 by { assert "--"[1..] == "-"; assert "-"[1..] == []; }
  }

  // ---------------------------------------------------------------------------
  // Duplicate detection while indexing option names

  /**
   * Position of the first name that is already taken, either by `taken` or by
   * an earlier name of the list; `|names|` when none is.
   */
  function FirstClash(taken: set<string>, names: seq<string>): (j: nat)
    ensures j <= |names|
    ensures forall i :: 0 <= i < j ==> names[i] !in taken && names[i] !in names[..i]
    ensures j < |names| ==> names[j] in taken || names[j] in names[..j]
    decreases |names|
  {
    if names == [] || names[0] in taken then 0
    else 1 + FirstClash(taken + {names[0]}, names[1..])
  }

  /** Every name in `names` mapped to `d`. */
  function IndexAll<T>(names: seq<string>, d: T): (m: map<string, T>)
    ensures m.Keys == set n | n in names
    ensures forall n :: n in m ==> m[n] == d
  {
    map n | n in names :: d
  }

  /**
   * The indexing loop of `mkOpt`: maps each name to `d` until one is already
   * indexed; the names indexed before a clash stay indexed.
   */
  method IndexNames<T>(idx: map<string, T>, names: seq<string>, d: T) returns (r: map<string, T>, err: Option<Error>)
    ensures var j := FirstClash(idx.Keys, names);
      && r == idx + IndexAll(names[..j], d)
      && (err == None <==> j == |names|)
      && (j < |names| ==> err == Some(DuplicateOptionName(names[j])))
  {
    ghost var j := FirstClash(idx.Keys, names);
    r := idx;
    var i := 0;
    while i < |names|
      invariant 0 <= i <= j
      invariant r == idx + IndexAll(names[..i], d)
    {
      var n := names[i];
      FirstClashStep(idx.Keys, names, i);
      IndexAllStep(idx, names, i, d);
      if n in r {
        return r, Some(DuplicateOptionName(n));
      }
      r := r[n := d];
      i := i + 1;
    }
    assert names[..i] == names;
    err := None;
  }

  /** Scanning up to the first clash: position `i` is the clash exactly when its name is taken so far. */
  lemma FirstClashStep(taken: set<string>, names: seq<string>, i: nat)
    requires i < |names| && i <= FirstClash(taken, names)
    ensures FirstClash(taken, names) == i <==> names[i] in taken || names[i] in names[..i]
  {
  }

  /** Indexing one more name. */
  lemma IndexAllStep<T>(m: map<string, T>, names: seq<string>, i: nat, d: T)
    requires i < |names|
    ensures m + IndexAll(names[..i + 1], d) == (m + IndexAll(names[..i], d))[names[i] := d]
    ensures names[i] in m + IndexAll(names[..i], d) <==> names[i] in m || names[i] in names[..i]
  {
    assert names[..i + 1] == names[..i] + [names[i]];
  }

  // ---------------------------------------------------------------------------
  // Argument names

  /** `validArgName`: the name lexes, as a single token, and that token is a positional name. */
  function ValidArgName(n: string, tokenize: Tokenizer): (b: bool)
    ensures b <==> tokenize(n).Success? && |tokenize(n).value| == 1 && tokenize(n).value[0].typ == TTArg
  {
    match tokenize(n)
    case Failure(_) => false
    case Success(tokens) =>
      if |tokens| != 1 then false
      else tokens[0].typ == TTArg
  }

  /**
   * The body of `mkArg` on the argument list and index it updates: an invalid
   * or taken name is rejected before anything changes, otherwise the argument
   * is appended and indexed under its name.
   */
  method RegisterArg(args: seq<Container>, idx: map<string, Container>, arg: Container, tokenize: Tokenizer)
    returns (args': seq<Container>, idx': map<string, Container>, err: Option<Error>)
    ensures !ValidArgName(arg.name, tokenize) ==>
      err == Some(InvalidArgName(arg.name)) && args' == args && idx' == idx
    ensures ValidArgName(arg.name, tokenize) && arg.name in idx ==>
      err == Some(DuplicateArgName(arg.name)) && args' == args && idx' == idx
    ensures ValidArgName(arg.name, tokenize) && arg.name !in idx ==>
      err == None && args' == args + [arg] && idx' == idx[arg.name := arg]
  {
    if !ValidArgName(arg.name, tokenize) {
      return args, idx, Some(InvalidArgName(arg.name));
    }
    if arg.name in idx {
      return args, idx, Some(DuplicateArgName(arg.name));
    }
    args' := args + [arg];
    idx' := idx[arg.name := arg];
    err := None;
  }

  // ---------------------------------------------------------------------------
  // Configuration errors (the source panics with these messages)

  /** Go's `%q` of a name, without the escaping of unprintable characters. */
  function Quote(s: string): string {
    "\"" + s + "\""
  }

  /** The runtime error Go raises when a command is declared with a blank name (`aliases[0]` of an empty slice). */
  const NoCommandName := Error("runtime error: index out of range [0] with length 0")

  function DuplicateOptionName(n: string): Error {
    Error("duplicate option name " + Quote(n))
  }

  function InvalidArgName(n: string): Error {
    Error("invalid argument name " + Quote(n) + ": must be in all caps")
  }

  function DuplicateArgName(n: string): Error {
    Error("duplicate argument name " + Quote(n))
  }
}
