/**
 * The default spec a command gets when none was declared (`doInit`, in both
 * command.go and commands.go): `[OPTIONS] ` when the command has options,
 * then every positional argument name followed by a space.
 */
module SpecSynthesis {
  import opened GoStrings
  import opened Container

  /** The names of the declared positional arguments, in declaration order. */
  function ArgNames(args: seq<Container>): (ns: seq<string>)
    ensures |ns| == |args|
    ensures forall i :: 0 <= i < |args| ==> ns[i] == args[i].name
  {
    seq(|args|, i requires 0 <= i < |args| => args[i].name)
  }

  /** Each name followed by one space. */
  function ArgsPart(ns: seq<string>): string {
    if ns == [] then "" else ns[0] + " " + ArgsPart(ns[1..])
  }

  /** The spec synthesised for a command without one. */
  function SynthSpec(hasOptions: bool, argNames: seq<string>): string {
    (if hasOptions then "[OPTIONS] " else "") + ArgsPart(argNames)
  }

  /**
   * The synthesis step of `doInit`: a declared spec is kept; an empty one is
   * rebuilt by `+=`, `[OPTIONS] ` first when there are options, then one
   * argument name and a space at a time.
   */
  method DefaultSpec(spec: string, optionCount: nat, args: seq<Container>) returns (s: string)
    ensures spec != "" ==> s == spec
    ensures spec == "" ==> s == SynthSpec(optionCount > 0, ArgNames(args))
  {
    s := spec;
    if |s| == 0 {
      if optionCount > 0 {
        s := "[OPTIONS] ";
      }
      var i := 0;
      while i < |args|
        invariant 0 <= i <= |args|
        invariant s == SynthSpec(optionCount > 0, ArgNames(args)[..i])
      {
        ArgsPartAppend(ArgNames(args)[..i], args[i].name);
        assert ArgNames(args)[..i + 1] == ArgNames(args)[..i] + [args[i].name];
        s := s + (args[i].name + " ");
        i := i + 1;
      }
      assert ArgNames(args)[..i] == ArgNames(args);
    }
  }

  lemma {:induction false} ArgsPartAppend(ns: seq<string>, n: string)
    ensures ArgsPart(ns + [n]) == ArgsPart(ns) + (n + " ")
    decreases |ns|
  {
    if ns == [] {
      assert ns + [n] == [n];
      assert [n][1..] == [];
    } else {
      assert (ns + [n])[1..] == ns[1..] + [n];
      ArgsPartAppend(ns[1..], n);
    }
  }

  lemma {:induction false} ArgsPartFields(ns: seq<string>)
    requires forall i :: 0 <= i < |ns| ==> IsWord(ns[i])
    ensures Fields(ArgsPart(ns)) == ns
  {
    if ns != [] {
      ArgsPartFields(ns[1..]);
      FieldsSplit(ns[0], ' ', ArgsPart(ns[1..]));
      FieldsOfWord(ns[0]);
    }
  }

  /**
   * Round trip: splitting the synthesised spec at white space gives the
   * `[OPTIONS]` placeholder (when there are options) followed by the argument
   * names in declaration order.
   */
  lemma SynthSpecFields(hasOptions: bool, argNames: seq<string>)
    requires forall i :: 0 <= i < |argNames| ==> IsWord(argNames[i])
    ensures Fields(SynthSpec(hasOptions, argNames)) == (if hasOptions then ["[OPTIONS]"] else []) + argNames
  {
    var rest := ArgsPart(argNames);
    ArgsPartFields(argNames);
    if hasOptions {
      var placeholder := "[OPTIONS]";
      assert SynthSpec(hasOptions, argNames) == placeholder + [' '] + rest;
      FieldsSplit(placeholder, ' ', rest);
      PlaceholderIsWord();
      FieldsOfWord(placeholder);
    } else {
      assert SynthSpec(hasOptions, argNames) == ArgsPart(argNames);
    }
  }

  lemma PlaceholderIsWord()
    ensures IsWord("[OPTIONS]")
  {
    var p := "[OPTIONS]";
    forall i | 0 <= i < |p| ensures !IsSpace(p[i]) {
      assert p[i] in {'[', 'O', 'P', 'T', 'I', 'N', 'S', ']'};
    }
  }

  /**
   * With options the synthesised spec starts with `[OPTIONS] `; it spends
   * one space per argument name.
   */
  lemma {:induction false} SynthSpecShape(hasOptions: bool, argNames: seq<string>)
    ensures hasOptions ==> HasPrefix(SynthSpec(hasOptions, argNames), "[OPTIONS] ")
    ensures |SynthSpec(hasOptions, argNames)| == (if hasOptions then 10 else 0) + SumLen(argNames) + |argNames|
  {
    ArgsPartLength(argNames);
  }

  lemma {:induction false} ArgsPartLength(ns: seq<string>)
    ensures |ArgsPart(ns)| == SumLen(ns) + |ns|
  {
    if ns != [] {
      ArgsPartLength(ns[1..]);
    }
  }
}
