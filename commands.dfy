/**
 * The command tree of the older generation of the library: commands.go (the
 * `Cmd` type that records the names of its ancestors in `parents` instead of a
 * `parent` link), options.go (`mkOpt`, which takes the descriptor by value
 * and seeds it from the environment) and args.go (`mkArg`).
 */
module CommandsGen {
  import opened Wrappers
  import opened GoStrings
  import opened Errors
  import opened Lexer
  import opened Container
  import opened Names
  import opened SpecSynthesis
  import opened Flag
  import opened Matcher
  import opened Dispatch

  class Cmd {
    var spec: string
    var longDesc: string
    var errorHandling: ErrorHandling

    const name: string
    const aliases: seq<string>
    const desc: string

    var commands: seq<Cmd>
    var options: seq<Container>
    var optionsIdx: map<string, Container>
    var args: seq<Container>
    var argsIdx: map<string, Container>

    /** The names of the commands above this one, root first, as the parent's `doInit` set them. */
    var parents: seq<string>

    var fsm: Option<Fsm>

    /** Every key of an index names the descriptor it maps to, and that descriptor is registered. */
    ghost predicate Indexed()
      reads this, optionsIdx.Values
    {
      && (forall n :: n in optionsIdx ==> optionsIdx[n] in options && n in optionsIdx[n].names)
      && (forall n :: n in argsIdx ==> argsIdx[n] in args && argsIdx[n].name == n)
    }

    /** The application's root command, as `NewApp` builds it. */
    constructor Root(name: string, desc: string)
      ensures this.name == name && this.desc == desc && aliases == [] && parents == []
      ensures errorHandling == ExitOnError && spec == "" && longDesc == "" && fsm == None
      ensures commands == [] && options == [] && optionsIdx == map[] && args == [] && argsIdx == map[]
      ensures Indexed()
    {
      this.name := name;
      this.desc := desc;
      aliases := [];
      parents := [];
      errorHandling := ExitOnError;
      spec, longDesc := "", "";
      commands, options, optionsIdx, args, argsIdx := [], [], map[], [], map[];
      fsm := None;
    }

    /** The composite literal `Command` appends: `parents` stays empty until the parent's `doInit`. */
    constructor Sub(aliases: seq<string>, desc: string, errorHandling: ErrorHandling)
      requires |aliases| > 0
      ensures name == aliases[0] && this.aliases == aliases && this.desc == desc && parents == []
      ensures this.errorHandling == errorHandling && spec == "" && longDesc == "" && fsm == None
      ensures commands == [] && options == [] && optionsIdx == map[] && args == [] && argsIdx == map[]
      ensures Indexed()
    {
      name := aliases[0];
      this.aliases := aliases;
      this.desc := desc;
      parents := [];
      this.errorHandling := errorHandling;
      spec, longDesc := "", "";
      commands, options, optionsIdx, args, argsIdx := [], [], map[], [], map[];
      fsm := None;
    }

    /**
     * `Command`: the aliases are the fields of `name`, the first one is the
     * command's name; the new command inherits the error handling and is
     * appended after the existing sub-commands.
     */
    method Command(name: string, desc: string) returns (err: Option<Error>)
      modifies this`commands
      ensures Fields(name) == [] ==> err == Some(NoCommandName) && commands == old(commands)
      ensures Fields(name) != [] ==>
        && err == None
        && |commands| == |old(commands)| + 1
        && commands[..|old(commands)|] == old(commands)
        && var sub := commands[|old(commands)|];
        && fresh(sub)
        && sub.aliases == Fields(name) && sub.name == Fields(name)[0] && sub.desc == desc
        && sub.errorHandling == errorHandling && sub.parents == []
        && sub.commands == [] && sub.options == [] && sub.optionsIdx == map[]
        && sub.args == [] && sub.argsIdx == map[] && sub.spec == "" && sub.longDesc == "" && sub.fsm == None
        && sub.Indexed()
    {
      var aliases := Fields(name);
      if |aliases| == 0 {
        return Some(NoCommandName);
      }
      var sub := new Cmd.Sub(aliases, desc, errorHandling);
      commands := commands + [sub];
      err := None;
    }

    /**
     * `doInit` after the initializer ran: every sub-command learns the path
     * down to it, then the spec is synthesised when none was declared and is
     * lexed and parsed into this command's matcher.
     */
    method DoInit(tokenize: Tokenizer, parse: Parser) returns (err: Option<Error>)
      modifies this`spec, this`fsm, commands`parents
      ensures forall sub :: sub in commands ==> sub.parents == old(parents) + [name]
      ensures spec == if old(spec) == "" then SynthSpec(|options| > 0, ArgNames(args)) else old(spec)
      ensures tokenize(spec).Failure? ==> err == Some(tokenize(spec).error) && fsm == old(fsm)
      ensures tokenize(spec).Success? ==>
        match parse(tokenize(spec).value)
        case Failure(e) => err == Some(e) && fsm == old(fsm)
        case Success(m) => err == None && fsm == Some(m)
    {
      var path := parents + [name];
      var i := 0;
      while i < |commands|
        invariant 0 <= i <= |commands|
        invariant forall j :: 0 <= j < i ==> commands[j].parents == path
        invariant spec == old(spec) && fsm == old(fsm)
      {
        commands[i].parents := path;
        i := i + 1;
      }
      spec := DefaultSpec(spec, |options|, args);
      var tokens := tokenize(spec);
      if tokens.Failure? {
        return Some(tokens.error);
      }
      var s := parse(tokens.value);
      if s.Failure? {
        return Some(s.error);
      }
      fsm := Some(s.value);
      err := None;
    }

    // -------------------------------------------------------------------------
    // Registration of options (options.go) and arguments (args.go)

    /**
     * `mkOpt`: works on a copy of the descriptor it is given. The copy is seeded
     * from the environment (`seeded` is what `values.SetFromEnv` reports), named,
     * appended to `options`, then its names are indexed one by one, failing at
     * the first name already indexed with the append and the names indexed
     * before it in place.
     */
    method MkOpt(opt: Container, seeded: bool) returns (d: Container, err: Option<Error>)
      modifies this`options, this`optionsIdx
      ensures fresh(d)
      ensures d.name == opt.name && d.desc == opt.desc && d.envVar == opt.envVar
      ensures d.hidden == opt.hidden && d.value == opt.value
      ensures d.valueSetFromEnv == seeded && d.names == OptNames(opt.name)
      ensures options == old(options) + [d]
      ensures var j := FirstClash(old(optionsIdx).Keys, d.names);
        && optionsIdx == old(optionsIdx) + IndexAll(d.names[..j], d)
        && (err == None <==> j == |d.names|)
        && (j < |d.names| ==> err == Some(DuplicateOptionName(d.names[j])))
      ensures old(Indexed()) ==> Indexed()
    {
      d := new Container.Copy(opt);
      d.valueSetFromEnv := seeded;
      var names := MkOptStrs(d.name);
      d.names := names;
      err := AddOpt(d);
    }

    /** The tail of `mkOpt`: appends the named descriptor and indexes its names. */
    method AddOpt(d: Container) returns (err: Option<Error>)
      requires d !in options
      modifies this`options, this`optionsIdx
      ensures options == old(options) + [d]
      ensures var j := FirstClash(old(optionsIdx).Keys, d.names);
        && optionsIdx == old(optionsIdx) + IndexAll(d.names[..j], d)
        && (err == None <==> j == |d.names|)
        && (j < |d.names| ==> err == Some(DuplicateOptionName(d.names[j])))
      ensures old(Indexed()) ==> Indexed()
    {
      ghost var before := optionsIdx;
      options := options + [d];
      optionsIdx, err := IndexNames(optionsIdx, d.names, d);
      if old(Indexed()) {
        ghost var j := FirstClash(before.Keys, d.names);
        forall n | n in optionsIdx ensures optionsIdx[n] in options && n in optionsIdx[n].names {
          if n !in IndexAll(d.names[..j], d) {
            assert optionsIdx[n] == before[n];
          }
        }
      }
    }

    /**
     * `mkArg`: rejects a name that is not a positional name or that is already
     * taken before touching anything, otherwise appends and indexes the argument.
     */
    method MkArg(arg: Container, tokenize: Tokenizer) returns (err: Option<Error>)
      modifies this`args, this`argsIdx
      ensures !ValidArgName(arg.name, tokenize) ==>
        err == Some(InvalidArgName(arg.name)) && args == old(args) && argsIdx == old(argsIdx)
      ensures ValidArgName(arg.name, tokenize) && arg.name in old(argsIdx) ==>
        err == Some(DuplicateArgName(arg.name)) && args == old(args) && argsIdx == old(argsIdx)
      ensures ValidArgName(arg.name, tokenize) && arg.name !in old(argsIdx) ==>
        err == None && args == old(args) + [arg] && argsIdx == old(argsIdx)[arg.name := arg]
      ensures old(Indexed()) ==> Indexed()
    {
      args, argsIdx, err := RegisterArg(args, argsIdx, arg, tokenize);
    }

    // -------------------------------------------------------------------------
    // Dispatch

    /** Some sub-command answers to `arg`. */
    predicate IsSubAlias(arg: string)
      reads this
    {
      exists sub :: sub in commands && arg in sub.aliases
    }

    /** Length of the prefix of `args` before the first sub-command alias. */
    function AliasStart(args: seq<string>): (k: nat)
      reads this
      ensures k <= |args|
      ensures forall i :: 0 <= i < k ==> !IsSubAlias(args[i])
      ensures k < |args| ==> IsSubAlias(args[k])
    {
      if args == [] || IsSubAlias(args[0]) then 0 else 1 + AliasStart(args[1..])
    }

    /** `isAlias`: `arg` is one of this command's aliases. */
    method IsAlias(arg: string) returns (b: bool)
      ensures b <==> arg in aliases
    {
      b := Contains(aliases, arg);
    }

    /** `getOptsAndArgs`: how many leading arguments belong to this command rather than to a sub-command. */
    method GetOptsAndArgs(args: seq<string>) returns (consumed: nat)
      ensures consumed == AliasStart(args)
    {
      consumed := 0;
      while consumed < |args|
        invariant consumed <= |args|
        invariant forall m :: 0 <= m < consumed ==> !IsSubAlias(args[m])
      {
        var arg := args[consumed];
        var j := 0;
        while j < |commands|
          invariant 0 <= j <= |commands|
          invariant forall m :: 0 <= m < j ==> arg !in commands[m].aliases
        {
          var found := commands[j].IsAlias(arg);
          if found {
            return;
          }
          j := j + 1;
        }
        consumed := consumed + 1;
      }
    }
  }

  /** The names of a path of commands. */
  function NamesOf(cs: seq<Cmd>): (ns: seq<string>)
    ensures |ns| == |cs|
    ensures forall i :: 0 <= i < |cs| ==> ns[i] == cs[i].name
  {
    seq(|cs|, i requires 0 <= i < |cs| => cs[i].name)
  }

  /**
   * A root-to-leaf path of commands on which every `doInit` has propagated
   * `parents` one level down: the root has none, and each command's `parents`
   * extends its parent's with the parent's name.
   */
  ghost predicate Propagated(path: seq<Cmd>)
    reads path
  {
    && (|path| > 0 ==> path[0].parents == [])
    && (forall i :: 0 < i < |path| ==> path[i] in path[i - 1].commands)
    && (forall i :: 0 < i < |path| ==> path[i].parents == path[i - 1].parents + [path[i - 1].name])
  }

  /** Along a propagated path every command's `parents` is the names of the commands above it, root first. */
  lemma {:induction false} ParentsArePath(path: seq<Cmd>, i: nat)
    requires Propagated(path) && i < |path|
    ensures path[i].parents == NamesOf(path[..i])
  {
    if i > 0 {
      ParentsArePath(path, i - 1);
      assert NamesOf(path[..i]) == NamesOf(path[..i - 1]) + [path[i - 1].name];
    } else {
      assert NamesOf(path[..0]) == [];
    }
  }

  /** The full command path of the leaf of a propagated path: its `parents` followed by its own name. */
  lemma PathOfLeaf(path: seq<Cmd>)
    requires Propagated(path) && |path| > 0
    ensures Join(path[|path| - 1].parents + [path[|path| - 1].name], " ") == Join(NamesOf(path), " ")
  {
    ParentsArePath(path, |path| - 1);
    assert NamesOf(path) == NamesOf(path[..|path| - 1]) + [path[|path| - 1].name];
  }
}
