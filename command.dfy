/**
 * The command tree of the newer generation of the library: command.go (the
 * `Cmd` type with a `parent` link, `doInit`, the hook chains and `run`),
 * parameter.go (option and argument registration through `Parameter`) and
 * the `fullPath` of help.go.
 */
module CommandGen {
  import opened Wrappers
  import opened GoStrings
  import opened Errors
  import opened Lexer
  import opened Container
  import opened Names
  import opened SpecSynthesis
  import opened Flag
  import opened Matcher
  import opened Dispatch

  /** What a hook is given: the command it runs for and, for After hooks, the error so far. */
  datatype Context = Context(cmd: Cmd, err: Option<Error>)

  /** A user hook (`Action`): a function of its context that may return an error. */
  type Action = Context -> Option<Error>

  /** What one call of `run` does with its arguments. */
  datatype RunOutcome =
    | HelpShown                            // `-h`/`--help` first: long help printed, nil returned
    | Rejected(err: Error)                 // the matcher rejected this command's slice
    | Ran(result: Option<Error>)           // the Action ran between the Before and After hooks
    | NoAction                             // nothing left and no Action: help printed, nil returned
    | Descend(sub: Cmd, rest: seq<string>) // a sub-command alias: `sub.doInit()`, then `sub.run(rest)`
    | Illegal(err: Error)                  // an illegal option or illegal input

  /** The error `run` reports for a leftover argument that names no sub-command. */
  function IllegalArgument(arg: string): (e: Error)
    ensures HasPrefix(arg, "-") <==> HasPrefix(e.message, "error: illegal option ")
    ensures !HasPrefix(arg, "-") <==> HasPrefix(e.message, "error: illegal input ")
    ensures |arg| <= |e.message| && e.message[|e.message| - |arg|..] == arg
  {
    var option, input := "error: illegal option ", "error: illegal input ";
    assert option[15] != input[15];
    if HasPrefix(arg, "-") then Error(option + arg)
    else Error(input + arg)
  }

  /** The elements of `s`, last first. */
  function Reverse<T>(s: seq<T>): (r: seq<T>)
    ensures |r| == |s|
    ensures forall i :: 0 <= i < |s| ==> r[i] == s[|s| - 1 - i]
  {
    if s == [] then [] else [s[|s| - 1]] + Reverse(s[..|s| - 1])
  }

  class Cmd {
    var action: Option<Action>
    var before: Option<Action>
    var after: Option<Action>
    var spec: string
    var longDesc: string
    var errorHandling: ErrorHandling

    const name: string
    const aliases: seq<string>
    const desc: string

    var commands: seq<Cmd>
    var options: seq<Container>
    var optionsIdx: map<string, Container>
    var args: seq<Container>
    var argsIdx: map<string, Container>

    const parent: Cmd?

    var fsm: Option<Fsm>

    /** The commands above this one, root first. */
    ghost const ancestors: seq<Cmd>

    /** `ancestors` is the chain of `parent` links up to the root. */
    ghost predicate Linked()
      decreases |ancestors|
    {
      if parent == null then ancestors == []
      else
        && |ancestors| > 0
        && parent == ancestors[|ancestors| - 1]
        && parent.ancestors == ancestors[..|ancestors| - 1]
        && parent.Linked()
    }

    /** The root-to-this path of commands. */
    ghost function Chain(): seq<Cmd> {
      ancestors + [this]
    }

    /** Every key of an index names the descriptor it maps to, and that descriptor is registered. */
    ghost predicate Indexed()
      reads this, optionsIdx.Values
    {
      && (forall n :: n in optionsIdx ==> optionsIdx[n] in options && n in optionsIdx[n].names)
      && (forall n :: n in argsIdx ==> argsIdx[n] in args && argsIdx[n].name == n)
    }

    /** The application's root command, as `NewApp` builds it. */
    constructor Root(name: string, desc: string)
      ensures this.name == name && this.desc == desc && aliases == [] && parent == null
      ensures errorHandling == ExitOnError && spec == "" && longDesc == "" && fsm == None
      ensures action == None && before == None && after == None
      ensures commands == [] && options == [] && optionsIdx == map[] && args == [] && argsIdx == map[]
      ensures Linked() && Indexed()
    {
      this.name := name;
      this.desc := desc;
      aliases := [];
      parent := null;
      ancestors := [];
      errorHandling := ExitOnError;
      action, before, after := None, None, None;
      spec, longDesc := "", "";
      commands, options, optionsIdx, args, argsIdx := [], [], map[], [], map[];
      fsm := None;
    }

    /** The composite literal `Command` appends for a new sub-command of `parent`. */
    constructor Sub(parent: Cmd, aliases: seq<string>, desc: string)
      requires |aliases| > 0 && parent.Linked()
      ensures name == aliases[0] && this.aliases == aliases && this.desc == desc && this.parent == parent
      ensures errorHandling == parent.errorHandling && spec == "" && longDesc == "" && fsm == None
      ensures action == None && before == None && after == None
      ensures commands == [] && options == [] && optionsIdx == map[] && args == [] && argsIdx == map[]
      ensures ancestors == parent.ancestors + [parent]
      ensures Linked() && Indexed()
    {
      name := aliases[0];
      this.aliases := aliases;
      this.desc := desc;
      this.parent := parent;
      ancestors := parent.ancestors + [parent];
      errorHandling := parent.errorHandling;
      action, before, after := None, None, None;
      spec, longDesc := "", "";
      commands, options, optionsIdx, args, argsIdx := [], [], map[], [], map[];
      fsm := None;
      new;
      assert ancestors[..|ancestors| - 1] == parent.ancestors;
    }

    /**
     * `Command`: the aliases are the fields of `name`, the first one is the
     * command's name; the new command inherits the error handling and is
     * appended after the existing sub-commands.
     */
    method Command(name: string, desc: string) returns (err: Option<Error>)
      requires Linked()
      modifies this`commands
      ensures Fields(name) == [] ==> err == Some(NoCommandName) && commands == old(commands)
      ensures Fields(name) != [] ==>
        && err == None
        && |commands| == |old(commands)| + 1
        && commands[..|old(commands)|] == old(commands)
        && var sub := commands[|old(commands)|];
        && fresh(sub)
        && sub.aliases == Fields(name) && sub.name == Fields(name)[0] && sub.desc == desc
        && sub.parent == this && sub.ancestors == ancestors + [this] && sub.errorHandling == errorHandling
        && sub.commands == [] && sub.options == [] && sub.optionsIdx == map[]
        && sub.args == [] && sub.argsIdx == map[] && sub.spec == "" && sub.longDesc == "" && sub.fsm == None
        && sub.action == None && sub.before == None && sub.after == None
        && sub.Linked() && sub.Indexed()
    {
      var aliases := Fields(name);
      if |aliases| == 0 {
        return Some(NoCommandName);
      }
      var sub := new Cmd.Sub(this, aliases, desc);
      commands := commands + [sub];
      err := None;
    }

    // -------------------------------------------------------------------------
    // Registration of options and arguments (parameter.go)

    /**
     * `mkOpt`: names the descriptor, appends it to `options`, then indexes its
     * names one by one, failing at the first name already indexed. A failure
     * leaves the append and the names indexed before it in place.
     */
    method MkOpt(opt: Container) returns (err: Option<Error>)
      modifies this`options, this`optionsIdx, opt`names
      ensures opt.names == OptNames(opt.name)
      ensures options == old(options) + [opt]
      ensures var j := FirstClash(old(optionsIdx).Keys, opt.names);
        && optionsIdx == old(optionsIdx) + IndexAll(opt.names[..j], opt)
        && (err == None <==> j == |opt.names|)
        && (j < |opt.names| ==> err == Some(DuplicateOptionName(opt.names[j])))
      ensures old(Indexed()) && opt !in old(options) ==> Indexed()
    {
      var names := MkOptStrs(opt.name);
      opt.names := names;
      options := options + [opt];
      ghost var before := optionsIdx;
      ghost var wasIndexed := old(Indexed()) && opt !in old(options);
      assert wasIndexed ==> forall n :: n in before ==> before[n] != opt && n in before[n].names && before[n] in options;
      optionsIdx, err := IndexNames(optionsIdx, names, opt);
      ghost var j := FirstClash(before.Keys, names);
      if wasIndexed {
        forall n | n in optionsIdx ensures optionsIdx[n] in options && n in optionsIdx[n].names {
          if n !in IndexAll(names[..j], opt) {
            assert optionsIdx[n] == before[n];
          }
        }
      }
    }

    /**
     * `mkArg`: rejects a name that is not a positional name or that is already
     * taken before touching anything, otherwise appends and indexes the argument.
     */
    method MkArg(arg: Container, tokenize: Tokenizer) returns (err: Option<Error>)
      modifies this`args, this`argsIdx
      ensures !ValidArgName(arg.name, tokenize) ==>
        err == Some(InvalidArgName(arg.name)) && args == old(args) && argsIdx == old(argsIdx)
      ensures ValidArgName(arg.name, tokenize) && arg.name in old(argsIdx) ==>
        err == Some(DuplicateArgName(arg.name)) && args == old(args) && argsIdx == old(argsIdx)
      ensures ValidArgName(arg.name, tokenize) && arg.name !in old(argsIdx) ==>
        err == None && args == old(args) + [arg] && argsIdx == old(argsIdx)[arg.name := arg]
      ensures old(Indexed()) ==> Indexed()
    {
      args, argsIdx, err := RegisterArg(args, argsIdx, arg, tokenize);
    }

    /** `Option`: a string option with a fresh descriptor; `cell` is the value `values.NewString(into, "")` builds. */
    method Option(name: string, desc: string, cell: FlagValue) returns (r: Result<Parameter, Error>)
      modifies this`options, this`optionsIdx
      ensures |options| == |old(options)| + 1 && options[..|old(options)|] == old(options)
      ensures var d := options[|old(options)|];
        && fresh(d) && d.name == name && d.desc == desc && d.value == cell && d.names == OptNames(name)
        && d.envVar == "" && !d.hidden && !d.valueSetFromEnv
        && var j := FirstClash(old(optionsIdx).Keys, d.names);
        && optionsIdx == old(optionsIdx) + IndexAll(d.names[..j], d)
        && (j == |d.names| ==> r.Success? && r.value.c == d)
        && (j < |d.names| ==> r == Failure(DuplicateOptionName(d.names[j])))
      ensures old(Indexed()) ==> Indexed()
    {
      var param := new Container(name, desc, cell);
      var err := MkOpt(param);
      if err.Some? {
        return Failure(err.value);
      }
      var p := new Parameter(param);
      r := Success(p);
    }

    /** `Argument`: a string argument with a fresh descriptor; `cell` is the value `values.NewString(into, "")` builds. */
    method Argument(name: string, desc: string, cell: FlagValue, tokenize: Tokenizer)
      returns (r: Result<Parameter, Error>)
      modifies this`args, this`argsIdx
      ensures !ValidArgName(name, tokenize) ==>
        r == Failure(InvalidArgName(name)) && args == old(args) && argsIdx == old(argsIdx)
      ensures ValidArgName(name, tokenize) && name in old(argsIdx) ==>
        r == Failure(DuplicateArgName(name)) && args == old(args) && argsIdx == old(argsIdx)
      ensures ValidArgName(name, tokenize) && name !in old(argsIdx) ==>
        && r.Success? && fresh(r.value.c)
        && r.value.c.name == name && r.value.c.desc == desc && r.value.c.value == cell
        && r.value.c.envVar == "" && r.value.c.names == [] && !r.value.c.hidden && !r.value.c.valueSetFromEnv
        && args == old(args) + [r.value.c] && argsIdx == old(argsIdx)[name := r.value.c]
      ensures old(Indexed()) ==> Indexed()
    {
      var param := new Container(name, desc, cell);
      var err := MkArg(param, tokenize);
      if err.Some? {
        return Failure(err.value);
      }
      var p := new Parameter(param);
      r := Success(p);
    }

    // -------------------------------------------------------------------------
    // doInit

    /**
     * `doInit` after the initializer ran: synthesises the spec when none was
     * declared, then lexes and parses it into this command's matcher.
     */
    method DoInit(tokenize: Tokenizer, parse: Parser) returns (err: Option<Error>)
      modifies this`spec, this`fsm
      ensures spec == if old(spec) == "" then SynthSpec(|options| > 0, ArgNames(args)) else old(spec)
      ensures tokenize(spec).Failure? ==> err == Some(tokenize(spec).error) && fsm == old(fsm)
      ensures tokenize(spec).Success? ==>
        match parse(tokenize(spec).value)
        case Failure(e) => err == Some(e) && fsm == old(fsm)
        case Success(m) => err == None && fsm == Some(m)
    {
      spec := DefaultSpec(spec, |options|, args);
      var tokens := tokenize(spec);
      if tokens.Failure? {
        return Some(tokens.error);
      }
      var s := parse(tokens.value);
      if s.Failure? {
        return Some(s.error);
      }
      fsm := Some(s.value);
      err := None;
    }

    // -------------------------------------------------------------------------
    // Hooks

    /** What this command's Before hook returns; nothing when it has none. */
    function BeforeResult(): Option<Error>
      reads this
    {
      match before
      case None => None
      case Some(h) => h(Context(this, None))
    }

    /** `callBefore`: the Before hooks from the root down to this command, stopping at the first error. */
    method CallBefore() returns (err: Option<Error>, ghost ran: seq<Cmd>)
      requires Linked()
      decreases |ancestors|
      ensures 0 < |ran| <= |Chain()| && ran == Chain()[..|ran|]
      ensures forall i :: 0 <= i < |ran| - 1 ==> ran[i].BeforeResult() == None
      ensures err == ran[|ran| - 1].BeforeResult()
      ensures err == None ==> ran == Chain()
      ensures err == BeforeError(Chain())
    {
      var stopped := false;
      if parent != null {
        err, ran := parent.CallBefore();
        assert parent.Chain() == ancestors;
        stopped := err != None;
        if !stopped {
          ran := ran + [this];
        }
      } else {
        ran := [this];
      }
      if !stopped {
        err := if before != None then before.value(Context(this, None)) else None;
      }
      BeforeErrorOfRun(Chain(), ran);
    }

    /**
     * `callAfter`: the After hooks from this command up to the root, every one
     * of them whatever it returns, each given the error `callAfter` was given;
     * the result is that error. `calls` records the context of every hook call.
     */
    method CallAfter(err: Option<Error>) returns (r: Option<Error>, ghost calls: seq<Context>)
      requires Linked()
      decreases |ancestors|
      ensures r == err
      ensures calls == AfterCalls(Reverse(Chain()), err)
    {
      var ctx := Context(this, err);
      calls := [];
      if after != None {
        calls := [ctx];
        var e := after.value(ctx);
        if e != None {
          // the hook's error only replaces the error of a context nobody reads again
          ctx := ctx.(err := e);
        }
      }
      ReverseSnoc(ancestors, this);
      assert ([this] + Reverse(ancestors))[1..] == Reverse(ancestors);
      if parent != null {
        assert parent.Chain() == ancestors;
        ghost var rest;
        r, rest := parent.CallAfter(err);
        calls := calls + rest;
      } else {
        r := err;
      }
    }

    // -------------------------------------------------------------------------
    // Dispatch

    /** Some sub-command answers to `arg`. */
    predicate IsSubAlias(arg: string)
      reads this
    {
      exists sub :: sub in commands && arg in sub.aliases
    }

    /** Length of the prefix of `args` before the first sub-command alias. */
    function AliasStart(args: seq<string>): (k: nat)
      reads this
      ensures k <= |args|
      ensures forall i :: 0 <= i < k ==> !IsSubAlias(args[i])
      ensures k < |args| ==> IsSubAlias(args[k])
    {
      if args == [] || IsSubAlias(args[0]) then 0 else 1 + AliasStart(args[1..])
    }

    /** `isAlias`: `arg` is one of this command's aliases. */
    method IsAlias(arg: string) returns (b: bool)
      ensures b <==> arg in aliases
    {
      b := Contains(aliases, arg);
    }

    /** `getOptsAndArgs`: how many leading arguments belong to this command rather than to a sub-command. */
    method GetOptsAndArgs(args: seq<string>) returns (consumed: nat)
      ensures consumed == AliasStart(args)
    {
      consumed := 0;
      while consumed < |args|
        invariant consumed <= |args|
        invariant forall m :: 0 <= m < consumed ==> !IsSubAlias(args[m])
      {
        var arg := args[consumed];
        var j := 0;
        while j < |commands|
          invariant 0 <= j <= |commands|
          invariant forall m :: 0 <= m < j ==> arg !in commands[m].aliases
        {
          var found := commands[j].IsAlias(arg);
          if found {
            return;
          }
          j := j + 1;
        }
        consumed := consumed + 1;
      }
    }

    /** Index of the first sub-command answering to `arg`, `|cs|` if none does. */
    static function SubIndex(cs: seq<Cmd>, arg: string): (j: nat)
      ensures j <= |cs|
      ensures forall i :: 0 <= i < j ==> arg !in cs[i].aliases
      ensures j < |cs| ==> arg in cs[j].aliases
    {
      if cs == [] || arg in cs[0].aliases then 0 else 1 + SubIndex(cs[1..], arg)
    }

    /**
     * `run` for one command: help, then this command's slice of the arguments
     * through its matcher, then either its Action (wrapped in the hooks) or the
     * sub-command named by the first leftover argument. The illegal-option and
     * illegal-input report at the end is never reached: the slice ends exactly
     * at the first argument some sub-command answers to.
     */
    method Run(args: seq<string>) returns (out: RunOutcome)
      requires Linked() && fsm.Some?
      ensures IsHelpRequest(args) ==> out == HelpShown
      ensures !IsHelpRequest(args) ==>
        var k := AliasStart(args);
        match fsm.value(args[..k])
        case Some(e) => out == Rejected(e)
        case None =>
          if k == |args| then
            && (action.None? ==> out == NoAction)
            && (action.Some? ==> out == Ran(
                 if BeforeError(Chain()).Some? then BeforeError(Chain())
                 else action.value(Context(this, None))))
          else out == Descend(commands[SubIndex(commands, args[k])], args[k + 1..])
      ensures !out.Illegal?
    {
      var help := HelpRequested(args);
      if help {
        return HelpShown;
      }
      var nargsLen := GetOptsAndArgs(args);
      var e := fsm.value(args[..nargsLen]);
      if e.Some? {
        return Rejected(e.value);
      }
      var rest := args[nargsLen..];
      if |rest| == 0 {
        if action.Some? {
          var err;
          ghost var actionRan, afterCalls;
          err, actionRan, afterCalls := RunAction();
          return Ran(err);
        }
        return NoAction;
      }
      var arg := rest[0];
      var j := 0;
      while j < |commands|
        invariant 0 <= j <= |commands|
        invariant forall m :: 0 <= m < j ==> arg !in commands[m].aliases
      {
        var found := commands[j].IsAlias(arg);
        if found {
          return Descend(commands[j], rest[1..]);
        }
        j := j + 1;
      }
      out := Illegal(IllegalArgument(arg));
    }

    /**
     * The Action branch of `run`: the Before hooks, then the Action, whose
     * result the deferred After hooks hand back unchanged.
     */
    method RunAction() returns (r: Option<Error>, ghost actionRan: bool, ghost afterCalls: seq<Context>)
      requires Linked() && action.Some?
      ensures r == if BeforeError(Chain()).Some? then BeforeError(Chain()) else action.value(Context(this, None))
      ensures actionRan <==> BeforeError(Chain()).None?
      ensures !actionRan ==> afterCalls == []
      ensures actionRan ==> afterCalls == AfterCalls(Reverse(Chain()), r)
    {
      ghost var ran;
      r, ran := CallBefore();
      if r != None {
        return r, false, [];
      }
      var result := action.value(Context(this, None));
      actionRan := true;
      r, afterCalls := CallAfter(result);
    }

    // -------------------------------------------------------------------------
    // Help

    /** `fullPath`: the names from the root down to this command, separated by spaces. */
    function FullPath(): (p: string)
      requires Linked()
      decreases |ancestors|
      ensures parent == null ==> p == name
      ensures |name| <= |p| && p[|p| - |name|..] == name
      ensures parent != null ==> |p| > |name| && p[|p| - |name| - 1] == ' '
    {
      if parent != null then parent.FullPath() + " " + name else name
    }
  }

  /** The contexts the After hooks along `cs` are called with, in order, when each is given `err`. */
  ghost function AfterCalls(cs: seq<Cmd>, err: Option<Error>): seq<Context>
    reads cs
  {
    if cs == [] then []
    else (if cs[0].after.Some? then [Context(cs[0], err)] else []) + AfterCalls(cs[1..], err)
  }

  lemma ReverseSnoc<T>(s: seq<T>, x: T)
    ensures Reverse(s + [x]) == [x] + Reverse(s)
  {
    assert (s + [x])[..|s|] == s;
  }

  /** The first error of the Before hooks along `cs`, in order. */
  ghost function BeforeError(cs: seq<Cmd>): Option<Error>
    reads cs
  {
    if cs == [] then None
    else if cs[0].BeforeResult() != None then cs[0].BeforeResult()
    else BeforeError(cs[1..])
  }

  /**
   * The Before error of a chain is the result of the first hook that fails:
   * every hook before it succeeds. Without an error, every hook succeeds.
   */
  lemma {:induction false} BeforeErrorFirst(cs: seq<Cmd>)
    ensures BeforeError(cs).None? <==> forall i :: 0 <= i < |cs| ==> cs[i].BeforeResult().None?
    ensures BeforeError(cs).Some? ==>
      exists i :: (0 <= i < |cs| && cs[i].BeforeResult() == BeforeError(cs)
        && forall j :: 0 <= j < i ==> cs[j].BeforeResult().None?)
  {
    if cs != [] && cs[0].BeforeResult().None? {
      BeforeErrorFirst(cs[1..]);
      if BeforeError(cs).Some? {
        var i :| (0 <= i < |cs[1..]| && cs[1..][i].BeforeResult() == BeforeError(cs[1..])
          && forall j :: 0 <= j < i ==> cs[1..][j].BeforeResult().None?);
        assert cs[i + 1].BeforeResult() == BeforeError(cs);
      } else {
        forall i | 0 <= i < |cs| ensures cs[i].BeforeResult().None? {
          if i > 0 {
            assert cs[i] == cs[1..][i - 1];
          }
        }
      }
    } else if cs != [] {
      assert cs[0].BeforeResult() == BeforeError(cs);
    }
  }

  /** The names of a path of commands. */
  function NamesOf(cs: seq<Cmd>): (ns: seq<string>)
    ensures |ns| == |cs|
    ensures forall i :: 0 <= i < |cs| ==> ns[i] == cs[i].name
  {
    seq(|cs|, i requires 0 <= i < |cs| => cs[i].name)
  }

  /**
   * The Before hooks' first error along a chain is the error of the last hook
   * `callBefore` reached, or nothing when it went through the whole chain.
   */
  lemma {:induction false} BeforeErrorOfRun(cs: seq<Cmd>, ran: seq<Cmd>)
    requires 0 < |ran| <= |cs| && ran == cs[..|ran|]
    requires forall i :: 0 <= i < |ran| - 1 ==> ran[i].BeforeResult() == None
    requires ran[|ran| - 1].BeforeResult() == None ==> ran == cs
    ensures BeforeError(cs) == ran[|ran| - 1].BeforeResult()
  {
    if |ran| > 1 {
      assert ran[1..] == cs[1..][..|ran| - 1];
      BeforeErrorOfRun(cs[1..], ran[1..]);
    } else if ran[0].BeforeResult() == None {
      assert cs[1..] == [];
    }
  }

  /** `fullPath` is the names of the root-to-command path joined with spaces. */
  lemma {:induction false} FullPathJoin(c: Cmd)
    requires c.Linked()
    ensures c.FullPath() == Join(NamesOf(c.Chain()), " ")
    decreases |c.ancestors|
  {
    if c.parent != null {
      FullPathJoin(c.parent);
      assert c.parent.Chain() == c.ancestors;
      assert NamesOf(c.Chain()) == NamesOf(c.ancestors) + [c.name];
      JoinAppend(NamesOf(c.ancestors), c.name, " ");
    } else {
      assert NamesOf(c.Chain()) == [c.name];
    }
  }

  /** When no name on the path holds a space, `fullPath` holds exactly one space per level of depth. */
  lemma FullPathDepth(c: Cmd)
    requires c.Linked()
    requires forall d :: d in c.Chain() ==> Count(d.name, ' ') == 0
    ensures Count(c.FullPath(), ' ') == |c.ancestors|
  {
    FullPathJoin(c);
    var ns := NamesOf(c.Chain());
    forall i | 0 <= i < |ns| ensures Count(ns[i], ' ') == 0 {
      assert c.Chain()[i] in c.Chain();
    }
    CountJoin(ns, ' ');
  }

  /** `parameter`: the handle `Option` and `Argument` return, modifying the descriptor it wraps. */
  class Parameter {
    const c: Container

    constructor (c: Container)
      ensures this.c == c
    {
      this.c := c;
    }

    /** `Env`: the variable becomes `key` and the cell is seeded from it; `seeded` is what `values.SetFromEnv` reports. */
    method Env(key: string, deprecated: seq<string>, seeded: bool) returns (p: Parameter)
      modifies c`envVar, c`valueSetFromEnv
      ensures p == this && c.envVar == key && c.valueSetFromEnv == seeded
    {
      c.envVar := key;
      c.valueSetFromEnv := seeded;
      return this;
    }

    /** `Hide`: marks the descriptor hidden from help and changes nothing else. */
    method Hide() returns (p: Parameter)
      modifies c`hidden
      ensures p == this && c.hidden
    {
      c.hidden := true;
      return this;
    }

    /** `Var` (and the typed setters it stands for): replaces the descriptor's value cell. */
    method Var(v: FlagValue)
      modifies c`value
      ensures c.value == v
    {
      c.value := v;
    }
  }
}
