# Command configuration and dispatch of a Go command-line library, in Dafny

This project models the layer of the `cli` Go library that sits between
an application's declarations and the spec grammar matcher. That layer covers:

- how option and argument declarations become descriptors, and how those are
  named, registered and indexed;
- how a command and its sub-commands are declared;
- how a command synthesises its default usage spec;
- how the argument vector is split between a command and its sub-commands;
- in which order the Before and After hooks run;
- the pure string functions that build help rows and the multi-error text.

The repository holds two code generations that cannot be compiled together.
Each one is its own module:

- `CommandGen` (command.dfy) is the newer generation: command.go, parameter.go
  and `fullPath` of help.go. Commands point to their `parent`. Hooks receive a
  context and return an error. Options and arguments are registered through the
  `Parameter` handle.
- `CommandsGen` (commands.dfy) is the older generation: commands.go, options.go
  and args.go. Each command records the names of its ancestors in `parents`,
  and its parent's `doInit` sets them. `mkOpt` takes the descriptor by value
  and seeds it from the environment.

Code that both generations share word for word is defined once and used by
both:

- `Names`: `mkOptStrs`, the indexing loop of `mkOpt`, the body of `mkArg`,
  `validArgName` and the configuration error messages.
- `SpecSynthesis`: default spec synthesis.
- `Dispatch`: `isAlias`, `isFlagSet` and `helpRequested`.
- `Help`: the formatters and `joinStrings`.

Other modules:

- `Errors`: `MultiError`.
- `Container`: the descriptor record of internal/container/container.go.
- `GoStrings`: the Go library functions the code relies on: `strings.Fields`,
  `strings.TrimSpace`, `strings.Join`, `strings.HasPrefix`, and `len` as the
  UTF-8 byte length.
- `Lexer`, `Matcher`, `Flag`: interfaces only (see below).

The spec lexer, the grammar parser and the matcher they build are not part of
this model. They enter as function values:

- `Tokenizer` stands for `lexer.Tokenize`.
- `Parser` stands for `parser.Parse` applied to one command's descriptors.
- `Fsm` stands for the matcher's `Parse`.

User hooks are functions of their context that may return an error. Where the
Go code panics on a configuration error, the model returns the error instead.
The state it returns is the state Go had reached at the panic.

The model shows one thing about command.go that its text does not make
obvious: `run` never reaches its "illegal option" / "illegal input" report
(command.go:203-210). `getOptsAndArgs` stops exactly at the first argument
that some sub-command answers to. So a non-empty remainder always starts with
a sub-command alias, and `run` descends into that sub-command. `CommandGen.Cmd.Run`
proves `!out.Illegal?`. `CommandGen.IllegalArgument` models the unreachable
classification on its own.

## Model

| member | source | states |
|---|---|---|
| `Names.MkOptStrs` | options.go:410-420 | One name per whitespace-separated field of the declaration, in order. Each field gets `--` when it is longer than one byte and `-` otherwise. parameter.go:239-249 is the identical copy. |
| `Names.OptNamesUndash` | options.go:417 | Round trip: stripping the added dash prefix from each generated name gives back the declaration's fields, in order, one per field. |
| `Names.OptNamesBlank` | options.go:411 | A declaration yields no names exactly when it is empty or all white space. |
| `Names.DashedByteLen` | options.go:413-416 | A generated name is two bytes long exactly when its field is one byte long, and longer than two exactly when its field is longer than one. Lengths are UTF-8 byte lengths, as Go's `len` counts them. |
| `Names.UndashDashed` | options.go:413-417 | Removing the prefix of one dashed field gives back the field. |
| `Names.IndexNames` | options.go:428-433 | Indexes the names up to the first one already taken, either by the index or by an earlier name of the same list. Each indexed name maps to the descriptor. Every other entry is kept. The result is an error naming the clash, or success exactly when no name clashes. |
| `Names.ValidArgName` | parameter.go:275-285 | True exactly when lexing succeeds, yields one token, and that token is a positional name. args.go:135-145 is the identical copy. |
| `Names.RegisterArg` | parameter.go:263-273 | An invalid name fails with the "must be in all caps" error, and a taken name fails with the duplicate error. Both fail before anything changes. Otherwise the argument is appended at the end and indexed under its name. args.go:123-133 is the identical copy. |
| `CommandGen.Cmd.MkOpt` | parameter.go:251-261 | The descriptor's names become the generated names. The descriptor is appended once, at the end, and its names are indexed as `IndexNames` states. On a duplicate, the append and the earlier names' entries stay in place. Index consistency is preserved. |
| `CommandGen.Cmd.MkArg` | parameter.go:263-273 | The three outcomes of `mkArg` on the command's own `args` and `argsIdx`. Index consistency is preserved. |
| `CommandGen.Cmd.Option` | parameter.go:225-230 | Builds a fresh descriptor with the given name, description and string cell, then registers it as an option. Like the literal, the descriptor has no environment key, is not hidden and was not seeded from the environment. Returns a handle on that descriptor, or the duplicate-name error. |
| `CommandGen.Cmd.Argument` | parameter.go:232-237 | Builds a fresh descriptor, then registers it as an argument with the outcomes of `mkArg`. Returns a handle on success. Like the literal, that descriptor has the given name, description and cell, no option names and no environment key, is not hidden and was not seeded from the environment. |
| `CommandGen.Parameter.Env` | parameter.go:69-73 | `EnvVar` becomes the key and `ValueSetFromEnv` records the seeding. The deprecated names are ignored. Returns the same handle. |
| `CommandGen.Parameter.Hide` | parameter.go:96-99 | Sets `Hidden`, changes no other field and returns the same handle. |
| `CommandGen.Parameter.Var` | parameter.go:141-143 | Replaces the descriptor's value cell. |
| `CommandGen.Cmd.Root` | cli.go:30-40 | The root command: no aliases and no parent, exit-on-error handling, no spec or long description, empty lists and indexes. |
| `CommandGen.Cmd.Sub` | command.go:69-81 | A new sub-command: its name is the first alias, it inherits the parent's error handling, it has no spec or long description, its lists are empty and its parent link is set. |
| `CommandGen.Cmd.Command` | command.go:67-82 | Aliases are the fields of the name, and the name is the first alias. The new command inherits the error handling, is appended after the existing sub-commands and is linked to this command. Like the composite literal, it has empty lists and indexes, no spec, no long description, no matcher and no Action, Before or After hook, and its indexes are consistent. A blank name fails with Go's index-out-of-range error, and nothing is appended. |
| `CommandGen.Cmd.DoInit` | command.go:84-116 | An empty spec is replaced by the synthesised one, and a declared spec is kept. A lexing or parsing error is returned, and the matcher stays unchanged. Otherwise the parsed matcher is installed. |
| `CommandGen.Cmd.CallBefore` | command.go:135-145 | Runs the Before hooks from the root down to this command and stops at the first error. The hooks that ran are a prefix of the root-to-command path. All hooks before the last one succeeded. The result is the last hook's result, which is the first Before error along the whole path. Without an error, the whole path ran. |
| `CommandGen.Cmd.CallAfter` | command.go:147-159 | Calls every After hook that is set, from this command up to the root, whatever the hooks return. Each hook's context holds the error `callAfter` was given, never an error from a hook below it. The result is that error. |
| `CommandGen.BeforeErrorOfRun` | command.go:135-145 | The hooks `CallBefore` ran yield the first Before error along the path. |
| `CommandGen.BeforeErrorFirst` | command.go:135-145 | The Before error of a path is absent exactly when every hook succeeds. When present, it is the result of a hook all of whose predecessors succeeded. |
| `CommandGen.Cmd.IsAlias` | command.go:248-255 | True exactly when the argument is one of the command's aliases. |
| `CommandGen.Cmd.AliasStart` | command.go:234-246 | The position `k` is at most the argument count. No argument before `k` names a sub-command, and the argument at `k`, if any, does. |
| `CommandGen.Cmd.GetOptsAndArgs` | command.go:234-246 | Returns exactly that position. |
| `CommandGen.Cmd.SubIndex` | command.go:193-201 | The first sub-command answering to the argument, or the count of sub-commands if none does. |
| `CommandGen.Cmd.Run` | command.go:161-214 | `-h` or `--help` first: help. Otherwise the matcher sees exactly the arguments before the first sub-command alias, and its error is returned. With nothing left, the Action runs after the Before hooks (their first error wins) and the After hooks keep its result. Without an Action, help is shown. With arguments left, the first one names the sub-command to descend into with the rest. The illegal-argument outcome never occurs. |
| `CommandGen.Cmd.RunAction` | command.go:179-186 | The Action branch of `run`: the first Before error along the root-to-command path if there is one. Otherwise the Action's result, which the deferred After hooks hand back unchanged. A failing Before hook skips the Action and every After hook. Otherwise the Action runs and the After hooks are called leaf to root with its result. |
| `CommandGen.IllegalArgument` | command.go:203-210 | A leftover argument starting with `-` is an illegal option; any other is illegal input. The argument ends the message. |
| `CommandGen.Cmd.FullPath` | help.go:26-31 | The root's path is its name. Every path ends with the command's own name, and below the root a space comes before that name. |
| `CommandGen.FullPathJoin` | help.go:26-31 | `fullPath` is the names from the root down to the command, joined with single spaces. |
| `CommandGen.FullPathDepth` | help.go:26-31 | When no name on the path holds a space, `fullPath` holds exactly one space per level below the root. |
| `Dispatch.Contains` | command.go:248-255 | The loop of `isAlias`: true exactly when the argument equals some element. |
| `Dispatch.IsFlagSet` | command.go:220-232 | Looks at the first argument only. False without arguments, true exactly when the first argument is in the search list. commands.go:354-366 is the identical copy. |
| `Dispatch.HelpRequested` | command.go:216-218 | True exactly when the first argument is `-h` or `--help`. commands.go:350-352 is the identical copy. |
| `SpecSynthesis.DefaultSpec` | command.go:89-96 | A declared spec is kept unchanged. An empty one becomes `[OPTIONS] ` (when there are options) followed by every argument name plus a space, in declaration order. commands.go:92-99 is the identical copy. |
| `SpecSynthesis.SynthSpecFields` | command.go:89-96 | Round trip: splitting the synthesised spec at white space gives the `[OPTIONS]` placeholder (with options), then the argument names in declaration order. |
| `SpecSynthesis.SynthSpecShape` | command.go:89-92 | With options, the synthesised spec starts with `[OPTIONS] `. Its length is the names' lengths plus one space per name, plus 10 with options. |
| `Help.FormatOptNamesForHelp` | help.go:101-125 | The short name is the first two-byte name and the long name is the first longer one. The result is `short, long`, `short`, four spaces then `long`, or empty. commands.go:221-245 is the identical copy. |
| `Help.HelpNamesOfDeclaration` | help.go:104-112 | For a declared option, the short name shown is `-` plus the first one-byte field of the declaration. The long name is `--` plus the first longer field. |
| `Help.FormatEnvVarsForHelp` | help.go:137-152 | Empty for a blank list. Otherwise `(env ` followed by the `$`-prefixed variables in order, separated by `, `, then `)`. commands.go:257-272 is the identical copy. |
| `Help.EnvColumnEmpty` | help.go:138-140 | The column is empty exactly when no variable is declared. |
| `Help.FormatValueForHelp` | help.go:127-135 | Empty exactly when the cell tracks its default and holds it. Otherwise `(default <text>)`. commands.go:247-255 is the identical copy. |
| `Help.JoinStrings` | command.go:257-270 | The parts that are not blank, untrimmed, in order, separated by single spaces. commands.go:391-404 is the identical copy. |
| `Help.JoinStringsWords` | command.go:257-270 | The words of the joined cell are exactly the words of the parts, in order. |
| `Errors.NewMultiError` | errors.go:17-19 | Keeps the given errors, in the given order. |
| `Errors.MultiError.Error` | errors.go:21-28 | Collects every message into a fresh array and joins them with newlines. |
| `Errors.TextOfFew` | errors.go:21-28 | No errors give the empty text, and one error gives exactly its message. |
| `Errors.TextLength` | errors.go:21-28 | For n >= 1 errors, the text is as long as the messages plus n - 1 newlines. |
| `Errors.TextLineBreaks` | errors.go:21-28 | When no message spans lines, the text holds exactly n - 1 line breaks. |
| `Container.Container.constructor` | parameter.go:227 | A descriptor built from a name, a description and a value cell. All other fields hold their zero values. |
| `Container.Container.Copy` | options.go:422 | A copy of a descriptor, field by field, as Go makes one when a `Container` is passed by value. |
| `CommandsGen.Cmd.Root` | cli.go:30-40 | The root command: no aliases and no parents, exit-on-error handling, no spec or long description, empty lists and indexes. The cited `NewApp` builds the newer generation's command. This generation's application constructor is not part of this model, so `Root` copies the fields that the two literals share. |
| `CommandsGen.Cmd.Sub` | commands.go:67-78 | A new sub-command: its name is the first alias and it takes the given error handling. It has no spec or long description and empty lists and indexes. Its `parents` stays empty until the parent's `doInit`. |
| `CommandsGen.Cmd.Command` | commands.go:65-79 | Aliases are the fields of the name, and the name is the first alias. The new command inherits the error handling and is appended at the end. Like the literal, it has empty lists and indexes, no spec, no long description and no matcher, and its indexes are consistent. A blank name fails with Go's index-out-of-range error, and nothing is appended. |
| `CommandsGen.Cmd.DoInit` | commands.go:81-119 | Every sub-command's `parents` becomes this command's `parents` followed by its name. Then the spec synthesis, lexing and parsing of command.go's `doInit` follow. |
| `CommandsGen.Cmd.MkOpt` | options.go:422-434 | Registers a fresh copy of the given descriptor, with every field copied. `ValueSetFromEnv` is set from the environment seeding. The names are generated, the copy is appended at the end, and the names are indexed up to the first clash. Index consistency is preserved. |
| `CommandsGen.Cmd.AddOpt` | options.go:427-433 | The append and the indexing loop of `mkOpt`, which keep the index consistent. |
| `CommandsGen.Cmd.MkArg` | args.go:123-133 | The three outcomes of `mkArg` on the command's `args` and `argsIdx`. Index consistency is preserved. |
| `CommandsGen.Cmd.IsAlias` | commands.go:382-389 | True exactly when the argument is one of the command's aliases. |
| `CommandsGen.Cmd.AliasStart` | commands.go:368-380 | The position of the first argument that names a sub-command, or the argument count. |
| `CommandsGen.Cmd.GetOptsAndArgs` | commands.go:368-380 | Returns exactly that position. |
| `CommandsGen.ParentsArePath` | commands.go:86-90 | Along a path on which every `doInit` ran, each command's `parents` is the names of the commands above it, root first. |
| `CommandsGen.PathOfLeaf` | commands.go:153-154 | The usage path built from `parents` and the command's name is the names of the whole path, joined with spaces. |

## Left out

- The spec lexer, the grammar parser and the matcher (`internal/lexer`,
  `internal/parser`, `internal/fsm`) are not part of this model. They are
  function parameters (`Tokenizer`, `Parser`, `Fsm`). The parser's view of the
  descriptors is folded into the `Parser` value a caller supplies.
- The typed value cells of `internal/values` are not part of this model.
  These include `NewString`, the typed setters and `SetFromEnv`. A cell is
  observed through `FlagValue`: its text, and whether it holds its default.
- `CommandGen.Parameter.Env`, `CommandsGen.Cmd.MkOpt`: whether
  `values.SetFromEnv` seeded the cell is a parameter. Its update of the cell
  itself is not modelled.
- `CommandGen.Parameter.Var` stands for every typed setter of parameter.go
  (`Bool`, `StringVar`, `IntSlice`, ...): each one replaces the cell.
- Floating-point options and arguments are not modelled.
- Help printing is I/O and is not modelled: `printHelp`, `PrintHelp`,
  `PrintLongHelp`, `PrintVersion`, `printTabbedRow` and the tabwriter. Only the
  string functions that feed it are modelled.
- `onError` and `exiter` are not modelled. The process exit on `ExitOnError`
  and the panic on `PanicOnError` are outside the model. Configuration panics
  (duplicate or invalid names, a blank command name) become error results.
- `CommandGen.Cmd.Run`: the recursive `sub.doInit()` and `sub.run(rest)` are
  abstracted as the `Descend(sub, rest)` outcome. Messages written to standard
  error are not modelled.
- `Cmd.parse` in commands.go is not modelled. It runs through `flow.Step` and
  `entry.Run`, with its own "Error: illegal ..." messages, over a package that
  is not part of this model.
- The `init` callback (`CmdInitializer`) that `doInit` calls first is user code
  and is not modelled. `DoInit` models what follows it.
- The stubs that only `panic("implement me")` are not modelled, nor are the
  `Context` and `Value` interfaces. In `CommandGen`, a hook's context is the
  command plus the error passed to After hooks.
- The `App` wiring of cli.go is not modelled beyond the root command
  `NewApp` builds (`Version`, `Run`, version detection).
- The `Action`, `Before` and `After` fields of the commands.go `Cmd` are only
  used by its `parse`, so that generation's model leaves them out.
- Go slice aliasing of `append(c.parents, c.name)` (commands.go:86) is not
  modelled. `parents` has value semantics.
- `ValueSetByUser` and `Default` of the descriptor are not modelled. No code
  in the modelled layer uses them.
- `Names.Quote` only wraps the name in double quotes. Go's `%q` also escapes `"`, `\` and unprintable characters, and this is not modelled.
- `Errors.MultiError.Error`: a nil element makes Go's `err.Error()` panic. A modelled `Error` is a value and cannot be nil, so that panic is not modelled.
- `GoStrings.IsSpace` covers the white space of `unicode.IsSpace`. Strings are
  sequences of Unicode scalar values, so invalid UTF-8 is not modelled.
