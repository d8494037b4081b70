/**
 * The help-text formatters. help.go and commands.go hold identical copies of
 * `formatOptNamesForHelp`, `formatEnvVarsForHelp` and `formatValueForHelp`;
 * command.go and commands.go hold identical copies of `joinStrings`.
 */
module Help {
  import opened Wrappers
  import opened GoStrings
  import opened Container
  import opened Names

  // ---------------------------------------------------------------------------
  // Option names column

  /** A short option name such as `-f`: two bytes long. */
  predicate IsShortName(n: string) {
    ByteLen(n) == 2
  }

  /** A long option name such as `--force`: more than two bytes long. */
  predicate IsLongName(n: string) {
    ByteLen(n) > 2
  }

  /** The first element of `ns` that satisfies `p`. */
  function FirstWhere(ns: seq<string>, p: string -> bool): (r: Option<string>)
    ensures r.Some? ==> r.value in ns && p(r.value)
    ensures r.None? ==> forall i :: 0 <= i < |ns| ==> !p(ns[i])
  {
    if ns == [] then None
    else if p(ns[0]) then Some(ns[0])
    else FirstWhere(ns[1..], p)
  }

  lemma {:induction false} FirstWhereAppend(ns: seq<string>, n: string, p: string -> bool)
    ensures FirstWhere(ns + [n], p) ==
      if FirstWhere(ns, p).Some? then FirstWhere(ns, p)
      else if p(n) then Some(n) else None
    decreases |ns|
  {
    if ns == [] {
      assert ns + [n] == [n];
      assert [n][1..] == [];
    } else {
      assert (ns + [n])[1..] == ns[1..] + [n];
      FirstWhereAppend(ns[1..], n, p);
    }
  }

  /** The options column of a help row: `short, long`, `short`, four spaces then `long`, or nothing. */
  function OptNamesColumn(short: Option<string>, long: Option<string>): string {
    match (short, long)
    case (Some(s), Some(l)) => s + ", " + l
    case (Some(s), None) => s
    case (None, Some(l)) => "    " + l
    case (None, None) => ""
  }

  /**
   * `formatOptNamesForHelp`: scans the option's names once, keeping the first
   * short and the first long name.
   */
  method FormatOptNamesForHelp(o: Container) returns (s: string)
    ensures s == OptNamesColumn(FirstWhere(o.names, IsShortName), FirstWhere(o.names, IsLongName))
  {
    var short, long := "", "";
    var i := 0;
    while i < |o.names|
      invariant 0 <= i <= |o.names|
      invariant FirstWhere(o.names[..i], IsShortName) == if short == "" then None else Some(short)
      invariant FirstWhere(o.names[..i], IsLongName) == if long == "" then None else Some(long)
    {
      var n := o.names[i];
      FirstWhereAppend(o.names[..i], n, IsShortName);
      FirstWhereAppend(o.names[..i], n, IsLongName);
      assert o.names[..i + 1] == o.names[..i] + [n];
      if ByteLen(n) == 2 && short == "" {
        short := n;
      }
      if ByteLen(n) > 2 && long == "" {
        long := n;
      }
      i := i + 1;
    }
    assert o.names[..i] == o.names;
    if short != "" && long != "" {
      s := short + ", " + long;
    } else if short != "" {
      s := short;
    } else if long != "" {
      s := "    " + long;
    } else {
      s := "";
    }
  }

  /** A field of an option declaration that becomes a short name: one byte long. */
  predicate IsOneByte(f: string) {
    ByteLen(f) == 1
  }

  predicate IsMultiByte(f: string) {
    ByteLen(f) > 1
  }

  function DashAll(fs: seq<string>): (r: seq<string>)
    ensures |r| == |fs|
    ensures forall i :: 0 <= i < |fs| ==> r[i] == DashPrefix(fs[i]) + fs[i]
  {
    seq(|fs|, i requires 0 <= i < |fs| => DashPrefix(fs[i]) + fs[i])
  }

  lemma {:induction false} FirstWhereDashAll(fs: seq<string>)
    requires forall i :: 0 <= i < |fs| ==> IsWord(fs[i])
    ensures FirstWhere(DashAll(fs), IsShortName) ==
      match FirstWhere(fs, IsOneByte) case Some(f) => Some("-" + f) case None => None
    ensures FirstWhere(DashAll(fs), IsLongName) ==
      match FirstWhere(fs, IsMultiByte) case Some(f) => Some("--" + f) case None => None
  {
    if fs != [] {
      DashedByteLen(fs[0]);
      assert DashAll(fs)[1..] == DashAll(fs[1..]);
      FirstWhereDashAll(fs[1..]);
    }
  }

  /**
   * Help for a declared option: the short name shown is the dashed first
   * one-byte field of the declaration, the long name the dashed first field
   * longer than one byte.
   */
  lemma HelpNamesOfDeclaration(optName: string)
    ensures FirstWhere(OptNames(optName), IsShortName) ==
      match FirstWhere(Fields(optName), IsOneByte) case Some(f) => Some("-" + f) case None => None
    ensures FirstWhere(OptNames(optName), IsLongName) ==
      match FirstWhere(Fields(optName), IsMultiByte) case Some(f) => Some("--" + f) case None => None
  {
    assert OptNames(optName) == DashAll(Fields(optName));
    FirstWhereDashAll(Fields(optName));
  }

  // ---------------------------------------------------------------------------
  // Environment variables column

  function Dollars(vs: seq<string>): (r: seq<string>)
    ensures |r| == |vs|
    ensures forall i :: 0 <= i < |vs| ==> r[i] == "$" + vs[i]
  {
    seq(|vs|, i requires 0 <= i < |vs| => "$" + vs[i])
  }

  /** The environment column: nothing for a blank list, else `(env $A, $B, ...)` in declaration order. */
  function EnvColumn(envVars: string): string {
    if IsBlank(envVars) then "" else "(env " + Join(Dollars(Fields(envVars)), ", ") + ")"
  }

  /** `formatEnvVarsForHelp`: builds the column by appending one `$NAME` per field. */
  method FormatEnvVarsForHelp(envVars: string) returns (s: string)
    ensures s == EnvColumn(envVars)
  {
    TrimSpaceEmpty(envVars);
    if TrimSpace(envVars) == "" {
      return "";
    }
    var vars := Fields(envVars);
    var res := "(env";
    var sep := " ";
    var i := 0;
    while i < |vars|
      invariant 0 <= i <= |vars|
      invariant i == 0 ==> res == "(env" && sep == " "
      invariant i > 0 ==> res == "(env " + Join(Dollars(vars[..i]), ", ")
    {
      if i > 0 {
        sep := ", ";
      }
      EnvColumnStep(vars, i);
      res := res + (sep + "$" + vars[i]);
      i := i + 1;
    }
    FieldsEmpty(envVars);
    assert vars[..i] == vars;
    res := res + ")";
    s := res;
  }

  /** Appending the next variable to the column built so far. */
  lemma EnvColumnStep(vars: seq<string>, i: nat)
    requires i < |vars|
    ensures "(env " + Join(Dollars(vars[..i + 1]), ", ") ==
      if i == 0 then "(env" + (" " + "$" + vars[i])
      else "(env " + Join(Dollars(vars[..i]), ", ") + (", " + "$" + vars[i])
  {
    assert Dollars(vars[..i + 1]) == Dollars(vars[..i]) + ["$" + vars[i]];
    JoinAppend(Dollars(vars[..i]), "$" + vars[i], ", ");
  }

  /** The column is empty exactly when no variable is declared. */
  lemma EnvColumnEmpty(envVars: string)
    ensures EnvColumn(envVars) == "" <==> Fields(envVars) == []
  {
    FieldsEmpty(envVars);
  }

  // ---------------------------------------------------------------------------
  // Default value column

  /** `formatValueForHelp`: nothing while a default-tracking cell holds its default, else `(default <text>)`. */
  function FormatValueForHelp(v: FlagValue): (s: string)
    ensures s == "" <==> v.defaultValued && v.isDefault
    ensures s != "" ==> s == "(default " + v.text + ")"
  {
    if v.defaultValued && v.isDefault then "" else "(default " + v.text + ")"
  }

  // ---------------------------------------------------------------------------
  // joinStrings

  /** The parts that are not blank, in order and untrimmed. */
  function NonBlank(parts: seq<string>): (r: seq<string>)
    ensures forall i :: 0 <= i < |r| ==> !IsBlank(r[i])
    ensures |r| <= |parts|
  {
    if parts == [] then []
    else (if IsBlank(parts[0]) then [] else [parts[0]]) + NonBlank(parts[1..])
  }

  lemma {:induction false} NonBlankAppend(parts: seq<string>, p: string)
    ensures NonBlank(parts + [p]) == NonBlank(parts) + (if IsBlank(p) then [] else [p])
    decreases |parts|
  {
    if parts == [] {
      assert parts + [p] == [p];
      assert [p][1..] == [];
    } else {
      assert (parts + [p])[1..] == parts[1..] + [p];
      NonBlankAppend(parts[1..], p);
    }
  }

  lemma JoinNonBlankEmpty(ss: seq<string>)
    requires forall i :: 0 <= i < |ss| ==> !IsBlank(ss[i])
    ensures Join(ss, " ") == "" <==> ss == []
  {
    if |ss| == 1 {
      assert !IsBlank(ss[0]);
    }
  }

  /** `joinStrings`: the non-blank parts, untrimmed, separated by single spaces. */
  method JoinStrings(parts: seq<string>) returns (res: string)
    ensures res == Join(NonBlank(parts), " ")
  {
    res := "";
    var i := 0;
    while i < |parts|
      invariant 0 <= i <= |parts|
      invariant res == Join(NonBlank(parts[..i]), " ")
    {
      var part := parts[i];
      JoinStringsStep(parts, i);
      TrimSpaceEmpty(part);
      var s := TrimSpace(part);
      if s == "" {
        i := i + 1;
        continue;
      }
      if res != "" {
        res := res + " ";
      }
      res := res + part;
      i := i + 1;
    }
    assert parts[..i] == parts;
  }

  /** Adding the next part to the parts joined so far. */
  lemma JoinStringsStep(parts: seq<string>, i: nat)
    requires i < |parts|
    ensures IsBlank(parts[i]) ==> Join(NonBlank(parts[..i + 1]), " ") == Join(NonBlank(parts[..i]), " ")
    ensures !IsBlank(parts[i]) ==>
      Join(NonBlank(parts[..i + 1]), " ") ==
        (if Join(NonBlank(parts[..i]), " ") == "" then parts[i]
         else Join(NonBlank(parts[..i]), " ") + " " + parts[i])
  {
    assert parts[..i + 1] == parts[..i] + [parts[i]];
    NonBlankAppend(parts[..i], parts[i]);
    JoinNonBlankEmpty(NonBlank(parts[..i]));
    JoinAppend(NonBlank(parts[..i]), parts[i], " ");
    if IsBlank(parts[i]) {
      assert NonBlank(parts[..i + 1]) == NonBlank(parts[..i]);
    }
  }

  lemma {:induction false} FieldsOfAllNonBlank(parts: seq<string>)
    ensures FieldsOfAll(NonBlank(parts)) == FieldsOfAll(parts)
  {
    if parts != [] {
      FieldsOfAllNonBlank(parts[1..]);
      FieldsEmpty(parts[0]);
      if IsBlank(parts[0]) {
        assert NonBlank(parts) == NonBlank(parts[1..]);
      } else {
        assert NonBlank(parts) == [parts[0]] + NonBlank(parts[1..]);
        assert ([parts[0]] + NonBlank(parts[1..]))[1..] == NonBlank(parts[1..]);
      }
    }
  }

  /** The words of a joined help cell are exactly the words of its parts, in order. */
  lemma JoinStringsWords(parts: seq<string>)
    ensures Fields(Join(NonBlank(parts), " ")) == FieldsOfAll(parts)
  {
    FieldsOfJoin(NonBlank(parts));
    FieldsOfAllNonBlank(parts);
  }
}
