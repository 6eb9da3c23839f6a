/**
 What the constructs of a GRUB script mean: each is equal to a plainer script, or is
 described by what it leaves in the environment and the menu.
 */
module GrubScriptLaws {
  import opened Common
  import opened GrubArgv
  import opened GrubScript

  // --- if ---

  /** The conditions of the first `k` cases, one after the other. */
  ghost function Conditions(cases: seq<Case>, k: nat): (body: seq<Statement>)
    requires k <= |cases|
  {
    seq(k, i requires 0 <= i < k => cases[i].condition)
  }

  /** The first `k` conditions run through and fail. */
  ghost predicate Fail(w: World, s: State, cases: seq<Case>, k: nat, fuel: nat)
    requires Sound(s) && k <= |cases|
  {
    k == 0 || (
      && Fail(w, s, cases, k - 1, fuel)
      && var o := RunAll(w, s, Conditions(cases, k), fuel, 0); o.ok && o.rc != 0)
  }

  /** The first `k` conditions run through, and the last of them is the first to succeed. */
  ghost predicate Succeeds(w: World, s: State, cases: seq<Case>, k: nat, fuel: nat)
    requires Sound(s) && k <= |cases|
  {
    && k > 0 && Fail(w, s, cases, k - 1, fuel)
    && var o := RunAll(w, s, Conditions(cases, k), fuel, 0); o.ok && o.rc == 0
  }

  lemma ConditionsMore(w: World, s: State, cases: seq<Case>, k: nat, fuel: nat)
    requires Sound(s) && k < |cases|
    ensures var a, b := RunAll(w, s, Conditions(cases, k), fuel, 0), RunAll(w, s, Conditions(cases, k + 1), fuel, 0);
      b == if a.ok then Run(w, a.state, cases[k].condition, fuel) else a
  {
    hide RunAll, Run, Sound;
    var c := cases[k].condition;
    assert Conditions(cases, k + 1) == Conditions(cases, k) + [c];
    AllJoined(w, s, Conditions(cases, k), [c], fuel, 0);
    var a := RunAll(w, s, Conditions(cases, k), fuel, 0);
    if a.ok { AllOne(w, a.state, c, fuel, a.rc); }
  }

  lemma AllOne(w: World, s: State, st: Statement, fuel: nat, rc: int)
    requires Sound(s)
    ensures RunAll(w, s, [st], fuel, rc) == Run(w, s, st, fuel)
  {
    hide RunAll, Run, Sound;
    AllStep(w, s, [st], fuel, rc);
    var o := Run(w, s, st, fuel);
    if o.ok { AllEnd(w, o.state, [st][1..], fuel, o.rc); }
  }

  /** After `k` failures the remaining cases are tried. */
  lemma {:induction false} CasesAfter(w: World, s: State, cases: seq<Case>, k: nat, fuel: nat)
    requires Sound(s) && k <= |cases| && Fail(w, s, cases, k, fuel)
    ensures var o := RunAll(w, s, Conditions(cases, k), fuel, 0);
      o.ok && RunCases(w, s, cases, fuel, 0) == RunCases(w, o.state, cases[k..], fuel, o.rc)
  {
    hide RunAll, Run, RunCases, Sound;
    if k == 0 {
      AllEnd(w, s, Conditions(cases, 0), fuel, 0);
      assert cases[0..] == cases;
    } else {
      CasesAfter(w, s, cases, k - 1, fuel);
      ConditionsMore(w, s, cases, k - 1, fuel);
      var a := RunAll(w, s, Conditions(cases, k - 1), fuel, 0);
      CasesStep(w, a.state, cases[k - 1..], fuel, a.rc);
      assert cases[k - 1..][1..] == cases[k..];
    }
  }

  /** An `if` is its conditions up to the first that succeeds, followed by the body of that case alone. */
  lemma IfTaken(w: World, s: State, cases: seq<Case>, hasElse: bool, otherwise: seq<Statement>, k: nat, fuel: nat)
    requires Sound(s) && k <= |cases| && Succeeds(w, s, cases, k, fuel)
    ensures Run(w, s, If(cases, hasElse, otherwise), fuel) ==
      RunAll(w, s, Conditions(cases, k) + cases[k - 1].body, fuel, 0)
  {
    CasesAfter(w, s, cases, k - 1, fuel);
    ConditionsMore(w, s, cases, k - 1, fuel);
    AllJoined(w, s, Conditions(cases, k), cases[k - 1].body, fuel, 0);
    var a := RunAll(w, s, Conditions(cases, k - 1), fuel, 0);
    CasesStep(w, a.state, cases[k - 1..], fuel, a.rc);
    hide RunAll, RunCases, Sound, Marked;
  }

  /** If no condition succeeds, it is all of them, followed by the `else` part if there is one. */
  lemma IfNot(w: World, s: State, cases: seq<Case>, hasElse: bool, otherwise: seq<Statement>, fuel: nat)
    requires Sound(s) && Fail(w, s, cases, |cases|, fuel)
    ensures var r, o := Run(w, s, If(cases, hasElse, otherwise), fuel),
                        RunAll(w, s, Conditions(cases, |cases|) + if hasElse then otherwise else [], fuel, 0);
      r.state == o.state && r.ok == o.ok && (!hasElse || otherwise != [] ==> r.rc == o.rc)
  {
    CasesAfter(w, s, cases, |cases|, fuel);
    var t := RunAll(w, s, Conditions(cases, |cases|), fuel, 0);
    AllJoined(w, s, Conditions(cases, |cases|), if hasElse then otherwise else [], fuel, 0);
    CasesEnd(w, t.state, cases[|cases|..], fuel, t.rc);
    AnyStart(w, t.state, otherwise, fuel, t.rc);
    AllEnd(w, t.state, [], fuel, t.rc);
    hide RunAll, RunCases, Sound, Marked;
  }

  /** Where a list of statements starts from does not matter but for an empty one. */
  lemma AnyStart(w: World, s: State, body: seq<Statement>, fuel: nat, rc: int)
    requires Sound(s)
    ensures var a, b := RunAll(w, s, body, fuel, rc), RunAll(w, s, body, fuel, 0);
      a.state == b.state && a.ok == b.ok && (body != [] ==> a.rc == b.rc)
  {
    if body == [] {
      AllEnd(w, s, body, fuel, rc);
      AllEnd(w, s, body, fuel, 0);
    } else {
      AllStep(w, s, body, fuel, rc);
      AllStep(w, s, body, fuel, 0);
    }
  }

  /** A script that chooses between two menus adds exactly the options of the one that is chosen. */
  lemma ChosenMenu(w: World, s: State, condition: Statement, yes: seq<Kernel>, no: seq<Kernel>, fuel: nat)
    requires Sound(s) && Bootable(yes) && Bootable(no)
    requires var o := Run(w, s, condition, fuel);
      o.ok && o.state.options == [] && LookupFunction(o.state.symtab, "linux") == Some(LinuxCommand)
    ensures var r := RunAll(w, s, [If([Case(condition, Menu(yes))], true, Menu(no))], fuel, 0);
      var menu := if Run(w, s, condition, fuel).rc == 0 then yes else no;
      && r.ok && |r.state.options| == |menu|
      && forall i :: 0 <= i < |menu| ==> r.state.options[i].name == menu[i].name
  {
    hide RunAll, Run, Sound, Menu, LookupFunction, Bootable;
    var cases := [Case(condition, Menu(yes))];
    var st := If(cases, true, Menu(no));
    AllOne(w, s, st, fuel, 0);
    ConditionsMore(w, s, cases, 0, fuel);
    AllEnd(w, s, Conditions(cases, 0), fuel, 0);
    var o := Run(w, s, condition, fuel);
    var menu := if o.rc == 0 then yes else no;
    AllJoined(w, s, Conditions(cases, 1), Menu(menu), fuel, 0);
    MenuRun(w, o.state, menu, fuel, o.rc);
    if o.rc == 0 {
      assert Succeeds(w, s, cases, 1, fuel);
      IfTaken(w, s, cases, true, Menu(no), 1, fuel);
    } else {
      assert Fail(w, s, cases, 0, fuel) && Fail(w, s, cases, 1, fuel);
      IfNot(w, s, cases, true, Menu(no), fuel);
    }
  }

  /** The same through the interpreter. */
  method ChooseMenu(world: World, filename: Option<string>, condition: Statement, yes: seq<Kernel>, no: seq<Kernel>,
      fuel: nat) returns (added: seq<BootOption>)
    requires Sound(Initial(filename)) && Bootable(yes) && Bootable(no)
    requires var o := Run(world, Initial(filename), condition, fuel);
      o.ok && o.state.options == [] && LookupFunction(o.state.symtab, "linux") == Some(LinuxCommand)
    ensures var menu := if Run(world, Initial(filename), condition, fuel).rc == 0 then yes else no;
      |added| == |menu| && forall i :: 0 <= i < |menu| ==> added[i].name == menu[i].name
  {
    hide RunAll, Run, Initial, Bootable, LookupFunction, Settles, AllPoint, Chosen, Menu;
    ChosenMenu(world, Initial(filename), condition, yes, no, fuel);
    var script := new Interpreter(world, filename);
    var ok;
    ok, added := script.ScriptExecute([If([Case(condition, Menu(yes))], true, Menu(no))], fuel);
  }

  // --- blocks and loops ---

  /** A block is its statements. */
  lemma BlockMeans(w: World, s: State, body: seq<Statement>, rest: seq<Statement>, fuel: nat)
    requires Sound(s)
    ensures var a, b := RunAll(w, s, [Block(body)] + rest, fuel, 0), RunAll(w, s, body + rest, fuel, 0);
      a.state == b.state && a.ok == b.ok && a.rc == b.rc
  {
    AllJoined(w, s, [Block(body)], rest, fuel, 0);
    AllJoined(w, s, body, rest, fuel, 0);
    AllOne(w, s, Block(body), fuel, 0);
  }

  /** `NAME=VALUE` */
  function Set(name: string, value: string): (st: Statement) {
    Simple([[Text(name + "=" + value, false)]])
  }

  lemma SetRun(w: World, s: State, name: string, value: string, fuel: nat)
    requires Sound(s) && '=' !in name
    ensures Run(w, s, Set(name, value), fuel) == Outcome(s.(environment := Assign(s.environment, name, value)), true, 0)
  {
    ArgumentsOne(s.environment, name + "=" + value);
    hide Arguments, Marked, Assign;
    SplitAt(name, value);
  }

  /** A loop written out: the variable is set, and the body runs, for each value in turn. */
  ghost function Unrolled(variable: string, values: seq<string>, body: seq<Statement>): (r: seq<Statement>) {
    if values == [] then [] else [Set(variable, values[0])] + body + Unrolled(variable, values[1..], body)
  }

  lemma {:induction false} ForUnrolls(w: World, s: State, variable: string, values: seq<string>, body: seq<Statement>,
      fuel: nat, rc: int)
    requires Sound(s) && '=' !in variable
    ensures var a, b := RunFor(w, s, variable, values, body, fuel, rc),
                        RunAll(w, s, Unrolled(variable, values, body), fuel, rc);
      a.state == b.state && a.ok == b.ok && (body != [] ==> a.rc == b.rc)
    decreases |values|
  {
    if values == [] {
      ForEnd(w, s, variable, values, body, fuel, rc);
      AllEnd(w, s, [], fuel, rc);
    } else {
      var first, rest := Set(variable, values[0]), Unrolled(variable, values[1..], body);
      var t := s.(environment := Assign(s.environment, variable, values[0]));
      ForStep(w, s, variable, values, body, fuel, rc);
      SetRun(w, s, variable, values[0], fuel);
      hide RunAll, RunFor, Run, Sound, Assign;
      var all := Unrolled(variable, values, body);
      assert all[0] == first && all[1..] == body + rest;
      AllStep(w, s, all, fuel, rc);
      AllJoined(w, t, body, rest, fuel, 0);
      var o := RunAll(w, t, body, fuel, 0);
      if o.ok {
        ForUnrolls(w, o.state, variable, values[1..], body, fuel, o.rc);
      }
    }
  }

  /** A `for` is that loop over the arguments its words expand to. */
  lemma ForMeans(w: World, s: State, variable: string, words: seq<Word>, body: seq<Statement>, fuel: nat)
    requires Sound(s) && '=' !in variable
    ensures var values := Arguments(s.environment, [], words);
      var a, b := Run(w, s, For(variable, words, body), fuel), RunAll(w, s, Unrolled(variable, values, body), fuel, 0);
      a.state == b.state && a.ok == b.ok
  {
    ForUnrolls(w, s, variable, Arguments(s.environment, [], words), body, fuel, 0);
    hide RunAll, RunFor, Arguments, Marked, Unrolled;
  }

  // --- functions ---

  lemma {:induction false} DecimalDigits(n: nat)
    ensures Decimal(n) != "" && forall i :: 0 <= i < |Decimal(n)| ==> IsDigit(Decimal(n)[i])
    ensures Value(Decimal(n)) == n
  {
    var d := ('0' as int + n % 10) as char;
    if n >= 10 {
      DecimalDigits(n / 10);
      assert Decimal(n)[..|Decimal(n)| - 1] == Decimal(n / 10);
    } else {
      assert Decimal(n) == [d];
      assert [d][..0] == [] && Value([]) == 0;
    }
  }

  lemma DecimalsDiffer(m: nat, n: nat)
    requires Decimal(m) == Decimal(n)
    ensures m == n
  {
    DecimalDigits(m);
    DecimalDigits(n);
  }

  /** The parameters of a call are numbered from one, and no other variable changes. */
  lemma {:induction false} PositionalMeans(env: seq<Entry>, args: seq<string>, i: nat, name: string)
    ensures (forall k :: i <= k < |args| ==> name != Decimal(k)) ==>
      Lookup(Positional(env, args, i), name) == Lookup(env, name)
    ensures forall k :: i <= k < |args| && name == Decimal(k) ==>
      Lookup(Positional(env, args, i), name) == Some(args[k])
    decreases |args| - i
  {
    hide Lookup, Assign, Decimal;
    if i < |args| {
      AssignLookup(env, Decimal(i), args[i], name);
      PositionalMeans(Assign(env, Decimal(i), args[i]), args, i + 1, name);
      forall k | i <= k < |args| && name == Decimal(k)
        ensures Lookup(Positional(env, args, i), name) == Some(args[k])
      {
        if k == i {
          forall j | i + 1 <= j < |args|
            ensures name != Decimal(j) { if Decimal(j) == Decimal(i) { DecimalsDiffer(j, i); } }
        }
      }
    }
  }

  /** A call runs the body with the arguments as `$1`, `$2` and so on. */
  lemma CallMeans(w: World, s: State, words: seq<Word>, body: seq<Statement>, fuel: nat)
    requires Sound(s) && fuel > 0
    requires var args := Arguments(s.environment, [], words);
      |args| > 0 && '=' !in args[0] && LookupFunction(s.symtab, args[0]) == Some(UserFunction(body))
    ensures exists env ::
      && Run(w, s, Simple(words), fuel) == RunAll(w, s.(environment := env), body, fuel - 1, 0)
      && Given(s.environment, env, Arguments(s.environment, [], words))
  {
    var args := Arguments(s.environment, [], words);
    hide Arguments, LookupFunction, Marked, RunAll, Positional;
    NotAssigned(args[0]);
    var env := Positional(s.environment, args, 1);
    forall name ensures GivenAt(s.environment, env, args, name) { PositionalMeans(s.environment, args, 1, name); }
    assert Run(w, s, Simple(words), fuel) == RunAll(w, s.(environment := env), body, fuel - 1, 0);
  }

  /** `env` is `before` with the arguments as numbered variables. */
  ghost predicate Given(before: seq<Entry>, env: seq<Entry>, args: seq<string>) {
    forall name :: GivenAt(before, env, args, name)
  }

  ghost predicate GivenAt(before: seq<Entry>, env: seq<Entry>, args: seq<string>, name: string) {
    && ((forall k :: 1 <= k < |args| ==> name != Decimal(k)) ==> Lookup(env, name) == Lookup(before, name))
    && (forall k :: 1 <= k < |args| && name == Decimal(k) ==> Lookup(env, name) == Some(args[k]))
  }

  /** A definition binds the name to the body, and no other name. */
  lemma DefinitionMeans(w: World, s: State, name: string, body: seq<Statement>, other: string, fuel: nat)
    requires Sound(s)
    ensures var r := Run(w, s, Function(Text(name, false), body), fuel);
      && r.ok && r.rc == 0 && r.state == s.(symtab := r.state.symtab)
      && LookupFunction(r.state.symtab, other) ==
        if other == name then Some(UserFunction(body)) else LookupFunction(s.symtab, other)
  {
    hide Marked;
  }

  // --- entries, commands and files ---

  /** An entry adds one option at the end, named by its arguments, if its body gave it an image, and none otherwise. */
  lemma EntryMeans(w: World, s: State, words: seq<Word>, body: seq<Statement>, fuel: nat)
    requires Sound(s)
    ensures var t := s.(images := s.images + [None], current := Some(|s.images|));
      var args, o := Arguments(s.environment, [], words), RunAll(w, t, body, fuel, 0);
      var r := Run(w, s, Menuentry(words, body), fuel);
      && r.ok == o.ok && r.state.environment == o.state.environment && r.state.symtab == o.state.symtab
      && (o.ok && o.state.images[|s.images|] == None ==> r.rc == -1 && r.state == o.state)
      && (o.ok && o.state.images[|s.images|].Some? ==>
            && r.rc == 0 && r.state.current == None && |r.state.options| == |o.state.options| + 1
            && o.state.options <= r.state.options
            && var added := r.state.options[|o.state.options|];
               && added.name == (if args == [] then "(unknown)" else args[0]) && added.id == IdOf(args, 1)
               && added.image == o.state.images[|s.images|])
  {
    hide RunAll, Arguments, IdOf, IsDefault, Marked;
  }

  /** A name that is bound to nothing leaves everything as it is. */
  lemma UnknownCommand(w: World, s: State, words: seq<Word>, fuel: nat)
    requires Sound(s)
    requires var args := Arguments(s.environment, [], words);
      |args| > 0 && '=' !in args[0] && LookupFunction(s.symtab, args[0]) == None
    ensures Run(w, s, Simple(words), fuel) == Outcome(s, true, 1)
  {
    NotAssigned(Arguments(s.environment, [], words)[0]);
    hide Arguments, LookupFunction, Marked;
  }

  /** `set NAME=A B C` joins the words with single blanks. */
  lemma {:induction false} SpacedMeans(first: string, rest: seq<string>, last: string)
    ensures Spaced(first, []) == first && Spaced(first, rest + [last]) == Spaced(first, rest) + " " + last
    decreases |rest|
  {
    if rest == [] {
      assert [last][1..] == [];
    } else {
      SpacedMeans(first + " " + rest[0], rest[1..], last);
      assert (rest + [last])[1..] == rest[1..] + [last];
    }
  }

  /** The prefix is the directory of the configuration file. */
  lemma PrefixMeans(dir: string, name: string)
    requires '/' !in name
    ensures Prefix(Some(dir + "/" + name)) == dir && Prefix(Some(name)) == Prefix(None) == "/boot/grub"
  {
    var path := dir + "/" + name;
    assert path[|dir|] == '/' && path[..|dir|] == dir;
    forall k | |dir| < k < |path| ensures path[k] != '/' { assert path[k] == name[k - |dir| - 1]; }
  }

  /** A file that sources itself is entered until the tenth level, and leaves everything as it was. */
  lemma {:induction false} SelfSource(w: World, s: State, file: string, fuel: nat)
    requires Sound(s) && !s.dangling && LookupFunction(s.symtab, "source") == Some(SourceCommand)
    requires w.file(s.calls, file) == Parsed([Command("source", file)])
    ensures Run(w, s, Command("source", file), fuel) == Outcome(s, true, if s.depth < 10 then 1 else 0)
    decreases 10 - s.depth
  {
    var words := [[Text("source", false)], [Text(file, false)]];
    ArgumentsTwo(s.environment, "source", file);
    NotAssigned("source");
    if s.depth < 10 {
      var t := s.(depth := s.depth + 1);
      SelfSource(w, t, file, fuel);
      AllOne(w, t, Command("source", file), fuel, 0);
      assert s.(depth := s.depth + 1, dangling := false) == t;
    }
    assert RunSource(w, s, words, ["source", file], fuel) == Outcome(s, true, if s.depth < 10 then 1 else 0);
    hide Arguments, Marked, LookupFunction, RunSource, RunAll;
  }

  // --- which entry is the default ---

  /** Every number that fits is read back from its decimal form. */
  lemma NumeralBack(n: nat)
    requires n < UINT
    ensures Numeral(Decimal(n)) == Some(n)
  {
    DecimalDigits(n);
    hide Decimal;
    var t := Decimal(n);
    assert IsDigit(t[0]);
    assert SkipSpaces(t) == t;
  }

  /** `set default=K` in front of a menu: the entry at position K, counted from zero, is the default. */
  lemma DefaultNumber(w: World, filename: Option<string>, k: nat, kernels: seq<Kernel>, fuel: nat)
    requires Builtin(w) && Bootable(kernels) && k < |kernels| && k < UINT
    ensures Sound(Initial(filename))
    ensures var r := RunAll(w, Initial(filename), [SetDefault(Decimal(k))] + Menu(kernels), fuel, 0);
      && r.ok && |r.state.options| == |kernels|
      && forall i :: 0 <= i < |kernels| ==> (WithFallback(r.state.options)[i].isDefault <==> i == k)
  {
    NumeralBack(k);
    hide RunAll, Settles, Selected, Initial, Numeral, Builtin, WithFallback, Bootable;
    DefaultIndex(w, filename, Decimal(k), kernels, fuel);
    FixedDefault(w, Initial(filename), [SetDefault(Decimal(k))], Menu(kernels), fuel, iset{});
    SameLength(RunAll(w, Initial(filename), [SetDefault(Decimal(k))] + Menu(kernels), fuel, 0).state.options);
  }

  lemma SameLength(options: seq<BootOption>)
    ensures |WithFallback(options)| == |options|
  {
  }

  /** A value that is no numeral names entries by their id or title; an entry without an id by its title alone. */
  lemma NamedDefault(value: string, n: nat, id: Option<string>, name: string)
    requires Numeral(value) == None
    ensures IsDefault(Some(value), n, id, name) <==> id == Some(value) || name == value
    ensures !IsDefault(None, n, id, name)
  {
  }

  /** The two ways to give an entry an id, and that a bare `--id` at the end gives none. */
  lemma IdMeans(title: string, id: string)
    requires id != ""
    ensures IdOf([title, "--id=" + id], 1) == Some(id)
    ensures IdOf([title, "--id", id], 1) == Some(id)
    ensures IdOf([title, "--id"], 1) == None && IdOf([title], 1) == None
  {
    var word := "--id=" + id;
    assert word[..4] == "--id" && word[5..] == id && |word| > 5;
    assert "--id"[..4] == "--id";
  }
}
