/**
 Running a GRUB script (discover/grub2/script.c, discover/grub2/builtins.c): blocks,
 conditionals, loops, functions, sourced files and menu entries, the options they
 leave behind, and which of them is the default.
 */
module GrubScript {
  import opened Common
  import opened GrubArgv
  import Url

  datatype Statement =
    | Simple(words: seq<Word>)
    | Block(body: seq<Statement>)
    | If(cases: seq<Case>, hasElse: bool, otherwise: seq<Statement>)
    | Menuentry(words: seq<Word>, body: seq<Statement>)
    | Function(name: Piece, body: seq<Statement>)
    | For(variable: string, words: seq<Word>, body: seq<Statement>)

  datatype Case = Case(condition: Statement, body: seq<Statement>)

  /**
   What a name is bound to: a function of the script or a command. `OtherCommand` neither adds
   options nor sets boot images.
   */
  datatype Binding = UserFunction(body: seq<Statement>) | SetCommand | LinuxCommand | SourceCommand | OtherCommand

  datatype Symbol = Symbol(name: string, binding: Binding)

  datatype File = Missing | Unparsable | Parsed(statements: seq<Statement>)

  /**
   The commands that are not modelled: each call has any return value and any effect on the environment.
   And the files that can be sourced, which such calls may change.
   */
  datatype World = World(
    run: (nat, seq<string>, seq<Entry>) -> (int, seq<Entry>), file: (nat, string) -> File)

  datatype BootOption = BootOption(name: string, id: Option<string>, image: Option<string>, isDefault: bool)

  // --- numerals ---

  const ULONG: nat := 0x1_0000_0000_0000_0000
  const UINT: nat := 0x1_0000_0000

  predicate IsSpace(c: char) {
    c == ' ' || '\t' <= c <= '\r'
  }

  predicate IsDigit(c: char) {
    '0' <= c <= '9'
  }

  function Value(s: string): (n: nat)
    requires forall i :: 0 <= i < |s| ==> IsDigit(s[i])
  {
    if s == "" then 0 else
      var d := s[|s| - 1];
      assert IsDigit(d);
      10 * Value(s[..|s| - 1]) + (d as int - '0' as int)
  }

  function SkipSpaces(s: string): (r: string) {
    if s != "" && IsSpace(s[0]) then SkipSpaces(s[1..]) else s
  }

  /**
   `strtoul` in base 10 of a whole string, stored in an unsigned int: spaces, a sign, digits; too
   large saturates, a minus sign negates.
   */
  function Numeral(s: string): (r: Option<nat>) {
    var t := SkipSpaces(s);
    var minus := t != "" && t[0] == '-';
    var digits := if t != "" && (t[0] == '-' || t[0] == '+') then t[1..] else t;
    if digits == "" || exists i :: 0 <= i < |digits| && !IsDigit(digits[i]) then None
    else
      var v := Value(digits);
      var u := if v >= ULONG then ULONG - 1 else if minus then (ULONG - v) % ULONG else v;
      Some(u % UINT)
  }

  // --- which options are defaults ---

  /** `option_is_default`, for the option at position `n`. */
  predicate IsDefault(default: Option<string>, n: nat, id: Option<string>, name: string) {
    match default
    case None => false
    case Some(value) =>
      var k := Numeral(value);
      if k.Some? then k.value == n else id == Some(value) || name == value
  }

  /** The option at each position was marked by the value `default` had when it was added. */
  ghost predicate Marked(options: seq<BootOption>, defaults: seq<Option<string>>) {
    |defaults| == |options| &&
    forall i :: 0 <= i < |options| ==>
      && options[i].image.Some?
      && (options[i].isDefault <==> IsDefault(defaults[i], i, options[i].id, options[i].name))
  }

  // --- running ---

  function LookupFunction(symtab: seq<Symbol>, name: string): (r: Option<Binding>) {
    if symtab == [] then None else if symtab[0].name == name then Some(symtab[0].binding)
      else LookupFunction(symtab[1..], name)
  }

  function Decimal(n: nat): (s: string) {
    (if n < 10 then "" else Decimal(n / 10)) + [('0' as int + n % 10) as char]
  }

  function Spaced(first: string, rest: seq<string>): (r: string)
    decreases |rest|
  {
    if rest == [] then first else Spaced(first + " " + rest[0], rest[1..])
  }

  /** The `--id` of a menu entry, looked for from argument `i` on: `--id=x`, or the argument behind a bare `--id`. */
  function IdOf(args: seq<string>, i: nat): (id: Option<string>)
    decreases |args| - i
  {
    if i >= |args| then None
    else if !GivesId(args, i) then IdOf(args, i + 1)
    else Some(if |args[i]| > 5 then args[i][5..] else args[i + 1])
  }

  /** The loop over the arguments in `statement_menuentry_execute`. */
  method FindId(args: seq<string>) returns (id: Option<string>)
    ensures id == IdOf(args, 1)
  {
    var i := 1;
    while i < |args|
      invariant 1 <= i && IdOf(args, 1) == IdOf(args, i)
    {
      if |args[i]| >= 4 && args[i][..4] == "--id" {
        if |args[i]| > 5 {
          return Some(args[i][5..]);
        }
        if i + 1 < |args| {
          return Some(args[i + 1]);
        }
      }
      i := i + 1;
    }
    return None;
  }

  predicate GivesId(args: seq<string>, i: int)
    requires 0 <= i < |args|
  {
    |args[i]| >= 4 && args[i][..4] == "--id" && (|args[i]| > 5 || i + 1 < |args|)
  }

  // --- the meaning of a script ---

  /**
   `defaults` is what `default` was when each option was added; `images` the boot image of every option created;
   `calls` counts the calls of commands that are not modelled; `dangling`: the statements of the file that is
   running have been freed.
   */
  datatype State = State(
    environment: seq<Entry>, symtab: seq<Symbol>, options: seq<BootOption>, defaults: seq<Option<string>>,
    images: seq<Option<string>>, current: Option<nat>, depth: nat, calls: nat, dangling: bool)

  /** `ok` is false if calls of functions nest deeper than the fuel, or statements are freed twice. */
  datatype Outcome = Outcome(state: State, ok: bool, rc: int)

  ghost predicate Sound(s: State) {
    Marked(s.options, s.defaults) && s.depth <= 10 && (s.current.Some? ==> s.current.value < |s.images|)
  }

  /** Options are only ever added. */
  ghost predicate Grew(a: State, b: State) {
    a.options <= b.options && a.defaults <= b.defaults && a.depth == b.depth && |a.images| <= |b.images|
  }

  ghost function RunAll(w: World, s: State, body: seq<Statement>, fuel: nat, rc: int): (r: Outcome)
    requires Sound(s)
    ensures Sound(r.state) && Grew(s, r.state)
    decreases fuel, 10 - s.depth, body, 0
  {
    if body == [] then Outcome(s, true, rc)
    else
      var o := Run(w, s, body[0], fuel);
      if !o.ok then o else RunAll(w, o.state, body[1..], fuel, o.rc)
  }

  ghost function Run(w: World, s: State, st: Statement, fuel: nat): (r: Outcome)
    requires Sound(s)
    ensures Sound(r.state) && Grew(s, r.state)
    decreases fuel, 10 - s.depth, st, 0
  {
    match st
    case Simple(words) => RunSimple(w, s, words, fuel)
    case Block(body) => RunAll(w, s, body, fuel, 0)
    case If(cases, hasElse, otherwise) =>
      var (executed, o) := RunCases(w, s, cases, fuel, 0);
      if o.ok && !executed && hasElse then RunAll(w, o.state, otherwise, fuel, 0) else o
    case Menuentry(words, body) => RunMenuentry(w, s, words, body, fuel)
    case Function(name, body) =>
      Outcome(s.(symtab := [Symbol(Expand(s.environment, name), UserFunction(body))] + s.symtab), true, 0)
    case For(variable, words, body) => RunFor(w, s, variable, Arguments(s.environment, [], words), body, fuel, 0)
  }

  /** Up to the first case whose condition succeeds. */
  ghost function RunCases(w: World, s: State, cases: seq<Case>, fuel: nat, rc: int): (r: (bool, Outcome))
    requires Sound(s)
    ensures Sound(r.1.state) && Grew(s, r.1.state)
    decreases fuel, 10 - s.depth, cases, 0
  {
    if cases == [] then (false, Outcome(s, true, rc))
    else
      var o := Run(w, s, cases[0].condition, fuel);
      if !o.ok then (false, o)
      else if o.rc == 0 then (true, RunAll(w, o.state, cases[0].body, fuel, 0))
      else RunCases(w, o.state, cases[1..], fuel, o.rc)
  }

  ghost function RunFor(w: World, s: State, variable: string, values: seq<string>, body: seq<Statement>, fuel: nat,
      rc: int): (r: Outcome)
    requires Sound(s)
    ensures Sound(r.state) && Grew(s, r.state)
    decreases fuel, 10 - s.depth, body, 1, |values|
  {
    if values == [] then Outcome(s, true, rc)
    else
      var o := RunAll(w, s.(environment := Assign(s.environment, variable, values[0])), body, fuel, 0);
      if !o.ok then o else RunFor(w, o.state, variable, values[1..], body, fuel, o.rc)
  }

  /** An option that comes out of its entry with a boot image is added. */
  ghost function RunMenuentry(w: World, s: State, words: seq<Word>, body: seq<Statement>, fuel: nat): (r: Outcome)
    requires Sound(s)
    ensures Sound(r.state) && Grew(s, r.state)
    decreases fuel, 10 - s.depth, body, 1
  {
    var args := Arguments(s.environment, [], words);
    var created := |s.images|;
    var o := RunAll(w, s.(images := s.images + [None], current := Some(created)), body, fuel, 0);
    if !o.ok then o
    else if o.state.images[created] == None then Outcome(o.state, true, -1)
    else
      var name := if |args| > 0 then args[0] else "(unknown)";
      Outcome(AddOption(o.state, name, IdOf(args, 1), o.state.images[created].value), true, 0)
  }

  ghost function AddOption(s: State, name: string, id: Option<string>, image: string): (r: State)
    requires Sound(s)
    ensures Sound(r) && Grew(s, r) && |r.options| == |s.options| + 1
  {
    var default := Lookup(s.environment, "default");
    s.(options := s.options + [BootOption(name, id, Some(image), IsDefault(default, |s.options|, id, name))],
       defaults := s.defaults + [default], current := None)
  }

  ghost function RunSimple(w: World, s: State, words: seq<Word>, fuel: nat): (r: Outcome)
    requires Sound(s)
    ensures Sound(r.state) && Grew(s, r.state)
    decreases fuel, 10 - s.depth, words, 1
  {
    var args := Arguments(s.environment, [], words);
    if args == [] then Outcome(s, true, 0)
    else
      var eq := IndexOf(args[0], '=');
      var binding := LookupFunction(s.symtab, args[0]);
      if eq < |args[0]| then Outcome(s.(environment := Assign(s.environment, args[0][..eq], args[0][eq + 1..])),
        true, 0)
      else if binding == None then Outcome(s, true, 1)
      else match binding.value
        case UserFunction(body) =>
          if fuel == 0 then Outcome(s, false, 0)
          else RunAll(w, s.(environment := Positional(s.environment, args, 1)), body, fuel - 1, 0)
        case SourceCommand => RunSource(w, s, words, args, fuel)
        case _ => RunCommand(w, s, binding.value, args)
  }

  function Positional(env: seq<Entry>, args: seq<string>, i: nat): (r: seq<Entry>)
    decreases |args| - i
  {
    if i >= |args| then env else Positional(Assign(env, Decimal(i), args[i]), args, i + 1)
  }

  /**
   The statements of the file replace those that run, and are freed at its end. If the file cannot be
   parsed, those that run are freed in their place.
   */
  ghost function RunSource(w: World, s: State, words: seq<Word>, args: seq<string>, fuel: nat): (r: Outcome)
    requires Sound(s)
    ensures Sound(r.state) && Grew(s, r.state)
    decreases fuel, 10 - s.depth, words, 0
  {
    if |args| != 2 || s.depth >= 10 then Outcome(s, true, 0)
    else match w.file(s.calls, args[1])
      case Missing => Outcome(s, true, 0)
      case Unparsable => Outcome(s.(dangling := true), !s.dangling, 0)
      case Parsed(statements) =>
        var o := RunAll(w, s.(depth := s.depth + 1, dangling := false), statements, fuel, 0);
        Outcome(o.state.(depth := s.depth, dangling := s.dangling), o.ok && !o.state.dangling, 1)
  }

  ghost function RunCommand(w: World, s: State, binding: Binding, args: seq<string>): (r: Outcome)
    requires Sound(s)
    ensures Sound(r.state) && Grew(s, r.state) && r.ok
  {
    match binding
    case SetCommand =>
      if |args| < 2 || IndexOf(args[1], '=') == |args[1]| then Outcome(s, true, -1)
      else
        var eq := IndexOf(args[1], '=');
        Outcome(s.(environment := Assign(s.environment, args[1][..eq], Spaced(args[1][eq + 1..], args[2..]))), true, 0)
    case LinuxCommand =>
      if s.current == None || |args| < 2 then Outcome(s, true, -1)
      else Outcome(s.(images := s.images[s.current.value := Resource(args[1])]), true, 0)
    case _ =>
      var r := w.run(s.calls, args, s.environment);
      Outcome(s.(environment := r.1, calls := s.calls + 1), true, r.0)
  }

  /** `create_grub2_resource`: what a path names, or null if it is a device without a path. */
  function Resource(path: string): (r: Option<string>) {
    if (Url.IsUrl(path) && UrlParses(path)) || HasPath(path) then Some(path) else None
  }

  /** `pb_url_parse` returns a URL. */
  predicate UrlParses(s: string) {
    forall scheme :: Url.HasScheme(s, scheme) ==> Url.ParseRest(scheme, s[|Url.Name(scheme)| + 3..]).Some?
  }

  /** `grub2_parse_file` finds a path: everything, or what is behind a device in brackets. */
  predicate HasPath(s: string) {
    s == "" || s[0] != '(' || IndexOf(s, ')') + 1 < |s|
  }

  /** So a null image needs a bracket in front, and nothing behind the closing one. */
  lemma ResourceIff(path: string)
    ensures Resource(path) == None <==>
      path != "" && path[0] == '(' && !Url.IsUrl(path) && IndexOf(path, ')') + 1 >= |path|
  {
    hide Url.HasScheme, Url.ParseRest, Url.Name, Url.IsUrl;
    if path != "" && path[0] == '(' {
      forall scheme ensures !Url.HasScheme(path, scheme) { BracketNoScheme(path, scheme); }
    }
  }

  lemma BracketNoScheme(path: string, scheme: Url.Scheme)
    requires path != "" && path[0] == '('
    ensures !Url.HasScheme(path, scheme)
  {
    Url.NameLetters(scheme);
    assert |Url.Name(scheme)| > 0;
    hide Url.Name;
    assert Lower(path[0]) != Lower(Url.Name(scheme)[0]);
  }

  // --- the fuel does not matter, if there is enough ---

  lemma {:induction false} AllFuel(w: World, s: State, body: seq<Statement>, fuel: nat, more: nat, rc: int)
    requires Sound(s) && fuel <= more && RunAll(w, s, body, fuel, rc).ok
    ensures RunAll(w, s, body, more, rc) == RunAll(w, s, body, fuel, rc)
    decreases fuel, 10 - s.depth, body, 0
  {
    if body != [] {
      RunFuel(w, s, body[0], fuel, more);
      var o := Run(w, s, body[0], fuel);
      AllFuel(w, o.state, body[1..], fuel, more, o.rc);
    }
  }

  /** A script that ends with some fuel ends the same way with more. */
  lemma {:induction false} RunFuel(w: World, s: State, st: Statement, fuel: nat, more: nat)
    requires Sound(s) && fuel <= more && Run(w, s, st, fuel).ok
    ensures Run(w, s, st, more) == Run(w, s, st, fuel)
    decreases fuel, 10 - s.depth, st, 0
  {
    match st
    case Simple(words) => SimpleFuel(w, s, words, fuel, more);
    case Block(body) => AllFuel(w, s, body, fuel, more, 0);
    case If(cases, hasElse, otherwise) =>
      CasesFuel(w, s, cases, fuel, more, 0);
      var (executed, o) := RunCases(w, s, cases, fuel, 0);
      if !executed && hasElse { AllFuel(w, o.state, otherwise, fuel, more, 0); }
    case Menuentry(words, body) =>
      AllFuel(w, s.(images := s.images + [None], current := Some(|s.images|)), body, fuel, more, 0);
    case Function(_, _) =>
    case For(variable, words, body) => ForFuel(w, s, variable, Arguments(s.environment, [], words), body, fuel,
      more, 0);
  }

  lemma {:induction false} CasesFuel(w: World, s: State, cases: seq<Case>, fuel: nat, more: nat, rc: int)
    requires Sound(s) && fuel <= more && RunCases(w, s, cases, fuel, rc).1.ok
    ensures RunCases(w, s, cases, more, rc) == RunCases(w, s, cases, fuel, rc)
    decreases fuel, 10 - s.depth, cases, 0
  {
    if cases != [] {
      RunFuel(w, s, cases[0].condition, fuel, more);
      var o := Run(w, s, cases[0].condition, fuel);
      if o.rc == 0 {
        AllFuel(w, o.state, cases[0].body, fuel, more, 0);
      } else {
        CasesFuel(w, o.state, cases[1..], fuel, more, o.rc);
      }
    }
  }

  lemma {:induction false} ForFuel(w: World, s: State, variable: string, values: seq<string>, body: seq<Statement>,
      fuel: nat, more: nat, rc: int)
    requires Sound(s) && fuel <= more && RunFor(w, s, variable, values, body, fuel, rc).ok
    ensures RunFor(w, s, variable, values, body, more, rc) == RunFor(w, s, variable, values, body, fuel, rc)
    decreases fuel, 10 - s.depth, body, 1, |values|
  {
    if values != [] {
      var t := s.(environment := Assign(s.environment, variable, values[0]));
      AllFuel(w, t, body, fuel, more, 0);
      var o := RunAll(w, t, body, fuel, 0);
      ForFuel(w, o.state, variable, values[1..], body, fuel, more, o.rc);
    }
  }

  lemma {:induction false} SimpleFuel(w: World, s: State, words: seq<Word>, fuel: nat, more: nat)
    requires Sound(s) && fuel <= more && RunSimple(w, s, words, fuel).ok
    ensures RunSimple(w, s, words, more) == RunSimple(w, s, words, fuel)
    decreases fuel, 10 - s.depth, words, 1
  {
    hide RunAll, RunCommand;
    var args := Arguments(s.environment, [], words);
    if args != [] && IndexOf(args[0], '=') == |args[0]| {
      var binding := LookupFunction(s.symtab, args[0]);
      if binding.Some? && binding.value.UserFunction? {
        AllFuel(w, s.(environment := Positional(s.environment, args, 1)), binding.value.body, fuel - 1, more - 1, 0);
      } else if binding == Some(SourceCommand) && |args| == 2 && s.depth < 10 && w.file(s.calls, args[1]).Parsed? {
        var t := s.(depth := s.depth + 1, dangling := false);
        AllFuel(w, t, w.file(s.calls, args[1]).statements, fuel, more, 0);
      }
    }
  }

  // --- scripts that leave `default` alone ---

  /** The variable that a word of the form `name=value` assigns; empty if it is none. */
  function Assigned(word: string): (r: string) {
    var eq := IndexOf(word, '=');
    if eq < |word| then word[..eq] else ""
  }

  /** Commands whose effect on `default` depends on what is outside the script. */
  predicate MayLoad(args: seq<string>) {
    args != [] && (args[0] == "load_env"
      || (args[0] == "search" && exists i :: 0 < i < |args| && NamesDefault(args[i])))
  }

  /** An argument such as `--set=default`. */
  predicate NamesDefault(arg: string) {
    |arg| >= 7 && arg[|arg| - 7..] == "default"
  }

  /** These arguments do not assign `default`, directly or through `set`, and source safe files alone. */
  ghost predicate Harmless(args: seq<string>, safe: iset<string>) {
    args != [] ==>
      && Assigned(args[0]) != "default" && !MayLoad(args)
      && (args[0] == "set" && |args| > 1 ==> Assigned(args[1]) != "default")
      && (args[0] == "source" && |args| > 1 ==> args[1] in safe)
  }

  /** Whatever the variables are, the statement does not assign `default`. */
  ghost predicate Leaves(st: Statement, safe: iset<string>) {
    match st
    case Simple(words) => forall env :: Harmless(Arguments(env, [], words), safe)
    case Block(body) => LeavesAll(body, safe)
    case If(cases, _, otherwise) => LeavesCases(cases, safe) && LeavesAll(otherwise, safe)
    case Menuentry(_, body) => LeavesAll(body, safe)
    case Function(_, body) => LeavesAll(body, safe)
    case For(variable, _, body) => variable != "default" && LeavesAll(body, safe)
  }

  ghost predicate LeavesAll(body: seq<Statement>, safe: iset<string>) {
    body == [] || (Leaves(body[0], safe) && LeavesAll(body[1..], safe))
  }

  ghost predicate LeavesCases(cases: seq<Case>, safe: iset<string>) {
    cases == [] || (Leaves(cases[0].condition, safe) && LeavesAll(cases[0].body, safe) && LeavesCases(cases[1..], safe))
  }

  /** Nor do the functions defined so far; `set` and `source` go by their names. */
  ghost predicate LeavesSymbols(symtab: seq<Symbol>, safe: iset<string>) {
    forall i :: 0 <= i < |symtab| ==>
      && (symtab[i].binding.UserFunction? ==> LeavesAll(symtab[i].binding.body, safe))
      && (symtab[i].binding == SetCommand ==> symtab[i].name == "set")
      && (symtab[i].binding == SourceCommand ==> symtab[i].name == "source")
  }

  /** The commands but for `load_env` and `search` do not change `default`. */
  ghost predicate Builtin(w: World) {
    forall n, args, env :: !MayLoad(args) ==> Lookup(w.run(n, args, env).1, "default") == Lookup(env, "default")
  }

  /** Nor do the safe files. */
  ghost predicate LeavesWorld(w: World, safe: iset<string>) {
    && Builtin(w)
    && forall n, name :: name in safe && w.file(n, name).Parsed? ==> LeavesAll(w.file(n, name).statements, safe)
  }

  /** From `s` to `r`, `default` has been `d` all the time. */
  ghost predicate Left(s: State, r: State, d: Option<string>, safe: iset<string>) {
    && Lookup(r.environment, "default") == d && LeavesSymbols(r.symtab, safe) && s.defaults <= r.defaults
    && forall j :: |s.defaults| <= j < |r.defaults| ==> r.defaults[j] == d
  }

  /** `default` is `d` now, and nothing that may run changes it. */
  ghost predicate Quiet(w: World, s: State, d: Option<string>, safe: iset<string>) {
    Sound(s) && LeavesWorld(w, safe) && LeavesSymbols(s.symtab, safe) && Lookup(s.environment, "default") == d
  }

  lemma LeftOn(a: State, b: State, c: State, d: Option<string>, safe: iset<string>)
    requires Left(a, b, d, safe) && Left(b, c, d, safe)
    ensures Left(a, c, d, safe)
  {
    forall j | |a.defaults| <= j < |c.defaults| ensures c.defaults[j] == d {
      if j < |b.defaults| { assert c.defaults[j] == b.defaults[j]; }
    }
  }

  lemma {:induction false} AllLeaves(w: World, s: State, body: seq<Statement>, fuel: nat, rc: int, d: Option<string>,
      safe: iset<string>)
    requires Quiet(w, s, d, safe) && LeavesAll(body, safe)
    ensures Left(s, RunAll(w, s, body, fuel, rc).state, d, safe)
    decreases fuel, 10 - s.depth, body, 0
  {
    if body != [] {
      hide LeavesWorld, LeavesSymbols;
      RunLeaves(w, s, body[0], fuel, d, safe);
      var o := Run(w, s, body[0], fuel);
      if o.ok {
        AllLeaves(w, o.state, body[1..], fuel, o.rc, d, safe);
        LeftOn(s, o.state, RunAll(w, o.state, body[1..], fuel, o.rc).state, d, safe);
      }
    }
  }

  lemma {:induction false} RunLeaves(w: World, s: State, st: Statement, fuel: nat, d: Option<string>,
      safe: iset<string>)
    requires Quiet(w, s, d, safe) && Leaves(st, safe)
    ensures Left(s, Run(w, s, st, fuel).state, d, safe)
    decreases fuel, 10 - s.depth, st, 0
  {
    hide LeavesWorld;
    match st
    case Simple(words) => SimpleLeaves(w, s, words, fuel, d, safe);
    case Block(body) => AllLeaves(w, s, body, fuel, 0, d, safe);
    case If(cases, hasElse, otherwise) =>
      CasesLeave(w, s, cases, fuel, 0, d, safe);
      var (executed, o) := RunCases(w, s, cases, fuel, 0);
      if o.ok && !executed && hasElse {
        AllLeaves(w, o.state, otherwise, fuel, 0, d, safe);
        LeftOn(s, o.state, RunAll(w, o.state, otherwise, fuel, 0).state, d, safe);
      }
    case Menuentry(words, body) => EntryLeaves(w, s, words, body, fuel, d, safe);
    case Function(_, _) =>
    case For(variable, words, body) => ForLeaves(w, s, variable, Arguments(s.environment, [], words), body, fuel, 0, d,
      safe);
  }

  lemma {:induction false} CasesLeave(w: World, s: State, cases: seq<Case>, fuel: nat, rc: int, d: Option<string>,
      safe: iset<string>)
    requires Quiet(w, s, d, safe) && LeavesCases(cases, safe)
    ensures Left(s, RunCases(w, s, cases, fuel, rc).1.state, d, safe)
    decreases fuel, 10 - s.depth, cases, 0
  {
    if cases != [] {
      hide LeavesWorld, LeavesSymbols;
      RunLeaves(w, s, cases[0].condition, fuel, d, safe);
      var o := Run(w, s, cases[0].condition, fuel);
      if o.ok && o.rc == 0 {
        AllLeaves(w, o.state, cases[0].body, fuel, 0, d, safe);
        LeftOn(s, o.state, RunAll(w, o.state, cases[0].body, fuel, 0).state, d, safe);
      } else if o.ok {
        CasesLeave(w, o.state, cases[1..], fuel, o.rc, d, safe);
        LeftOn(s, o.state, RunCases(w, o.state, cases[1..], fuel, o.rc).1.state, d, safe);
      }
    }
  }

  lemma {:induction false} EntryLeaves(w: World, s: State, words: seq<Word>, body: seq<Statement>, fuel: nat,
      d: Option<string>, safe: iset<string>)
    requires Quiet(w, s, d, safe) && LeavesAll(body, safe)
    ensures Left(s, RunMenuentry(w, s, words, body, fuel).state, d, safe)
    decreases fuel, 10 - s.depth, body, 1
  {
    hide LeavesWorld, LeavesSymbols, RunAll, Marked, IsDefault;
    var t := s.(images := s.images + [None], current := Some(|s.images|));
    AllLeaves(w, t, body, fuel, 0, d, safe);
  }

  lemma {:induction false} ForLeaves(w: World, s: State, variable: string, values: seq<string>, body: seq<Statement>,
      fuel: nat, rc: int, d: Option<string>, safe: iset<string>)
    requires Quiet(w, s, d, safe) && variable != "default" && LeavesAll(body, safe)
    ensures Left(s, RunFor(w, s, variable, values, body, fuel, rc).state, d, safe)
    decreases fuel, 10 - s.depth, body, 1, |values|
  {
    if values != [] {
      hide LeavesWorld, LeavesSymbols, Marked;
      var t := s.(environment := Assign(s.environment, variable, values[0]));
      AssignLookup(s.environment, variable, values[0], "default");
      AllLeaves(w, t, body, fuel, 0, d, safe);
      var o := RunAll(w, t, body, fuel, 0);
      if o.ok {
        ForLeaves(w, o.state, variable, values[1..], body, fuel, o.rc, d, safe);
        LeftOn(s, o.state, RunFor(w, o.state, variable, values[1..], body, fuel, o.rc).state, d, safe);
      }
    }
  }

  lemma {:induction false} SimpleLeaves(w: World, s: State, words: seq<Word>, fuel: nat, d: Option<string>,
      safe: iset<string>)
    requires Quiet(w, s, d, safe) && forall env :: Harmless(Arguments(env, [], words), safe)
    ensures Left(s, RunSimple(w, s, words, fuel).state, d, safe)
    decreases fuel, 10 - s.depth, words, 1
  {
    hide RunAll, RunCommand, RunSource, Marked, LeavesWorld, MayLoad;
    var args := Arguments(s.environment, [], words);
    assert Harmless(args, safe);
    if args != [] {
      var eq := IndexOf(args[0], '=');
      if eq < |args[0]| {
        AssignLookup(s.environment, args[0][..eq], args[0][eq + 1..], "default");
      } else {
        BoundLeaves(s.symtab, args[0], safe);
        var binding := LookupFunction(s.symtab, args[0]);
        if binding.Some? && binding.value.UserFunction? && fuel > 0 {
          PositionalLeaves(s.environment, args, 1);
          AllLeaves(w, s.(environment := Positional(s.environment, args, 1)), binding.value.body, fuel - 1, 0, d, safe);
        } else if binding == Some(SourceCommand) {
          SourceLeaves(w, s, words, args, fuel, d, safe);
        } else if binding.Some? && !binding.value.UserFunction? && binding.value != SourceCommand {
          CommandLeaves(w, s, binding.value, args, d, safe);
        }
      }
    }
  }

  lemma {:induction false} SourceLeaves(w: World, s: State, words: seq<Word>, args: seq<string>, fuel: nat,
      d: Option<string>, safe: iset<string>)
    requires Quiet(w, s, d, safe) && (|args| > 1 ==> args[1] in safe)
    ensures Left(s, RunSource(w, s, words, args, fuel).state, d, safe)
    decreases fuel, 10 - s.depth, words, 0
  {
    hide RunAll, Marked;
    if |args| == 2 && s.depth < 10 && w.file(s.calls, args[1]).Parsed? {
      var t := s.(depth := s.depth + 1, dangling := false);
      AllLeaves(w, t, w.file(s.calls, args[1]).statements, fuel, 0, d, safe);
    }
  }

  lemma {:induction false} BoundLeaves(symtab: seq<Symbol>, name: string, safe: iset<string>)
    requires LeavesSymbols(symtab, safe)
    ensures var b := LookupFunction(symtab, name);
      && (b.Some? && b.value.UserFunction? ==> LeavesAll(b.value.body, safe))
      && (b == Some(SetCommand) ==> name == "set") && (b == Some(SourceCommand) ==> name == "source")
  {
    if symtab != [] && symtab[0].name != name { BoundLeaves(symtab[1..], name, safe); }
  }

  lemma {:induction false} PositionalLeaves(env: seq<Entry>, args: seq<string>, i: nat)
    ensures Lookup(Positional(env, args, i), "default") == Lookup(env, "default")
    decreases |args| - i
  {
    if i < |args| {
      assert Decimal(i)[|Decimal(i)| - 1] != 't';
      AssignLookup(env, Decimal(i), args[i], "default");
      PositionalLeaves(Assign(env, Decimal(i), args[i]), args, i + 1);
    }
  }

  /**
   What the commands do: `set` gives the named variable its value and changes no other; `linux`
   gives the current option its image.
   */
  lemma CommandMeans(w: World, s: State, args: seq<string>, name: string, value: string, other: string)
    requires Sound(s) && |args| >= 2 && args[1] == name + "=" + value && '=' !in name
    ensures var r := RunCommand(w, s, SetCommand, args);
      && r.rc == 0 && r.state == s.(environment := r.state.environment)
      && Lookup(r.state.environment, other) == if other == name then Some(Spaced(value, args[2..]))
        else Lookup(s.environment, other)
    ensures var r := RunCommand(w, s, LinuxCommand, args);
      && (r.rc == 0 <==> s.current.Some?) && r.state == s.(images := r.state.images) && |r.state.images| == |s.images|
      && forall i :: 0 <= i < |s.images| ==>
        r.state.images[i] == if s.current == Some(i) then Resource(args[1]) else s.images[i]
  {
    SplitAt(name, value);
    AssignLookup(s.environment, name, Spaced(value, args[2..]), other);
  }

  /** And when they fail, which changes nothing. */
  lemma CommandFails(w: World, s: State, args: seq<string>)
    requires Sound(s)
    ensures |args| < 2 || '=' !in args[1] <==> RunCommand(w, s, SetCommand, args).rc != 0
    ensures |args| < 2 || s.current == None <==> RunCommand(w, s, LinuxCommand, args).rc != 0
    ensures forall b :: b == SetCommand || b == LinuxCommand ==>
      var r := RunCommand(w, s, b, args); r.rc != 0 ==> r == Outcome(s, true, -1)
  {
  }

  lemma SplitAt(name: string, value: string)
    requires '=' !in name
    ensures var word := name + "=" + value;
      IndexOf(word, '=') == |name| < |word| && word[..|name|] == name && word[|name| + 1..] == value
  {
    var word := name + "=" + value;
    assert word[|name|] == '=';
    forall k | 0 <= k < |name| ensures word[k] != '=' { assert word[k] == name[k]; }
  }

  lemma CommandLeaves(w: World, s: State, binding: Binding, args: seq<string>, d: Option<string>, safe: iset<string>)
    requires Quiet(w, s, d, safe) && Harmless(args, safe) && args != [] && (binding == SetCommand ==> args[0] == "set")
    ensures Left(s, RunCommand(w, s, binding, args).state, d, safe)
  {
    hide Marked;
    if binding == SetCommand && |args| >= 2 && IndexOf(args[1], '=') < |args[1]| {
      var eq := IndexOf(args[1], '=');
      AssignLookup(s.environment, args[1][..eq], Spaced(args[1][eq + 1..], args[2..]), "default");
    }
  }

  lemma AllStep(w: World, s: State, body: seq<Statement>, fuel: nat, rc: int)
    requires Sound(s) && body != []
    ensures var o := Run(w, s, body[0], fuel);
      RunAll(w, s, body, fuel, rc) == if !o.ok then o else RunAll(w, o.state, body[1..], fuel, o.rc)
    ensures Run(w, s, body[0], fuel).state.depth == s.depth
  {
  }

  lemma AllEnd(w: World, s: State, body: seq<Statement>, fuel: nat, rc: int)
    requires Sound(s) && body == []
    ensures RunAll(w, s, body, fuel, rc) == Outcome(s, true, rc)
  {
  }

  lemma CasesStep(w: World, s: State, cases: seq<Case>, fuel: nat, rc: int)
    requires Sound(s) && cases != []
    ensures var o := Run(w, s, cases[0].condition, fuel);
      RunCases(w, s, cases, fuel, rc) ==
        if !o.ok then (false, o)
        else if o.rc == 0 then (true, RunAll(w, o.state, cases[0].body, fuel, 0))
        else RunCases(w, o.state, cases[1..], fuel, o.rc)
    ensures Run(w, s, cases[0].condition, fuel).state.depth == s.depth
  {
  }

  lemma CasesEnd(w: World, s: State, cases: seq<Case>, fuel: nat, rc: int)
    requires Sound(s) && cases == []
    ensures RunCases(w, s, cases, fuel, rc) == (false, Outcome(s, true, rc))
  {
  }

  lemma ForStep(w: World, s: State, variable: string, values: seq<string>, body: seq<Statement>, fuel: nat, rc: int)
    requires Sound(s) && values != []
    ensures var t := s.(environment := Assign(s.environment, variable, values[0]));
      && Sound(t) && RunAll(w, t, body, fuel, 0).state.depth == s.depth
      && var o := RunAll(w, t, body, fuel, 0);
         RunFor(w, s, variable, values, body, fuel, rc) == if !o.ok then o
           else RunFor(w, o.state, variable, values[1..], body, fuel, o.rc)
  {
  }

  lemma ForEnd(w: World, s: State, variable: string, values: seq<string>, body: seq<Statement>, fuel: nat, rc: int)
    requires Sound(s) && values == []
    ensures RunFor(w, s, variable, values, body, fuel, rc) == Outcome(s, true, rc)
  {
  }

  lemma SoundSame(s: State, environment: seq<Entry>, symtab: seq<Symbol>)
    requires Sound(s)
    ensures Sound(s.(environment := environment, symtab := symtab))
  {
  }

  /** The commands that a script starts with, the last one registered first. */
  function Builtins(): (symtab: seq<Symbol>) {
    [Symbol("terminfo", OtherCommand), Symbol("loadfont", OtherCommand), Symbol("insmod", OtherCommand),
     Symbol("export", OtherCommand), Symbol("echo", OtherCommand), Symbol("source", SourceCommand),
     Symbol("blscfg", OtherCommand), Symbol("save_env", OtherCommand), Symbol("load_env", OtherCommand),
     Symbol("false", OtherCommand), Symbol("true", OtherCommand), Symbol("test", OtherCommand),
     Symbol("[", OtherCommand), Symbol("search", OtherCommand), Symbol("devicetree", OtherCommand),
     Symbol("initrd16", OtherCommand), Symbol("initrd", OtherCommand), Symbol("linux16", LinuxCommand),
     Symbol("linux", LinuxCommand), Symbol("set", SetCommand)]
  }

  /** The directory of the configuration file. */
  function Prefix(filename: Option<string>): (prefix: string) {
    var sep := if filename.Some? then Url.Last(filename.value, '/') else -1;
    if sep >= 0 then filename.value[..sep] else "/boot/grub"
  }

  function InitialEnvironment(filename: Option<string>): (env: seq<Entry>) {
    Assign(Assign([], "prefix", Prefix(filename)), "feature_menuentry_id", "y")
  }

  /** What `script_execute` starts from. */
  function Initial(filename: Option<string>): (s: State) {
    State(InitialEnvironment(filename), Builtins(), [], [], [], None, 0, 0, false)
  }

  class Interpreter {
    const world: World
    const filename: Option<string>
    var environment: seq<Entry>
    var symtab: seq<Symbol>
    var options: seq<BootOption>
    var nOptions: nat
    var includeDepth: nat
    /** The boot image of every option created so far, and the option that commands refer to. */
    var images: seq<Option<string>>
    var current: Option<nat>
    var calls: nat
    var dangling: bool
    /** The value of `default` when each option was added. */
    ghost var defaults: seq<Option<string>>

    /** `create_script` */
    constructor (world: World, filename: Option<string>)
      ensures Valid() && this.world == world && this.filename == filename
      ensures S() == Initial(filename).(environment := [])
    {
      this.world, this.filename, environment, symtab := world, filename, [], Builtins();
      options, nOptions, includeDepth, images, current, defaults := [], 0, 0, [], None, [];
      calls, dangling := 0, false;
    }

    ghost function S(): (s: State)
      reads this
    {
      State(environment, symtab, options, defaults, images, current, includeDepth, calls, dangling)
    }

    /** `n_options` counts the options, each of which was marked when it was added. */
    ghost predicate Valid()
      reads this
    {
      nOptions == |options| && Sound(S())
    }

    /** `script_env_get` */
    method EnvGet(name: string) returns (r: Option<string>)
      ensures r == Lookup(environment, name)
    {
      var i := 0;
      assert environment[0..] == environment;
      while i < |environment|
        invariant 0 <= i <= |environment| && Lookup(environment, name) == Lookup(environment[i..], name)
      {
        if environment[i].name == name {
          return Some(environment[i].value);
        }
        i := i + 1;
      }
      return None;
    }

    /** `script_env_set` */
    method EnvSet(name: string, value: string)
      modifies this`environment
      ensures environment == Assign(old(environment), name, value)
    {
      hide Lookup, Replace;
      var i := 0;
      while i < |environment| && environment[i].name != name
        invariant 0 <= i <= |environment|
        invariant forall k :: 0 <= k < i ==> environment[k].name != name
      {
        i := i + 1;
      }
      AssignAt(environment, i, name, value);
      if i == |environment| {
        environment := [Entry(name, value)] + environment;
      } else {
        environment := environment[i := Entry(name, value)];
      }
    }

    /** `process_expansions` */
    method Expansions(words: seq<Word>) returns (args: seq<string>)
      ensures args == Arguments(environment, [], words)
    {
      var argv := new Argv();
      argv.ProcessExpansions(environment, words);
      args := Contents(argv.argv);
      FilledContents(Arguments(environment, [], words));
    }

    /** `init_env` */
    method InitEnv()
      modifies this`environment
      ensures environment == InitialEnvironment(filename)
    {
      hide Assign;
      environment := [];
      EnvSet("prefix", Prefix(filename));
      EnvSet("feature_menuentry_id", "y");
    }

    /** The loop in `function_invoke`. */
    method SetPositional(args: seq<string>)
      modifies this`environment
      ensures environment == Positional(old(environment), args, 1)
    {
      var i := 1;
      while i < |args|
        invariant 1 <= i && Positional(old(environment), args, 1) == Positional(environment, args, i)
      {
        EnvSet(Decimal(i), args[i]);
        i := i + 1;
      }
    }

    /** `statements_execute` */
    method ExecuteAll(body: seq<Statement>, fuel: nat) returns (ok: bool, rc: int)
      requires Valid()
      modifies this
      ensures Valid() && Outcome(S(), ok, rc) == RunAll(world, old(S()), body, fuel, 0)
      decreases fuel, 10 - includeDepth, body, 0
    {
      hide Sound, RunAll;
      ok, rc := true, 0;
      ghost var all := RunAll(world, S(), body, fuel, 0);
      assert body[0..] == body;
      var i := 0;
      while i < |body|
        invariant 0 <= i <= |body| && Valid() && ok && includeDepth == old(includeDepth)
        invariant all == RunAll(world, S(), body[i..], fuel, rc)
      {
        AllStep(world, S(), body[i..], fuel, rc);
        assert body[i..][1..] == body[i + 1..];
        ok, rc := Execute(body[i], fuel);
        if !ok {
          return;
        }
        i := i + 1;
      }
      AllEnd(world, S(), body[i..], fuel, rc);
    }

    method Execute(st: Statement, fuel: nat) returns (ok: bool, rc: int)
      requires Valid()
      modifies this
      ensures Valid() && Outcome(S(), ok, rc) == Run(world, old(S()), st, fuel)
      decreases fuel, 10 - includeDepth, st, 0
    {
      hide Sound, RunAll, RunCases, RunFor, RunSimple, RunMenuentry;
      ok, rc := true, 0;
      match st {
        case Simple(words) => ok, rc := ExecuteSimple(words, fuel);
        case Block(body) => ok, rc := ExecuteAll(body, fuel);
        case If(cases, hasElse, otherwise) =>
          var executed;
          executed, ok, rc := ExecuteCases(cases, fuel);
          if ok && !executed && hasElse {
            ok, rc := ExecuteAll(otherwise, fuel);
          }
        case Menuentry(words, body) => ok, rc := ExecuteMenuentry(words, body, fuel);
        case Function(name, body) =>
          SoundSame(S(), environment, [Symbol(Expand(environment, name), UserFunction(body))] + symtab);
          symtab := [Symbol(Expand(environment, name), UserFunction(body))] + symtab;
        case For(variable, words, body) =>
          var values := Expansions(words);
          ok, rc := ExecuteFor(variable, values, body, fuel);
      }
    }

    /** The loop over conditionals in `statement_if_execute`. */
    method ExecuteCases(cases: seq<Case>, fuel: nat) returns (executed: bool, ok: bool, rc: int)
      requires Valid()
      modifies this
      ensures Valid() && (executed, Outcome(S(), ok, rc)) == RunCases(world, old(S()), cases, fuel, 0)
      decreases fuel, 10 - includeDepth, cases, 0
    {
      hide Sound, RunCases, Run, RunAll;
      executed, ok, rc := false, true, 0;
      ghost var all := RunCases(world, S(), cases, fuel, 0);
      assert cases[0..] == cases;
      var i := 0;
      while i < |cases|
        invariant 0 <= i <= |cases| && Valid() && ok && !executed && includeDepth == old(includeDepth)
        invariant all == RunCases(world, S(), cases[i..], fuel, rc)
      {
        CasesStep(world, S(), cases[i..], fuel, rc);
        assert cases[i..][1..] == cases[i + 1..];
        ok, rc := Execute(cases[i].condition, fuel);
        if !ok {
          return;
        }
        if rc == 0 {
          executed := true;
          ok, rc := ExecuteAll(cases[i].body, fuel);
          return;
        }
        i := i + 1;
      }
      CasesEnd(world, S(), cases[i..], fuel, rc);
    }

    /** The loop in `statement_for_execute`. */
    method ExecuteFor(variable: string, values: seq<string>, body: seq<Statement>, fuel: nat)
        returns (ok: bool, rc: int)
      requires Valid()
      modifies this
      ensures Valid() && Outcome(S(), ok, rc) == RunFor(world, old(S()), variable, values, body, fuel, 0)
      decreases fuel, 10 - includeDepth, body, 1
    {
      hide Sound, RunFor, RunAll;
      ok, rc := true, 0;
      ghost var all := RunFor(world, S(), variable, values, body, fuel, 0);
      assert values[0..] == values;
      var i := 0;
      while i < |values|
        invariant 0 <= i <= |values| && Valid() && ok && includeDepth == old(includeDepth)
        invariant all == RunFor(world, S(), variable, values[i..], body, fuel, rc)
      {
        ForStep(world, S(), variable, values[i..], body, fuel, rc);
        assert values[i..][1..] == values[i + 1..];
        SoundSame(S(), Assign(environment, variable, values[i]), symtab);
        EnvSet(variable, values[i]);
        ok, rc := ExecuteAll(body, fuel);
        if !ok {
          return;
        }
        i := i + 1;
      }
      ForEnd(world, S(), variable, values[i..], body, fuel, rc);
    }

    /** `statement_menuentry_execute` */
    method ExecuteMenuentry(words: seq<Word>, body: seq<Statement>, fuel: nat) returns (ok: bool, rc: int)
      requires Valid()
      modifies this
      ensures Valid() && Outcome(S(), ok, rc) == RunMenuentry(world, old(S()), words, body, fuel)
      decreases fuel, 10 - includeDepth, body, 1
    {
      hide RunAll, Marked, IsDefault, Arguments, Lookup, IdOf;
      var args := Expansions(words);
      var id := FindId(args);
      var name := if |args| > 0 then args[0] else "(unknown)";
      var created := |images|;
      images := images + [None];
      current := Some(created);
      ok, rc := ExecuteAll(body, fuel);
      if !ok {
        return;
      }
      if images[created] == None {
        return true, -1;
      }
      ghost var after := AddOption(S(), name, id, images[created].value);
      var default := EnvGet("default");
      options := options + [BootOption(name, id, images[created], IsDefault(default, nOptions, id, name))];
      defaults := defaults + [default];
      nOptions := nOptions + 1;
      current := None;
      assert S() == after;
      rc := 0;
    }

    /** `statement_simple_execute` and `function_invoke` */
    method ExecuteSimple(words: seq<Word>, fuel: nat) returns (ok: bool, rc: int)
      requires Valid()
      modifies this
      ensures Valid() && Outcome(S(), ok, rc) == RunSimple(world, old(S()), words, fuel)
      decreases fuel, 10 - includeDepth, words, 1
    {
      hide Sound, RunAll, RunSource, RunCommand, Arguments, LookupFunction, Assign, Positional;
      ok, rc := true, 0;
      var args := Expansions(words);
      if |args| == 0 {
        return;
      }
      var eq := IndexOf(args[0], '=');
      if eq < |args[0]| {
        SoundSame(S(), Assign(environment, args[0][..eq], args[0][eq + 1..]), symtab);
        EnvSet(args[0][..eq], args[0][eq + 1..]);
        return;
      }
      var entry := LookupFunction(symtab, args[0]);
      if entry == None {
        return true, 1;
      }
      match entry.value {
        case UserFunction(body) =>
          if fuel == 0 {
            return false, 0;
          }
          SoundSame(S(), Positional(environment, args, 1), symtab);
          SetPositional(args);
          ok, rc := ExecuteAll(body, fuel - 1);
        case SourceCommand => ok, rc := ExecuteSource(words, args, fuel);
        case SetCommand => rc := ExecuteCommand(SetCommand, args);
        case LinuxCommand => rc := ExecuteCommand(LinuxCommand, args);
        case OtherCommand => rc := ExecuteCommand(OtherCommand, args);
      }
    }

    /** `builtin_source`: at most ten files deep. */
    method ExecuteSource(ghost words: seq<Word>, args: seq<string>, fuel: nat) returns (ok: bool, rc: int)
      requires Valid()
      modifies this
      ensures Valid() && Outcome(S(), ok, rc) == RunSource(world, old(S()), words, args, fuel)
      decreases fuel, 10 - includeDepth, words, 0
    {
      hide RunAll, Marked;
      ok, rc := true, 0;
      if |args| != 2 || includeDepth >= 10 {
        return;
      }
      var file := world.file(calls, args[1]);
      if file == Missing {
        return;
      }
      var before := dangling;
      includeDepth := includeDepth + 1;
      if file.Parsed? {
        dangling := false;
        ok, rc := ExecuteAll(file.statements, fuel);
      }
      ok := ok && !dangling;
      includeDepth := includeDepth - 1;
      if file.Parsed? {
        dangling, rc := before, 1;
      } else {
        dangling := true;
      }
    }

    /** `builtin_set`, `builtin_linux` and the commands that are not modelled. */
    method ExecuteCommand(binding: Binding, args: seq<string>) returns (rc: int)
      requires Valid()
      modifies this`environment, this`images, this`calls
      ensures Valid() && Outcome(S(), true, rc) == RunCommand(world, old(S()), binding, args)
    {
      hide Marked;
      match binding {
        case SetCommand =>
          if |args| < 2 {
            return -1;
          }
          var eq := IndexOf(args[1], '=');
          if eq == |args[1]| {
            return -1;
          }
          EnvSet(args[1][..eq], Spaced(args[1][eq + 1..], args[2..]));
          rc := 0;
        case LinuxCommand =>
          if current == None || |args| < 2 {
            return -1;
          }
          images := images[current.value := Resource(args[1])];
          rc := 0;
        case _ =>
          var r := world.run(calls, args, environment);
          rc, environment, calls := r.0, r.1, calls + 1;
      }
    }

    /** `set_fallback_default`: if no option is marked, mark the first. */
    method SetFallbackDefault()
      requires Valid()
      modifies this`options
      ensures options == WithFallback(old(options))
    {
      var have := false;
      var i := 0;
      while i < |options|
        invariant 0 <= i <= |options| && (have <==> exists k :: 0 <= k < i && options[k].isDefault)
      {
        have := have || options[i].isDefault;
        i := i + 1;
      }
      if !have && |options| > 0 {
        options := options[0 := options[0].(isDefault := true)];
      }
    }

    /** `script_execute` of a new script; `added` is what the discovery context receives. */
    method ScriptExecute(statements: seq<Statement>, fuel: nat) returns (ok: bool, added: seq<BootOption>)
      requires Valid() && S() == Initial(filename).(environment := environment)
      modifies this
      ensures Sound(Initial(filename)) && ok == RunAll(world, Initial(filename), statements, fuel, 0).ok
      ensures ok ==> added == WithFallback(RunAll(world, Initial(filename), statements, fuel, 0).state.options)
      ensures ok ==> |added| == nOptions == |defaults|
      ensures ok ==> forall i :: 0 <= i < |added| ==>
        added[i].image.Some? && (added[i].isDefault <==> Chosen(defaults, added, i))
      ensures ok ==> forall k: nat :: AllPoint(defaults, k) ==> OnlyDefault(added, k)
      ensures ok ==> forall n: nat, safe: iset<string> ::
        n <= |statements| && Settles(world, Initial(filename), statements[..n], statements[n..], fuel, safe) ==>
          OnlyDefault(added, Selected(world, Initial(filename), statements[..n], fuel))
    {
      hide RunAll, Numeral, Chosen, IsDefault, Builtins, InitialEnvironment, Settles, Selected, AllPoint, OnlyDefault;
      InitEnv();
      var rc;
      ok, rc := ExecuteAll(statements, fuel);
      if !ok {
        return false, [];
      }
      FallbackMeans(options, defaults);
      forall k: nat | AllPoint(defaults, k) ensures OnlyDefault(WithFallback(options), k) {
        PointedAt(options, defaults, k);
      }
      forall n: nat, safe: iset<string> |
        n <= |statements| && Settles(world, Initial(filename), statements[..n], statements[n..], fuel, safe)
        ensures OnlyDefault(WithFallback(options), Selected(world, Initial(filename), statements[..n], fuel))
      {
        assert statements[..n] + statements[n..] == statements;
        FixedDefault(world, Initial(filename), statements[..n], statements[n..], fuel, safe);
      }
      SetFallbackDefault();
      added := options;
      options := [];
    }
  }

  function WithFallback(options: seq<BootOption>): (r: seq<BootOption>)
  {
    if options == [] || exists k :: 0 <= k < |options| && options[k].isDefault then options
    else options[0 := options[0].(isDefault := true)]
  }

  /** `default` pointed at option `i` when it was added. */
  ghost predicate Explicit(defaults: seq<Option<string>>, options: seq<BootOption>, i: int)
    requires 0 <= i < |options| == |defaults|
  {
    IsDefault(defaults[i], i, options[i].id, options[i].name)
  }

  /** An option is a default if `default` pointed at it, and the first is if it pointed at none. */
  ghost predicate Chosen(defaults: seq<Option<string>>, options: seq<BootOption>, i: int)
    requires 0 <= i < |options| == |defaults|
  {
    Explicit(defaults, options, i) || (i == 0 && forall k :: 0 <= k < |options| ==> !Explicit(defaults, options, k))
  }

  lemma FallbackMeans(options: seq<BootOption>, defaults: seq<Option<string>>)
    requires Marked(options, defaults)
    ensures var r := WithFallback(options);
      && |r| == |options|
      && forall i :: 0 <= i < |r| ==> r[i].image.Some? && (r[i].isDefault <==> Chosen(defaults, r, i))
  {
    hide IsDefault;
    var r := WithFallback(options);
    forall i | 0 <= i < |options| ensures Explicit(defaults, r, i) <==> options[i].isDefault {
    }
  }

  /** There is a default as soon as there is an option. */
  lemma SomeDefault(defaults: seq<Option<string>>, options: seq<BootOption>)
    requires |options| == |defaults| > 0
    ensures exists i :: 0 <= i < |options| && Chosen(defaults, options, i)
  {
    if exists k :: 0 <= k < |options| && Explicit(defaults, options, k) {
      var k :| 0 <= k < |options| && Explicit(defaults, options, k);
      assert Chosen(defaults, options, k);
    } else {
      assert Chosen(defaults, options, 0);
    }
  }

  /**
   While `default` is the numeral k, exactly the option at position k is the default, or the first
   if there is none.
   */
  lemma FixedNumeral(defaults: seq<Option<string>>, options: seq<BootOption>, k: nat, i: int)
    requires |options| == |defaults| && 0 <= i < |options|
    requires forall j :: 0 <= j < |defaults| ==> defaults[j].Some? && Numeral(defaults[j].value) == Some(k)
    ensures Chosen(defaults, options, i) <==> i == if k < |options| then k else 0
  {
    hide Numeral;
    if k < |options| { assert Explicit(defaults, options, k); }
  }

  /** `default` was the numeral k whenever an option was added. */
  ghost predicate AllPoint(defaults: seq<Option<string>>, k: nat) {
    forall j :: 0 <= j < |defaults| ==> defaults[j].Some? && Numeral(defaults[j].value) == Some(k)
  }

  /** Exactly one option is the default: the one at position k, or the first if there is none. */
  ghost predicate OnlyDefault(options: seq<BootOption>, k: nat) {
    forall i :: 0 <= i < |options| ==> (options[i].isDefault <==> i == if k < |options| then k else 0)
  }

  lemma PointedAt(options: seq<BootOption>, defaults: seq<Option<string>>, k: nat)
    requires Marked(options, defaults) && AllPoint(defaults, k)
    ensures OnlyDefault(WithFallback(options), k)
  {
    hide Numeral, Chosen, IsDefault;
    FallbackMeans(options, defaults);
    var r := WithFallback(options);
    forall i | 0 <= i < |r| ensures r[i].isDefault <==> i == if k < |r| then k else 0 {
      FixedNumeral(defaults, r, k, i);
    }
  }

  /** Running two lists of statements is running one after the other. */
  lemma {:induction false} AllJoined(w: World, s: State, a: seq<Statement>, b: seq<Statement>, fuel: nat, rc: int)
    requires Sound(s)
    ensures var o := RunAll(w, s, a, fuel, rc);
      RunAll(w, s, a + b, fuel, rc) == if o.ok then RunAll(w, o.state, b, fuel, o.rc) else o
    decreases |a|
  {
    hide Sound, Run, RunAll;
    if a == [] {
      AllEnd(w, s, a, fuel, rc);
      assert a + b == b;
    } else {
      AllStep(w, s, a, fuel, rc);
      AllStep(w, s, a + b, fuel, rc);
      assert (a + b)[0] == a[0] && (a + b)[1..] == a[1..] + b;
      var o := Run(w, s, a[0], fuel);
      if o.ok { AllJoined(w, o.state, a[1..], b, fuel, o.rc); }
    }
  }

  /** `pre` adds no option and leaves a numeral in `default`, and `rest` leaves it alone. */
  ghost predicate Settles(w: World, s: State, pre: seq<Statement>, rest: seq<Statement>, fuel: nat, safe: iset<string>)
    requires Sound(s)
  {
    var o := RunAll(w, s, pre, fuel, 0);
    && o.ok && o.state.options == [] && Quiet(w, o.state, Lookup(o.state.environment, "default"), safe)
    && Lookup(o.state.environment, "default").Some? && LeavesAll(rest, safe)
    && Numeral(Lookup(o.state.environment, "default").value).Some?
  }

  /** The position that `default` then names. */
  ghost function Selected(w: World, s: State, pre: seq<Statement>, fuel: nat): (k: nat)
    requires Sound(s)
  {
    var d := Lookup(RunAll(w, s, pre, fuel, 0).state.environment, "default");
    if d.Some? && Numeral(d.value).Some? then Numeral(d.value).value else 0
  }

  /** A script that sets `default` to a numeral first and then leaves it alone has exactly one default. */
  lemma FixedDefault(w: World, s: State, pre: seq<Statement>, rest: seq<Statement>, fuel: nat, safe: iset<string>)
    requires Sound(s) && Settles(w, s, pre, rest, fuel, safe)
    ensures var r := RunAll(w, s, pre + rest, fuel, 0).state;
      && AllPoint(r.defaults, Selected(w, s, pre, fuel))
      && OnlyDefault(WithFallback(r.options), Selected(w, s, pre, fuel))
  {
    hide RunAll, LeavesAll, Numeral, LeavesWorld, LeavesSymbols, IsDefault, WithFallback;
    var o := RunAll(w, s, pre, fuel, 0);
    var d := Lookup(o.state.environment, "default");
    AllJoined(w, s, pre, rest, fuel, 0);
    AllLeaves(w, o.state, rest, fuel, o.rc, d, safe);
    var r := RunAll(w, s, pre + rest, fuel, 0).state;
    PointedAt(r.options, r.defaults, Selected(w, s, pre, fuel));
  }

  // --- scripts that set `default` ---

  lemma ArgumentsOne(env: seq<Entry>, a: string)
    ensures Arguments(env, [], [[Text(a, false)]]) == [a]
  {
    assert "" + a == a;
    var word := [Text(a, false)];
    ExtendAllStep(env, [""], word);
    ExtendAllEnd(env, [a], word[1..]);
    ArgumentsStep(env, [], [word]);
    ArgumentsEnd(env, [a], [word][1..]);
    assert [] + [""] == [""];
  }

  lemma ArgumentsTwo(env: seq<Entry>, a: string, b: string)
    ensures Arguments(env, [], [[Text(a, false)], [Text(b, false)]]) == [a, b]
  {
    var x, y := [Text(a, false)], [Text(b, false)];
    assert "" + a == a && "" + b == b;
    ArgumentsStep(env, [], [x, y]);
    assert [] + [""] == [""] && [x, y][1..] == [y];
    ExtendAllStep(env, [""], x);
    ExtendAllEnd(env, [a], x[1..]);
    ArgumentsStep(env, [a], [y]);
    var none := [y][1..];
    assert [a] + [""] == [a, ""] && |none| == 0;
    ExtendAllStep(env, [a, ""], y);
    var args := [a, ""];
    assert Extend(args, b, false) == args[1 := args[1] + b] == [a, b];
    assert Extend([""], a, false) == [""][0 := [""][0] + a] == [a];
    ExtendAllEnd(env, [a, b], y[1..]);
    ArgumentsEnd(env, [a, b], none);
  }

  /** `COMMAND ARGUMENT` */
  function Command(name: string, arg: string): (st: Statement) {
    Simple([[Text(name, false)], [Text(arg, false)]])
  }

  /** `set default=VALUE` */
  function SetDefault(value: string): (st: Statement) {
    Command("set", "default" + "=" + value)
  }

  /** A menu entry with nothing but a kernel. */
  datatype Kernel = Kernel(name: string, path: string)

  function BootEntry(k: Kernel): (st: Statement) {
    Menuentry([[Text(k.name, false)]], [Command("linux", k.path)])
  }

  function Menu(kernels: seq<Kernel>): (body: seq<Statement>) {
    if kernels == [] then [] else [BootEntry(kernels[0])] + Menu(kernels[1..])
  }

  ghost predicate Bootable(kernels: seq<Kernel>) {
    forall i :: 0 <= i < |kernels| ==> Resource(kernels[i].path).Some?
  }

  lemma {:induction false} BoundAt(symtab: seq<Symbol>, i: nat)
    requires i < |symtab| && forall k :: 0 <= k < i ==> symtab[k].name != symtab[i].name
    ensures LookupFunction(symtab, symtab[i].name) == Some(symtab[i].binding)
  {
    if i > 0 { BoundAt(symtab[1..], i - 1); }
  }

  /** No name is bound twice, so each command is found. */
  lemma BuiltinsBound()
    ensures LookupFunction(Builtins(), "linux") == Some(LinuxCommand)
    ensures LookupFunction(Builtins(), "set") == Some(SetCommand)
    ensures LookupFunction(Builtins(), "source") == Some(SourceCommand)
  {
    hide LookupFunction;
    NamesApart();
    BoundAt(Builtins(), 18);
    BoundAt(Builtins(), 19);
    BoundAt(Builtins(), 5);
  }

  lemma NamesApart()
    ensures forall k :: 0 <= k < 18 ==> Builtins()[k].name != "linux"
    ensures forall k :: 0 <= k < 19 ==> Builtins()[k].name != "set"
    ensures forall k :: 0 <= k < 5 ==> Builtins()[k].name != "source"
  {
    forall k | 0 <= k < 19 && k != 5
      ensures var n := Builtins()[k].name; n[0] != 's' || |n| > 3
    {
    }
    forall k | 0 <= k < 18 ensures var n := Builtins()[k].name; |n| != 5 || n[0] != 'l' {
    }
  }

  lemma CommandRun(w: World, s: State, name: string, arg: string, fuel: nat)
    requires Sound(s) && '=' !in name
    ensures var b := LookupFunction(s.symtab, name);
      b == Some(SetCommand) || b == Some(LinuxCommand) ==>
        Run(w, s, Command(name, arg), fuel) == RunCommand(w, s, b.value, [name, arg])
  {
    ArgumentsTwo(s.environment, name, arg);
    hide Arguments, Marked, LookupFunction, RunCommand;
    NotAssigned(name);
  }

  lemma NotAssigned(word: string)
    requires '=' !in word
    ensures IndexOf(word, '=') == |word|
  {
  }

  lemma SetDefaultRun(w: World, s: State, value: string, fuel: nat)
    requires Sound(s) && LookupFunction(s.symtab, "set") == Some(SetCommand)
    ensures Run(w, s, SetDefault(value), fuel) ==
      Outcome(s.(environment := Assign(s.environment, "default", value)), true, 0)
  {
    CommandRun(w, s, "set", "default" + "=" + value, fuel);
    hide Assign, Marked, Run, LookupFunction;
    SplitAt("default", value);
  }

  lemma EntryRun(w: World, s: State, k: Kernel, fuel: nat)
    requires Sound(s) && LookupFunction(s.symtab, "linux") == Some(LinuxCommand) && Resource(k.path).Some?
    ensures var r := Run(w, s, BootEntry(k), fuel);
      && r.ok && r.state.symtab == s.symtab && r.state.environment == s.environment
      && r.state.defaults == s.defaults + [Lookup(s.environment, "default")]
      && |r.state.options| == |s.options| + 1 && r.state.options[|s.options|].name == k.name
  {
    var body := [Command("linux", k.path)];
    var t := s.(images := s.images + [None], current := Some(|s.images|));
    assert Sound(t);
    ArgumentsOne(s.environment, k.name);
    CommandRun(w, t, "linux", k.path, fuel);
    hide Marked, IsDefault, RunSimple, Arguments, Lookup, LookupFunction, RunAll, Resource, IdOf;
    AllStep(w, t, body, fuel, 0);
    var o := Run(w, t, body[0], fuel);
    AllEnd(w, o.state, body[1..], fuel, o.rc);
  }

  /** Every kernel of a menu becomes an option. */
  lemma {:induction false} MenuRun(w: World, s: State, kernels: seq<Kernel>, fuel: nat, rc: int)
    requires Sound(s) && LookupFunction(s.symtab, "linux") == Some(LinuxCommand) && Bootable(kernels)
    ensures var r := RunAll(w, s, Menu(kernels), fuel, rc);
      && r.ok && |r.state.options| == |s.options| + |kernels|
      && forall i :: 0 <= i < |kernels| ==> r.state.options[|s.options| + i].name == kernels[i].name
    decreases |kernels|
  {
    hide Sound, Run, LookupFunction, Resource, RunAll;
    if kernels == [] {
      AllEnd(w, s, Menu(kernels), fuel, rc);
    } else {
      EntryRun(w, s, kernels[0], fuel);
      AllStep(w, s, Menu(kernels), fuel, rc);
      var o := Run(w, s, BootEntry(kernels[0]), fuel);
      assert Menu(kernels)[1..] == Menu(kernels[1..]);
      MenuRun(w, o.state, kernels[1..], fuel, o.rc);
      var r := RunAll(w, o.state, Menu(kernels[1..]), fuel, o.rc);
      MenuNames(s.options, o.state.options, r.state.options, kernels);
    }
  }

  lemma MenuNames(a: seq<BootOption>, b: seq<BootOption>, c: seq<BootOption>, kernels: seq<Kernel>)
    requires kernels != [] && |b| == |a| + 1 && b[|a|].name == kernels[0].name && b <= c && |c| == |a| + |kernels|
    requires forall i :: 0 <= i < |kernels[1..]| ==> c[|b| + i].name == kernels[1..][i].name
    ensures forall i :: 0 <= i < |kernels| ==> c[|a| + i].name == kernels[i].name
  {
    forall i | 0 <= i < |kernels| ensures c[|a| + i].name == kernels[i].name {
      if i > 0 { assert kernels[1..][i - 1] == kernels[i] && c[|b| + (i - 1)] == c[|a| + i]; }
    }
  }

  lemma LinuxLeaves(path: string, safe: iset<string>)
    ensures Leaves(Command("linux", path), safe)
  {
    forall env ensures Harmless(Arguments(env, [], [[Text("linux", false)], [Text(path, false)]]), safe) {
      ArgumentsTwo(env, "linux", path);
      NotAssigned("linux");
    }
  }

  /** A menu leaves `default` alone. */
  lemma {:induction false} MenuLeaves(kernels: seq<Kernel>, safe: iset<string>)
    ensures LeavesAll(Menu(kernels), safe)
  {
    if kernels != [] {
      LinuxLeaves(kernels[0].path, safe);
      assert LeavesAll([Command("linux", kernels[0].path)], safe);
      MenuLeaves(kernels[1..], safe);
      assert Menu(kernels)[1..] == Menu(kernels[1..]);
    }
  }

  lemma BuiltinsLeave(safe: iset<string>)
    ensures LeavesSymbols(Builtins(), safe)
  {
  }

  /** `set default=VALUE` and a menu: every kernel becomes an option, and the one the numeral points at the default. */
  lemma DefaultIndex(w: World, filename: Option<string>, value: string, kernels: seq<Kernel>, fuel: nat)
    requires Builtin(w) && Numeral(value).Some? && Bootable(kernels)
    ensures Sound(Initial(filename)) && Settles(w, Initial(filename), [SetDefault(value)], Menu(kernels), fuel, iset{})
    ensures Selected(w, Initial(filename), [SetDefault(value)], fuel) == Numeral(value).value
    ensures var r := RunAll(w, Initial(filename), [SetDefault(value)] + Menu(kernels), fuel, 0);
      && r.ok && |r.state.options| == |kernels|
      && forall i :: 0 <= i < |kernels| ==> r.state.options[i].name == kernels[i].name
  {
    var s := Initial(filename);
    BuiltinsBound();
    BuiltinsLeave(iset{});
    MenuLeaves(kernels, iset{});
    hide RunAll, Run, LookupFunction, Builtins, Assign, Lookup, Numeral, LeavesAll, LeavesSymbols, InitialEnvironment;
    SetDefaultRun(w, s, value, fuel);
    AssignLookup(s.environment, "default", value, "default");
    AllStep(w, s, [SetDefault(value)], fuel, 0);
    var t := s.(environment := Assign(s.environment, "default", value));
    AllEnd(w, t, [SetDefault(value)][1..], fuel, 0);
    AllJoined(w, s, [SetDefault(value)], Menu(kernels), fuel, 0);
    MenuRun(w, t, kernels, fuel, 0);
  }

  /** The three entries of test/parser/test-grub2-default-index.c: the second is the default, and no other. */
  method DefaultIndexScript(world: World, filename: Option<string>, fuel: nat) returns (added: seq<BootOption>)
    requires Builtin(world)
    ensures |added| == 3 && forall i :: 0 <= i < 3 ==> (added[i].isDefault <==> i == 1)
    ensures added[1].name == "test-option-1"
  {
    hide RunAll, Builtin, Settles, Selected, Numeral, Initial, Marked, Chosen, AllPoint;
    var kernels := [Kernel("test-option-0", "/vmlinux.0"), Kernel("test-option-1", "/vmlinux.1"),
                    Kernel("test-option-2", "/vmlinux.2")];
    var pre, menu := [SetDefault("1")], Menu(kernels);
    OneDigit('1');
    DefaultIndex(world, filename, "1", kernels, fuel);
    var script := new Interpreter(world, filename);
    var ok;
    assert (pre + menu)[..1] == pre && (pre + menu)[1..] == menu;
    ok, added := script.ScriptExecute(pre + menu, fuel);
  }

  /** The script `set default=0; menuentry; set default=1; menuentry` marks both entries. */
  lemma MovingDefault(w: World, filename: Option<string>, kernel: Kernel, fuel: nat)
    requires Resource(kernel.path).Some?
    ensures Sound(Initial(filename))
    ensures var r := RunAll(w, Initial(filename),
        [SetDefault("0"), BootEntry(kernel), SetDefault("1"), BootEntry(kernel)], fuel, 0);
      && r.ok && r.state.defaults == [Some("0"), Some("1")] && |r.state.options| == 2
      && Chosen(r.state.defaults, r.state.options, 0) && Chosen(r.state.defaults, r.state.options, 1)
  {
    BuiltinsBound();
    assert Sound(Initial(filename));
    MovesOn(w, Initial(filename), kernel, fuel);
  }

  /** `set default=VALUE` and an entry, which is marked by the value. */
  lemma SetThenEntry(w: World, s: State, value: string, kernel: Kernel, fuel: nat)
    requires Sound(s) && LookupFunction(s.symtab, "set") == Some(SetCommand)
    requires LookupFunction(s.symtab, "linux") == Some(LinuxCommand) && Resource(kernel.path).Some?
    ensures var a := Run(w, s, SetDefault(value), fuel);
      && a.ok && Run(w, a.state, BootEntry(kernel), fuel).ok
      && var r := Run(w, a.state, BootEntry(kernel), fuel).state;
         && r.symtab == s.symtab && r.defaults == s.defaults + [Some(value)] && |r.options| == |s.options| + 1
  {
    hide Run, LookupFunction, Assign, Lookup, Resource, Sound;
    SetDefaultRun(w, s, value, fuel);
    AssignLookup(s.environment, "default", value, "default");
    SoundSame(s, Assign(s.environment, "default", value), s.symtab);
    EntryRun(w, s.(environment := Assign(s.environment, "default", value)), kernel, fuel);
  }

  lemma MovesOn(w: World, s: State, kernel: Kernel, fuel: nat)
    requires Sound(s) && s.options == [] && LookupFunction(s.symtab, "set") == Some(SetCommand)
    requires LookupFunction(s.symtab, "linux") == Some(LinuxCommand) && Resource(kernel.path).Some?
    ensures var r := RunAll(w, s, [SetDefault("0"), BootEntry(kernel), SetDefault("1"), BootEntry(kernel)], fuel, 0);
      && r.ok && r.state.defaults == [Some("0"), Some("1")] && |r.state.options| == 2
      && Chosen(r.state.defaults, r.state.options, 0) && Chosen(r.state.defaults, r.state.options, 1)
  {
    assert s.defaults == [];
    hide RunAll, Run, LookupFunction, Sound, Chosen, Resource, SetDefault, BootEntry;
    SetThenEntry(w, s, "0", kernel, fuel);
    var t := Run(w, Run(w, s, SetDefault("0"), fuel).state, BootEntry(kernel), fuel).state;
    SetThenEntry(w, t, "1", kernel, fuel);
    FourSteps(w, s, [SetDefault("0"), BootEntry(kernel), SetDefault("1"), BootEntry(kernel)], fuel);
    var u := Run(w, Run(w, t, SetDefault("1"), fuel).state, BootEntry(kernel), fuel).state;
    BothChosen(u.options);
  }

  /** A file that cannot be parsed may be sourced once: the second time frees the running statements again. */
  lemma UnparsableTwice(w: World, s: State, file: string, fuel: nat)
    requires Sound(s) && s.depth < 10 && !s.dangling && LookupFunction(s.symtab, "source") == Some(SourceCommand)
    requires w.file(s.calls, file) == Unparsable
    ensures var once := RunAll(w, s, [Command("source", file)], fuel, 0);
      once.ok && once.state == s.(dangling := true)
    ensures !RunAll(w, s, [Command("source", file), Command("source", file)], fuel, 0).ok
  {
    var st, t := Command("source", file), s.(dangling := true);
    SourceRun(w, s, file, fuel);
    SourceRun(w, t, file, fuel);
    hide Run, LookupFunction, Sound, RunAll;
    AllStep(w, s, [st], fuel, 0);
    AllEnd(w, t, [st][1..], fuel, 0);
    AllStep(w, s, [st, st], fuel, 0);
    AllStep(w, t, [st, st][1..], fuel, 0);
  }

  lemma SourceRun(w: World, s: State, file: string, fuel: nat)
    requires Sound(s) && s.depth < 10 && LookupFunction(s.symtab, "source") == Some(SourceCommand)
    requires w.file(s.calls, file) == Unparsable
    ensures Run(w, s, Command("source", file), fuel) == Outcome(s.(dangling := true), !s.dangling, 0)
  {
    ArgumentsTwo(s.environment, "source", file);
    NotAssigned("source");
    var words := [[Text("source", false)], [Text(file, false)]];
    assert RunSource(w, s, words, ["source", file], fuel) == Outcome(s.(dangling := true), !s.dangling, 0);
    hide Arguments, Marked, LookupFunction, RunSource;
  }

  lemma FourSteps(w: World, s: State, body: seq<Statement>, fuel: nat)
    requires Sound(s) && |body| == 4 && Run(w, s, body[0], fuel).ok
    requires var a := Run(w, s, body[0], fuel); Run(w, a.state, body[1], fuel).ok
    requires var a := Run(w, s, body[0], fuel);
      var b := Run(w, a.state, body[1], fuel);
      Run(w, b.state, body[2], fuel).ok
    ensures var a := Run(w, s, body[0], fuel);
      var b := Run(w, a.state, body[1], fuel);
      var c := Run(w, b.state, body[2], fuel);
      RunAll(w, s, body, fuel, 0) == Run(w, c.state, body[3], fuel)
  {
    hide Run, Sound;
    var a := Run(w, s, body[0], fuel);
    var b := Run(w, a.state, body[1], fuel);
    var c := Run(w, b.state, body[2], fuel);
    var d := Run(w, c.state, body[3], fuel);
    AllStep(w, s, body, fuel, 0);
    AllStep(w, a.state, body[1..], fuel, a.rc);
    AllStep(w, b.state, body[2..], fuel, b.rc);
    AllStep(w, c.state, body[3..], fuel, c.rc);
    assert body[1..][1..] == body[2..] && body[2..][1..] == body[3..] && body[3..][1..] == [];
    if d.ok { AllEnd(w, d.state, [], fuel, d.rc); }
  }

  lemma BothChosen(options: seq<BootOption>)
    requires |options| == 2
    ensures Chosen([Some("0"), Some("1")], options, 0) && Chosen([Some("0"), Some("1")], options, 1)
  {
    OneDigit('0');
    OneDigit('1');
  }

  lemma OneDigit(c: char)
    requires IsDigit(c)
    ensures Numeral([c]) == Some(c as int - '0' as int)
  {
    assert SkipSpaces([c]) == [c];
    assert Value([]) == 0 && [c][..0] == [];
  }
}
