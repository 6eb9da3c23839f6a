/**
 Saving and loading the environment: when a saved variable is what the loader
 then reads, and what a whole `save_env` leaves behind.
 */
module GrubEnvSave {
  import opened Common
  import opened GrubEnv
  import opened GrubEnvBlock

  /** The loader's view of a list of lines. */
  function LoadLines(lines: seq<string>, env: map<string, string>): (r: map<string, string>) {
    if lines == [] then env else Define(LoadLines(lines[..|lines| - 1], env), lines[|lines| - 1])
  }

  lemma {:induction false} LoadLinesSplit(a: seq<string>, b: seq<string>, env: map<string, string>)
    ensures LoadLines(a + b, env) == LoadLines(b, LoadLines(a, env))
    decreases |b|
  {
    if b == [] {
      assert a + b == a;
    } else {
      assert (a + b)[..|a + b| - 1] == a + b[..|b| - 1];
      LoadLinesSplit(a, b[..|b| - 1], env);
    }
  }

  /** The loader reads a well-formed block line by line and ignores the padding. */
  lemma {:induction false} LoadRender(lines: seq<string>, pad: nat, env: map<string, string>)
    requires AreLines(lines)
    ensures LoadText(Render(lines) + Padding(pad), env) == LoadLines(lines, env)
  {
    var b := Render(lines) + Padding(pad);
    if lines == [] {
      assert b == Padding(pad);
      FindIs(b, '\n', 0, |b|);
      if pad > 0 { assert b[..|b|] == b; }
    } else {
      var l := lines[0];
      assert b == l + "\n" + (Render(lines[1..]) + Padding(pad));
      assert forall k :: 0 <= k < |l| ==> b[k] == l[k];
      FindIs(b, '\n', 0, |l|);
      assert b[..|l|] == l && b[|l| + 1..] == Render(lines[1..]) + Padding(pad);
      LoadRender(lines[1..], pad, Define(env, l));
      assert lines == [l] + lines[1..];
      LoadLinesSplit([l], lines[1..], env);
      assert LoadLines([l], env) == Define(env, l) by { assert [l][..0] == []; }
    }
  }

  lemma {:induction false} RenderHasNoNul(lines: seq<string>)
    requires AreLines(lines)
    ensures '\0' !in Render(lines)
  {
    if lines != [] { RenderHasNoNul(lines[1..]); }
  }

  /** What `load_env` reads from a well-formed file. */
  lemma LoadBlock(lines: seq<string>, pad: nat, env: map<string, string>)
    requires AreLines(lines)
    ensures var b := Block(SIGNATURE, lines, pad);
            SIGNATURE <= b && LoadText(CString(b[|SIGNATURE|..]), env) == LoadLines(lines, env)
  {
    hide Render, Padding, LoadText, LoadLines;
    LoadBlockAfter(SIGNATURE, lines, pad, env);
  }

  lemma LoadBlockAfter(pre: string, lines: seq<string>, pad: nat, env: map<string, string>)
    requires AreLines(lines)
    ensures var b := Block(pre, lines, pad); pre <= b && LoadText(CString(b[|pre|..]), env) == LoadLines(lines, env)
  {
    var b := Block(pre, lines, pad);
    var text := Render(lines) + Padding(pad);
    assert b == pre + text;
    assert b[|pre|..] == text;
    RenderHasNoNul(lines);
    FindIs(text, '\0', 0, |text|);
    LoadRender(lines, pad, env);
    assert text[..|text|] == text;
  }

  // ---------- names and values that survive the trip ----------

  /** A name the loader can read back. */
  ghost predicate CleanName(name: string) {
    name != "" && '=' !in name && name[0] != '#' && IsLine(name)
  }

  lemma EntryOfLine(name: string, value: string)
    requires CleanName(name)
    ensures EntryOf(TheLine(name, value)) == Some((name, value))
  {
    var line := TheLine(name, value);
    assert forall k :: 0 <= k < |name| ==> line[k] == name[k];
    FindIs(line, '=', 0, |name|);
    assert line[..|name|] == name && line[|name| + 1..] == value;
  }

  /** For a clean name the scan and the loader agree on which lines define it. */
  lemma IsForIff(line: string, name: string)
    requires CleanName(name)
    ensures IsFor(line, name) <==> EntryOf(line).Some? && EntryOf(line).value.0 == name
  {
    if IsFor(line, name) { assert line[0] == name[0]; }
  }

  // ---------- which line the edit picked ----------

  lemma {:induction false} PickFacts(lines: seq<string>, i: nat, name: string, c: Pick)
    requires i <= |lines| && (c.NoLine? || c.k < i)
    requires c.InvalidLine? ==> HasNoSeparator(lines[c.k])
    requires c.EntryLine? ==> IsFor(lines[c.k], name)
    requires !c.EntryLine? ==> forall j :: 0 <= j < i ==> !IsFor(lines[j], name)
    requires c.EntryLine? ==> forall j :: 0 <= j < c.k ==> !IsFor(lines[j], name)
    ensures var p := PickFrom(lines, i, name, c);
            && (p.NoLine? || p.k < |lines|)
            && (p.InvalidLine? ==> HasNoSeparator(lines[p.k]))
            && (p.EntryLine? ==> IsFor(lines[p.k], name) && forall j :: 0 <= j < p.k ==> !IsFor(lines[j], name))
            && (!p.EntryLine? ==> forall j :: 0 <= j < |lines| ==> !IsFor(lines[j], name))
    decreases |lines| - i
  {
    if i < |lines| {
      PickFacts(lines, i + 1, name, Weigh(lines, i, name, c));
    }
  }

  // ---------- when saving then loading gives the saved value ----------

  /** The last definition of `name` in `lines`. */
  function LastDef(lines: seq<string>, name: string): (r: Option<string>) {
    if lines == [] then None else
      var e := EntryOf(lines[|lines| - 1]);
      if e.Some? && e.value.0 == name then Some(e.value.1) else LastDef(lines[..|lines| - 1], name)
  }

  lemma {:induction false} LastDefNone(lines: seq<string>, name: string)
    requires CleanName(name) && forall j :: 0 <= j < |lines| ==> !IsFor(lines[j], name)
    ensures LastDef(lines, name) == None
  {
    if lines != [] {
      IsForIff(lines[|lines| - 1], name);
      LastDefNone(lines[..|lines| - 1], name);
    }
  }

  /** Lines read after a definition change it only by defining the same name again. */
  lemma {:induction false} LoadOver(lines: seq<string>, env: map<string, string>, name: string, v: string)
    ensures LoadLines(lines, env[name := v]) ==
              LoadLines(lines, env)[name := var d := LastDef(lines, name); if d.Some? then d.value else v]
  {
    if lines != [] {
      LoadOver(lines[..|lines| - 1], env, name, v);
    }
  }

  /** The lines behind the one that was replaced. */
  function Behind(lines: seq<string>, c: Pick): (r: seq<string>)
    requires c.NoLine? || c.k < |lines|
  {
    if c.NoLine? then [] else lines[c.k + 1..]
  }

  lemma ReplacedLoads(lines: seq<string>, env: map<string, string>, name: string, value: string)
    requires CleanName(name)
    ensures var c := Chosen(lines, name);
            var d := LastDef(Behind(lines, c), name);
            LoadLines(Replaced(lines, c, TheLine(name, value)), env) ==
              LoadLines(lines, env)[name := if d.Some? then d.value else value]
  {
    hide LoadLines, LastDef, Find, PickFrom;
    var c, line := Chosen(lines, name), TheLine(name, value);
    PickFacts(lines, 0, name, NoLine);
    EntryOfLine(name, value);
    if c.NoLine? {
      LoadLast(lines, line, env);
      assert LastDef([], name) == None by { LastDefNone([], name); }
    } else {
      ReplacedAt(lines, env, c.k, name, value);
    }
  }

  lemma LoadLast(lines: seq<string>, line: string, env: map<string, string>)
    ensures LoadLines(lines + [line], env) == Define(LoadLines(lines, env), line)
  {
    assert (lines + [line])[..|lines|] == lines;
  }

  lemma ReplacedAt(lines: seq<string>, env: map<string, string>, k: nat, name: string, value: string)
    requires CleanName(name) && k < |lines| && (HasNoSeparator(lines[k]) || IsFor(lines[k], name))
    ensures var d := LastDef(lines[k + 1..], name);
            LoadLines(lines[k := TheLine(name, value)], env) ==
              LoadLines(lines, env)[name := if d.Some? then d.value else value]
  {
    hide LoadLines, LastDef, Find;
    var line := TheLine(name, value);
    EntryOfLine(name, value);
    IsForIff(lines[k], name);
    var x, z := LoadLines(lines[..k], env), lines[k + 1..];
    assert lines == lines[..k] + [lines[k]] + z;
    assert lines[k := line] == lines[..k] + [line] + z;
    LoadLinesSplit(lines[..k] + [lines[k]], z, env);
    LoadLinesSplit(lines[..k] + [line], z, env);
    LoadLast(lines[..k], lines[k], env);
    LoadLast(lines[..k], line, env);
    LoadOver(z, x, name, value);
    if IsFor(lines[k], name) {
      LoadOver(z, x, name, EntryOf(lines[k]).value.1);
    }
  }

  /**
   After a successful save of a clean name the loader reads the old environment with
   only that name changed to the saved value, if and only if no later line of the block
   defines the name to something else.
   */
  lemma SavedIff(lines: seq<string>, env: map<string, string>, name: string, value: string)
    requires CleanName(name)
    ensures var c := Chosen(lines, name);
            var d := LastDef(Behind(lines, c), name);
            (LoadLines(Replaced(lines, c, TheLine(name, value)), env) == LoadLines(lines, env)[name := value]) <==>
              (d == None || d == Some(value))
  {
    ReplacedLoads(lines, env, name, value);
    var c := Chosen(lines, name);
    var d := LastDef(Behind(lines, c), name);
    var m := LoadLines(lines, env);
    if d.Some? && d.value != value {
      assert m[name := d.value][name] != m[name := value][name];
    }
  }

  /** Two entries for the name: the first is rewritten but the last is read, so the save has no effect. */
  lemma DuplicateShadowsSave(name: string, first: string, last: string, value: string, env: map<string, string>)
    requires CleanName(name) && value != last
    ensures var lines := [TheLine(name, first), TheLine(name, last)];
            && Chosen(lines, name) == EntryLine(0)
            && LoadLines(Replaced(lines, EntryLine(0), TheLine(name, value)), env) !=
              LoadLines(lines, env)[name := value]
  {
    hide LoadLines, TheLine, EntryOf, CleanName, Find;
    var lines := [TheLine(name, first), TheLine(name, last)];
    EntryOfLine(name, first);
    EntryOfLine(name, last);
    IsForLine(name, first);
    IsForLine(name, last);
    assert PickFrom(lines, 2, name, EntryLine(0)) == EntryLine(0);
    assert PickFrom(lines, 1, name, EntryLine(0)) == EntryLine(0);
    var behind := Behind(lines, EntryLine(0));
    assert behind == [TheLine(name, last)];
    assert LastDef(behind, name) == Some(last);
    SavedIff(lines, env, name, value);
  }

  lemma IsForLine(name: string, value: string)
    requires CleanName(name)
    ensures IsFor(TheLine(name, value), name)
  {
    var line := TheLine(name, value);
    assert forall k :: 0 <= k < |name| ==> line[k] == name[k];
    FindIs(line, '=', 0, |name|);
  }

  // ---------- saving several variables ----------

  function ValueOf(env: map<string, string>, name: string): (r: string) {
    if name in env then env[name] else ""
  }

  /** The file after saving `names` one by one; a save that does not fit changes nothing. */
  function SaveAll(b: string, names: seq<string>, env: map<string, string>): (r: string)
    requires |SIGNATURE| <= |b|
    ensures |r| == |b|
    decreases |names|
  {
    if names == [] then b else
      var u := Update(b, |SIGNATURE|, names[0], ValueOf(env, names[0]));
      SaveAll(if u.Some? then u.value else b, names[1..], env)
  }

  /** The saves that succeeded, in order. */
  function Saved(b: string, names: seq<string>, env: map<string, string>): (r: seq<(string, string)>)
    requires |SIGNATURE| <= |b|
    decreases |names|
  {
    if names == [] then [] else
      var value := ValueOf(env, names[0]);
      var u := Update(b, |SIGNATURE|, names[0], value);
      if u.Some? then [(names[0], value)] + Saved(u.value, names[1..], env) else Saved(b, names[1..], env)
  }

  function Apply(env: map<string, string>, saved: seq<(string, string)>): (r: map<string, string>)
    decreases |saved|
  {
    if saved == [] then env else Apply(env[saved[0].0 := saved[0].1], saved[1..])
  }

  /** `builtin_save_env` between reading the file and writing it back. */
  method SaveEnv(buf: array<char>, names: seq<string>, env: map<string, string>) returns (ok: bool)
    modifies buf
    ensures ok <==> SIGNATURE <= old(buf[..])
    ensures buf[..] == if ok then SaveAll(old(buf[..]), names, env) else old(buf[..])
  {
    hide SaveAll, Update;
    if buf.Length < |SIGNATURE| || buf[..|SIGNATURE|] != SIGNATURE {
      return false;
    }
    ok := true;
    ghost var b := buf[..];
    var i := 0;
    assert names[0..] == names;
    while i < |names|
      invariant 0 <= i <= |names| && buf.Length == |b|
      invariant SaveAll(buf[..], names[i..], env) == SaveAll(b, names, env)
    {
      SaveStep(buf[..], names[i..], env);
      assert names[i..][1..] == names[i + 1..];
      var _ := UpdateEnv(buf, |SIGNATURE|, names[i], ValueOf(env, names[i]));
      i := i + 1;
    }
    SaveNothing(buf[..], names[i..], env);
  }

  lemma SaveStep(b: string, names: seq<string>, env: map<string, string>)
    requires |SIGNATURE| <= |b| && names != []
    ensures var u := Update(b, |SIGNATURE|, names[0], ValueOf(env, names[0]));
            SaveAll(b, names, env) == SaveAll(if u.Some? then u.value else b, names[1..], env)
  {
  }

  lemma SaveNothing(b: string, names: seq<string>, env: map<string, string>)
    requires |SIGNATURE| <= |b| && names == []
    ensures SaveAll(b, names, env) == b
  {
  }

  /** At most one line is an entry for `name`. */
  ghost predicate Unique(lines: seq<string>, name: string) {
    forall i, j :: 0 <= i < j < |lines| ==> !(IsFor(lines[i], name) && IsFor(lines[j], name))
  }

  lemma ReplacedUnique(lines: seq<string>, name: string, value: string, other: string)
    requires CleanName(name) && CleanName(other) && Unique(lines, name) && Unique(lines, other)
    ensures Unique(Replaced(lines, Chosen(lines, name), TheLine(name, value)), other)
  {
    hide Find, PickFrom, IsFor;
    PickFacts(lines, 0, name, NoLine);
    EntryOfLine(name, value);
    IsForIff(TheLine(name, value), other);
  }

  lemma ReplacedAreLines(lines: seq<string>, name: string, value: string)
    requires AreLines(lines) && IsLine(name) && IsLine(value)
    ensures AreLines(Replaced(lines, Chosen(lines, name), TheLine(name, value)))
  {
  }

  lemma UniqueBehind(lines: seq<string>, name: string)
    requires CleanName(name) && Unique(lines, name)
    ensures LastDef(Behind(lines, Chosen(lines, name)), name) == None
  {
    hide Find, PickFrom, IsFor;
    PickFacts(lines, 0, name, NoLine);
    LastDefNone(Behind(lines, Chosen(lines, name)), name);
  }

  ghost predicate Savable(lines: seq<string>, names: seq<string>, env: map<string, string>) {
    && AreLines(lines)
    && forall i :: 0 <= i < |names| ==> CleanName(names[i]) && IsLine(ValueOf(env, names[i])) && Unique(lines, names[i])
  }

  /**
   Saving keeps a well-formed file well-formed, and the loader then reads the old environment with
   the successful saves applied in order.
   */
  lemma {:induction false} SaveAllMeans(lines: seq<string>, pad: nat, names: seq<string>, env: map<string, string>,
      e0: map<string, string>)
      returns (lines': seq<string>, pad': nat)
    requires Savable(lines, names, env)
    ensures |SIGNATURE| <= |Block(SIGNATURE, lines, pad)|
    ensures AreLines(lines') && SaveAll(Block(SIGNATURE, lines, pad), names, env) == Block(SIGNATURE, lines', pad')
    ensures LoadLines(lines', e0) == Apply(LoadLines(lines, e0), Saved(Block(SIGNATURE, lines, pad), names, env))
    decreases |names|
  {
    hide LoadLines, Update, PickFrom, Render, Padding, Block, Savable;
    SavableLines(lines, names, env);
    LoadBlock(lines, pad, e0);
    if names == [] {
      lines', pad' := lines, pad;
    } else {
      var name, value := names[0], ValueOf(env, names[0]);
      var c := Chosen(lines, name);
      UpdateIsReplacement(SIGNATURE, lines, pad, name, value);
      SavedFirst(lines, names, env, e0);
      if |Entry(name, value)| <= pad + Freed(lines, c) {
        lines', pad' := SaveAllMeans(Replaced(lines, c, TheLine(name, value)),
          pad + Freed(lines, c) - |Entry(name, value)|, names[1..], env, e0);
      } else {
        lines', pad' := SaveAllMeans(lines, pad, names[1..], env, e0);
      }
    }
  }

  lemma SavableLines(lines: seq<string>, names: seq<string>, env: map<string, string>)
    requires Savable(lines, names, env)
    ensures AreLines(lines) && (names != [] ==> CleanName(names[0]) && IsLine(ValueOf(env, names[0])))
  {
  }

  /** One save: the other variables can still be saved, and the loader sees the new value. */
  lemma SavedFirst(lines: seq<string>, names: seq<string>, env: map<string, string>, e0: map<string, string>)
    requires Savable(lines, names, env) && names != []
    ensures Savable(lines, names[1..], env)
    ensures var name, value := names[0], ValueOf(env, names[0]);
            var after := Replaced(lines, Chosen(lines, name), TheLine(name, value));
            Savable(after, names[1..], env) && LoadLines(after, e0) == LoadLines(lines, e0)[name := value]
  {
    hide LoadLines, PickFrom, Find, IsFor;
    var name, value := names[0], ValueOf(env, names[0]);
    var after := Replaced(lines, Chosen(lines, name), TheLine(name, value));
    UniqueBehind(lines, name);
    SavedIff(lines, e0, name, value);
    ReplacedAreLines(lines, name, value);
    forall i | 0 <= i < |names[1..]| ensures Unique(after, names[1..][i]) {
      ReplacedUnique(lines, name, value, names[i + 1]);
    }
  }

  /** The same on the bytes: load, save, load. */
  lemma SaveThenLoad(lines: seq<string>, pad: nat, names: seq<string>, env: map<string, string>,
      e0: map<string, string>)
    requires Savable(lines, names, env)
    ensures var b := Block(SIGNATURE, lines, pad);
            && SIGNATURE <= b && |SaveAll(b, names, env)| == |b| && SIGNATURE <= SaveAll(b, names, env)
            && LoadText(CString(SaveAll(b, names, env)[|SIGNATURE|..]), e0) ==
               Apply(LoadText(CString(b[|SIGNATURE|..]), e0), Saved(b, names, env))
  {
    hide LoadLines, LoadText, Saved, Update, Block;
    LoadBlock(lines, pad, e0);
    var lines', pad' := SaveAllMeans(lines, pad, names, env, e0);
    LoadBlock(lines', pad', e0);
  }
}
