/**
 Building the argument list of a GRUB command (discover/grub2/script.c): words made of
 pieces of text and variables, some of which are split at blanks. The list is built
 in place, with a null entry for an argument that has been opened and holds nothing yet.
 */
module GrubArgv {
  import opened Common

  /** A piece of a word: literal text, or the name of a variable. */
  datatype Piece = Text(text: string, split: bool) | Var(name: string, split: bool)
  type Word = seq<Piece>

  datatype Entry = Entry(name: string, value: string)

  // --- the environment ---

  function Lookup(env: seq<Entry>, name: string): (r: Option<string>) {
    if env == [] then None else if env[0].name == name then Some(env[0].value) else Lookup(env[1..], name)
  }

  function Assign(env: seq<Entry>, name: string, value: string): (r: seq<Entry>) {
    if Lookup(env, name) == None then [Entry(name, value)] + env else Replace(env, name, value)
  }

  function Replace(env: seq<Entry>, name: string, value: string): (r: seq<Entry>) {
    if env == [] then []
    else if env[0].name == name then [Entry(name, value)] + env[1..]
    else [env[0]] + Replace(env[1..], name, value)
  }

  lemma {:induction false} ReplaceLookup(env: seq<Entry>, name: string, value: string, other: string)
    requires Lookup(env, name) != None
    ensures Lookup(Replace(env, name, value), other) == if other == name then Some(value) else Lookup(env, other)
  {
    if env[0].name != name { ReplaceLookup(env[1..], name, value, other); }
  }

  /** A variable that is set is read back, and no other variable changes. */
  lemma AssignLookup(env: seq<Entry>, name: string, value: string, other: string)
    ensures Lookup(Assign(env, name, value), other) == if other == name then Some(value) else Lookup(env, other)
  {
    if Lookup(env, name) != None { ReplaceLookup(env, name, value, other); }
  }

  // --- what an argument list should be ---

  predicate IsDelim(c: char) {
    c == ' ' || c == '\t'
  }

  /** The length of the longest prefix that is all blank, or that holds no blank. */
  function Span(s: string, delims: bool): (n: nat)
    ensures n <= |s| && (n < |s| ==> IsDelim(s[n]) != delims) && forall k :: 0 <= k < n ==> IsDelim(s[k]) == delims
  {
    if s == "" || IsDelim(s[0]) != delims then 0 else 1 + Span(s[1..], delims)
  }

  /** The stretches between blanks. */
  function Fields(s: string): (r: seq<string>)
    decreases |s|
  {
    var t := s[Span(s, true)..];
    if t == "" then [] else
      var n := Span(t, false);
      [t[..n]] + Fields(t[n..])
  }

  function Expand(env: seq<Entry>, p: Piece): (r: string) {
    match p
    case Text(text, _) => text
    case Var(name, _) => var v := Lookup(env, name); if v.Some? then v.value else ""
  }

  /**
   A piece that is not split lengthens the current argument. One that is split lengthens
   it by what precedes the first blank; every other field is an argument of its own.
   */
  function Extend(args: seq<string>, s: string, split: bool): (r: seq<string>)
    requires args != []
    ensures r != []
  {
    var n := |args| - 1;
    if !split then args[n := args[n] + s]
    else
      var k := Span(s, false);
      args[n := args[n] + s[..k]] + Fields(s[k..])
  }

  function ExtendAll(env: seq<Entry>, args: seq<string>, word: Word): (r: seq<string>)
    requires args != []
    ensures r != []
    decreases |word|
  {
    if word == [] then args else ExtendAll(env, Extend(args, Expand(env, word[0]), word[0].split), word[1..])
  }

  /** Every word is at least one argument, which may be empty. */
  function Arguments(env: seq<Entry>, args: seq<string>, words: seq<Word>): (r: seq<string>)
    decreases |words|
  {
    if words == [] then args else Arguments(env, ExtendAll(env, args + [""], words[0]), words[1..])
  }

  // --- the array that is built ---

  /** The entries are those of `args`, none of them null. */
  ghost function Filled(args: seq<string>): (r: seq<Option<string>>) {
    seq(|args|, i requires 0 <= i < |args| => Some(args[i]))
  }

  /** What the entries hold. */
  function Contents(argv: seq<Option<string>>): (args: seq<string>) {
    seq(|argv|, i requires 0 <= i < |argv| => Content(argv[i]))
  }

  lemma FilledContents(args: seq<string>)
    ensures Contents(Filled(args)) == args
  {
  }

  lemma FilledSet(args: seq<string>, x: string)
    requires args != []
    ensures Filled(args)[|args| - 1 := Some(x)] == Filled(args[|args| - 1 := x])
  {
  }

  /** The last argument is open: nothing or `last` so far. */
  ghost function Opened(init: seq<string>, last: Option<string>): (r: seq<Option<string>>) {
    Filled(init) + [last]
  }

  function Content(last: Option<string>): (r: string) {
    if last.Some? then last.value else ""
  }

  lemma OpenedSet(init: seq<string>, last: Option<string>, x: string)
    ensures Opened(init, last)[|init| := Some(x)] == Filled(init + [x])
  {
  }

  lemma FilledOpened(args: seq<string>)
    requires args != []
    ensures var n := |args| - 1; Filled(args) == Opened(args[..n], Some(args[n])) && args[..n] + [args[n]] == args
  {
  }

  lemma {:induction false} SpanIs(s: string, delims: bool, n: nat)
    requires n <= |s| && (n < |s| ==> IsDelim(s[n]) != delims) && forall k :: 0 <= k < n ==> IsDelim(s[k]) == delims
    ensures Span(s, delims) == n
  {
  }

  /** A blank in front of the fields is skipped. */
  lemma {:induction false} FieldsSkip(s: string)
    requires s != "" && IsDelim(s[0])
    ensures Fields(s) == Fields(s[1..])
  {
    assert s[Span(s, true)..] == s[1..][Span(s[1..], true)..];
  }

  /** A field opens a new argument. */
  lemma {:induction false} FieldsTake(done: seq<string>, s: string)
    requires s != "" && !IsDelim(s[0])
    ensures done + Fields(s) == Extend(done + [""], s, true)
  {
    var k := Span(s, false);
    FieldsFirst(s);
    ExtendTake(done, "", s, k);
    hide Fields, Span, Extend;
    OpenField(done, s[..k], Fields(s[k..]));
  }

  lemma OpenField(a: seq<string>, x: string, b: seq<string>)
    ensures a + ["" + x] + b == a + ([x] + b)
  {
    assert "" + x == x;
  }

  lemma {:induction false} FieldsFirst(s: string)
    requires s != "" && !IsDelim(s[0])
    ensures Fields(s) == [s[..Span(s, false)]] + Fields(s[Span(s, false)..])
  {
    SpanIs(s, true, 0);
    assert s[0..] == s;
  }

  /** The current argument takes the text up to the next blank. */
  lemma {:induction false} ExtendTake(init: seq<string>, prev: string, s: string, k: nat)
    requires k <= |s| && (k < |s| ==> IsDelim(s[k])) && forall j :: 0 <= j < k ==> !IsDelim(s[j])
    ensures Extend(init + [prev], s, true) == init + [prev + s[..k]] + Fields(s[k..])
  {
    SpanIs(s, false, k);
    SetLast(init, prev, prev + s[..k]);
    hide Fields, Span;
  }

  lemma SetLast(init: seq<string>, x: string, y: string)
    ensures (init + [x])[|init|] == x && (init + [x])[|init| := y] == init + [y]
  {
  }

  lemma ExtendNothing(args: seq<string>, split: bool)
    requires args != []
    ensures Extend(args, "", split) == args && Fields("") == []
  {
    var n := |args| - 1;
    assert args[n] + "" == args[n] && args[n := args[n]] == args;
  }

  class Argv {
    var argv: seq<Option<string>>

    constructor ()
      ensures argv == []
    {
      argv := [];
    }

    /** `append_text_to_current_arg` */
    method AppendText(text: string)
      requires argv != []
      modifies this
      ensures argv == old(argv)[|old(argv)| - 1 := Some(Content(old(argv)[|old(argv)| - 1]) + text)]
    {
      var n := |argv| - 1;
      assert "" + text == text;
      if argv[n].Some? {
        argv := argv[n := Some(argv[n].value + text)];
      } else {
        argv := argv[n := Some(text)];
      }
    }

    /** `append_word_to_argv`: one scan; `pos` is where the current stretch started, if the scan is in one. */
    method AppendWord(env: seq<Entry>, piece: Piece, ghost args: seq<string>)
      requires args != [] && argv == Filled(args)
      modifies this
      ensures argv == Filled(Extend(args, Expand(env, piece), piece.split))
    {
      var text := Expand(env, piece);
      if |text| == 0 {
        ExtendNothing(args, piece.split);
        return;
      }
      if !piece.split {
        FilledSet(args, args[|args| - 1] + text);
        AppendText(text);
        return;
      }
      Split(text, args);
    }

    /** The scan of a piece that is split. */
    method Split(text: string, ghost args: seq<string>)
      requires args != [] && argv == Filled(args) && text != ""
      modifies this
      ensures argv == Filled(Extend(args, text, true))
    {
      hide Fields, Span, Extend, Filled;
      ghost var target := Extend(args, text, true);
      ghost var init, last := args[..|args| - 1], Some(args[|args| - 1]);
      ghost var done := args;
      FilledOpened(args);
      var pos := if !IsDelim(text[0]) then 0 else -1;
      if pos < 0 {
        ExtendTake(init, args[|args| - 1], text, 0);
        assert args[|args| - 1] + "" == args[|args| - 1];
      }
      assert text[0..] == text;
      var i := 0;
      while i < |text|
        invariant 0 <= i <= |text| && -1 <= pos <= i
        invariant pos < 0 ==> argv == Filled(done) && target == done + Fields(text[i..])
        invariant pos >= 0 ==> argv == Opened(init, last) && target == Extend(init + [Content(last)], text[pos..], true)
        invariant pos >= 0 ==> forall k :: pos <= k < i ==> !IsDelim(text[k])
        invariant pos < 0 && i == 0 ==> IsDelim(text[0])
      {
        assert text[i..][1..] == text[i + 1..];
        if pos >= 0 && IsDelim(text[i]) {
          Close(init, last, text, pos, i);
          FieldsSkip(text[i..]);
          done := init + [Content(last) + text[pos..i]];
          AppendText(text[pos..i]);
          pos := -1;
        } else if pos < 0 && !IsDelim(text[i]) {
          FieldsTake(done, text[i..]);
          pos := i;
          init, last := done, None;
          argv := argv + [None];
        } else if pos < 0 {
          FieldsSkip(text[i..]);
        }
        i := i + 1;
      }
      ExtendNothing(args, true);
      assert text[|text|..] == "";
      if pos >= 0 {
        Close(init, last, text, pos, |text|);
        assert text[pos..] == text[pos..|text|];
        AppendText(text[pos..]);
      } else {
        assert done + [] == done;
      }
    }

    /** `process_expansions`: at the end no entry is null, so nothing is trimmed. */
    method ProcessExpansions(env: seq<Entry>, words: seq<Word>)
      modifies this
      ensures argv == Filled(Arguments(env, [], words))
    {
      hide Extend, ExtendAll, Arguments;
      argv := [];
      ghost var args: seq<string> := [];
      ghost var all := Arguments(env, [], words);
      var i := 0;
      assert words[0..] == words;
      while i < |words|
        invariant 0 <= i <= |words| && argv == Filled(args) && all == Arguments(env, args, words[i..])
      {
        ArgumentsStep(env, args, words[i..]);
        assert words[i..][1..] == words[i + 1..];
        argv := argv + [Some("")];
        args := args + [""];
        ghost var whole := ExtendAll(env, args, words[i]);
        var j := 0;
        assert words[i][0..] == words[i];
        while j < |words[i]|
          invariant 0 <= j <= |words[i]| && args != [] && argv == Filled(args)
            && whole == ExtendAll(env, args, words[i][j..])
        {
          ExtendAllStep(env, args, words[i][j..]);
          assert words[i][j..][1..] == words[i][j + 1..];
          AppendWord(env, words[i][j], args);
          args := Extend(args, Expand(env, words[i][j]), words[i][j].split);
          j := j + 1;
        }
        ExtendAllEnd(env, args, words[i][j..]);
        i := i + 1;
      }
      ArgumentsEnd(env, args, words[i..]);
      if |argv| > 0 && argv[|argv| - 1] == None {
        assert false;
      }
    }
  }

  lemma {:induction false} Close(init: seq<string>, last: Option<string>, text: string, pos: nat, i: nat)
    requires pos <= i <= |text| && (i < |text| ==> IsDelim(text[i])) && forall k :: pos <= k < i ==> !IsDelim(text[k])
    ensures Extend(init + [Content(last)], text[pos..], true) ==
      init + [Content(last) + text[pos..i]] + Fields(text[i..])
    ensures i == |text| ==> Extend(init + [Content(last)], text[pos..], true) == init + [Content(last) + text[pos..i]]
    ensures |Opened(init, last)| == |init| + 1 && Opened(init, last)[|init|] == last
    ensures Opened(init, last)[|init| := Some(Content(last) + text[pos..i])] ==
      Filled(init + [Content(last) + text[pos..i]])
  {
    hide Extend, Span, Fields, Content;
    ExtendTake(init, Content(last), text[pos..], i - pos);
    FieldsNone();
    assert text[pos..][..i - pos] == text[pos..i] && text[pos..][i - pos..] == text[i..];
    OpenedSet(init, last, Content(last) + text[pos..i]);
  }

  lemma ExtendAllStep(env: seq<Entry>, args: seq<string>, word: Word)
    requires args != [] && word != []
    ensures ExtendAll(env, args, word) == ExtendAll(env, Extend(args, Expand(env, word[0]), word[0].split), word[1..])
  {
  }

  lemma ExtendAllEnd(env: seq<Entry>, args: seq<string>, word: Word)
    requires args != [] && word == []
    ensures ExtendAll(env, args, word) == args
  {
  }

  lemma ArgumentsStep(env: seq<Entry>, args: seq<string>, words: seq<Word>)
    requires words != []
    ensures Arguments(env, args, words) == Arguments(env, ExtendAll(env, args + [""], words[0]), words[1..])
  {
  }

  lemma ArgumentsEnd(env: seq<Entry>, args: seq<string>, words: seq<Word>)
    requires words == []
    ensures Arguments(env, args, words) == args
  {
  }

  // --- nothing but blanks is lost ---

  function Concat(args: seq<string>): (r: string) {
    if args == [] then "" else Concat(args[..|args| - 1]) + args[|args| - 1]
  }

  function WithoutBlanks(s: string): (r: string) {
    if s == "" then "" else WithoutBlanks(s[..|s| - 1]) + if IsDelim(s[|s| - 1]) then "" else [s[|s| - 1]]
  }

  function Solid(s: string, split: bool): (r: string) {
    if split then WithoutBlanks(s) else s
  }

  function SolidWord(env: seq<Entry>, word: Word): (r: string) {
    if word == [] then "" else Solid(Expand(env, word[0]), word[0].split) + SolidWord(env, word[1..])
  }

  function SolidWords(env: seq<Entry>, words: seq<Word>): (r: string) {
    if words == [] then "" else SolidWord(env, words[0]) + SolidWords(env, words[1..])
  }

  lemma {:induction false} ConcatAppend(a: seq<string>, b: seq<string>)
    ensures Concat(a + b) == Concat(a) + Concat(b)
  {
    if b == [] {
      assert a + b == a;
    } else {
      var n := |b| - 1;
      ConcatAppend(a, b[..n]);
      assert (a + b)[..|a + b| - 1] == a + b[..n] && (a + b)[|a + b| - 1] == b[n];
    }
  }

  lemma {:induction false} BlanksSplit(s: string, t: string)
    ensures WithoutBlanks(s + t) == WithoutBlanks(s) + WithoutBlanks(t)
  {
    if t == "" {
      assert s + t == s;
    } else {
      var n := |t| - 1;
      BlanksSplit(s, t[..n]);
      assert (s + t)[..|s + t| - 1] == s + t[..n] && (s + t)[|s + t| - 1] == t[n];
    }
  }

  lemma {:induction false} BlankRun(s: string, delims: bool)
    requires forall k :: 0 <= k < |s| ==> IsDelim(s[k]) == delims
    ensures WithoutBlanks(s) == if delims then "" else s
  {
    if s != "" {
      BlankRun(s[..|s| - 1], delims);
      assert s == s[..|s| - 1] + [s[|s| - 1]];
    }
  }

  lemma ConcatOne(x: string)
    ensures Concat([x]) == x
  {
    assert Concat([]) + x == x;
  }

  /** A text is blanks, then nothing or a field and the rest. */
  lemma {:induction false} FieldsUnfold(s: string) returns (blanks: string, head: string, rest: string)
    ensures s == blanks + head + rest && (head == "" ==> rest == "")
    ensures forall k :: 0 <= k < |blanks| ==> IsDelim(blanks[k])
    ensures forall k :: 0 <= k < |head| ==> !IsDelim(head[k])
    ensures Fields(s) == if head == "" then [] else [head] + Fields(rest)
  {
    hide IsDelim;
    var d := Span(s, true);
    var t := s[d..];
    var n := Span(t, false);
    blanks, head, rest := s[..d], t[..n], t[n..];
  }

  /** The fields are the text without its blanks, and each of them is solid and not empty. */
  lemma {:induction false} FieldsConserve(s: string)
    ensures Concat(Fields(s)) == WithoutBlanks(s)
    ensures forall k :: 0 <= k < |Fields(s)| ==> Fields(s)[k] != "" && WithoutBlanks(Fields(s)[k]) == Fields(s)[k]
    decreases |s|
  {
    hide WithoutBlanks, Concat, Fields, IsDelim;
    var blanks, head, rest := FieldsUnfold(s);
    BlankRun(blanks, true);
    BlankRun(head, false);
    BlanksSplit(blanks + head, rest);
    BlanksSplit(blanks, head);
    if head != "" {
      FieldsConserve(rest);
      ConcatOne(head);
      ConcatAppend([head], Fields(rest));
    } else {
      BlankRun(rest, true);
      ConcatNone();
    }
  }

  /** Blanks separate: a solid stretch in front of one is a field, and blanks in front of a field do not count. */
  lemma {:induction false} FieldsSeparate(a: string, blank: char, b: string)
    requires a != "" && (forall k :: 0 <= k < |a| ==> !IsDelim(a[k])) && IsDelim(blank)
    ensures Fields(a + [blank] + b) == [a] + Fields(b) && Fields([blank] + b) == Fields(b)
    ensures Fields(a) == [a] && Fields("") == []
  {
    var s := a + [blank] + b;
    assert s[0] == a[0] && s[|a|] == blank && forall k :: 0 <= k < |a| ==> s[k] == a[k];
    assert s[..|a|] == a && s[|a|..] == [blank] + b;
    assert a[..|a|] == a && a[|a|..] == "";
    hide Fields, Span, IsDelim;
    SpanIs(s, false, |a|);
    FieldsFirst(s);
    SpanIs(a, false, |a|);
    FieldsFirst(a);
    FieldsNone();
    BlankFirst(blank, b);
  }

  lemma FieldsNone()
    ensures Fields("") == []
  {
  }

  lemma {:induction false} BlankFirst(blank: char, b: string)
    requires IsDelim(blank)
    ensures Fields([blank] + b) == Fields(b)
  {
    var t, n := [blank] + b, Span(b, true);
    assert forall k :: 0 <= k < n ==> t[k + 1] == b[k];
    SpanIs(t, true, n + 1);
    assert t[n + 1..] == b[n..];
  }

  /** A split piece lengthens the current argument by its first stretch, and each further field is an argument. */
  lemma {:induction false} ExtendSplits(args: seq<string>, a: string, blank: char, b: string)
    requires args != [] && (forall k :: 0 <= k < |a| ==> !IsDelim(a[k])) && IsDelim(blank)
    ensures var n := |args| - 1; Extend(args, a + [blank] + b, true) == args[n := args[n] + a] + Fields(b)
    ensures var n := |args| - 1; Extend(args, a, true) == args[n := args[n] + a] == Extend(args, a, false)
  {
    var s := a + [blank] + b;
    assert s[|a|] == blank && forall k :: 0 <= k < |a| ==> s[k] == a[k];
    assert s[..|a|] == a && s[|a|..] == [blank] + b;
    assert a[..|a|] == a && a[|a|..] == "";
    hide Fields, Span, IsDelim;
    SpanIs(s, false, |a|);
    BlankFirst(blank, b);
    SpanIs(a, false, |a|);
    FieldsNone();
  }

  lemma ConcatNone()
    ensures Concat([]) == ""
  {
  }

  lemma {:induction false} ConcatLonger(args: seq<string>, x: string)
    requires args != []
    ensures var n := |args| - 1; Concat(args[n := args[n] + x]) == Concat(args) + x
  {
    var n := |args| - 1;
    var longer := args[n := args[n] + x];
    assert longer[..n] == args[..n];
    hide Concat;
    assert Concat(longer) == Concat(longer[..n]) + longer[n] by { ConcatLast(longer); }
    assert Concat(args) == Concat(args[..n]) + args[n] by { ConcatLast(args); }
  }

  lemma ConcatLast(args: seq<string>)
    requires args != []
    ensures Concat(args) == Concat(args[..|args| - 1]) + args[|args| - 1]
  {
  }

  lemma {:induction false} ExtendConserves(args: seq<string>, s: string, split: bool)
    requires args != []
    ensures Concat(Extend(args, s, split)) == Concat(args) + Solid(s, split)
  {
    hide Concat, WithoutBlanks, Fields, Span;
    if split {
      var k := Span(s, false);
      var n := |args| - 1;
      ConcatLonger(args, s[..k]);
      ConcatAppend(args[n := args[n] + s[..k]], Fields(s[k..]));
      FieldsConserve(s[k..]);
      BlankRun(s[..k], false);
      BlanksSplit(s[..k], s[k..]);
      assert s[..k] + s[k..] == s;
    } else {
      ConcatLonger(args, s);
    }
  }

  lemma {:induction false} ExtendAllConserves(env: seq<Entry>, args: seq<string>, word: Word)
    requires args != []
    ensures Concat(ExtendAll(env, args, word)) == Concat(args) + SolidWord(env, word)
    ensures |ExtendAll(env, args, word)| >= |args|
    decreases |word|
  {
    if word != [] {
      hide Concat, Solid, Expand;
      var next := Extend(args, Expand(env, word[0]), word[0].split);
      ExtendConserves(args, Expand(env, word[0]), word[0].split);
      ExtendAllConserves(env, next, word[1..]);
    }
  }

  /**
   The arguments hold the text of all the words in order, but for the blanks of split pieces; each
   word is at least one argument.
   */
  lemma {:induction false} ArgumentsConserve(env: seq<Entry>, args: seq<string>, words: seq<Word>)
    ensures Concat(Arguments(env, args, words)) == Concat(args) + SolidWords(env, words)
    ensures |Arguments(env, args, words)| >= |args| + |words|
    decreases |words|
  {
    if words != [] {
      hide Concat, SolidWord, ExtendAll, Arguments;
      ConcatAppend(args, [""]);
      ConcatOne("");
      assert Concat(args) + "" == Concat(args);
      ExtendAllConserves(env, args + [""], words[0]);
      ArgumentsConserve(env, ExtendAll(env, args + [""], words[0]), words[1..]);
      ArgumentsStep(env, args, words);
      Associate(Concat(args), SolidWord(env, words[0]), SolidWords(env, words[1..]));
    } else {
      hide Concat;
    }
  }

  lemma Associate(a: string, b: string, c: string)
    ensures a + b + c == a + (b + c)
  {
  }

  /** A variable stands for the value it was given, and for nothing if it was given none. */
  lemma VariableExpands(env: seq<Entry>, name: string, value: string, split: bool)
    ensures Expand(Assign(env, name, value), Var(name, split)) == value
    ensures Lookup(env, name) == None ==> Expand(env, Var(name, split)) == ""
  {
    AssignLookup(env, name, value, name);
  }

  ghost predicate IsSolid(a: string) {
    a != "" && forall k :: 0 <= k < |a| ==> a[k] != ' ' && a[k] != '\t'
  }

  /** Blanks and tabs separate. */
  lemma ThreeFields(a: string, b: string, c: string)
    requires IsSolid(a) && IsSolid(b) && IsSolid(c)
    ensures Fields(a + [' '] + (b + ['\t'] + c)) == [a, b, c]
  {
    hide Fields;
    FieldsSeparate(a, ' ', b + ['\t'] + c);
    FieldsSeparate(b, '\t', c);
    FieldsSeparate(c, ' ', "");
  }

  /** A blank behind a word does not open an argument: the next piece still lengthens the word before the blank. */
  lemma TrailingBlankJoins(a: string, b: string)
    requires a != "" && forall k :: 0 <= k < |a| ==> !IsDelim(a[k])
    ensures ExtendAll([], [""], [Text(a + " ", true), Text(b, false)]) == [a + b]
  {
    var s := a + " ";
    SpanIs(s, false, |a|);
    assert s[..|a|] == a && s[|a|..] == " ";
    assert Fields(" ") == [] by { SpanIs(" ", true, 1); }
    assert "" + a == a && [""][0 := a] + [] == [a];
    ExtendAllStep([], [""], [Text(s, true), Text(b, false)]);
    ExtendAllStep([], [a], [Text(b, false)]);
    assert [Text(s, true), Text(b, false)][1..] == [Text(b, false)];
  }

  /** The first entry for the name is the one that is replaced. */
  lemma {:induction false} AssignAt(env: seq<Entry>, i: nat, name: string, value: string)
    requires i <= |env| && (i < |env| ==> env[i].name == name) && forall k :: 0 <= k < i ==> env[k].name != name
    ensures Lookup(env, name) == if i < |env| then Some(env[i].value) else None
    ensures i < |env| ==> Replace(env, name, value) == env[i := Entry(name, value)]
  {
    if i > 0 {
      AssignAt(env[1..], i - 1, name, value);
      if i < |env| { assert env[i := Entry(name, value)] == [env[0]] + env[1..][i - 1 := Entry(name, value)]; }
    }
  }
}
