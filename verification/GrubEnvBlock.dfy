/**
 What an edit of the environment block means to its loader. A well-formed block is
 a signature, whole lines, and `#` padding; on it the byte edit of `update_env`
 is the replacement of one line, and the loader sees a map update.
 */
module GrubEnvBlock {
  import opened Common
  import opened GrubEnv

  /** The lines, each with its newline. */
  function Render(lines: seq<string>): (b: string) {
    if lines == [] then "" else lines[0] + "\n" + Render(lines[1..])
  }

  ghost predicate IsLine(line: string) {
    '\n' !in line && '\0' !in line
  }

  ghost predicate AreLines(lines: seq<string>) {
    forall i :: 0 <= i < |lines| ==> IsLine(lines[i])
  }

  /** A file: what precedes the entries, which is the signature, then whole lines and padding. */
  function Block(pre: string, lines: seq<string>, pad: nat): (b: string) {
    pre + Render(lines) + Padding(pad)
  }

  lemma {:induction false} RenderSplit(a: seq<string>, b: seq<string>)
    ensures Render(a + b) == Render(a) + Render(b)
  {
    if a == [] {
      assert a + b == b;
    } else {
      assert (a + b)[1..] == a[1..] + b;
      RenderSplit(a[1..], b);
    }
  }

  /** Where line `k` starts. */
  function Start(lines: seq<string>, k: nat): (r: nat)
    requires k <= |lines|
  {
    |Render(lines[..k])|
  }

  lemma StartNext(lines: seq<string>, k: nat)
    requires k < |lines|
    ensures Start(lines, k + 1) == Start(lines, k) + |lines[k]| + 1
    ensures Render(lines) == Render(lines[..k]) + lines[k] + "\n" + Render(lines[k + 1..])
  {
    assert lines[..k + 1] == lines[..k] + [lines[k]];
    RenderSplit(lines[..k], [lines[k]]);
    assert Render([lines[k]]) == lines[k] + "\n" + Render([]);
    assert lines == lines[..k + 1] + lines[k + 1..];
    RenderSplit(lines[..k + 1], lines[k + 1..]);
  }

  // ---------- which line is replaced ----------

  datatype Pick = NoLine | InvalidLine(k: nat) | EntryLine(k: nat)

  /** The line is what the loader would read as a definition of `name`, comments aside. */
  predicate IsFor(line: string, name: string) {
    |name| < |line| && Find(line, '=', 0) == |name| && line[..|name|] == name
  }

  predicate HasNoSeparator(line: string) {
    Find(line, '=', 0) == |line|
  }

  function Weigh(lines: seq<string>, i: nat, name: string, c: Pick): (r: Pick)
    requires i < |lines|
  {
    if c.EntryLine? then c
    else if HasNoSeparator(lines[i]) then InvalidLine(i)
    else if IsFor(lines[i], name) then EntryLine(i)
    else c
  }

  function PickFrom(lines: seq<string>, i: nat, name: string, c: Pick): (r: Pick)
    requires i <= |lines|
    decreases |lines| - i
  {
    if i == |lines| then c else PickFrom(lines, i + 1, name, Weigh(lines, i, name, c))
  }

  /** Where the picked line lies in a block whose lines start at `base`. */
  function Located(lines: seq<string>, base: nat, c: Pick): (r: Choice)
    requires c.NoLine? || c.k < |lines|
  {
    match c
    case NoLine => Nowhere
    case InvalidLine(k) => Invalid(base + Start(lines, k), base + Start(lines, k) + |lines[k]| + 1)
    case EntryLine(k) => Existing(base + Start(lines, k), base + Start(lines, k) + |lines[k]| + 1)
  }

  lemma {:induction false} PickBelow(lines: seq<string>, i: nat, name: string, c: Pick)
    requires i <= |lines| && (c.NoLine? || c.k < i)
    ensures var p := PickFrom(lines, i, name, c); p.NoLine? || p.k < |lines|
    decreases |lines| - i
  {
    if i < |lines| { PickBelow(lines, i + 1, name, Weigh(lines, i, name, c)); }
  }

  /** The scan over the bytes of a block is the pick over its lines. */
  lemma {:induction false} ScanIsPick(pre: string, lines: seq<string>, pad: nat, i: nat, name: string, n: nat, c: Pick)
    requires AreLines(lines) && i <= |lines| && (c.NoLine? || c.k < i)
    ensures var p := PickFrom(lines, i, name, c); p.NoLine? || p.k < |lines|
    ensures var b := pre + Render(lines) + Padding(pad);
            var end := |pre| + |Render(lines)|;
            |pre| + Start(lines, i) <= |b| &&
            Scan(b, |pre| + Start(lines, i), name, n, Located(lines, |pre|, c)) ==
              var r := Located(lines, |pre|, PickFrom(lines, i, name, c));
              if !r.Nowhere? then Some(Place(r.head, r.tail, end))
              else if pad == 0 then None else Some(Place(end, end + n, end))
    decreases |lines| - i
  {
    hide Render, Find, Start, Consider, Padding;
    PickBelow(lines, i, name, c);
    if i == |lines| {
      ScanEnd(pre, lines, pad, name, n, Located(lines, |pre|, c));
    } else {
      ScanLineAt(pre, lines, pad, i);
      ConsiderIsWeigh(pre, lines, pad, i, name, c);
      ScanIsPick(pre, lines, pad, i + 1, name, n, Weigh(lines, i, name, c));
    }
  }

  lemma ScanEnd(pre: string, lines: seq<string>, pad: nat, name: string, n: nat, c: Choice)
    ensures var b := pre + Render(lines) + Padding(pad);
            var end := |pre| + |Render(lines)|;
            && |pre| + Start(lines, |lines|) == end
            && Scan(b, end, name, n, c) ==
               if !c.Nowhere? then Some(Place(c.head, c.tail, end)) else if pad == 0 then None
                 else Some(Place(end, end + n, end))
  {
    var b := pre + Render(lines) + Padding(pad);
    var end := |pre| + |Render(lines)|;
    assert lines[..|lines|] == lines;
    assert forall k :: end <= k < |b| ==> b[k] == '#';
    FindIs(b, '\n', end, |b|);
  }

  /** Line `i` of a block, found by scanning for its newline. */
  lemma ScanLineAt(pre: string, lines: seq<string>, pad: nat, i: nat)
    requires AreLines(lines) && i < |lines|
    ensures var b := pre + Render(lines) + Padding(pad);
            var at := |pre| + Start(lines, i);
            && at < |b| && Find(b, '\n', at) == at + |lines[i]| < |b| && b[at..at + |lines[i]|] == lines[i]
            && |pre| + Start(lines, i + 1) == at + |lines[i]| + 1
  {
    hide Render, Find, Padding;
    var b := pre + Render(lines) + Padding(pad);
    var at := |pre| + Start(lines, i);
    StartNext(lines, i);
    var a, z := pre + Render(lines[..i]), Render(lines[i + 1..]) + Padding(pad);
    assert b == a + lines[i] + "\n" + z;
    assert b[at..at + |lines[i]|] == lines[i];
    assert forall k :: at <= k < at + |lines[i]| ==> b[k] == lines[i][k - at];
    FindIs(b, '\n', at, at + |lines[i]|);
  }

  lemma ConsiderIsWeigh(pre: string, lines: seq<string>, pad: nat, i: nat, name: string, c: Pick)
    requires AreLines(lines) && i < |lines| && (c.NoLine? || c.k < i)
    ensures var b := pre + Render(lines) + Padding(pad);
            var at := |pre| + Start(lines, i);
            at + |lines[i]| < |b| &&
            Consider(b, at, at + |lines[i]|, name, Located(lines, |pre|, c)) ==
              Located(lines, |pre|, Weigh(lines, i, name, c))
  {
    ScanLineAt(pre, lines, pad, i);
  }

  // ---------- the edit as a replacement of one line ----------

  function TheLine(name: string, value: string): (r: string) {
    name + "=" + value
  }

  /** The lines with the picked one replaced, or with a new one at the end. */
  function Replaced(lines: seq<string>, c: Pick, line: string): (r: seq<string>)
    requires c.NoLine? || c.k < |lines|
  {
    if c.NoLine? then lines + [line] else lines[c.k := line]
  }

  /** The bytes the picked line takes up now. */
  function Freed(lines: seq<string>, c: Pick): (r: nat)
    requires c.NoLine? || c.k < |lines|
  {
    if c.NoLine? then 0 else |lines[c.k]| + 1
  }

  function Chosen(lines: seq<string>, name: string): (c: Pick)
    ensures c.NoLine? || c.k < |lines|
  {
    PickBelow(lines, 0, name, NoLine);
    PickFrom(lines, 0, name, NoLine)
  }

  /**
   On a well-formed block the edit fails exactly when the entry does not fit; otherwise it replaces
   one line and keeps the form.
   */
  lemma UpdateIsReplacement(pre: string, lines: seq<string>, pad: nat, name: string, value: string)
    requires AreLines(lines)
    ensures var c, n := Chosen(lines, name), |Entry(name, value)|;
            |pre| <= |Block(pre, lines, pad)| &&
            Update(Block(pre, lines, pad), |pre|, name, value) ==
              if n > pad + Freed(lines, c) then None
              else Some(Block(pre, Replaced(lines, c, TheLine(name, value)), pad + Freed(lines, c) - n))
  {
    hide Find, Scan, PickFrom, Padding, Render, Start, Edited;
    var c, entry := Chosen(lines, name), Entry(name, value);
    assert Start(lines, 0) == 0 by { StartZero(lines); }
    ScanIsPick(pre, lines, pad, 0, name, |entry|, NoLine);
    if |entry| <= pad + Freed(lines, c) {
      if c.NoLine? {
        EditAppends(pre, lines, pad, name, value);
      } else {
        StartBounds(lines, c.k);
        EditReplaces(pre, lines, pad, c.k, name, value);
      }
    } else if !c.NoLine? {
      StartBounds(lines, c.k);
    }
  }

  lemma StartZero(lines: seq<string>)
    ensures Start(lines, 0) == 0
  {
    assert lines[..0] == [];
  }

  lemma StartBounds(lines: seq<string>, k: nat)
    requires k < |lines|
    ensures Start(lines, k) + |lines[k]| + 1 <= |Render(lines)|
  {
    StartNext(lines, k);
  }

  function LinePlace(base: nat, lines: seq<string>, k: nat): (p: Place)
    requires k < |lines|
  {
    Place(base + Start(lines, k), base + Start(lines, k) + |lines[k]| + 1, base + |Render(lines)|)
  }

  lemma EditReplaces(pre: string, lines: seq<string>, pad: nat, k: nat, name: string, value: string)
    requires k < |lines| && |Entry(name, value)| <= pad + |lines[k]| + 1
    ensures var b, entry := Block(pre, lines, pad), Entry(name, value);
            var p := LinePlace(|pre|, lines, k);
            && Sane(b, p) && Fits(b, p, entry) && p.head != p.end
            && Edited(b, p, entry) == Block(pre, lines[k := TheLine(name, value)], pad + |lines[k]| + 1 - |entry|)
  {
    hide Padding, Render, Edited, Sane, Fits, Block;
    var entry, line := Entry(name, value), TheLine(name, value);
    var lines' := lines[k := line];
    assert lines'[..k] == lines[..k] && lines'[k + 1..] == lines[k + 1..];
    assert entry == line + "\n";
    BlockAt(pre, lines, pad, k);
    BlockAt(pre, lines', pad + |lines[k]| + 1 - |entry|, k);
    StartNext(lines, k);
    var a, mid, z := pre + Render(lines[..k]), lines[k] + "\n", Render(lines[k + 1..]);
    SpliceEdit(a, mid, z, pad, entry);
    assert LinePlace(|pre|, lines, k) == Place(|a|, |a| + |mid|, |a| + |mid| + |z|);
    assert Block(pre, lines, pad) == a + mid + z + Padding(pad);
  }

  lemma BlockAt(pre: string, lines: seq<string>, pad: nat, k: nat)
    requires k < |lines|
    ensures Block(pre, lines, pad) ==
      pre + Render(lines[..k]) + (lines[k] + "\n") + Render(lines[k + 1..]) + Padding(pad)
  {
    hide Padding, Render;
    StartNext(lines, k);
  }

  /** Replacing the middle of a padded text within its length. */
  lemma SpliceEdit(a: string, mid: string, z: string, pad: nat, entry: string)
    requires |entry| <= pad + |mid| && |mid| > 0
    ensures var b := a + mid + z + Padding(pad);
            var p := Place(|a|, |a| + |mid|, |a| + |mid| + |z|);
            && Sane(b, p) && Fits(b, p, entry) && p.head != p.end
            && Edited(b, p, entry) == a + entry + z + Padding(pad + |mid| - |entry|)
  {
    var b := a + mid + z + Padding(pad);
    var delta := |entry| - |mid|;
    assert b[..|a|] == a;
    if delta >= 0 {
      assert b[|a| + |mid|..|b| - delta] == z + Padding(pad - delta);
    } else {
      assert b[|a| + |mid|..] == z + Padding(pad);
      assert Padding(pad) + Padding(-delta) == Padding(pad - delta);
    }
  }

  lemma EditAppends(pre: string, lines: seq<string>, pad: nat, name: string, value: string)
    requires |Entry(name, value)| <= pad
    ensures var b, entry := Block(pre, lines, pad), Entry(name, value);
            var end := |pre| + |Render(lines)|;
            var p := Place(end, end + |entry|, end);
            && Sane(b, p) && Fits(b, p, entry)
            && Edited(b, p, entry) == Block(pre, lines + [TheLine(name, value)], pad - |entry|)
  {
    hide Padding, Render, Edited, Sane, Fits;
    var entry := Entry(name, value);
    RenderAppend(pre, lines, name, value);
    AppendEdit(pre + Render(lines), pad, entry);
  }

  lemma RenderAppend(pre: string, lines: seq<string>, name: string, value: string)
    ensures pre + Render(lines + [TheLine(name, value)]) == pre + Render(lines) + Entry(name, value)
  {
    var line := TheLine(name, value);
    RenderSplit(lines, [line]);
    assert Render([line]) == line + "\n" + Render([]);
    assert Render([line]) == Entry(name, value);
  }

  lemma AppendEdit(a: string, pad: nat, entry: string)
    requires |entry| <= pad
    ensures var b, p := a + Padding(pad), Place(|a|, |a| + |entry|, |a|);
            Sane(b, p) && Fits(b, p, entry) && Edited(b, p, entry) == a + entry + Padding(pad - |entry|)
  {
    var b := a + Padding(pad);
    assert b[..|a|] == a;
    assert b[|a| + |entry|..|b| - 0] == Padding(pad - |entry|);
  }
}
