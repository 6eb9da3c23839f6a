/**
 Folding text into lines (lib/fold/fold.c). The text is the sequence of decoded wide
 characters with their column widths: negative for unprintable ones, zero for the
 terminator and for whatever else takes no column.
 */
module Fold {

  datatype Char = Char(wc: char, width: int)
  type Text = seq<Char>

  /** A line by its positions in the text. */
  datatype Line = Line(from: nat, to: nat)

  // --- where lines end, without going back ---

  predicate Stops(text: Text, i: nat) {
    i >= |text| || (text[i].wc != '\n' && text[i].width == 0)
  }

  /** The columns a stretch of text takes. */
  function Width(text: Text, from: nat, to: nat): (w: nat)
    requires from <= to <= |text|
  {
    if from == to then 0 else Width(text, from, to - 1) + if text[to - 1].width > 0 then text[to - 1].width else 0
  }

  /** The first character at or behind `e` that is not taken into a line of `w` columns so far. */
  function Reach(text: Text, linelen: int, e: nat, w: nat): (r: nat)
    requires e <= |text|
    ensures e <= r <= |text|
    decreases |text| - e
  {
    if Stops(text, e) || text[e].wc == '\n' then e
    else if text[e].width < 0 then Reach(text, linelen, e + 1, w)
    else if w + text[e].width > linelen then e
    else Reach(text, linelen, e + 1, w + text[e].width)
  }

  /** The last space strictly between `from` and `e`; `from` if there is none. */
  function LastSpace(text: Text, from: nat, e: nat): (s: nat)
    requires from <= e <= |text|
    ensures from <= s <= e && (s > from ==> s < e && text[s].wc == ' ' && text[s].width > 0)
    ensures forall k :: s < k < e ==> !(text[k].wc == ' ' && text[k].width > 0)
  {
    if e <= from + 1 then from
    else if text[e - 1].wc == ' ' && text[e - 1].width > 0 then e - 1
    else LastSpace(text, from, e - 1)
  }

  /** The first `n` lines from `from` on, or all of them if the text ends before. */
  function Folded(text: Text, linelen: int, from: nat, n: nat): (r: seq<Line>)
    requires from <= |text|
    ensures |r| <= n
    decreases n
  {
    if n == 0 then []
    else
      var e := Reach(text, linelen, from, 0);
      if Stops(text, e) then [Line(from, e)]
      else if text[e].wc == '\n' then [Line(from, e)] + Folded(text, linelen, e + 1, n - 1)
      else
        var s := LastSpace(text, from, e);
        if s > from then [Line(from, s)] + Folded(text, linelen, s + 1, n - 1)
        else [Line(from, e)] + Folded(text, linelen, e, n - 1)
  }

  /**
   A line takes in nothing, and the next line starts at the same place, exactly at a character wider
   than the line.
   */
  lemma ReachAdvances(text: Text, linelen: int, from: nat)
    requires from < |text|
    ensures var e := Reach(text, linelen, from, 0);
      e == from && !Stops(text, e) && text[e].wc != '\n' <==>
      text[from].wc != '\n' && text[from].width > 0 && text[from].width > linelen
  {
  }

  // --- the loop ---

  /** One more character is taken into the line, or the line ends here. */
  lemma Taken(text: Text, linelen: int, start: nat, end: nat)
    requires start <= end < |text|
    ensures var w := Width(text, start, end);
      var v := if text[end].width > 0 then text[end].width else 0;
      && Width(text, start, end + 1) == w + v
      && (Stops(text, end) || text[end].wc == '\n' || (w + v > linelen && v > 0) ==>
        Reach(text, linelen, end, w) == end)
      && (!Stops(text, end) && text[end].wc != '\n' && (v == 0 || w + v <= linelen) ==>
            Reach(text, linelen, end, w) == Reach(text, linelen, end + 1, w + v))
  {
  }

  lemma Spaced(text: Text, start: nat, end: nat)
    requires start <= end < |text|
    ensures LastSpace(text, start, start) == start
    ensures LastSpace(text, start, end + 1) ==
      if text[end].wc == ' ' && text[end].width > 0 && end > start then end else LastSpace(text, start, end)
  {
  }

  /** The first line, and where the next one starts. */
  lemma FirstLine(text: Text, linelen: int, from: nat, end: nat, n: nat)
    requires from <= end <= |text| && Reach(text, linelen, from, 0) == end && n > 0
    ensures var r := Folded(text, linelen, from, n);
      var s := LastSpace(text, from, end);
      if Stops(text, end) then r == [Line(from, end)]
      else if text[end].wc == '\n' then r == [Line(from, end)] + Folded(text, linelen, end + 1, n - 1)
      else if s > from then r == [Line(from, s)] + Folded(text, linelen, s + 1, n - 1)
      else r == [Line(from, end)] + Folded(text, linelen, end, n - 1)
  {
  }

  lemma ReachEnd(text: Text, linelen: int, w: nat)
    ensures Reach(text, linelen, |text|, w) == |text|
  {
  }

  lemma Starts(text: Text, linelen: int, start: nat)
    requires start <= |text|
    ensures Width(text, start, start) == 0 && LastSpace(text, start, start) == start
  {
  }

  /** `lines` are the first lines, and the current one runs from `start` to `end` so far. */
  ghost predicate Scanning(text: Text, linelen: int, limit: nat, lines: seq<Line>, start: nat, end: nat, sep: nat,
      col: int)
  {
    && start <= sep <= end <= |text| && |lines| <= limit
    && Folded(text, linelen, 0, limit) == lines + Folded(text, linelen, start, limit - |lines|)
    && col == Width(text, start, end) && Reach(text, linelen, start, 0) == Reach(text, linelen, end, col)
    && sep == LastSpace(text, start, end)
  }

  /** One more character in the current line. */
  lemma ScanOn(text: Text, linelen: int, limit: nat, lines: seq<Line>, start: nat, end: nat, sep: nat, col: int)
    requires Scanning(text, linelen, limit, lines, start, end, sep, col) && end < |text|
    requires text[end].wc != '\n' && text[end].width != 0 && (text[end].width < 0 || col + text[end].width <= linelen)
    ensures var wide := text[end].width > 0;
      Scanning(text, linelen, limit, lines, start, end + 1,
        if text[end].wc == ' ' && wide then end else sep, if wide then col + text[end].width else col)
  {
    hide Folded, Reach, LastSpace, Width;
    Taken(text, linelen, start, end);
    Spaced(text, start, end);
  }

  /** The line is complete, and so is the text. */
  lemma ScanEnd(text: Text, linelen: int, limit: nat, lines: seq<Line>, start: nat, end: nat, sep: nat, col: int)
    requires Scanning(text, linelen, limit, lines, start, end, sep, col) && Stops(text, end) && |lines| < limit
    ensures Folded(text, linelen, 0, limit) == lines + [Line(start, end)]
  {
    hide Folded, LastSpace, Width;
    FirstLine(text, linelen, start, end, limit - |lines|);
  }

  /** The line is complete, and another starts. */
  lemma ScanBreak(text: Text, linelen: int, limit: nat, lines: seq<Line>, start: nat, end: nat, sep: nat, col: int)
    requires Scanning(text, linelen, limit, lines, start, end, sep, col) && !Stops(text, end) && |lines| < limit
    requires text[end].wc == '\n' || (text[end].width > 0 && col + text[end].width > linelen)
    ensures var back := text[end].wc != '\n' && sep > start;
      var to, next := if back then sep else end, if back then sep + 1 else if text[end].wc == '\n' then end + 1
        else end;
      && next <= |text| && AreFirst(text, linelen, limit, lines + [Line(start, to)])
      && Scanning(text, linelen, limit, lines + [Line(start, to)], next, next, next, 0)
  {
    hide Folded, LastSpace, Width;
    var n, back := limit - |lines|, text[end].wc != '\n' && sep > start;
    var to, next := if back then sep else end, if back then sep + 1 else if text[end].wc == '\n' then end + 1 else end;
    FirstLine(text, linelen, start, end, n);
    assert lines + ([Line(start, to)] + Folded(text, linelen, next, n - 1)) ==
      lines + [Line(start, to)] + Folded(text, linelen, next, n - 1);
    Starts(text, linelen, next);
  }

  /** The callback is called for the reference's lines in order, up to the first for which it asks to stop. */
  ghost predicate Delivered(text: Text, linelen: int, refuses: nat -> bool, limit: nat, lines: seq<Line>) {
    && lines <= Folded(text, linelen, 0, limit)
    && (forall k :: 0 <= k < |lines| - 1 ==> !refuses(k))
    && (lines == Folded(text, linelen, 0, limit) || (lines != [] && refuses(|lines| - 1)))
  }

  /**
   `fold_text`: scan to the end of the line, then back to the last separator if the
   line is too long. `refuses(n)`: the callback for the n-th line asks to stop. Only the
   first `limit` lines are looked at, because the loop need not end: see `EndsIff`.
   */
  method FoldText(text: Text, linelen: int, refuses: nat -> bool, limit: nat) returns (lines: seq<Line>)
    ensures Delivered(text, linelen, refuses, limit, lines)
  {
    lines := [];
    var start: nat, end: nat, sep: nat, sepLen: nat, col := 0, 0, 0, 0, 0;
    var rc := false;
    GoStart(text, linelen, limit, refuses);
    hide *;
    while !rc && |lines| < limit
      invariant Going(text, linelen, limit, refuses, lines, rc, start, end, sep, sepLen, col)
      decreases limit - |lines|, |text| - end
    {
      GoBounds(text, linelen, limit, refuses, lines, start, end, sep, sepLen, col);
      if end == |text| {
        GoEnd(text, linelen, limit, refuses, lines, start, end, sep, sepLen, col);
        return lines + [Line(start, end)];
      }
      var c := text[end];
      if c.wc == '\n' {
        GoNewline(text, linelen, limit, refuses, lines, start, end, sep, sepLen, col);
        rc := Asks(refuses, |lines|);
        lines := lines + [Line(start, end)];
        end := end + 1;
        start, sep, sepLen, col := end, end, 0, 0;
        continue;
      }
      if c.width == 0 {
        GoEnd(text, linelen, limit, refuses, lines, start, end, sep, sepLen, col);
        return lines + [Line(start, end)];
      }
      if c.width < 0 {
        GoOn(text, linelen, limit, refuses, lines, start, end, sep, sepLen, col);
        end := end + 1;
        continue;
      }
      lines, rc, start, end, sep, sepLen, col :=
        Printable(text, linelen, limit, refuses, lines, start, end, sep, sepLen, col);
    }
    GoDone(text, linelen, limit, refuses, lines, rc, start, end, sep, sepLen, col);
  }

  /** The last part of the loop: a printable character joins the line, or ends it. */
  method Printable(text: Text, linelen: int, ghost limit: nat, refuses: nat -> bool, lines0: seq<Line>, start0: nat,
      end0: nat, sep0: nat, sepLen0: nat, col0: int)
    returns (lines: seq<Line>, rc: bool, start: nat, end: nat, sep: nat, sepLen: nat, col: int)
    requires Going(text, linelen, limit, refuses, lines0, false, start0, end0, sep0, sepLen0, col0)
    requires |lines0| < limit && end0 < |text| && text[end0].wc != '\n' && text[end0].width > 0
    ensures Going(text, linelen, limit, refuses, lines, rc, start, end, sep, sepLen, col)
    ensures |lines| > |lines0| || (lines == lines0 && end == end0 + 1)
  {
    GoBounds(text, linelen, limit, refuses, lines0, start0, end0, sep0, sepLen0, col0);
    hide *;
    lines, rc, start, end, sep, sepLen := lines0, false, start0, end0, sep0, sepLen0;
    col := col0 + text[end].width;
    if col > linelen {
      GoBreak(text, linelen, limit, refuses, lines, start, end, sep, sepLen, col0);
      rc := Asks(refuses, |lines|);
      if sep != start {
        lines := lines + [Line(start, sep)];
        end := sep + sepLen;
      } else {
        lines := lines + [Line(start, end)];
      }
      start, sep, sepLen, col := end, end, 0, 0;
    } else {
      GoOn(text, linelen, limit, refuses, lines, start, end, sep, sepLen, col0);
      if text[end].wc == ' ' {
        sep, sepLen := end, 1;
      }
      end := end + 1;
    }
  }

  /** What the loop keeps: `rc` if the callback has asked to stop. */
  ghost predicate Going(text: Text, linelen: int, limit: nat, refuses: nat -> bool, lines: seq<Line>, rc: bool,
      start: nat, end: nat, sep: nat, sepLen: nat, col: int)
  {
    && Heard(lines, refuses, rc) && AreFirst(text, linelen, limit, lines)
    && (!rc ==> Scanning(text, linelen, limit, lines, start, end, sep, col) && (sep != start ==> sepLen == 1))
  }

  ghost predicate AreFirst(text: Text, linelen: int, limit: nat, lines: seq<Line>) {
    lines <= Folded(text, linelen, 0, limit)
  }

  lemma GoStart(text: Text, linelen: int, limit: nat, refuses: nat -> bool)
    ensures Going(text, linelen, limit, refuses, [], false, 0, 0, 0, 0, 0)
  {
    Starts(text, linelen, 0);
    assert [] + Folded(text, linelen, 0, limit) == Folded(text, linelen, 0, limit);
  }

  lemma GoBounds(text: Text, linelen: int, limit: nat, refuses: nat -> bool, lines: seq<Line>, start: nat, end: nat,
      sep: nat, sepLen: nat, col: int)
    requires Going(text, linelen, limit, refuses, lines, false, start, end, sep, sepLen, col)
    ensures start <= sep <= end <= |text| && (sep != start ==> sepLen == 1)
  {
  }

  lemma GoEnd(text: Text, linelen: int, limit: nat, refuses: nat -> bool, lines: seq<Line>, start: nat, end: nat,
      sep: nat, sepLen: nat, col: int)
    requires Going(text, linelen, limit, refuses, lines, false, start, end, sep, sepLen, col) && |lines| < limit
    requires end == |text| || (end < |text| && text[end].wc != '\n' && text[end].width == 0)
    ensures Delivered(text, linelen, refuses, limit, lines + [Line(start, end)])
  {
    hide Folded, Scanning, Heard;
    ScanEnd(text, linelen, limit, lines, start, end, sep, col);
    HeardLast(lines, Line(start, end), refuses);
  }

  lemma GoOn(text: Text, linelen: int, limit: nat, refuses: nat -> bool, lines: seq<Line>, start: nat, end: nat,
      sep: nat, sepLen: nat, col: int)
    requires Going(text, linelen, limit, refuses, lines, false, start, end, sep, sepLen, col) && end < |text|
    requires text[end].wc != '\n' && text[end].width != 0 && (text[end].width < 0 || col + text[end].width <= linelen)
    ensures text[end].width < 0 ==> Going(text, linelen, limit, refuses, lines, false, start, end + 1, sep, sepLen, col)
    ensures text[end].width > 0 ==>
      Going(text, linelen, limit, refuses, lines, false, start, end + 1, if text[end].wc == ' ' then end else sep,
        if text[end].wc == ' ' then 1 else sepLen, col + text[end].width)
  {
    hide Folded, Scanning, Heard;
    ScanOn(text, linelen, limit, lines, start, end, sep, col);
  }

  lemma GoNewline(text: Text, linelen: int, limit: nat, refuses: nat -> bool, lines: seq<Line>, start: nat, end: nat,
      sep: nat, sepLen: nat, col: int)
    requires Going(text, linelen, limit, refuses, lines, false, start, end, sep, sepLen, col) && |lines| < limit
    requires end < |text| && text[end].wc == '\n'
    ensures Going(text, linelen, limit, refuses, lines + [Line(start, end)], Asks(refuses, |lines|), end + 1, end + 1,
      end + 1,
      0, 0)
  {
    hide Folded, Scanning, Heard;
    ScanBreak(text, linelen, limit, lines, start, end, sep, col);
    HeardMore(lines, Line(start, end), refuses);
  }

  lemma GoBreak(text: Text, linelen: int, limit: nat, refuses: nat -> bool, lines: seq<Line>, start: nat, end: nat,
      sep: nat, sepLen: nat, col: int)
    requires Going(text, linelen, limit, refuses, lines, false, start, end, sep, sepLen, col) && |lines| < limit
    requires end < |text| && text[end].wc != '\n' && text[end].width > 0 && col + text[end].width > linelen
    ensures if sep != start
      then Going(text, linelen, limit, refuses, lines + [Line(start, sep)], Asks(refuses, |lines|), sep + sepLen,
        sep + sepLen,
             sep + sepLen, 0, 0)
      else Going(text, linelen, limit, refuses, lines + [Line(start, end)], Asks(refuses, |lines|), end, end, end, 0, 0)
  {
    GoBounds(text, linelen, limit, refuses, lines, start, end, sep, sepLen, col);
    hide Folded, Scanning, Heard, AreFirst;
    ScanBreak(text, linelen, limit, lines, start, end, sep, col);
    HeardMore(lines, Line(start, if sep != start then sep else end), refuses);
  }

  lemma GoDone(text: Text, linelen: int, limit: nat, refuses: nat -> bool, lines: seq<Line>, rc: bool, start: nat,
      end: nat, sep: nat, sepLen: nat, col: int)
    requires Going(text, linelen, limit, refuses, lines, rc, start, end, sep, sepLen, col) && (rc || |lines| >= limit)
    ensures Delivered(text, linelen, refuses, limit, lines)
  {
    hide Folded, Scanning, Heard;
    HeardMeans(lines, refuses, rc);
    if !rc { ScanFull(text, linelen, limit, lines, start, end, sep, col); }
  }

  predicate Asks(refuses: nat -> bool, n: nat) {
    refuses(n)
  }

  /** The callback asked to stop at the last line, and not before. */
  ghost predicate Heard(lines: seq<Line>, refuses: nat -> bool, rc: bool) {
    && (rc ==> lines != [])
    && forall k :: 0 <= k < |lines| ==> (refuses(k) <==> rc && k == |lines| - 1)
  }

  lemma HeardMore(lines: seq<Line>, line: Line, refuses: nat -> bool)
    requires Heard(lines, refuses, false)
    ensures Heard(lines + [line], refuses, refuses(|lines|))
  {
  }

  lemma HeardLast(lines: seq<Line>, line: Line, refuses: nat -> bool)
    requires Heard(lines, refuses, false)
    ensures var r := lines + [line]; forall k :: 0 <= k < |r| - 1 ==> !refuses(k)
  {
  }

  lemma HeardMeans(lines: seq<Line>, refuses: nat -> bool, rc: bool)
    requires Heard(lines, refuses, rc)
    ensures forall k :: 0 <= k < |lines| - 1 ==> !refuses(k)
    ensures rc ==> lines != [] && refuses(|lines| - 1)
  {
  }

  lemma ScanFull(text: Text, linelen: int, limit: nat, lines: seq<Line>, start: nat, end: nat, sep: nat, col: int)
    requires Scanning(text, linelen, limit, lines, start, end, sep, col) && |lines| >= limit
    ensures lines == Folded(text, linelen, 0, limit)
  {
    assert Folded(text, linelen, start, 0) == [];
  }

  // --- what the lines are ---

  /** Where the text ends: at the terminator, or at the first character without a column. */
  function StopOf(text: Text, from: nat): (r: nat)
    requires from <= |text|
    ensures from <= r <= |text| && Stops(text, r) && forall k :: from <= k < r ==> !Stops(text, k)
    decreases |text| - from
  {
    if Stops(text, from) then from else StopOf(text, from + 1)
  }

  /** The character at `e` does not fit any more behind the text from `from` on. */
  predicate Overflows(text: Text, linelen: int, from: nat, e: nat)
    requires from <= e < |text|
  {
    text[e].width > 0 && Width(text, from, e) + text[e].width > linelen
  }

  /**
   A line that is followed by another ends at a newline, or because the next character does not fit: then
   it ends there, if there is no space to break at, and at the last space otherwise.
   */
  ghost predicate EndsWell(text: Text, linelen: int, line: Line)
    requires line.from <= line.to < |text|
  {
    text[line.to].wc == '\n' || exists e :: line.to <= e < |text| && BreaksFor(text, linelen, line, e)
  }

  ghost predicate BreaksFor(text: Text, linelen: int, line: Line, e: nat)
    requires line.from <= line.to <= e < |text|
  {
    && Overflows(text, linelen, line.from, e) && (forall k :: line.from <= k < e ==> text[k].wc != '\n')
    && (forall k :: line.to < k < e ==> !IsBreak(text, k))
    && if line.to == e then forall k :: line.from < k < e ==> !IsBreak(text, k)
       else line.to > line.from && IsBreak(text, line.to)
  }

  predicate IsBreak(text: Text, k: nat)
    requires k < |text|
  {
    text[k].wc == ' ' && text[k].width > 0
  }

  /** A line takes what it reaches: no newline, and no more than the width. */
  lemma {:induction false} Reached(text: Text, linelen: int, from: nat, e: nat)
    requires from <= e <= |text| && Width(text, from, e) <= (if linelen > 0 then linelen else 0)
    ensures var r := Reach(text, linelen, e, Width(text, from, e));
      && Width(text, from, r) <= (if linelen > 0 then linelen else 0)
      && (forall k :: e <= k < r ==> text[k].wc != '\n' && !Stops(text, k))
      && (r < |text| && !Stops(text, r) && text[r].wc != '\n' ==> Overflows(text, linelen, from, r))
    decreases |text| - e
  {
    if e < |text| && !Stops(text, e) && text[e].wc != '\n' {
      var v := if text[e].width > 0 then text[e].width else 0;
      assert Width(text, from, e + 1) == Width(text, from, e) + v;
      if v == 0 || Width(text, from, e) + v <= linelen {
        Reached(text, linelen, from, e + 1);
      }
    }
  }

  lemma {:induction false} Narrower(text: Text, from: nat, s: nat, e: nat)
    requires from <= s <= e <= |text|
    ensures Width(text, from, s) <= Width(text, from, e)
  {
    if s < e { Narrower(text, from, s, e - 1); }
  }

  /**
   The text behind the lines: each line, and the character dropped behind it if the next line does
   not start there.
   */
  ghost function Joined(text: Text, lines: seq<Line>): (r: Text)
    requires InText(text, lines)
  {
    if lines == [] then []
    else
      assert forall k :: 0 <= k < |lines| - 1 ==> lines[1..][k] == lines[k + 1];
      text[lines[0].from..lines[0].to] +
      (if |lines| > 1 && lines[1].from > lines[0].to then [text[lines[0].to]] else []) + Joined(text, lines[1..])
  }

  ghost predicate InText(text: Text, lines: seq<Line>) {
    && (forall k :: 0 <= k < |lines| ==> lines[k].from <= lines[k].to <= |text|)
    && (forall k :: 0 <= k < |lines| - 1 ==> lines[k].to < |text|)
  }

  /** Every line fits, holds no newline, and starts where the one before ended or behind a dropped newline or space. */
  ghost predicate Fits(text: Text, linelen: int, line: Line) {
    && line.from <= line.to <= |text|
    && Width(text, line.from, line.to) <= (if linelen > 0 then linelen else 0)
    && forall k :: line.from <= k < line.to ==> text[k].wc != '\n'
  }

  ghost predicate Follows(text: Text, a: Line, b: Line) {
    b.from == a.to || (b.from == a.to + 1 && a.to < |text| && (text[a.to].wc == '\n' || text[a.to].wc == ' '))
  }

  ghost predicate Good(text: Text, linelen: int, from: nat, r: seq<Line>)
    requires from <= |text|
  {
    && r != [] && r[0].from == from && r[|r| - 1].to == StopOf(text, from)
    && (forall k :: 0 <= k < |r| ==> Fits(text, linelen, r[k]))
    && (forall k :: 0 <= k < |r| - 1 ==> Follows(text, r[k], r[k + 1]))
    && (forall k :: 0 <= k < |r| - 1 ==> r[k].to < |text| && EndsWell(text, linelen, r[k]))
    && InText(text, r) && Joined(text, r) == text[from..StopOf(text, from)]
  }

  /** One line, if the text does not end with it. */
  lemma FirstOf(text: Text, linelen: int, from: nat, n: nat) returns (line: Line, next: nat)
    requires from <= |text| && n > 0 && !Stops(text, Reach(text, linelen, from, 0))
    ensures from <= next <= |text| && Folded(text, linelen, from, n) == [line] + Folded(text, linelen, next, n - 1)
    ensures line.from == from && Fits(text, linelen, line) && line.to < |text| && EndsWell(text, linelen, line)
    ensures next == line.to || (next == line.to + 1 && (text[line.to].wc == '\n' || text[line.to].wc == ' '))
    ensures StopOf(text, from) == StopOf(text, next)
    ensures next == from ==> WideAt(text, linelen, from)
    ensures forall p :: from <= p < |text| && WideAt(text, linelen, p) ==> next <= p
  {
    hide Reach, LastSpace, Width, Folded;
    var e := Reach(text, linelen, from, 0);
    Starts(text, linelen, from);
    Reached(text, linelen, from, from);
    FirstLine(text, linelen, from, e, n);
    var s := LastSpace(text, from, e);
    Narrower(text, from, s, e);
    if text[e].wc == '\n' {
      line, next := Line(from, e), e + 1;
    } else if s > from {
      line, next := Line(from, s), s + 1;
    } else {
      ReachAdvances(text, linelen, from);
      line, next := Line(from, e), e;
    }
    if text[e].wc != '\n' { assert BreaksFor(text, linelen, line, e); }
    StopBehind(text, from, next);
    forall p | from <= p < |text| && WideAt(text, linelen, p) ensures next <= p {
      ReachBefore(text, linelen, from, 0, p);
    }
  }

  lemma LastOf(text: Text, linelen: int, from: nat, n: nat)
    requires from <= |text| && n > 0 && Stops(text, Reach(text, linelen, from, 0))
    ensures Good(text, linelen, from, Folded(text, linelen, from, n)) && |Folded(text, linelen, from, n)| == 1
  {
    hide Reach, Width, Folded;
    var e := Reach(text, linelen, from, 0);
    Starts(text, linelen, from);
    Reached(text, linelen, from, from);
    FirstLine(text, linelen, from, e, n);
    StopBehind(text, from, e);
    assert Joined(text, [Line(from, e)]) == text[from..e];
  }

  /** Lines that come to an end fit the width, and put together with what was dropped between them they are the text. */
  lemma {:induction false} FoldedWell(text: Text, linelen: int, from: nat, n: nat)
    requires from <= |text| && |Folded(text, linelen, from, n)| < n
    ensures Good(text, linelen, from, Folded(text, linelen, from, n))
    decreases n
  {
    hide Reach, Folded, Joined, Fits, Follows;
    if Stops(text, Reach(text, linelen, from, 0)) {
      LastOf(text, linelen, from, n);
    } else {
      var line, next := FirstOf(text, linelen, from, n);
      FoldedWell(text, linelen, next, n - 1);
      GoodCons(text, linelen, line, Folded(text, linelen, next, n - 1), next);
    }
  }

  // --- when there is an end ---

  /** The character takes more columns than a line has. */
  predicate WideAt(text: Text, linelen: int, p: nat)
    requires p < |text|
  {
    text[p].wc != '\n' && text[p].width > 0 && text[p].width > linelen
  }

  /** No character up to the end of the text is wider than a line. */
  ghost predicate Narrow(text: Text, linelen: int, from: nat)
    requires from <= |text|
  {
    forall p :: from <= p < StopOf(text, from) ==> !WideAt(text, linelen, p)
  }

  /** A line never reaches over such a character. */
  lemma {:induction false} ReachBefore(text: Text, linelen: int, e: nat, w: nat, p: nat)
    requires e <= p < |text| && WideAt(text, linelen, p)
    ensures Reach(text, linelen, e, w) <= p
    decreases p - e
  {
    if e < p && !Stops(text, e) && text[e].wc != '\n' {
      ReachBefore(text, linelen, e + 1, if text[e].width < 0 then w else w + text[e].width, p);
    }
  }

  /** With one of them ahead the lines never end. */
  lemma {:induction false} Endless(text: Text, linelen: int, from: nat, p: nat, n: nat)
    requires from <= p < |text| && p < StopOf(text, from) && WideAt(text, linelen, p)
    ensures |Folded(text, linelen, from, n)| == n
    decreases n
  {
    hide Reach, WideAt;
    if n > 0 {
      ReachBefore(text, linelen, from, 0, p);
      var _, next := FirstOf(text, linelen, from, n);
      Endless(text, linelen, next, p, n - 1);
    }
  }

  /** With none ahead every line takes the text on. */
  lemma {:induction false} Ends(text: Text, linelen: int, from: nat, n: nat)
    requires from <= |text| && Narrow(text, linelen, from)
    ensures |Folded(text, linelen, from, n)| <= |text| - from + 1
    decreases |text| - from
  {
    hide Reach, WideAt, Folded, Fits;
    if n > 0 {
      if Stops(text, Reach(text, linelen, from, 0)) {
        LastOf(text, linelen, from, n);
      } else {
        var line, next := FirstOf(text, linelen, from, n);
        AtStart(text, linelen, from);
        Ends(text, linelen, next, n - 1);
      }
    }
  }

  /** The loop ends by itself if and only if no character is wider than a line. */
  lemma EndsIff(text: Text, linelen: int)
    ensures (exists n: nat :: |Folded(text, linelen, 0, n)| < n) <==> Narrow(text, linelen, 0)
  {
    hide Folded, WideAt;
    if Narrow(text, linelen, 0) {
      Ends(text, linelen, 0, |text| + 2);
      assert |Folded(text, linelen, 0, |text| + 2)| < |text| + 2;
    } else {
      var p :| 0 <= p < StopOf(text, 0) && WideAt(text, linelen, p);
      forall n: nat ensures |Folded(text, linelen, 0, n)| == n { Endless(text, linelen, 0, p, n); }
    }
  }

  lemma GoodCons(text: Text, linelen: int, line: Line, rest: seq<Line>, next: nat)
    requires line.from <= next <= |text| && Good(text, linelen, next, rest)
      && StopOf(text, line.from) == StopOf(text, next)
    requires Fits(text, linelen, line) && line.to < |text| && EndsWell(text, linelen, line)
    requires next == line.to || (next == line.to + 1 && (text[line.to].wc == '\n' || text[line.to].wc == ' '))
    ensures Good(text, linelen, line.from, [line] + rest)
  {
    hide Joined, EndsWell;
    var r := [line] + rest;
    forall k | 0 <= k < |r| - 1 ensures r[k].to < |text| && EndsWell(text, linelen, r[k]) {
      if k > 0 { assert r[k] == rest[k - 1]; }
    }
    FoldedJoin(text, line, rest, line.from, next, StopOf(text, next));
    forall k | 0 <= k < |r| ensures Fits(text, linelen, r[k]) && (k < |r| - 1 ==> Follows(text, r[k], r[k + 1])) {
      if k > 0 { assert r[k] == rest[k - 1]; }
      if k < |r| - 1 { assert r[k + 1] == rest[k]; }
    }
  }

  lemma AtStart(text: Text, linelen: int, from: nat)
    requires from < |text| && Narrow(text, linelen, from) && !Stops(text, Reach(text, linelen, from, 0))
    ensures !WideAt(text, linelen, from)
  {
  }

  lemma {:induction false} StopBehind(text: Text, from: nat, e: nat)
    requires from <= e <= |text| && forall k :: from <= k < e ==> !Stops(text, k)
    ensures StopOf(text, from) == StopOf(text, e)
    decreases e - from
  {
    if from < e { StopBehind(text, from + 1, e); }
  }

  lemma {:induction false} FoldedJoin(text: Text, line: Line, rest: seq<Line>, from: nat, next: nat, stop: nat)
    requires rest != [] && InText(text, rest) && rest[0].from == next && line.from == from <= line.to < |text|
    requires next == line.to || next == line.to + 1
    requires from <= next <= stop <= |text| && Joined(text, rest) == text[next..stop]
    ensures var r := [line] + rest; InText(text, r) && Joined(text, r) == text[from..stop]
  {
    var r := [line] + rest;
    assert r[1..] == rest;
    assert InText(text, r) by {
      forall k | 0 <= k < |r| ensures r[k].from <= r[k].to <= |text| && (k < |r| - 1 ==> r[k].to < |text|) {
        if k > 0 { assert r[k] == rest[k - 1]; }
      }
    }
    var dropped := if next > line.to then [text[line.to]] else [];
    assert Joined(text, r) == text[from..line.to] + dropped + Joined(text, rest);
    hide Joined, InText;
    Parts(text, from, line.to, next, stop);
  }

  lemma Parts(text: Text, from: nat, to: nat, next: nat, stop: nat)
    requires from <= to <= next <= stop <= |text| && to < |text| && next <= to + 1
    ensures text[from..to] + (if next > to then [text[to]] else []) + text[next..stop] == text[from..stop]
  {
    assert text[to..next] == if next > to then [text[to]] else [];
    assert text[from..stop] == text[from..to] + text[to..next] + text[next..stop];
  }
}
