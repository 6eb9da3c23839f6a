/**
 The GRUB environment block (discover/grub2/env.c): a text of `name=value` lines
 behind a signature, padded with `#` to a fixed size and edited in place.
 */
module GrubEnv {
  import opened Common

  const SIGNATURE: string := "# GRUB Environment Block\n"

  // ---------- searching ----------

  /** The first position at or after `i` that holds `c`, or the length of `b`. */
  function Find(b: string, c: char, i: nat): (r: nat)
    requires i <= |b|
    ensures i <= r <= |b| && (r < |b| ==> b[r] == c) && forall k :: i <= k < r ==> b[k] != c
    decreases |b| - i
  {
    if i == |b| || b[i] == c then i else Find(b, c, i + 1)
  }

  lemma FindIs(b: string, c: char, i: nat, r: nat)
    requires i <= r <= |b| && (r < |b| ==> b[r] == c) && forall k :: i <= k < r ==> b[k] != c
    ensures Find(b, c, i) == r
  {
  }

  // ---------- the loader ----------

  /** What a line defines; comments, lines without `=` and lines that start with it define nothing. */
  function EntryOf(line: string): (r: Option<(string, string)>) {
    if line == "" || line[0] == '#' then None else
      var sep := Find(line, '=', 0);
      if sep == |line| || sep == 0 then None else Some((line[..sep], line[sep + 1..]))
  }

  /** A line is an entry exactly if it is a name, a separator and a value, and no comment. */
  lemma EntryIff(line: string, name: string, value: string)
    ensures EntryOf(line) == Some((name, value)) <==>
      line == name + "=" + value && name != "" && name[0] != '#' && '=' !in name
  {
    if line == name + "=" + value && name != "" && '=' !in name {
      assert line[|name|] == '=' && line[0] == name[0];
      forall k | 0 <= k < |name| ensures line[k] != '=' { assert line[k] == name[k]; }
      assert Find(line, '=', 0) == |name|;
      assert line[..|name|] == name && line[|name| + 1..] == value;
    }
    if EntryOf(line) == Some((name, value)) {
      var sep := Find(line, '=', 0);
      assert line == line[..sep] + [line[sep]] + line[sep + 1..];
      forall k | 0 <= k < |name| ensures name[k] != '=' { assert name[k] == line[k]; }
    }
  }

  function Define(env: map<string, string>, line: string): (r: map<string, string>) {
    var e := EntryOf(line);
    if e.None? then env else env[e.value.0 := e.value.1]
  }

  /** Every line in turn, the last one possibly unterminated. */
  function LoadText(b: string, env: map<string, string>): (r: map<string, string>)
    decreases |b|
  {
    if b == "" then env else
      var e := Find(b, '\n', 0);
      LoadText(if e == |b| then "" else b[e + 1..], Define(env, b[..e]))
  }

  /** What a C string function sees of a buffer. */
  function CString(b: string): (r: string) {
    b[..Find(b, '\0', 0)]
  }

  lemma LoadFirst(b: string, env: map<string, string>)
    requires b != ""
    ensures var e := Find(b, '\n', 0);
            LoadText(b, env) == LoadText(if e == |b| then "" else b[e + 1..], Define(env, b[..e]))
  {
  }

  /** One line of the text, located by positions. */
  lemma LoadStep(text: string, pos: nat, env: map<string, string>)
    requires pos < |text|
    ensures var eol := Find(text, '\n', pos);
            LoadText(text[pos..], env) ==
              LoadText(text[if eol < |text| then eol + 1 else eol..], Define(env, text[pos..eol]))
  {
    hide Find, Define, LoadText;
    var eol := Find(text, '\n', pos);
    var rest := text[pos..];
    FindIs(rest, '\n', 0, eol - pos);
    LoadFirst(rest, env);
    assert rest[..eol - pos] == text[pos..eol];
    assert (if eol < |text| then rest[eol - pos + 1..] else "") == text[if eol < |text| then eol + 1 else eol..];
  }

  /** `parse_buf_to_env`: the tokens of `strtok_r` in turn. */
  method ParseBufToEnv(buf: string, env: map<string, string>) returns (ok: bool, env': map<string, string>)
    ensures ok <==> SIGNATURE <= buf
    ensures env' == if ok then LoadText(CString(buf[|SIGNATURE|..]), env) else env
  {
    hide LoadText, Find;
    env' := env;
    if |buf| < |SIGNATURE| || buf[..|SIGNATURE|] != SIGNATURE {
      return false, env;
    }
    var text := CString(buf[|SIGNATURE|..]);
    ok := true;
    var pos := 0;
    assert text[0..] == text;
    while pos < |text|
      invariant pos <= |text|
      invariant LoadText(text[pos..], env') == LoadText(text, env)
    {
      // strtok skips delimiters, then takes everything up to the next one
      var eol := Find(text, '\n', pos);
      LoadStep(text, pos, env');
      var line := text[pos..eol];
      if eol != pos && line[0] != '#' {
        var sep := Find(line, '=', 0);
        if sep < |line| && sep != 0 {
          env' := env'[line[..sep] := line[sep + 1..]];
        }
      }
      pos := if eol < |text| then eol + 1 else eol;
    }
    LoadNothing(text, pos, env');
  }

  lemma LoadNothing(text: string, pos: nat, env: map<string, string>)
    requires pos == |text|
    ensures LoadText(text[pos..], env) == env
  {
  }

  // ---------- finding the place for an entry ----------

  /** Where `update_env` puts the entry: it overwrites `[head, tail)`; the entries end at `end`. */
  datatype Place = Place(head: nat, tail: nat, end: nat)

  /** What the scan of lines has settled on so far. */
  datatype Choice = Nowhere | Invalid(head: nat, tail: nat) | Existing(head: nat, tail: nat)

  /** The choice after the line `[i, eol)`: the first entry for `name`, else the last line without `=`. */
  function Consider(b: string, i: nat, eol: nat, name: string, c: Choice): (r: Choice)
    requires i <= eol < |b|
  {
    var line := b[i..eol];
    var sep := Find(line, '=', 0);
    if c.Existing? then c
    else if sep == |line| then Invalid(i, eol + 1)
    else if sep == |name| && line[..sep] == name then Existing(i, eol + 1)
    else c
  }

  /** The scan from the line at `i` on. */
  function Scan(b: string, i: nat, name: string, entryLen: nat, c: Choice): (r: Option<Place>)
    requires i <= |b|
    decreases |b| - i
  {
    if i == |b| then
      if c.Nowhere? then None else Some(Place(c.head, c.tail, i))
    else
      var eol := Find(b, '\n', i);
      if eol == |b| then
        if c.Nowhere? then Some(Place(i, i + entryLen, i)) else Some(Place(c.head, c.tail, i))
      else
        Scan(b, eol + 1, name, entryLen, Consider(b, i, eol, name, c))
  }

  /** One turn of the scan. */
  lemma ScanTurn(b: string, i: nat, name: string, entryLen: nat, c: Choice)
    requires i < |b|
    ensures var eol := Find(b, '\n', i);
            Scan(b, i, name, entryLen, c) ==
              if eol < |b| then Scan(b, eol + 1, name, entryLen, Consider(b, i, eol, name, c))
              else if c.Nowhere? then Some(Place(i, i + entryLen, i)) else Some(Place(c.head, c.tail, i))
  {
  }

  lemma ScanEnd(b: string, name: string, entryLen: nat, c: Choice)
    ensures Scan(b, |b|, name, entryLen, c) == if c.Nowhere? then None else Some(Place(c.head, c.tail, |b|))
  {
  }

  function Entry(name: string, value: string): (r: string) {
    name + "=" + value + "\n"
  }

  function Padding(n: nat): (r: string)
    ensures |r| == n && forall i :: 0 <= i < n ==> r[i] == '#'
  {
    seq(n, i => '#')
  }

  /** Room for the entry, counting what it overwrites and the padding behind the entries. */
  predicate Fits(b: string, p: Place, entry: string) {
    |entry| - (p.tail - p.head) <= |b| - p.end && p.tail <= |b|
  }

  predicate Sane(b: string, p: Place) {
    p.head <= p.tail && p.end <= |b| && (p.tail <= p.end || p.head == p.end)
  }

  /** The block with `[head, tail)` replaced, shifted within its fixed length. */
  function Edited(b: string, p: Place, entry: string): (r: string)
    requires Sane(b, p) && Fits(b, p, entry) && (p.head == p.end ==> p.tail == p.head + |entry|)
    ensures |r| == |b|
  {
    var delta := |entry| - (p.tail - p.head);
    if delta >= 0 then b[..p.head] + entry + b[p.tail..|b| - delta]
    else b[..p.head] + entry + b[p.tail..] + Padding(-delta)
  }

  /** `update_env` on the bytes of a file whose entries start at `base`. */
  function Update(b: string, base: nat, name: string, value: string): (r: Option<string>)
    requires base <= |b|
  {
    var entry := Entry(name, value);
    var p := Scan(b, base, name, |entry|, Nowhere);
    if p.None? then None else
      ScanSane(b, base, name, |entry|, Nowhere);
      if !Fits(b, p.value, entry) then None else Some(Edited(b, p.value, entry))
  }

  lemma {:induction false} ScanSane(b: string, i: nat, name: string, entryLen: nat, c: Choice)
    requires i <= |b| && entryLen > 0
    requires c.Nowhere? || c.head < c.tail <= i
    ensures var p := Scan(b, i, name, entryLen, c);
            p.Some? ==> Sane(b, p.value) && p.value.head < p.value.tail
                        && (p.value.head == p.value.end ==> p.value.tail == p.value.head + entryLen)
    decreases |b| - i
  {
    if i < |b| {
      var eol := Find(b, '\n', i);
      if eol < |b| {
        ScanSane(b, eol + 1, name, entryLen, Consider(b, i, eol, name, c));
      }
    }
  }

  // ---------- the edit in place ----------

  /** `b` with `s` written over it at `dst`. */
  function Overwrite(b: string, dst: nat, s: string): (r: string)
    requires dst + |s| <= |b|
    ensures |r| == |b|
  {
    b[..dst] + s + b[dst + |s|..]
  }

  method MemMove(buf: array<char>, dst: nat, src: nat, n: nat)
    requires dst + n <= buf.Length && src + n <= buf.Length
    modifies buf
    ensures buf[..] == Overwrite(old(buf[..]), dst, old(buf[..])[src..src + n])
  {
    forall k | dst <= k < dst + n {
      buf[k] := buf[src + (k - dst)];
    }
  }

  method MemCpy(buf: array<char>, dst: nat, s: string)
    requires dst + |s| <= buf.Length
    modifies buf
    ensures buf[..] == Overwrite(old(buf[..]), dst, s)
  {
    forall k | dst <= k < dst + |s| {
      buf[k] := s[k - dst];
    }
  }

  lemma OverwriteOn(b: string, dst: nat, s: string, t: string)
    requires dst + |s| + |t| <= |b|
    ensures Overwrite(Overwrite(b, dst, s), dst + |s|, t) == Overwrite(b, dst, s + t)
  {
  }

  /** Look along the line that starts at `i` for its end and its first separator, -1 standing for null. */
  method ScanLine(buf: array<char>, i: nat) returns (eol: int, sep: int)
    requires i < buf.Length
    ensures var e := Find(buf[..], '\n', i);
            && eol == (if e == buf.Length then -1 else e)
            && sep == (var s := Find(buf[i..e], '=', 0); if s == e - i then -1 else i + s)
  {
    hide Find;
    eol, sep := -1, -1;
    var j := i;
    while eol < 0 && j < buf.Length
      invariant i <= j <= buf.Length
      invariant eol < 0 ==> eol == -1 && forall k :: i <= k < j ==> buf[k] != '\n'
      invariant eol >= 0 ==> i <= eol == j - 1 && buf[eol] == '\n' && forall k :: i <= k < eol ==> buf[k] != '\n'
      invariant sep < 0 ==> sep == -1 && forall k :: i <= k < (if eol < 0 then j else eol) ==> buf[k] != '='
      invariant sep >= 0 ==> i <= sep < (if eol < 0 then j else eol) && buf[sep] == '=' && forall k :: i <= k < sep ==>
        buf[k] != '='
    {
      if buf[j] == '\n' {
        eol := j;
      } else if buf[j] == '=' && sep < 0 {
        sep := j;
      }
      j := j + 1;
    }
    var e := if eol < 0 then buf.Length else eol;
    FindIs(buf[..], '\n', i, e);
    FindIs(buf[i..e], '=', 0, if sep < 0 then e - i else sep - i);
  }

  /** `update_env` on the entries that start at `base`. */
  method UpdateEnv(buf: array<char>, base: nat, name: string, value: string) returns (ok: bool)
    requires base <= buf.Length
    modifies buf
    ensures var r := Update(old(buf[..]), base, name, value);
            ok == r.Some? && buf[..] == if ok then r.value else old(buf[..])
  {
    hide Find, Scan, Roomy, Edited, Overwrite;
    var entryLen := |name| + 1 + |value| + 1;
    var head, tail, end, replace := FindPlace(buf, base, name, entryLen);
    if head < 0 {
      return false;
    }
    var delta := entryLen - (tail - head);
    var space := buf.Length - end;
    if delta > space || tail > buf.Length {
      return false;
    }
    ScanSane(buf[..], base, name, entryLen, Nowhere);
    MakeRoom(buf, head, tail, end, entryLen);
    CopyEntry(buf, head, name, value);
    RoomyThenEntry(old(buf[..]), Place(head, tail, end), Entry(name, value));
    ok := true;
  }

  /** The loop over lines, with -1 standing for a null pointer. */
  method FindPlace(buf: array<char>, base: nat, name: string, entryLen: nat)
      returns (head: int, tail: int, end: int, replace: bool)
    requires base <= buf.Length
    ensures var p := Scan(buf[..], base, name, entryLen, Nowhere);
            if p.None? then head == -1 else head >= 0 && tail >= 0 && end >= 0 && p == Some(Place(head, tail, end))
  {
    hide Find, Consider, Scan;
    ghost var b := buf[..];
    head, tail, end, replace := -1, -1, -1, false;
    var i := base;
    ghost var c: Choice := Nowhere;
    while i < buf.Length
      invariant base <= i <= buf.Length
      invariant Tracks(c, head, tail, replace)
      invariant i > base ==> end == i
      invariant i == base ==> c == Nowhere
      invariant Scan(b, base, name, entryLen, Nowhere) == Scan(b, i, name, entryLen, c)
    {
      var eol, sep := ScanLine(buf, i);
      ScanTurn(b, i, name, entryLen, c);
      if eol < 0 {
        if head < 0 {
          head, tail := i, i + entryLen;
        }
        end := i;
        return;
      }
      end := eol + 1;
      ConsiderIs(b, i, eol, name, c);
      c := Consider(b, i, eol, name, c);
      if sep < 0 && !replace {
        head, tail := i, end;
      }
      if sep >= 0 && !replace && sep - i == |name| && name == buf[i..sep] {
        head, tail, replace := i, end, true;
      }
      i := end;
    }
    ScanEnd(b, name, entryLen, c);
  }

  /** The pointers and the flag that hold a choice. */
  ghost predicate Tracks(c: Choice, head: int, tail: int, replace: bool) {
    match c
    case Nowhere => head == -1 && !replace
    case Invalid(h, t) => head == h && tail == t && !replace
    case Existing(h, t) => head == h && tail == t && replace
  }

  /** The choice by absolute positions. */
  lemma ConsiderIs(b: string, i: nat, eol: nat, name: string, c: Choice)
    requires i <= eol < |b|
    ensures var sep := i + Find(b[i..eol], '=', 0);
            Consider(b, i, eol, name, c) ==
              if c.Existing? then c
              else if sep == eol then Invalid(i, eol + 1)
              else if sep - i == |name| && name == b[i..sep] then Existing(i, eol + 1)
              else c
  {
    var sep := Find(b[i..eol], '=', 0);
    assert b[i..eol][..sep] == b[i..i + sep];
  }

  /** The block once there is room: what follows the gap at `head` is in its final place. */
  function Roomy(b: string, p: Place, entryLen: nat): (r: string)
    requires Sane(b, p) && Fits(b, p, Padding(entryLen)) && (p.head == p.end ==> p.tail == p.head + entryLen)
    ensures |r| == |b|
  {
    var delta := entryLen - (p.tail - p.head);
    if delta >= 0 then Overwrite(b, p.tail + delta, b[p.tail..|b| - delta])
    else Overwrite(Overwrite(b, p.tail + delta, b[p.tail..]), |b| + delta, Padding(-delta))
  }

  lemma RoomyThenEntry(b: string, p: Place, entry: string)
    requires Sane(b, p) && Fits(b, p, entry) && (p.head == p.end ==> p.tail == p.head + |entry|)
    ensures Overwrite(Roomy(b, p, |entry|), p.head, entry) == Edited(b, p, entry)
  {
    var delta := |entry| - (p.tail - p.head);
    var r := Roomy(b, p, |entry|);
    assert r[..p.head] == b[..p.head];
    if delta >= 0 {
      assert r[p.head + |entry|..] == b[p.tail..|b| - delta];
    } else {
      assert r[p.head + |entry|..] == b[p.tail..] + Padding(-delta);
    }
  }

  /** Shift what follows `tail` so that the gap at `head` is `entryLen` long, and pad behind it. */
  method MakeRoom(buf: array<char>, head: nat, tail: nat, ghost end: nat, entryLen: nat)
    requires var p := Place(head, tail, end);
             Sane(buf[..], p) && Fits(buf[..], p, Padding(entryLen)) && (head == end ==> tail == head + entryLen)
    modifies buf
    ensures buf[..] == Roomy(old(buf[..]), Place(head, tail, end), entryLen)
  {
    hide Overwrite;
    var n := buf.Length;
    var delta := entryLen - (tail - head);
    ghost var b := buf[..];
    assert b[tail..n] == b[tail..];
    if delta == 0 {
      SameBytes(b, tail);
    }
    if delta != 0 {
      var shiftLen := if delta > 0 then delta else 0;
      MemMove(buf, tail + delta, tail, n - tail - shiftLen);
    }
    if delta < 0 {
      MemCpy(buf, n + delta, Padding(-delta));
    }
  }

  lemma SameBytes(b: string, i: nat)
    requires i <= |b|
    ensures Overwrite(b, i, b[i..]) == b
  {
  }

  method CopyEntry(buf: array<char>, head: nat, name: string, value: string)
    requires head + |Entry(name, value)| <= buf.Length
    modifies buf
    ensures buf[..] == Overwrite(old(buf[..]), head, Entry(name, value))
  {
    hide Overwrite;
    ghost var b := buf[..];
    MemCpy(buf, head, name);
    MemCpy(buf, head + |name|, "=");
    OverwriteOn(b, head, name, "=");
    MemCpy(buf, head + |name| + 1, value);
    OverwriteOn(b, head, name + "=", value);
    MemCpy(buf, head + |name| + 1 + |value|, "\n");
    OverwriteOn(b, head, name + "=" + value, "\n");
  }
}
