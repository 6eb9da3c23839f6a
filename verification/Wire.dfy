/**
 The primitives of the wire protocol (lib/pb-protocol/pb-protocol.c): 32-bit numbers in
 network byte order, flags in the byte order of the sender, and strings behind their
 length. Reading is a function of what is left of the payload.
 */
module Wire {
  import opened Common

  type byte = x: int | 0 <= x < 256
  type Bytes = seq<byte>

  /** A string pointer: null, or the characters in front of the terminator. */
  type CString = Option<Bytes>

  /**
   `Overread`: the length of a string passed the check only because the sum wrapped around, so the
   read leaves the payload.
   */
  datatype Result<T> = Malformed | Overread | Success(value: T) {
    predicate IsFailure() {
      !Success?
    }
    function PropagateFailure<U>(): Result<U>
      requires IsFailure()
    {
      if Malformed? then Malformed else Overread
    }
    function Extract(): T
      requires !IsFailure()
    {
      value
    }
  }

  const TWO32: int := 0x1_0000_0000

  /** The length of a hardware address. */
  const HWADDR_SIZE: nat := 6

  // --- numbers ---

  function PutU32(v: int): (r: Bytes)
    requires 0 <= v < TWO32
    ensures |r| == 4
  {
    [v / 0x100_0000, v / 0x1_0000 % 0x100, v / 0x100 % 0x100, v % 0x100]
  }

  function ReadU32(b: Bytes): (r: Result<(int, Bytes)>)
    ensures r.Success? ==> 0 <= r.value.0 < TWO32 && |r.value.1| < |b|
  {
    if |b| < 4 then Malformed
    else
      var w: int, x: int, y: int, z: int := b[0], b[1], b[2], b[3];
      Success((((w * 0x100 + x) * 0x100 + y) * 0x100 + z, b[4..]))
  }

  /** The most significant byte comes first. */
  lemma NetworkOrder(v: int)
    requires 0 <= v < TWO32
    ensures var b := PutU32(v);
      var w: int, x: int, y: int, z: int := b[0], b[1], b[2], b[3];
      v == w * 0x100_0000 + x * 0x1_0000 + y * 0x100 + z
    ensures PutU32(0x0102_0304) == [1, 2, 3, 4]
  {
    var p, q := v / 0x100, v / 0x1_0000;
    assert q == p / 0x100 && v / 0x100_0000 == q / 0x100;
    assert p == 0x100 * q + p % 0x100 && q == 0x100 * (q / 0x100) + q % 0x100 && v == 0x100 * p + v % 0x100;
  }

  lemma U32Back(v: int, rest: Bytes)
    requires 0 <= v < TWO32
    ensures ReadU32(PutU32(v) + rest) == Success((v, rest))
  {
    var b := PutU32(v) + rest;
    assert b[4..] == rest;
    var p, q := v / 0x100, v / 0x1_0000;
    assert q == p / 0x100 && v / 0x100_0000 == q / 0x100;
    assert p == 0x100 * q + p % 0x100 && q == 0x100 * (q / 0x100) + q % 0x100 && v == 0x100 * p + v % 0x100;
  }

  // --- flags ---

  /** A flag stored through a pointer, in the byte order of the host. */
  function PutFlag(flag: bool, bigEndian: bool): (r: Bytes)
    ensures |r| == 4
  {
    var x := if flag then 1 else 0;
    if bigEndian then [0, 0, 0, x] else [x, 0, 0, 0]
  }

  /** Read in network order, it is true if any bit is set. */
  function ReadFlag(b: Bytes): (r: Result<(bool, Bytes)>)
    ensures r.Success? ==> |r.value.1| < |b|
  {
    var (v, b) :- ReadU32(b);
    Success((v != 0, b))
  }

  lemma FlagBack(flag: bool, bigEndian: bool, rest: Bytes)
    ensures ReadFlag(PutFlag(flag, bigEndian) + rest) == Success((flag, rest))
  {
    assert (PutFlag(flag, bigEndian) + rest)[4..] == rest;
  }

  function ReadRaw(b: Bytes, n: nat): (r: Result<(Bytes, Bytes)>) {
    if |b| < n then Malformed else Success((b[..n], b[n..]))
  }

  // --- strings ---

  function OptionalLength(s: CString): (n: nat) {
    if s == None then 0 else |s.value|
  }

  /** A string that C code can hold and whose length a message can state. */
  predicate Sendable(s: CString) {
    OptionalLength(s) < TWO32 - 4 && (s.Some? ==> 0 !in s.value)
  }

  function PutString(s: CString): (r: Bytes)
    requires Sendable(s)
    ensures |r| == 4 + OptionalLength(s)
  {
    PutU32(OptionalLength(s)) + if s == None then [] else s.value
  }

  /** What a copy of at most these bytes holds: it ends at a terminator. */
  function Copied(b: Bytes): (r: Bytes)
    ensures 0 !in b ==> r == b
  {
    if b == [] || b[0] == 0 then [] else [b[0]] + Copied(b[1..])
  }

  function ReadString(b: Bytes): (r: Result<(CString, Bytes)>)
    ensures r.Success? ==> |r.value.1| < |b|
  {
    var (n, rest) :- ReadU32(b);
    if (4 + n) % TWO32 > |b| then Malformed
    else if n > |rest| then Overread
    else Success((if n == 0 then None else Some(Copied(rest[..n])), rest[n..]))
  }

  /** An empty string arrives as none at all. */
  function Arrives(s: CString): (r: CString) {
    if s == Some([]) then None else s
  }

  lemma StringBack(s: CString, rest: Bytes)
    requires Sendable(s)
    ensures ReadString(PutString(s) + rest) == Success((Arrives(s), rest))
  {
    hide PutU32, ReadU32;
    var n := OptionalLength(s);
    var content := if s == None then [] else s.value;
    assert PutString(s) + rest == PutU32(n) + (content + rest);
    U32Back(n, content + rest);
    assert (content + rest)[..n] == content && (content + rest)[n..] == rest;
  }

  // --- reading with loose checks ---

  // The receiver believes that `slack` more bytes are left than there are.

  function LooseU32(b: Bytes, slack: nat): (r: Result<(int, Bytes)>)
    ensures r.Success? ==> r == ReadU32(b)
    ensures ReadU32(b).Success? ==> r == ReadU32(b)
  {
    if |b| + slack < 4 then Malformed else if |b| < 4 then Overread else ReadU32(b)
  }

  function LooseString(b: Bytes, slack: nat): (r: Result<(CString, Bytes)>)
    ensures ReadString(b).Success? ==> r == ReadString(b)
  {
    var (n, rest) :- LooseU32(b, slack);
    if (4 + n) % TWO32 > |b| + slack then Malformed
    else if n > |rest| then Overread
    else Success((if n == 0 then None else Some(Copied(rest[..n])), rest[n..]))
  }

  /** Without slack the checks are exact. */
  lemma NoSlack(b: Bytes)
    ensures LooseString(b, 0) == ReadString(b)
  {
    hide Copied;
  }

  function LooseRaw(b: Bytes, n: nat, slack: nat): (r: Result<(Bytes, Bytes)>)
    ensures ReadRaw(b, n).Success? ==> r == ReadRaw(b, n)
  {
    if |b| + slack < n then Malformed else if |b| < n then Overread else Success((b[..n], b[n..]))
  }

  /** A flag of one byte, which is read without any check. */
  function PutBool(flag: bool): (r: Bytes) {
    [if flag then 1 else 0]
  }

  function ReadBool(b: Bytes): (r: Result<(bool, Bytes)>) {
    if b == [] then Overread else Success((b[0] != 0, b[1..]))
  }

  function ReadUnchecked(b: Bytes, n: nat): (r: Result<(Bytes, Bytes)>)
    ensures ReadRaw(b, n).Success? ==> r == ReadRaw(b, n)
  {
    if |b| < n then Overread else Success((b[..n], b[n..]))
  }

  lemma BoolBack(flag: bool, rest: Bytes)
    ensures ReadBool(PutBool(flag) + rest) == Success((flag, rest))
  {
  }

  // --- lists of strings ---

  ghost predicate AllSendable(s: seq<CString>) {
    |s| < TWO32 && forall i :: 0 <= i < |s| ==> Sendable(s[i])
  }

  ghost function PutStrings(s: seq<CString>): (r: Bytes)
    requires AllSendable(s)
  {
    if s == [] then [] else PutString(s[0]) + PutStrings(s[1..])
  }

  function ReadStrings(b: Bytes, n: nat): (r: Result<(seq<CString>, Bytes)>)
    decreases n
  {
    if n == 0 then Success(([], b))
    else
      var (s, b) :- ReadString(b);
      var (rest, b) :- ReadStrings(b, n - 1);
      Success(([s] + rest, b))
  }

  function ArriveAll(s: seq<CString>): (r: seq<CString>)
    ensures |r| == |s| && forall i :: 0 <= i < |s| ==> r[i] == Arrives(s[i])
  {
    seq(|s|, i requires 0 <= i < |s| => Arrives(s[i]))
  }

  lemma {:induction false} StringsBack(s: seq<CString>, rest: Bytes)
    requires AllSendable(s)
    ensures ReadStrings(PutStrings(s) + rest, |s|) == Success((ArriveAll(s), rest))
  {
    if s == [] {
      assert PutStrings(s) + rest == rest;
    } else {
      hide PutString, ReadString, Arrives, Sendable, ReadStrings, PutStrings, ArriveAll;
      StringsBack(s[1..], rest);
      FirstBack(s, rest);
      ArriveFirst(s);
      StringsStep(PutStrings(s) + rest, |s|, Arrives(s[0]), PutStrings(s[1..]) + rest, ArriveAll(s[1..]), rest);
    }
  }

  lemma {:induction false} FirstBack(s: seq<CString>, rest: Bytes)
    requires AllSendable(s) && s != []
    ensures ReadString(PutStrings(s) + rest) == Success((Arrives(s[0]), PutStrings(s[1..]) + rest))
  {
    hide PutString, ReadString, Arrives, Sendable;
    assert PutStrings(s) + rest == PutString(s[0]) + (PutStrings(s[1..]) + rest);
    StringBack(s[0], PutStrings(s[1..]) + rest);
  }

  lemma ArriveFirst(s: seq<CString>)
    requires s != []
    ensures ArriveAll(s) == [Arrives(s[0])] + ArriveAll(s[1..])
  {
  }

  lemma {:induction false} StringsStep(b: Bytes, n: nat, s: CString, b1: Bytes, more: seq<CString>, b2: Bytes)
    requires n > 0 && ReadString(b) == Success((s, b1)) && ReadStrings(b1, n - 1) == Success((more, b2))
    ensures ReadStrings(b, n) == Success(([s] + more, b2))
  {
  }

  // --- several fields in a row ---

  ghost function Join(chunks: seq<Bytes>): (r: Bytes) {
    if chunks == [] then [] else chunks[0] + Join(chunks[1..])
  }

  /** What is left from chunk `k` on: that chunk first. */
  lemma JoinStep(chunks: seq<Bytes>, k: nat, rest: Bytes)
    requires k < |chunks|
    ensures Join(chunks[k..]) + rest == chunks[k] + (Join(chunks[k + 1..]) + rest)
  {
    assert chunks[k..][1..] == chunks[k + 1..];
  }

  lemma JoinDone(chunks: seq<Bytes>, rest: Bytes)
    ensures Join(chunks[|chunks|..]) + rest == rest && chunks[0..] == chunks
  {
  }

  lemma {:induction false} JoinMore(chunks: seq<Bytes>, x: Bytes)
    ensures Join(chunks + [x]) == Join(chunks) + x
  {
    if chunks != [] {
      JoinMore(chunks[1..], x);
      assert (chunks + [x])[1..] == chunks[1..] + [x];
    } else {
      assert (chunks + [x])[1..] == [] && x + [] == x;
    }
  }

  /** Chunk `k` is written behind those before it. */
  lemma JoinWrite(chunks: seq<Bytes>, k: nat)
    requires k < |chunks|
    ensures Join(chunks[..k + 1]) == Join(chunks[..k]) + chunks[k]
  {
    assert chunks[..k + 1] == chunks[..k] + [chunks[k]];
    JoinMore(chunks[..k], chunks[k]);
  }

  lemma JoinNone(chunks: seq<Bytes>)
    ensures Join(chunks[..0]) == []
  {
  }

  // --- writing and reading step by step ---

  lemma Regroup(a: Bytes, b: Bytes, c: Bytes)
    ensures a + b + c == a + (b + c)
    ensures a + [] == a == [] + a
  {
  }

  method SerialiseStrings(s: seq<CString>) returns (out: Bytes)
    requires AllSendable(s)
    ensures out == PutStrings(s)
  {
    hide PutString;
    out := [];
    var i := 0;
    assert s[0..] == s;
    while i < |s|
      invariant 0 <= i <= |s| && out + PutStrings(s[i..]) == PutStrings(s)
    {
      assert s[i..][1..] == s[i + 1..];
      Regroup(out, PutString(s[i]), PutStrings(s[i + 1..]));
      out := out + PutString(s[i]);
      i := i + 1;
    }
  }

  method StringsLength(s: seq<CString>) returns (n: nat)
    requires AllSendable(s)
    ensures n == |PutStrings(s)|
  {
    n := 0;
    var i := 0;
    assert s[0..] == s;
    while i < |s|
      invariant 0 <= i <= |s| && n + |PutStrings(s[i..])| == |PutStrings(s)|
    {
      assert s[i..][1..] == s[i + 1..];
      n := n + 4 + OptionalLength(s[i]);
      i := i + 1;
    }
  }

  /** A step of the reader agrees with the function: same outcome, same value, and the rest is what is left. */
  ghost predicate Agrees<T>(expected: Result<(T, Bytes)>, r: Result<T>, rest: Bytes) {
    match expected
    case Malformed => r.Malformed?
    case Overread => r.Overread?
    case Success(v) => r == Success(v.0) && rest == v.1
  }

  class Reader {
    const payload: Bytes
    var pos: nat
    var len: nat

    constructor (payload: Bytes)
      ensures Valid() && Rest() == payload
    {
      this.payload, pos, len := payload, 0, |payload|;
    }

    /** The cursor is inside the payload, and no fewer bytes are counted than are left. */
    ghost predicate Loose()
      reads this
    {
      pos <= |payload| <= pos + len
    }

    /** By how much the count is too high. */
    ghost function Slack(): (n: nat)
      reads this
      requires Loose()
    {
      pos + len - |payload|
    }

    ghost predicate Valid()
      reads this
    {
      Loose() && Slack() == 0
    }

    ghost function Rest(): (b: Bytes)
      reads this
      requires Loose()
    {
      payload[pos..]
    }

    /** `read_u32` */
    method U32() returns (r: Result<int>)
      requires Loose()
      modifies this
      ensures Loose() && Slack() == old(Slack()) && Agrees(LooseU32(old(Rest()), old(Slack())), r, Rest())
      ensures old(Valid()) ==> Valid() && Agrees(ReadU32(old(Rest())), r, Rest())
    {
      if len < 4 {
        return Malformed;
      }
      if |payload| - pos < 4 {
        return Overread;
      }
      var w: int, x: int, y: int, z: int := payload[pos], payload[pos + 1], payload[pos + 2], payload[pos + 3];
      pos, len := pos + 4, len - 4;
      return Success(((w * 0x100 + x) * 0x100 + y) * 0x100 + z);
    }

    method Flag() returns (r: Result<bool>)
      requires Valid()
      modifies this
      ensures Valid() && Agrees(ReadFlag(old(Rest())), r, Rest())
    {
      var v :- U32();
      return Success(v != 0);
    }

    /** A flag of one byte, neither checked nor counted. */
    method Bool() returns (r: Result<bool>)
      requires Loose()
      modifies this
      ensures Loose() && Agrees(ReadBool(old(Rest())), r, Rest())
      ensures r.Success? ==> Slack() == old(Slack()) + 1
    {
      if pos == |payload| {
        return Overread;
      }
      r := Success(payload[pos] != 0);
      pos := pos + 1;
    }

    /** `read_string`; the number is only consumed once the length has been checked. */
    method String() returns (r: Result<CString>)
      requires Loose()
      modifies this
      ensures Loose() && Slack() == old(Slack()) && Agrees(LooseString(old(Rest()), old(Slack())), r, Rest())
      ensures old(Valid()) ==> Valid() && Agrees(ReadString(old(Rest())), r, Rest())
    {
      hide ReadString, Copied;
      NoSlack(Rest());
      if len < 4 {
        return Malformed;
      }
      if |payload| - pos < 4 {
        return Overread;
      }
      var w: int, x: int, y: int, z: int := payload[pos], payload[pos + 1], payload[pos + 2], payload[pos + 3];
      var n: nat := ((w * 0x100 + x) * 0x100 + y) * 0x100 + z;
      if (4 + n) % TWO32 > len {
        return Malformed;
      }
      if n > |payload| - pos - 4 {
        return Overread;
      }
      var s := if n == 0 then None else Some(Copied(payload[pos + 4..pos + 4 + n]));
      assert Rest()[4..][..n] == payload[pos + 4..pos + 4 + n] && Rest()[4..][n..] == payload[pos + 4 + n..];
      pos, len := pos + 4 + n, len - 4 - n;
      return Success(s);
    }

    /** A block of bytes that is copied as it is. */
    method Raw(n: nat) returns (r: Result<Bytes>)
      requires Loose()
      modifies this
      ensures Loose() && Slack() == old(Slack()) && Agrees(LooseRaw(old(Rest()), n, old(Slack())), r, Rest())
      ensures old(Valid()) ==> Valid() && Agrees(ReadRaw(old(Rest()), n), r, Rest())
    {
      if len < n {
        return Malformed;
      }
      if |payload| - pos < n {
        return Overread;
      }
      assert Rest()[..n] == payload[pos..pos + n] && Rest()[n..] == payload[pos + n..];
      r := Success(payload[pos..pos + n]);
      pos, len := pos + n, len - n;
    }

    /** A block of bytes that is copied without a check. The count is not looked at any more after that. */
    method Unchecked(n: nat) returns (r: Result<Bytes>)
      requires Loose()
      modifies this
      ensures Loose() && Agrees(ReadUnchecked(old(Rest()), n), r, Rest())
    {
      if |payload| - pos < n {
        return Overread;
      }
      assert Rest()[..n] == payload[pos..pos + n] && Rest()[n..] == payload[pos + n..];
      r := Success(payload[pos..pos + n]);
      pos := pos + n;
    }

    /** The loops that fill an array of strings. */
    method Strings(n: nat) returns (r: Result<seq<CString>>)
      requires Valid()
      modifies this
      ensures Valid() && Agrees(ReadStrings(old(Rest()), n), r, Rest())
    {
      hide ReadString, ReadStrings;
      var s := [];
      PrependNone(ReadStrings(Rest(), n));
      var i := 0;
      while i < n
        invariant 0 <= i <= n && |s| == i && Valid()
        invariant ReadStrings(old(Rest()), n) == Prepend(s, ReadStrings(Rest(), n - i))
      {
        ReadStringsTurn(Rest(), n - i, s);
        var x :- String();
        s := s + [x];
        i := i + 1;
      }
      ReadStringsEnd(Rest(), s);
      return Success(s);
    }
  }

  ghost function Prepend<T>(s: seq<T>, r: Result<(seq<T>, Bytes)>): (q: Result<(seq<T>, Bytes)>) {
    if r.Success? then Success((s + r.value.0, r.value.1)) else r
  }

  lemma PrependNone<T>(r: Result<(seq<T>, Bytes)>)
    ensures Prepend([], r) == r
  {
    if r.Success? { assert [] + r.value.0 == r.value.0; }
  }

  lemma ReadStringsEnd(b: Bytes, s: seq<CString>)
    ensures Prepend(s, ReadStrings(b, 0)) == Success((s, b))
  {
    assert s + [] == s;
  }

  lemma ReadStringsTurn(b: Bytes, n: nat, s: seq<CString>)
    requires n > 0
    ensures var x := ReadString(b);
      Prepend(s, ReadStrings(b, n)) ==
        match x
        case Malformed => Malformed
        case Overread => Overread
        case Success(v) => Prepend(s + [v.0], ReadStrings(v.1, n - 1))
  {
    hide ReadString;
    var x := ReadString(b);
    if x.Success? {
      var more := ReadStrings(x.value.1, n - 1);
      if more.Success? { assert s + ([x.value.0] + more.value.0) == s + [x.value.0] + more.value.0; }
    }
  }
}
