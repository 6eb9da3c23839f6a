/** Definitions shared by the models. */
module Common {

  /** A pointer that may be null. */
  datatype Option<+T> = None | Some(value: T)

  predicate Distinct(s: seq<nat>) {
    forall i, j :: 0 <= i < j < |s| ==> s[i] != s[j]
  }

  /** The position of the first `c`; the length of the string if there is none. */
  function IndexOf(s: string, c: char): (i: nat)
    ensures i <= |s| && (i < |s| ==> s[i] == c) && forall k :: 0 <= k < i ==> s[k] != c
  {
    if s == "" || s[0] == c then 0 else 1 + IndexOf(s[1..], c)
  }

  function Lower(c: char): (r: char) {
    if 'A' <= c <= 'Z' then c - 'A' + 'a' else c
  }

  /** The latest first. */
  function Reversed<T>(s: seq<T>): (r: seq<T>)
    ensures |r| == |s| && forall i :: 0 <= i < |s| ==> r[i] == s[|s| - 1 - i]
  {
    if s == [] then [] else [s[|s| - 1]] + Reversed(s[..|s| - 1])
  }

  lemma ReversedMore<T>(s: seq<T>, x: T)
    ensures Reversed(s + [x]) == [x] + Reversed(s)
  {
    assert (s + [x])[..|s|] == s;
  }
}
