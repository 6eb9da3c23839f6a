/**
 The allocator's raw links (lib/talloc/talloc.c): sibling lists in which only the
 head stores its parent, reference lists threaded through the handles, and the
 operations that rewrite them in place. The ghost field `f` is the forest they
 represent.

 Memory is kept as one map per field, keyed by the address of the chunk; an
 address outside the maps is not allocated, so every access proves that the chunk
 it touches has not been freed.
 */
module TallocHeap {
  import opened TallocForest

  datatype Destructor = NoDestructor | ReferenceDestructor | UserDestructor | InProgress

  /** The two fields that thread a list through its elements. */
  datatype Hook = Hook(next: Addr, prev: Addr)

  type Chain = map<Addr, Hook>

  /** Following `next` from `head` visits exactly `s`; each element's `prev` is the one before it. */
  ghost predicate Chained(ch: Chain, head: Addr, before: Addr, s: seq<Addr>)
    decreases |s|
  {
    if s == [] then head == NULL
    else head == s[0] && head in ch && ch[head].prev == before && Chained(ch, ch[head].next, head, s[1..])
  }

  ghost predicate Hooked(ch: Chain, s: seq<Addr>) {
    forall i {:trigger s[i]} :: 0 <= i < |s| ==> s[i] in ch
  }

  /** The same, index by index. */
  ghost predicate Threaded(ch: Chain, head: Addr, before: Addr, s: seq<Addr>)
    requires Hooked(ch, s)
  {
    && head == Nth(s, 0)
    && (forall i {:trigger ch[s[i]]} :: 0 <= i < |s| ==>
      ch[s[i]] == Hook(Nth(s, i + 1), if i == 0 then before else s[i - 1]))
  }

  lemma {:induction false} ChainedIff(ch: Chain, head: Addr, before: Addr, s: seq<Addr>)
    ensures Chained(ch, head, before, s) <==> Hooked(ch, s) && Threaded(ch, head, before, s)
    decreases |s|
  {
    if s != [] {
      var next := if s[0] in ch then ch[s[0]].next else NULL;
      ChainedIff(ch, next, s[0], s[1..]);
      if Chained(ch, head, before, s) {
        forall i | 0 <= i < |s| ensures s[i] in ch
          && ch[s[i]] == Hook(Nth(s, i + 1), if i == 0 then before else s[i - 1]) {
          if i > 0 { assert s[1..][i - 1] == s[i]; }
        }
      }
      if Hooked(ch, s) && Threaded(ch, head, before, s) {
        forall i | 0 <= i < |s[1..]|
          ensures ch[s[1..][i]] == Hook(Nth(s[1..], i + 1), if i == 0 then s[0] else s[1..][i - 1]) {
          assert s[1..][i] == s[i + 1];
        }
      }
    }
  }

  /** Outside `s` no link has changed. */
  ghost predicate OnlyWithin(ch: Chain, ch': Chain, s: seq<Addr>) {
    && ch'.Keys == ch.Keys
    && (forall c {:trigger ch'[c]} :: c in ch && c !in s ==> ch'[c] == ch[c])
  }

  /** `_TLIST_ADD`: hook `p` into the front of the list. */
  method ListAdd(ch: Chain, list: Addr, p: Addr, ghost s: seq<Addr>) returns (ch': Chain, list': Addr)
    requires Chained(ch, list, NULL, s) && NULL !in s && Distinct(s) && p in ch && p !in s && p != NULL
    ensures OnlyWithin(ch, ch', [p] + s) && Chained(ch', list', NULL, [p] + s)
  {
    ChainedIff(ch, list, NULL, s);
    if list == NULL {
      assert s == [];
      list' := p;
      ch' := ch[p := Hook(NULL, NULL)];
    } else {
      assert list == s[0];
      ch' := ch[list := ch[list].(prev := p)];
      ch' := ch'[p := Hook(list, NULL)];
      list' := p;
      forall i: nat | i < |s| ensures ch'[s[i]] == Hook(Nth(s, i + 1), if i == 0 then p else s[i - 1]) {
        assert s[i] in s && (i > 0 ==> Apart(s, 0, i));
      }
      ChainedIff(ch', list, p, s);
    }
    assert ([p] + s)[1..] == s;
  }

  /** What `s` links to once its element `k` has been skipped over. */
  ghost function SkipHook(s: seq<Addr>, k: nat, j: nat): (h: Hook)
    requires k < |s|
  {
    Hook(if j == k - 1 then Nth(s, k + 1) else Nth(s, j + 1), if j == k + 1 then Nth(s, k - 1) else Nth(s, j - 1))
  }

  lemma Spliced(ch: Chain, s: seq<Addr>, k: nat)
    requires k < |s|
    requires Hooked(ch, s)
    requires forall j: nat {:trigger ch[s[j]]} :: j < |s| && j != k ==> ch[s[j]] == SkipHook(s, k, j)
    ensures Chained(ch, Nth(s, if k == 0 then 1 else 0), NULL, s[..k] + s[k + 1..])
  {
    var r := s[..k] + s[k + 1..];
    forall i: nat | i < |r| ensures ch[r[i]] == Hook(Nth(r, i + 1), Nth(r, i - 1)) {
      assert r[i] == s[if i < k then i else i + 1];
    }
    ChainedIff(ch, Nth(r, 0), NULL, r);
  }

  /** Join the neighbours of `p`, whose own links stay as they were; a chunk in no list has none. */
  method UnlinkInner(ch: Chain, p: Addr, ghost s: seq<Addr>, ghost k: nat) returns (ch': Chain)
    requires if s == [] then p in ch && ch[p] == Hook(NULL, NULL)
             else NULL !in s && Distinct(s) && Chained(ch, s[0], NULL, s) && 0 < k < |s| && s[k] == p
    ensures OnlyWithin(ch, ch', s) && p in ch && ch'[p] == ch[p]
    ensures if s == [] then ch' == ch else Chained(ch', s[0], NULL, s[..k] + s[k + 1..])
  {
    ch' := ch;
    if s != [] {
      ChainedIff(ch, s[0], NULL, s);
      assert ch[s[k]] == Hook(Nth(s, k + 1), s[k - 1]) && Apart(s, k - 1, k) && (k + 1 < |s| ==> Apart(s, k, k + 1));
    }
    if ch'[p].prev != NULL {
      ch' := ch'[ch'[p].prev := ch'[ch'[p].prev].(next := ch'[p].next)];
    }
    if ch'[p].next != NULL {
      ch' := ch'[ch'[p].next := ch'[ch'[p].next].(prev := ch'[p].prev)];
    }
    if s != [] {
      forall j: nat | j < |s| && j != k ensures ch'[s[j]] == SkipHook(s, k, j) {
        assert s[j] in s && ch[s[j]] == Hook(Nth(s, j + 1), Nth(s, j - 1));
        assert j < k - 1 ==> Apart(s, j, k - 1);
        assert j > k - 1 ==> Apart(s, k - 1, j);
        assert j < k + 1 < |s| ==> Apart(s, j, k + 1);
        assert j > k + 1 ==> Apart(s, k + 1, j);
      }
      Spliced(ch', s, k);
    }
  }

  /** `_TLIST_REMOVE`: remove `p`, wherever it is in the list. */
  method ListRemove(ch: Chain, list: Addr, p: Addr, ghost s: seq<Addr>) returns (ch': Chain, list': Addr)
    requires Chained(ch, list, NULL, s) && NULL !in s && Distinct(s) && p in s
    ensures OnlyWithin(ch, ch', s) && Chained(ch', list', NULL, Without(s, p))
    ensures p in ch' && ch'[p] == Hook(NULL, NULL)
  {
    ch', list' := ch, list;
    ghost var k: nat :| k < |s| && s[k] == p;
    WithoutAt(s, k);
    WithoutDistinct(s, p);
    ChainedIff(ch, list, NULL, s);
    if p == list {
      assert k == 0 by { DistinctIndex(s, 0, k); }
      list' := ch'[p].next;
      if list' != NULL {
        ch' := ch'[list' := ch'[list'].(prev := NULL)];
      }
      ListPopped(ch, ch', s);
    } else {
      ch' := UnlinkInner(ch', p, s, k);
    }
    if p != list' {
      ghost var ch1 := ch';
      ch' := ch'[p := Hook(NULL, NULL)];
      ChainedSame(ch1, ch', list', NULL, Without(s, p));
    }
  }

  lemma ListPopped(ch: Chain, ch': Chain, s: seq<Addr>)
    requires s != [] && NULL !in s && Distinct(s) && Chained(ch, s[0], NULL, s)
    requires Hooked(ch, s) && ch' == if |s| == 1 then ch else ch[s[1] := ch[s[1]].(prev := NULL)]
    ensures Chained(ch', Nth(s, 1), NULL, s[..0] + s[1..])
  {
    ChainedIff(ch, s[0], NULL, s);
    forall j: nat | 0 < j < |s| ensures ch'[s[j]] == SkipHook(s, 0, j) {
      assert s[j] in s && ch[s[j]] == Hook(Nth(s, j + 1), s[j - 1]);
      assert j > 1 ==> Apart(s, 1, j);
    }
    Spliced(ch', s, 0);
  }

  /** A list is unaffected by changes to chunks that are not in it. */
  lemma {:induction false} ChainedSame(ch: Chain, ch': Chain, head: Addr, before: Addr, s: seq<Addr>)
    requires Chained(ch, head, before, s)
    requires forall c :: c in s && c in ch ==> c in ch' && ch'[c] == ch[c]
    ensures Chained(ch', head, before, s)
    decreases |s|
  {
    if s != [] {
      assert s[0] in s;
      ChainedSame(ch, ch', ch[head].next, head, s[1..]);
    }
  }

  // ---------- what the links represent ----------

  /** A chunk stores its owner if it heads its sibling list, and null otherwise. */
  ghost function StoredParent(t: Links, c: Addr): (p: Addr)
    requires Consistent(t) && c in t.up
  {
    if t.up[c] != NULL && t.downs[t.up[c]][0] == c then t.up[c] else NULL
  }

  /** Each chunk heads the list of the chunks below it. */
  ghost predicate Lists(ch: Chain, head: map<Addr, Addr>, downs: map<Addr, seq<Addr>>) {
    && ch.Keys == downs.Keys && head.Keys == downs.Keys
    && (forall p {:trigger Chained(ch, head[p], NULL, downs[p])} :: p in downs ==> Chained(ch, head[p], NULL, downs[p]))
  }

  ghost predicate Parents(parent: map<Addr, Addr>, t: Links, skip: Addr)
    requires Consistent(t)
  {
    && parent.Keys == t.up.Keys
    && (forall c {:trigger parent[c]} :: c in t.up && c != skip ==> parent[c] == StoredParent(t, c))
  }

  ghost predicate RootsUnlinked(sib: Chain, t: Links, skip: Addr)
    requires sib.Keys == t.up.Keys
  {
    forall c {:trigger t.up[c]} :: c in t.up && c != skip && t.up[c] == NULL ==> sib[c] == Hook(NULL, NULL)
  }

  /** The sibling links represent `t`; the links of the root `skip` are not yet set. */
  ghost predicate SiblingLinks(sib: Chain, parent: map<Addr, Addr>, child: map<Addr, Addr>, t: Links, skip: Addr)
    requires Consistent(t)
  {
    Lists(sib, child, t.downs) && Parents(parent, t, skip) && RootsUnlinked(sib, t, skip)
  }

  /** The reference lists represent `t`, and a handle stores what it refers to. */
  ghost predicate HandleLinks(hnd: Chain, refs: map<Addr, Addr>, ptr: map<Addr, Addr>, t: Links)
    requires Consistent(t)
  {
    && Lists(hnd, refs, t.downs) && ptr.Keys == t.up.Keys
    && (forall h {:trigger ptr[h]} :: h in t.up && t.up[h] != NULL ==> ptr[h] == t.up[h])
  }

  /** If only the list of `p` was rewritten, all lists represent `downs` with that list replaced. */
  lemma ListsReplaced(ch: Chain, ch': Chain, head: map<Addr, Addr>, x: Addr, t: Links, p: Addr, within: seq<Addr>,
      r: seq<Addr>)
    requires Consistent(t) && Lists(ch, head, t.downs) && p in t.up
    requires OnlyWithin(ch, ch', within) && Chained(ch', x, NULL, r)
    requires forall c :: c in within && c in t.up ==> t.up[c] == NULL || t.up[c] == p
    ensures Lists(ch', head[p := x], t.downs[p := r])
  {
    forall q | q in t.downs && q != p ensures Chained(ch', head[q], NULL, t.downs[q]) {
      OtherList(t, p, q, within);
      ChainedSame(ch, ch', head[q], NULL, t.downs[q]);
    }
  }

  lemma UpdateSame(m: map<Addr, Addr>, p: Addr)
    requires p in m
    ensures m[p := m[p]] == m
  {
  }

  lemma OtherList(t: Links, p: Addr, q: Addr, within: seq<Addr>)
    requires Consistent(t) && q in t.up && q != p
    requires forall c :: c in within && c in t.up ==> t.up[c] == NULL || t.up[c] == p
    ensures forall c :: c in t.downs[q] ==> c !in within
  {
  }

  /** After the head of `p`'s list is gone its successor `x`, if any, must be told its parent. */
  lemma HeadGone(parent: map<Addr, Addr>, t: Links, tc: Addr)
    requires Consistent(t) && Parents(parent, t, NULL) && tc in t.up && t.up[tc] != NULL && t.downs[t.up[tc]][0] == tc
    requires Consistent(Cut(t, tc))
    ensures var x := Nth(t.downs[t.up[tc]], 1);
            Parents(if x == NULL then parent else parent[x := t.up[tc]], Cut(t, tc), tc)
  {
    var p := t.up[tc];
    var s := t.downs[p];
    var x := Nth(s, 1);
    var u := Cut(t, tc);
    assert u.downs[p] == s[1..];
    assert x != NULL ==> x in s;
    var parent' := if x == NULL then parent else parent[x := p];
    forall c | c in u.up && c != tc ensures parent'[c] == StoredParent(u, c) {
      assert parent[c] == StoredParent(t, c) && u.up[c] == t.up[c];
      if u.up[c] == p { assert c in u.downs[p]; }
    }
  }

  /** Removing an inner element of a list leaves every stored parent right. */
  lemma InnerGone(parent: map<Addr, Addr>, t: Links, tc: Addr)
    requires Consistent(t) && Parents(parent, t, NULL) && tc in t.up && t.up[tc] != NULL && t.downs[t.up[tc]][0] != tc
    requires Consistent(Cut(t, tc))
    ensures Parents(parent, Cut(t, tc), tc)
  {
    var p := t.up[tc];
    var s := t.downs[p];
    var u := Cut(t, tc);
    assert u.downs[p][0] == s[0];
    forall c | c in u.up && c != tc ensures parent[c] == StoredParent(u, c) {
      assert parent[c] == StoredParent(t, c) && u.up[c] == t.up[c];
    }
  }

  /** A chunk put at the head of `p`'s list stores `p`, and the old head forgets it. */
  lemma NewHead(parent: map<Addr, Addr>, t: Links, p: Addr, tc: Addr)
    requires Consistent(t) && Parents(parent, t, tc) && p in t.up && tc in t.up && t.up[tc] == NULL
    requires Consistent(Push(t, p, tc))
    ensures var x := Nth(t.downs[p], 0);
            Parents(if x == NULL then parent[tc := p] else parent[tc := p][x := NULL], Push(t, p, tc), NULL)
  {
    var x := Nth(t.downs[p], 0);
    assert x != NULL ==> x in t.downs[p];
    var u := Push(t, p, tc);
    var parent' := if x == NULL then parent[tc := p] else parent[tc := p][x := NULL];
    assert u.downs[p][0] == tc;
    forall c | c in u.up ensures parent'[c] == StoredParent(u, c) {
      if c != tc {
        assert parent[c] == StoredParent(t, c) && u.up[c] == t.up[c];
      }
    }
  }

  // ---------- rewriting the sibling lists ----------

  /** Take `tc` out of its sibling list (lines 570-578, 679-687 and 699-707). */
  method UnlinkSibling(sib: Chain, parent: map<Addr, Addr>, child: map<Addr, Addr>, tc: Addr, ghost t: Links)
      returns (sib': Chain, parent': map<Addr, Addr>, child': map<Addr, Addr>)
    requires Consistent(t) && tc in t.up && SiblingLinks(sib, parent, child, t, NULL)
    ensures Consistent(Cut(t, tc)) && SiblingLinks(sib', parent', child', Cut(t, tc), tc)
  {
    CutConsistent(t, tc);
    if parent[tc] != NULL {
      sib', parent', child' := UnlinkHead(sib, parent, child, tc, t);
    } else {
      parent', child' := parent, child;
      sib' := UnlinkMiddle(sib, parent, child, tc, t);
    }
  }

  method UnlinkMiddle(sib: Chain, parent: map<Addr, Addr>, child: map<Addr, Addr>, tc: Addr, ghost t: Links)
      returns (sib': Chain)
    requires Consistent(t) && tc in t.up && SiblingLinks(sib, parent, child, t, NULL)
    requires parent[tc] == NULL && Consistent(Cut(t, tc))
    ensures SiblingLinks(sib', parent, child, Cut(t, tc), tc)
  {
    ghost var p := t.up[tc];
    ghost var s := if p == NULL then [] else t.downs[p];
    ghost var k: nat := 0;
    if p != NULL {
      k :| k < |s| && s[k] == tc;
      WithoutAt(s, k);
      assert Chained(sib, child[p], NULL, s);
    }
    sib' := UnlinkInner(sib, tc, s, k);
    if p != NULL {
      ListsReplaced(sib, sib', child, child[p], t, p, s, Without(s, tc));
      UpdateSame(child, p);
      InnerGone(parent, t, tc);
    }
  }

  method UnlinkHead(sib: Chain, parent: map<Addr, Addr>, child: map<Addr, Addr>, tc: Addr, ghost t: Links)
      returns (sib': Chain, parent': map<Addr, Addr>, child': map<Addr, Addr>)
    requires Consistent(t) && tc in t.up && SiblingLinks(sib, parent, child, t, NULL)
    requires parent[tc] != NULL && Consistent(Cut(t, tc))
    ensures SiblingLinks(sib', parent', child', Cut(t, tc), tc)
  {
    var p := parent[tc];
    assert Chained(sib, child[p], NULL, t.downs[p]);
    var ch, head := ListRemove(sib, child[p], tc, t.downs[p]);
    sib', child', parent' := ch, child[p := head], parent;
    if child'[p] != NULL {
      parent' := parent'[child'[p] := p];
    }
    ListsReplaced(sib, sib', child, head, t, p, t.downs[p], Without(t.downs[p], tc));
    HeadGone(parent, t, tc);
  }

  /** Put the unlinked `tc` at the head of `p`'s sibling list (lines 202-212 and 709-711). */
  method LinkChild(sib: Chain, parent: map<Addr, Addr>, child: map<Addr, Addr>, p: Addr, tc: Addr, ghost t: Links)
      returns (sib': Chain, parent': map<Addr, Addr>, child': map<Addr, Addr>)
    requires Consistent(t) && p in t.up && tc in t.up && t.up[tc] == NULL && SiblingLinks(sib, parent, child, t, tc)
    ensures Consistent(Push(t, p, tc)) && SiblingLinks(sib', parent', child', Push(t, p, tc), NULL)
  {
    PushConsistent(t, p, tc);
    assert Chained(sib, child[p], NULL, t.downs[p]);
    parent' := parent[tc := p];
    if child[p] != NULL {
      parent' := parent'[child[p] := NULL];
    }
    var ch, head := ListAdd(sib, child[p], tc, t.downs[p]);
    sib', child' := ch, child[p := head];
    ListsReplaced(sib, sib', child, head, t, p, [tc] + t.downs[p], [tc] + t.downs[p]);
    NewHead(parent, t, p, tc);
  }

  /** The walk in `talloc_parent_chunk`: back along `prev` to the head of the list, whose parent field is the owner. */
  method ParentChunk(sib: Chain, parent: map<Addr, Addr>, tc: Addr, ghost child: map<Addr, Addr>, ghost t: Links)
      returns (p: Addr)
    requires Consistent(t) && tc in t.up && SiblingLinks(sib, parent, child, t, NULL)
    ensures p == t.up[tc]
  {
    var c := tc;
    ghost var up := t.up[tc];
    ghost var s := if up == NULL then [tc] else t.downs[up];
    ghost var k: nat :| k < |s| && s[k] == tc;
    if up != NULL {
      assert Chained(sib, child[up], NULL, s);
      ChainedIff(sib, child[up], NULL, s);
    }
    while sib[c].prev != NULL
      invariant k < |s| && s[k] == c && c in t.up && t.up[c] == up
      decreases k
    {
      c := sib[c].prev;
      k := k - 1;
      assert s[k] in s;
    }
    p := parent[c];
  }

  // ---------- rewriting the reference lists ----------

  /** Hook the handle `h` into the front of `tc`'s reference list (lines 281-282). */
  method LinkHandle(hnd: Chain, refs: map<Addr, Addr>, ptr: map<Addr, Addr>, tc: Addr, h: Addr, ghost t: Links)
      returns (hnd': Chain, refs': map<Addr, Addr>, ptr': map<Addr, Addr>)
    requires Consistent(t) && tc in t.up && h in t.up && t.up[h] == NULL && HandleLinks(hnd, refs, ptr, t)
    ensures Consistent(Push(t, tc, h)) && HandleLinks(hnd', refs', ptr', Push(t, tc, h))
  {
    PushConsistent(t, tc, h);
    assert Chained(hnd, refs[tc], NULL, t.downs[tc]);
    ptr' := ptr[h := tc];
    var ch, head := ListAdd(hnd, refs[tc], h, t.downs[tc]);
    hnd', refs' := ch, refs[tc := head];
    ListsReplaced(hnd, hnd', refs, head, t, tc, [h] + t.downs[tc], [h] + t.downs[tc]);
  }

  /** Remove the handle `h` from the reference list of the chunk it refers to (lines 251 and 309). */
  method UnlinkHandle(hnd: Chain, refs: map<Addr, Addr>, ghost ptr: map<Addr, Addr>, tc: Addr, h: Addr, ghost t: Links)
      returns (hnd': Chain, refs': map<Addr, Addr>)
    requires Consistent(t) && tc in t.up && h in t.up && t.up[h] == tc && HandleLinks(hnd, refs, ptr, t)
    ensures Consistent(Cut(t, h)) && HandleLinks(hnd', refs', ptr, Cut(t, h))
  {
    CutConsistent(t, h);
    assert Chained(hnd, refs[tc], NULL, t.downs[tc]);
    var ch, head := ListRemove(hnd, refs[tc], h, t.downs[tc]);
    hnd', refs' := ch, refs[tc := head];
    ListsReplaced(hnd, hnd', refs, head, t, tc, t.downs[tc], Without(t.downs[tc], h));
  }

  // ---------- adding and removing a chunk ----------

  lemma ListsAdded(ch: Chain, head: map<Addr, Addr>, t: Links, c: Addr, k: Hook)
    requires Consistent(t) && Lists(ch, head, t.downs) && c !in t.up
    ensures Lists(ch[c := k], head[c := NULL], t.downs[c := []])
  {
    forall q | q in t.downs ensures Chained(ch[c := k], head[q], NULL, t.downs[q]) {
      assert Chained(ch, head[q], NULL, t.downs[q]);
      ChainedSame(ch, ch[c := k], head[q], NULL, t.downs[q]);
    }
  }

  lemma ListsDropped(ch: Chain, head: map<Addr, Addr>, t: Links, c: Addr)
    requires Consistent(t) && Lists(ch, head, t.downs) && c in t.up && t.up[c] == NULL
    ensures Lists(ch - {c}, head - {c}, t.downs - {c})
  {
    forall q | q in t.downs && q != c ensures Chained(ch - {c}, head[q], NULL, t.downs[q]) {
      assert Chained(ch, head[q], NULL, t.downs[q]);
      ChainedSame(ch, ch - {c}, head[q], NULL, t.downs[q]);
    }
  }

  lemma SiblingsAdded(sib: Chain, parent: map<Addr, Addr>, child: map<Addr, Addr>, t: Links, c: Addr)
    requires Consistent(t) && SiblingLinks(sib, parent, child, t, NULL) && c !in t.up && c != NULL
    ensures Consistent(AddUnlinked(t, c))
    ensures SiblingLinks(sib[c := Hook(NULL, NULL)], parent[c := NULL], child[c := NULL], AddUnlinked(t, c), NULL)
  {
    AddConsistent(t, c);
    ListsAdded(sib, child, t, c, Hook(NULL, NULL));
  }

  lemma HandlesAdded(hnd: Chain, refs: map<Addr, Addr>, ptr: map<Addr, Addr>, t: Links, c: Addr)
    requires Consistent(t) && HandleLinks(hnd, refs, ptr, t) && c !in t.up && c != NULL
    ensures Consistent(AddUnlinked(t, c))
    ensures HandleLinks(hnd[c := Hook(NULL, NULL)], refs[c := NULL], ptr[c := NULL], AddUnlinked(t, c))
  {
    AddConsistent(t, c);
    ListsAdded(hnd, refs, t, c, Hook(NULL, NULL));
  }

  lemma SiblingsDropped(sib: Chain, parent: map<Addr, Addr>, child: map<Addr, Addr>, t: Links, c: Addr)
    requires Consistent(t) && SiblingLinks(sib, parent, child, t, c) && c in t.up && t.up[c] == NULL && t.downs[c] == []
    ensures Consistent(Remove(t, c))
    ensures SiblingLinks(sib - {c}, parent - {c}, child - {c}, Remove(t, c), NULL)
  {
    RemoveConsistent(t, c);
    ListsDropped(sib, child, t, c);
  }

  lemma HandlesDropped(hnd: Chain, refs: map<Addr, Addr>, ptr: map<Addr, Addr>, t: Links, c: Addr)
    requires Consistent(t) && HandleLinks(hnd, refs, ptr, t) && c in t.up && t.up[c] == NULL && t.downs[c] == []
    ensures Consistent(Remove(t, c))
    ensures HandleLinks(hnd - {c}, refs - {c}, ptr - {c}, Remove(t, c))
  {
    RemoveConsistent(t, c);
    ListsDropped(hnd, refs, t, c);
  }
}
