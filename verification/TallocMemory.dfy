/**
 The whole memory of the allocator and the forest it represents, with the edits
 from which every operation is made.
 */
module TallocMemory {
  import opened TallocForest
  import opened TallocHeap

  /** One map per field of `struct talloc_chunk` and of the reference handle. */
  datatype Memory = Memory(
    sib: Chain, parent: map<Addr, Addr>, child: map<Addr, Addr>,
    hnd: Chain, refs: map<Addr, Addr>, ptr: map<Addr, Addr>,
    destructor: map<Addr, Destructor>)

  /** Exactly the reference handles carry the reference destructor; `busy` is being destroyed. */
  ghost predicate Destructors(destructor: map<Addr, Destructor>, ref: Links, busy: Addr) {
    && destructor.Keys == ref.up.Keys
    && (forall c {:trigger destructor[c]} :: c in ref.up && c != busy ==>
      (destructor[c] == ReferenceDestructor <==> ref.up[c] != NULL))
  }

  /** `m` represents `f`, but for the sibling links of the root `loose` and the destructor of `busy`. */
  ghost predicate Represents(m: Memory, f: Forest, loose: Addr, busy: Addr) {
    match m
    case Memory(sib, parent, child, hnd, refs, ptr, destructor) =>
      && WellFormed(f)
      && SiblingLinks(sib, parent, child, f.own, loose)
      && HandleLinks(hnd, refs, ptr, f.ref)
      && Destructors(destructor, f.ref, busy)
  }

  lemma LinksOf(f: Forest)
    requires WellFormed(f)
    ensures Consistent(f.own) && Consistent(f.ref) && f.own.up.Keys == f.ref.up.Keys == f.rank.Keys
  {
  }

  lemma DestructorsAdded(destructor: map<Addr, Destructor>, ref: Links, c: Addr)
    requires Destructors(destructor, ref, NULL) && c !in ref.up
    ensures Destructors(destructor[c := NoDestructor], AddUnlinked(ref, c), NULL)
  {
  }

  /** Zeroed bookkeeping for the fresh chunk `c`. */
  method AddChunk(m: Memory, ghost f: Forest, c: Addr, ghost rank: nat) returns (m': Memory)
    requires Represents(m, f, NULL, NULL) && c !in f.own.up && c != NULL
    ensures Represents(m', AddRoot(f, c, rank), NULL, NULL)
    ensures m'.destructor == m.destructor[c := NoDestructor]
  {
    m' := Memory(m.sib[c := Hook(NULL, NULL)], m.parent[c := NULL], m.child[c := NULL],
                 m.hnd[c := Hook(NULL, NULL)], m.refs[c := NULL], m.ptr[c := NULL], m.destructor[c := NoDestructor]);
    hide SiblingLinks, HandleLinks, WellFormed, Destructors, Consistent;
    LinksOf(f);
    DestructorsAdded(m.destructor, f.ref, c);
    AddRootWellFormed(f, c, rank);
    SiblingsAdded(m.sib, m.parent, m.child, f.own, c);
    HandlesAdded(m.hnd, m.refs, m.ptr, f.ref, c);
  }

  /** Give back the chunk `c`, which nothing refers to any more. */
  method DropChunk(m: Memory, ghost f: Forest, c: Addr) returns (m': Memory)
    requires Represents(m, f, c, NULL) && c in f.own.up && f.own.up[c] == f.ref.up[c] == NULL
    requires f.own.downs[c] == f.ref.downs[c] == []
    ensures Represents(m', Drop(f, c), NULL, NULL)
    ensures m'.destructor == m.destructor - {c}
  {
    m' := Memory(m.sib - {c}, m.parent - {c}, m.child - {c}, m.hnd - {c}, m.refs - {c}, m.ptr - {c},
      m.destructor - {c});
    DropWellFormed(f, c);
    SiblingsDropped(m.sib, m.parent, m.child, f.own, c);
    HandlesDropped(m.hnd, m.refs, m.ptr, f.ref, c);
  }

  method DetachChunk(m: Memory, ghost f: Forest, c: Addr) returns (m': Memory)
    requires Represents(m, f, NULL, NULL) && c in f.own.up
    ensures Represents(m', Detach(f, c), c, NULL)
    ensures m'.destructor == m.destructor
  {
    DetachWellFormed(f, c);
    var sib, parent, child := UnlinkSibling(m.sib, m.parent, m.child, c, f.own);
    m' := m.(sib := sib, parent := parent, child := child);
  }

  method AttachChunk(m: Memory, ghost f: Forest, p: Addr, c: Addr) returns (m': Memory)
    requires Represents(m, f, c, NULL) && p in f.own.up && c in f.own.up && f.own.up[c] == NULL
    requires f.ref.up[p] == NULL && f.rank[p] < f.rank[c]
    ensures Represents(m', Attach(f, p, c), NULL, NULL)
    ensures m'.destructor == m.destructor
  {
    AttachWellFormed(f, p, c);
    var sib, parent, child := LinkChild(m.sib, m.parent, m.child, p, c, f.own);
    m' := m.(sib := sib, parent := parent, child := child);
  }

  /** Clear the sibling links of a detached chunk (line 689). */
  method ClearLinks(m: Memory, ghost f: Forest, c: Addr) returns (m': Memory)
    requires Represents(m, f, c, NULL) && c in f.own.up && f.own.up[c] == NULL
    ensures Represents(m', f, NULL, NULL)
    ensures m'.destructor == m.destructor
  {
    hide HandleLinks, Destructors, HandlesAreLeaves, RanksOwned, RanksReferred;
    m' := m.(sib := m.sib[c := Hook(NULL, NULL)], parent := m.parent[c := NULL]);
    ListsCleared(m.sib, m.child, f.own, c);
  }

  lemma ListsCleared(ch: Chain, head: map<Addr, Addr>, t: Links, c: Addr)
    requires Consistent(t) && Lists(ch, head, t.downs) && c in t.up && t.up[c] == NULL
    ensures Lists(ch[c := Hook(NULL, NULL)], head, t.downs)
  {
    forall q | q in t.downs ensures Chained(ch[c := Hook(NULL, NULL)], head[q], NULL, t.downs[q]) {
      assert Chained(ch, head[q], NULL, t.downs[q]);
      ChainedSame(ch, ch[c := Hook(NULL, NULL)], head[q], NULL, t.downs[q]);
    }
  }

  /** Make the leaf `h` a handle on `tc` (lines 280-282). */
  method ReferChunk(m: Memory, ghost f: Forest, h: Addr, tc: Addr) returns (m': Memory)
    requires Represents(m, f, NULL, NULL) && h in f.ref.up && tc in f.ref.up && f.ref.up[h] == f.ref.up[tc] == NULL
    requires f.own.downs[h] == [] && f.ref.downs[h] == [] && f.rank[h] < f.rank[tc]
    ensures Represents(m', Refer(f, h, tc), NULL, NULL)
    ensures m'.destructor == m.destructor[h := ReferenceDestructor]
  {
    hide SiblingLinks, HandleLinks, WellFormed;
    LinksOf(f);
    ReferWellFormed(f, h, tc);
    var hnd, refs, ptr := LinkHandle(m.hnd, m.refs, m.ptr, tc, h, f.ref);
    m' := m.(hnd := hnd, refs := refs, ptr := ptr, destructor := m.destructor[h := ReferenceDestructor]);
  }

  lemma HandleTarget(m: Memory, f: Forest, h: Addr)
    requires Represents(m, f, NULL, h) && h in f.ref.up && f.ref.up[h] != NULL && m.destructor[h] != ReferenceDestructor
    ensures h in m.ptr && m.ptr[h] == f.ref.up[h] && WellFormed(f) && Destructors(m.destructor, Cut(f.ref, h), NULL)
  {
    hide SiblingLinks, RanksOwned, RanksReferred;
  }

  /** Take the handle `h`, whose destructor has been cleared, off the reference list it is on. */
  method UnreferChunk(m: Memory, ghost f: Forest, h: Addr) returns (m': Memory)
    requires Represents(m, f, NULL, h) && h in f.ref.up && f.ref.up[h] != NULL && m.destructor[h] != ReferenceDestructor
    ensures Represents(m', Unrefer(f, h), NULL, NULL)
    ensures m'.destructor == m.destructor
  {
    UnreferWellFormed(f, h);
    HandleTarget(m, f, h);
    LinksOf(f);
    hide SiblingLinks, HandleLinks, WellFormed, Consistent, Destructors;
    var hnd, refs := UnlinkHandle(m.hnd, m.refs, m.ptr, m.ptr[h], h, f.ref);
    m' := m.(hnd := hnd, refs := refs);
  }

  /** The reference list of `tc`, element by element. */
  lemma RefsThreaded(m: Memory, f: Forest, tc: Addr)
    requires Represents(m, f, NULL, NULL) && tc in f.own.up
    ensures var s := f.ref.downs[tc];
            && tc in m.refs && m.refs[tc] == Nth(s, 0)
            && (forall i {:trigger s[i]} :: 0 <= i < |s| ==> s[i] in m.hnd && s[i] in f.own.up && s[i] != NULL)
            && (forall i {:trigger m.hnd[s[i]]} :: 0 <= i < |s| ==> m.hnd[s[i]].next == Nth(s, i + 1))
  {
    var s := f.ref.downs[tc];
    assert Chained(m.hnd, m.refs[tc], NULL, s);
    ChainedIff(m.hnd, m.refs[tc], NULL, s);
    forall i | 0 <= i < |s| ensures s[i] in f.own.up {
      var h := s[i];
      assert h in s;
    }
  }

  method OwnerOf(m: Memory, ghost f: Forest, c: Addr) returns (p: Addr)
    requires Represents(m, f, NULL, NULL) && c in f.own.up
    ensures p == f.own.up[c]
  {
    p := ParentChunk(m.sib, m.parent, c, m.child, f.own);
  }

  lemma AnyLoose(m: Memory, f: Forest, c: Addr)
    requires Represents(m, f, NULL, NULL)
    ensures Represents(m, f, c, NULL)
  {
    assert Parents(m.parent, f.own, c) && RootsUnlinked(m.sib, f.own, c);
  }

  /** Only the memory links matter: the ranking may be replaced. */
  lemma AnyRank(m: Memory, f: Forest, g: Forest)
    requires Represents(m, f, NULL, NULL) && WellFormed(g) && g.own == f.own && g.ref == f.ref
    ensures Represents(m, g, NULL, NULL)
  {
  }

  lemma AnyBusy(m: Memory, f: Forest, h: Addr)
    requires Represents(m, f, NULL, NULL)
    ensures Represents(m, f, NULL, h)
  {
    assert Destructors(m.destructor, f.ref, h);
  }

  /** Any destructor may be recorded for the chunk that is being destroyed. */
  lemma SetDestructor(m: Memory, f: Forest, c: Addr, busy: Addr, d: Destructor)
    requires Represents(m, f, NULL, busy) && c in f.own.up && (busy == c || busy == NULL)
    ensures c in m.destructor
    ensures Represents(m.(destructor := m.destructor[c := d]), f, NULL, c)
    ensures (d == ReferenceDestructor <==> f.ref.up[c] != NULL) ==>
      Represents(m.(destructor := m.destructor[c := d]), f, NULL, NULL)
  {
    var d' := m.destructor[c := d];
    assert Destructors(d', f.ref, c);
    if d == ReferenceDestructor <==> f.ref.up[c] != NULL { assert Destructors(d', f.ref, NULL); }
  }

  lemma DestructorKeys(m: Memory, f: Forest)
    requires Represents(m, f, NULL, NULL)
    ensures m.destructor.Keys == f.own.up.Keys
  {
  }

  lemma WellFormedOf(m: Memory, f: Forest, loose: Addr, busy: Addr)
    requires Represents(m, f, loose, busy)
    ensures WellFormed(f) && NULL !in f.own.up && f.own.up.Keys == f.ref.up.Keys == f.rank.Keys == m.destructor.Keys
    ensures f.own.downs.Keys == f.ref.downs.Keys == f.own.up.Keys
  {
  }

  /** The `child` field is null exactly when nothing is owned, and otherwise names the first child. */
  lemma ChildHead(m: Memory, f: Forest, tc: Addr)
    requires Represents(m, f, NULL, NULL) && tc in f.own.up
    ensures tc in m.child && m.child[tc] == Nth(f.own.downs[tc], 0)
    ensures m.child[tc] == NULL <==> f.own.downs[tc] == []
    ensures m.child[tc] != NULL ==> m.child[tc] in f.own.up && f.own.up[m.child[tc]] == tc
  {
    assert Chained(m.sib, m.child[tc], NULL, f.own.downs[tc]);
    assert f.own.downs[tc] != [] ==> f.own.downs[tc][0] in f.own.downs[tc];
  }

  /** The `refs` field is null exactly when nothing refers to the chunk, and otherwise names the newest handle. */
  lemma RefsHead(m: Memory, f: Forest, tc: Addr)
    requires Represents(m, f, NULL, NULL) && tc in f.own.up
    ensures tc in m.refs && tc in m.destructor && m.refs[tc] == Nth(f.ref.downs[tc], 0)
    ensures m.refs[tc] == NULL <==> f.ref.downs[tc] == []
    ensures var h := m.refs[tc];
            h != NULL ==>
              h in f.own.up && f.ref.up[h] == tc && h in m.destructor && m.destructor[h] == ReferenceDestructor
    ensures m.destructor[tc] == ReferenceDestructor <==> f.ref.up[tc] != NULL
    ensures m.refs[tc] != NULL ==> f.ref.up[tc] == NULL
  {
    assert Chained(m.hnd, m.refs[tc], NULL, f.ref.downs[tc]);
    assert f.ref.downs[tc] != [] ==> f.ref.downs[tc][0] in f.ref.downs[tc];
  }
}
