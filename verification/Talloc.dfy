/**
 The allocator (lib/talloc/talloc.c): allocation, stealing, references, unlinking
 and recursive freeing, each as the source does it on the raw links, each stated
 as an edit of the ownership forest. No null context is tracked: nothing in the
 program enables one.
 */
module Talloc {
  import opened TallocForest
  import opened TallocHeap
  import opened TallocMemory
  import opened TallocFree
  import opened TallocSurvivors

  const MAX_TALLOC_SIZE := 0x10000000

  /** A chunk a caller may hold a pointer to: in use, and not one of the allocator's own handles. */
  ghost predicate IsContext(f: Forest, c: Addr)
    requires WellFormed(f)
  {
    c in f.own.up && f.ref.up[c] == NULL
  }

  /** The size of a reference handle: three pointers. */
  const HANDLE_SIZE := 24

  const NOTHING: set<Addr> := {}

  /** Whether the destructor of a chunk refuses, if it is the n-th that the program runs. */
  type Answers = (Addr, nat) -> bool

  ghost predicate RefusesLater(refuses: Answers, c: Addr, calls: nat) {
    exists n: nat :: calls <= n && refuses(c, n)
  }

  /** The chunks that are being destroyed, and those whose destructor refuses now or later. */
  ghost function Stubborn(m: Memory, refuses: Answers, calls: nat): (s: set<Addr>) {
    set c | c in m.destructor
      && (m.destructor[c] == InProgress || (m.destructor[c] == UserDestructor && RefusesLater(refuses, c, calls)))
  }

  ghost predicate RefusesAlways(refuses: Answers, c: Addr, calls: nat) {
    forall n: nat :: calls <= n ==> refuses(c, n)
  }

  /** The chunks whose destructor refuses now and ever after. */
  ghost function Adamant(m: Memory, refuses: Answers, calls: nat): (s: set<Addr>) {
    set c | c in m.destructor && m.destructor[c] == UserDestructor && RefusesAlways(refuses, c, calls)
  }

  lemma AdamantKept(m0: Memory, m1: Memory, refuses: Answers, calls0: nat, calls1: nat, gone: set<Addr>)
    requires calls0 <= calls1 && gone !! Adamant(m0, refuses, calls0)
    requires forall c {:trigger m0.destructor[c]} :: c in m0.destructor && c !in gone ==>
      c in m1.destructor && m1.destructor[c] == m0.destructor[c]
    ensures Adamant(m0, refuses, calls0) <= Adamant(m1, refuses, calls1)
  {
    forall c | c in Adamant(m0, refuses, calls0) ensures c in Adamant(m1, refuses, calls1) {
      assert m1.destructor[c] == m0.destructor[c];
      forall n: nat | calls1 <= n ensures refuses(c, n) { assert calls0 <= n; }
    }
  }

  ghost predicate DestructorsKept(d0: map<Addr, Destructor>, d1: map<Addr, Destructor>) {
    d1.Keys <= d0.Keys && forall c {:trigger d1[c]} :: c in d1 ==> d1[c] == d0[c]
  }

  /** The rank given to a new chunk under `context`. */
  ghost function RankUnder(f: Forest, context: Addr): (r: nat)
    requires WellFormed(f) && (context == NULL || context in f.own.up)
  {
    if context == NULL then 0 else f.rank[context] + 1
  }

  /** The forest with the fresh chunk `c` under `context`. */
  ghost function Born(f: Forest, context: Addr, c: Addr): (g: Forest)
    requires WellFormed(f) && (context == NULL || context in f.own.up)
  {
    var g := AddRoot(f, c, RankUnder(f, context));
    if context == NULL then g else Attach(g, context, c)
  }

  /** `q` takes the place of `p`'s owner; the owners of every other chunk are as before. */
  ghost predicate OwnerReplaced(f0: Forest, f1: Forest, p: Addr, q: Addr)
    requires WellFormed(f0) && WellFormed(f1) && p in f0.own.up
  {
    forall c {:trigger Owners(f1, c)} :: c in f0.own.up ==>
      c in f1.own.up && Owners(f1, c) == if c == p then Owners(f0, p) - multiset{f0.own.up[p]} + multiset{q}
        else Owners(f0, c)
  }

  /** `q` becomes one more owner of `p`; the owners of every other chunk are as before. */
  ghost predicate OwnerAdded(f0: Forest, f1: Forest, p: Addr, q: Addr)
    requires WellFormed(f0) && WellFormed(f1) && p in f0.own.up
  {
    forall c {:trigger Owners(f1, c)} :: c in f0.own.up ==>
      c in f1.own.up && Owners(f1, c) == Owners(f0, c) + if c == p then multiset{q} else multiset{}
  }

  /** `q` leaves the owners of `p` once; the owners of every other chunk that is left are as before. */
  ghost predicate OwnerDropped(f0: Forest, f1: Forest, p: Addr, q: Addr)
    requires WellFormed(f0) && WellFormed(f1) && p in f0.own.up
  {
    && p in f1.own.up && f1.own.up.Keys <= f0.own.up.Keys
    && (forall c {:trigger f0.ref.up[c]} :: c in f0.own.up && f0.ref.up[c] == NULL ==> c in f1.own.up)
    && (forall c {:trigger Owners(f1, c)} :: c in f1.own.up ==>
          Owners(f1, c) == if c == p then Owners(f0, p) - multiset{q} else Owners(f0, c))
  }

  /** `talloc_unreference` on the forest. */
  lemma DroppedOwners(f: Forest, p: Addr, q: Addr)
    requires WellFormed(f) && p in f.own.up && HandleOf(f, p, q) != NULL
    ensures WellFormed(DropHandle(f, HandleOf(f, p, q))) && OwnerDropped(f, DropHandle(f, HandleOf(f, p, q)), p, q)
  {
    var h := HandleOf(f, p, q);
    HandleOfOwners(f, p, q);
    DropHandleWellFormed(f, h);
    hide Consistent, HandlesAreLeaves, RanksOwned, RanksReferred, DropHandle, Owners;
    forall c | c in DropHandle(f, h).own.up && c != p ensures Owners(DropHandle(f, h), c) == Owners(f, c) {
      OwnersDropOther(f, h, c);
    }
  }

  /** Dropping the newest handle on `p` and making its holder the owner takes the old owner out. */
  lemma PromotedAll(f0: Forest, f1: Forest, f2: Forest, p: Addr, q: Addr)
    requires WellFormed(f0) && WellFormed(f1) && WellFormed(f2) && p in f0.own.up && p in f1.own.up
      && f1.own.up[p] == f0.own.up[p]
    requires OwnerDropped(f0, f1, p, q) && OwnerReplaced(f1, f2, p, q) && f2.own.up.Keys == f1.own.up.Keys
    requires q in Owners(f0, p)
      && Owners(f0, p) - multiset{q} - multiset{f0.own.up[p]} + multiset{q} == Owners(f0, p) - multiset{f0.own.up[p]}
    ensures OwnerDropped(f0, f2, p, f0.own.up[p])
  {
    hide Consistent, HandlesAreLeaves, RanksOwned, RanksReferred, Owners;
    forall c | c in f2.own.up
      ensures Owners(f2, c) == if c == p then Owners(f0, p) - multiset{f0.own.up[p]} else Owners(f0, c) {
      assert c in f1.own.up;
      assert Owners(f1, c) == if c == p then Owners(f0, p) - multiset{q} else Owners(f0, c);
    }
  }

  lemma StolenOwners(f0: Forest, f1: Forest, q: Addr, p: Addr)
    requires WellFormed(f0) && WellFormed(f1) && f1.own == f0.own && f1.ref == f0.ref && IsContext(f1, p)
    requires q == NULL || (IsContext(f1, q) && f1.rank[q] < f1.rank[p])
    ensures WellFormed(Moved(f1, q, p)) && OwnerReplaced(f0, Moved(f1, q, p), p, q)
  {
    hide WellFormed, Owners;
    OwnersMoved(f1, q, p, p);
    forall c | c in f0.own.up
      ensures c in Moved(f1, q, p).own.up
      ensures Owners(Moved(f1, q, p), c) == if c == p then Owners(f0, p) - multiset{f0.own.up[p]} + multiset{q}
        else Owners(f0, c)
    {
      OwnersMoved(f1, q, p, c);
      OwnersRank(f0, f1, c);
    }
  }

  lemma ReferredOwners(f0: Forest, f1: Forest, g: Forest, q: Addr, h: Addr, p: Addr)
    requires WellFormed(f0) && WellFormed(f1) && WellFormed(g) && f1.own == f0.own && f1.ref == f0.ref
    requires p in f0.own.up && h !in f0.own.up && g.own.up == f1.own.up[h := q]
      && g.ref == Push(AddUnlinked(f1.ref, h), p, h)
    ensures OwnerAdded(f0, g, p, q)
  {
    hide WellFormed, Owners;
    forall c | c in f0.own.up
      ensures c in g.own.up && Owners(g, c) == Owners(f0, c) + if c == p then multiset{q} else multiset{} {
      OwnersReferred(f1, g, q, h, p, c);
      OwnersRank(f0, f1, c);
    }
  }

  /** A fresh chunk is a leaf, and can become a handle on `p` if `p` ranks high enough. */
  lemma BornWellFormed(f: Forest, context: Addr, c: Addr, p: Addr)
    requires WellFormed(f) && (context == NULL || IsContext(f, context)) && c !in f.own.up && c != NULL
    requires p in f.own.up && f.ref.up[p] == NULL && RankUnder(f, context) < f.rank[p]
    ensures var g := Born(f, context, c);
            && WellFormed(g) && c in g.own.up && p in g.own.up && IsLeaf(g, c) && g.ref.up[p] == NULL
            && g.rank[c] < g.rank[p]
            && g.own.up == f.own.up[c := context] && g.ref == AddUnlinked(f.ref, c)
  {
    BornFits(f, context, c);
    var g := AddRoot(f, c, RankUnder(f, context));
    if context != NULL { AttachWellFormed(g, context, c); }
  }

  lemma BornFits(f: Forest, context: Addr, c: Addr)
    requires WellFormed(f) && (context == NULL || IsContext(f, context)) && c !in f.own.up && c != NULL
    ensures var g := AddRoot(f, c, RankUnder(f, context));
            && WellFormed(g) && c in g.own.up && g.own.up[c] == NULL
            && (context != NULL ==> context in g.own.up && g.ref.up[context] == NULL && g.rank[context] < g.rank[c])
  {
    AddRootWellFormed(f, c, RankUnder(f, context));
  }

  lemma Detached(f: Forest, c: Addr)
    requires WellFormed(f) && c in f.own.up
    ensures var g := Detach(f, c); WellFormed(g) && g.own.up.Keys == f.own.up.Keys && g.own.up[c] == NULL
  {
    DetachWellFormed(f, c);
  }

  lemma OwnersRank(f: Forest, g: Forest, c: Addr)
    requires WellFormed(f) && WellFormed(g) && g.own == f.own && g.ref == f.ref && c in f.own.up
    ensures Owners(g, c) == Owners(f, c)
  {
  }

  lemma StubbornKept(m0: Memory, m1: Memory, refuses: Answers, calls0: nat, calls1: nat)
    requires DestructorsKept(m0.destructor, m1.destructor) && calls0 <= calls1
    ensures Stubborn(m1, refuses, calls1) <= Stubborn(m0, refuses, calls0)
  {
    forall c | c in Stubborn(m1, refuses, calls1) ensures c in Stubborn(m0, refuses, calls0) {
      assert m1.destructor[c] == m0.destructor[c];
      if m1.destructor[c] == UserDestructor {
        var n: nat :| calls1 <= n && refuses(c, n);
        assert calls0 <= n && refuses(c, n);
      }
    }
  }

  lemma RefusedNow(m: Memory, refuses: Answers, calls: nat, c: Addr)
    requires c in m.destructor
    requires m.destructor[c] == InProgress || (m.destructor[c] == UserDestructor && refuses(c, calls))
    ensures c in Stubborn(m, refuses, calls)
  {
    assert m.destructor[c] == UserDestructor ==> RefusesLater(refuses, c, calls);
  }

  lemma ClearedStubborn(m0: Memory, m1: Memory, refuses: Answers, calls0: nat, calls1: nat, c: Addr)
    requires m1.destructor == m0.destructor[c := NoDestructor] && calls0 <= calls1
    ensures Stubborn(m1, refuses, calls1) <= Stubborn(m0, refuses, calls0)
  {
    forall x | x in Stubborn(m1, refuses, calls1) ensures x in Stubborn(m0, refuses, calls0) {
      assert x != c && m1.destructor[x] == m0.destructor[x];
      if m1.destructor[x] == UserDestructor {
        var n: nat :| calls1 <= n && refuses(x, n);
        assert calls0 <= n && refuses(x, n);
      }
    }
  }

  lemma KeptWithout(d0: map<Addr, Destructor>, d1: map<Addr, Destructor>, d2: map<Addr, Destructor>, c: Addr)
    requires d1 == d0[c := NoDestructor] && DestructorsKept(d1, d2) && c !in d2
    ensures DestructorsKept(d0, d2)
  {
  }

  /** The loop in `talloc_unreference`: the newest handle on `ptr` whose parent is `context`. */
  method FindHandle(mem: Memory, ghost f: Forest, context: Addr, ptr: Addr) returns (h: Addr)
    requires Represents(mem, f, NULL, NULL) && WellFormed(f) && ptr in f.own.up
    ensures h == HandleOf(f, ptr, context)
  {
    hide Represents, WellFormed;
    RefsInUp(f, ptr);
    RefsThreaded(mem, f, ptr);
    WellFormedOf(mem, f, NULL, NULL);
    ghost var s := f.ref.downs[ptr];
    h := mem.refs[ptr];
    ghost var i: nat := 0;
    while h != NULL
      invariant i <= |s| && h == Nth(s, i)
      invariant forall j :: 0 <= j < i ==> f.own.up[s[j]] != context
      decreases |s| - i
    {
      var p := OwnerOf(mem, f, h);
      if p == context {
        break;
      }
      h := mem.hnd[h].next;
      i := i + 1;
    }
  }

  class Heap {
    var mem: Memory
    /** How many destructors of the program have been run, and what each of them answers. */
    var calls: nat
    const refuses: Answers
    ghost var f: Forest

    ghost predicate Valid()
      reads this
    {
      Represents(mem, f, NULL, NULL)
    }

    /** The chunks that may outlive a free because of their destructor. */
    ghost function Refusing(): (s: set<Addr>)
      reads this
    {
      Stubborn(mem, refuses, calls)
    }

    /** The chunks that outlive any free because of their destructor. */
    ghost function Unyielding(): (s: set<Addr>)
      reads this
    {
      Adamant(mem, refuses, calls)
    }

    /** A free of the chunk now goes past its destructor. */
    ghost predicate Agrees(c: Addr)
      reads this
      requires c in mem.destructor
    {
      mem.destructor[c] != InProgress && (mem.destructor[c] == UserDestructor ==> !refuses(c, calls))
    }

    constructor (refuses: Answers)
      ensures Valid() && f.own.up.Keys == {} && this.refuses == refuses && calls == 0
    {
      this.refuses, calls := refuses, 0;
      mem := Memory(map[], map[], map[], map[], map[], map[], map[]);
      f := Forest(Links(map[], map[]), Links(map[], map[]), map[]);
    }

    /** `_talloc`; `addr` is what malloc returned, null when it failed. */
    method Alloc(context: Addr, size: nat, addr: Addr) returns (r: Addr)
      requires Valid() && (context == NULL || IsContext(f, context)) && addr !in f.own.up
      modifies this
      ensures Valid()
      ensures r == if size >= MAX_TALLOC_SIZE then NULL else addr
      ensures r == NULL ==> f == old(f) && mem == old(mem)
      ensures calls == old(calls)
      ensures r != NULL ==> f == Born(old(f), context, r) && mem.destructor == old(mem.destructor)[r := NoDestructor]
    {
      hide Represents, WellFormed;
      if size >= MAX_TALLOC_SIZE || addr == NULL {
        return NULL;
      }
      r := addr;
      WellFormedOf(mem, f, NULL, NULL);
      BornFits(f, context, r);
      mem := AddChunk(mem, f, r, RankUnder(f, context));
      f := AddRoot(f, r, RankUnder(f, context));
      if context != NULL {
        AnyLoose(mem, f, r);
        mem := AttachChunk(mem, f, context, r);
        f := Attach(f, context, r);
      }
    }

    /** `talloc_set_destructor`, which the program calls on chunks of its own. */
    method SetUserDestructor(ptr: Addr, given: bool)
      requires Valid() && IsContext(f, ptr) && mem.destructor[ptr] != InProgress
      modifies this`mem
      ensures Valid() && mem == old(mem).(destructor := mem.destructor)
      ensures mem.destructor == old(mem.destructor)[ptr := if given then UserDestructor else NoDestructor]
      ensures Agrees(ptr) <==> !given || !refuses(ptr, calls)
    {
      hide Represents, WellFormed;
      SetDestructor(mem, f, ptr, NULL, if given then UserDestructor else NoDestructor);
      mem := mem.(destructor := mem.destructor[ptr := if given then UserDestructor else NoDestructor]);
    }

    /** `talloc_steal`, when the new owner already ranks below the chunk. */
    method Move(newCtx: Addr, tc: Addr)
      requires Valid() && tc in f.own.up
      requires newCtx == NULL || (IsContext(f, newCtx) && f.rank[newCtx] < f.rank[tc])
      modifies this
      ensures Valid() && f == Moved(old(f), newCtx, tc) && mem.destructor == old(mem.destructor) && calls == old(calls)
      ensures Unyielding() == old(Unyielding())
    {
      hide Represents, WellFormed;
      WellFormedOf(mem, f, NULL, NULL);
      Detached(f, tc);
      mem := DetachChunk(mem, f, tc);
      f := Detach(f, tc);
      if newCtx == NULL {
        mem := ClearLinks(mem, f, tc);
      } else {
        mem := AttachChunk(mem, f, newCtx, tc);
        f := Attach(f, newCtx, tc);
      }
    }

    /** Rank `ptr` and what it reaches higher, so that there is room below it. */
    ghost method MakeRoom(ptr: Addr, context: Addr, gap: nat)
      requires Valid() && ptr in f.own.up && (context == NULL || (context in f.own.up && !Reaches(f, ptr, context)))
      modifies this`f
      ensures Valid() && WellFormed(f) && f.own == old(f.own) && f.ref == old(f.ref) && f.rank.Keys == old(f.rank.Keys)
      ensures ptr in f.rank && f.rank[ptr] == old(f.rank[ptr]) + gap
      ensures context != NULL ==> context in f.rank && f.rank[context] == old(f.rank[context])
    {
      hide Represents, Reaches;
      WellFormedOf(mem, f, NULL, NULL);
      RaiseWellFormed(f, ptr, gap);
      AnyRank(mem, f, f.(rank := Raise(f, ptr, gap)));
      f := f.(rank := Raise(f, ptr, gap));
    }

    /** `talloc_steal`: only the owner of `ptr` changes, and stealing from itself changes nothing. */
    method Steal(newCtx: Addr, ptr: Addr) returns (r: Addr)
      requires Valid() && (ptr == NULL || IsContext(f, ptr)) && (newCtx == NULL || IsContext(f, newCtx))
      requires newCtx != NULL && ptr != NULL && newCtx != ptr ==> !Reaches(f, ptr, newCtx)
      modifies this
      ensures Valid() && r == ptr && mem.destructor == old(mem.destructor) && calls == old(calls)
      ensures ptr == NULL || newCtx == ptr ==> f == old(f) && mem == old(mem)
      ensures ptr != NULL && newCtx != ptr ==> f.own == Moved(old(f), newCtx, ptr).own && f.ref == old(f.ref)
      ensures ptr != NULL && newCtx != ptr ==> OwnerReplaced(old(f), f, ptr, newCtx)
    {
      hide Represents, WellFormed, Owners, Reaches;
      r := ptr;
      if ptr == NULL || newCtx == ptr {
        return;
      }
      WellFormedOf(mem, f, NULL, NULL);
      ghost var f0 := f;
      if newCtx != NULL {
        MakeRoom(ptr, newCtx, f.rank[newCtx] + 1);
      }
      ghost var f1 := f;
      Move(newCtx, ptr);
      StolenOwners(f0, f1, newCtx, ptr);
    }

    /** `talloc_reference`: a new handle under `context` makes `context` one more owner of `ptr`. */
    method Reference(context: Addr, ptr: Addr, addr: Addr) returns (r: Addr)
      requires Valid() && (ptr == NULL || IsContext(f, ptr)) && (context == NULL || IsContext(f, context))
        && addr !in f.own.up
      requires context != NULL && ptr != NULL ==> !Reaches(f, ptr, context)
      modifies this
      ensures Valid() && r == if addr == NULL then NULL else ptr
      ensures r == NULL ==> f == old(f) && mem == old(mem)
      ensures r != NULL ==> OwnerAdded(old(f), f, ptr, context)
      ensures r != NULL ==>
        f.own.up == old(f.own.up)[addr := context] && f.ref == Push(AddUnlinked(old(f.ref), addr), ptr, addr)
      ensures r != NULL ==> mem.destructor == old(mem.destructor)[addr := ReferenceDestructor]
      ensures calls == old(calls)
    {
      hide Represents, WellFormed, Owners, Reaches;
      if ptr == NULL {
        return NULL;
      }
      WellFormedOf(mem, f, NULL, NULL);
      ghost var f0 := f;
      if addr != NULL {
        MakeRoom(ptr, context, if context == NULL then 1 else f.rank[context] + 2);
        BornWellFormed(f, context, addr, ptr);
      }
      ghost var f1 := f;
      var handle := Alloc(context, HANDLE_SIZE, addr);
      if handle == NULL {
        return NULL;
      }
      mem := ReferChunk(mem, f, handle, ptr);
      f := Refer(f, handle, ptr);
      WellFormedOf(mem, f, NULL, NULL);
      ReferredOwners(f0, f1, f, context, handle, ptr);
      r := ptr;
    }

    /** `talloc_reference_destructor`: take the handle off its list and free it. */
    method DestroyReference(h: Addr)
      requires Represents(mem, f, NULL, h) && h in f.own.up && f.ref.up[h] != NULL
      requires mem.destructor[h] == ReferenceDestructor || mem.destructor[h] == InProgress
      modifies this
      ensures Valid() && calls == old(calls)
      ensures old(mem.destructor[h]) == InProgress ==> f == Unrefer(old(f), h) && mem.destructor == old(mem.destructor)
      ensures old(mem.destructor[h]) != InProgress ==>
        f == DropHandle(old(f), h) && mem.destructor == old(mem.destructor) - {h}
      ensures old(Unyielding()) <= Unyielding()
      decreases Handles(f), NOTHING, 0
    {
      hide Represents, WellFormed, Closed, Freed, Adamant, Stubborn;
      WellFormedOf(mem, f, NULL, h);
      HandlesUnrefer(f, h);
      UnhookReference(h);
      WellFormedOf(mem, f, NULL, NULL);
      HandleClosed(f, h);
      var _ := Free(h, Refusing(), {h});
    }

    /** Clear the destructor of a handle unless it is running, and take the handle off its list. */
    method UnhookReference(h: Addr)
      requires Represents(mem, f, NULL, h) && h in f.own.up && f.ref.up[h] != NULL
      requires mem.destructor[h] == ReferenceDestructor || mem.destructor[h] == InProgress
      modifies this
      ensures Valid() && f == Unrefer(old(f), h) && calls == old(calls)
      ensures mem.destructor ==
        old(mem.destructor)[h := if old(mem.destructor[h]) == InProgress then InProgress else NoDestructor]
      ensures old(Unyielding()) <= Unyielding()
    {
      hide Represents, WellFormed;
      WellFormedOf(mem, f, NULL, h);
      SetDestructor(mem, f, h, h, NoDestructor);
      if mem.destructor[h] != InProgress {
        mem := mem.(destructor := mem.destructor[h := NoDestructor]);
      }
      mem := UnreferChunk(mem, f, h);
      f := Unrefer(f, h);
      AdamantKept(old(mem), mem, refuses, calls, calls, {h});
    }

    /** Unlink a leaf and give its memory back (lines 570-582). */
    method Release(tc: Addr)
      requires Valid() && tc in f.own.up && IsLeaf(f, tc)
      modifies this
      ensures Valid() && f == Removed(old(f), tc) && mem.destructor == old(mem.destructor) - {tc} && calls == old(calls)
    {
      hide Represents, WellFormed;
      WellFormedOf(mem, f, NULL, NULL);
      DetachedLeaf(f, tc);
      mem := DetachChunk(mem, f, tc);
      f := Detach(f, tc);
      mem := DropChunk(mem, f, tc);
      f := Drop(f, tc);
    }

    /** Run the destructor of an unreferenced chunk (lines 555-566); false if the free must stop. */
    method RunDestructor(tc: Addr) returns (go: bool)
      requires Valid() && tc in f.own.up && f.ref.downs[tc] == []
      modifies this
      ensures Valid() && old(tc in mem.destructor) && (go <==> old(Agrees(tc)))
      ensures calls == old(calls) + if old(mem.destructor[tc]) == UserDestructor then 1 else 0
      ensures !go ==> f == old(f) && mem == old(mem)
      ensures go ==> f == (if old(f.ref.up[tc]) == NULL then old(f) else Unrefer(old(f), tc))
      ensures go ==> mem.destructor == old(mem.destructor)[tc := NoDestructor]
      ensures old(Unyielding()) <= Unyielding()
      decreases Handles(f), NOTHING, 1
    {
      hide Represents, WellFormed;
      RefsHead(mem, f, tc);
      WellFormedOf(mem, f, NULL, NULL);
      go := true;
      if mem.destructor[tc] != NoDestructor {
        var d := mem.destructor[tc];
        if d == InProgress {
          return false;
        }
        SetDestructor(mem, f, tc, NULL, InProgress);
        mem := mem.(destructor := mem.destructor[tc := InProgress]);
        if d == ReferenceDestructor {
          HandlesUnrefer(f, tc);
          DestroyReference(tc);
        } else {
          calls := calls + 1;
          if refuses(tc, calls - 1) {
            mem := mem.(destructor := mem.destructor[tc := d]);
            assert mem == old(mem);
            AdamantKept(old(mem), mem, refuses, old(calls), calls, {});
            return false;
          }
        }
        SetDestructor(mem, f, tc, NULL, NoDestructor);
        mem := mem.(destructor := mem.destructor[tc := NoDestructor]);
        assert tc !in old(Unyielding());
        AdamantKept(old(mem), mem, refuses, old(calls), calls, {tc});
      }
    }

    /** `talloc_free`; true stands for a return value of zero. */
    method Free(tc: Addr, ghost stay: set<Addr>, ghost s: set<Addr>) returns (freed: bool)
      requires Valid() && tc in f.own.up && Closed(f, s) && tc in s && Refusing() <= stay
      modifies this
      ensures Valid() && DestructorsKept(old(mem.destructor), mem.destructor)
      ensures freed ==> old(f.ref.downs[tc]) == [] && Freed(old(f), f, tc, stay, s)
      ensures old(tc in mem.destructor) && calls >= old(calls)
      ensures old(f.ref.downs[tc]) == [] ==> (freed <==> old(Agrees(tc)))
      ensures !freed && old(f.ref.downs[tc]) == [] ==> f == old(f) && mem == old(mem) && tc in old(Refusing())
      ensures old(f.ref.downs[tc]) != [] ==> !freed && LostReference(old(f), f, tc)
      ensures freed && old(IsLeaf(f, tc)) ==> f == Removed(old(f), tc) && mem.destructor == old(mem.destructor) - {tc}
      ensures old(IsLeaf(f, tc)) && old(mem.destructor[tc]) != UserDestructor ==> calls == old(calls)
      ensures old(Unyielding()) <= Unyielding()
      decreases Handles(f), Above(f, f.rank[tc]), 3
    {
      hide Represents, WellFormed, Closed, Freed, Freeing, Adamant, Stubborn;
      RefsHead(mem, f, tc);
      WellFormedOf(mem, f, NULL, NULL);
      if mem.refs[tc] != NULL {
        AnyBusy(mem, f, mem.refs[tc]);
        DestroyReference(mem.refs[tc]);
        return false;
      }
      ghost var f0 := f;
      if f.ref.up[tc] != NULL {
        HandlesUnrefer(f, tc);
        FreedHandle(f, tc, stay, s);
      }
      var go := RunDestructor(tc);
      if !go {
        RefusedNow(old(mem), refuses, old(calls), tc);
        return false;
      }
      ClearedStubborn(old(mem), mem, refuses, old(calls), calls, tc);
      WellFormedOf(mem, f, NULL, NULL);
      ClosedOwn(f0, f, s);
      ghost var d1 := mem.destructor;
      FreeBody(tc, stay, s);
      WellFormedOf(mem, f, NULL, NULL);
      KeptWithout(old(mem.destructor), d1, mem.destructor, tc);
      freed := true;
    }

    /** The rest of `talloc_free`, once nothing refers to `tc` and its destructor has run (lines 568-583). */
    method FreeBody(tc: Addr, ghost stay: set<Addr>, ghost s: set<Addr>)
      requires Valid() && tc in f.own.up && f.ref.downs[tc] == [] && f.ref.up[tc] == NULL
      requires Closed(f, s) && tc in s && Refusing() <= stay
      modifies this
      ensures Valid() && DestructorsKept(old(mem.destructor), mem.destructor) && tc !in f.own.up && calls >= old(calls)
      ensures Freed(old(f), f, tc, stay, s)
      ensures old(tc in mem.destructor && mem.destructor[tc] == NoDestructor) ==> old(Unyielding()) <= Unyielding()
      ensures old(f.own.downs[tc]) == [] ==>
        f == Removed(old(f), tc) && mem.destructor == old(mem.destructor) - {tc} && calls == old(calls)
      decreases Handles(f), Above(f, f.rank[tc]), 2
    {
      hide Represents, WellFormed, Closed, Freed, Freeing;
      ghost var f0 := f;
      WellFormedOf(mem, f, NULL, NULL);
      FreeChildren(tc, stay, s);
      WellFormedOf(mem, f, NULL, NULL);
      FreeingRefs(f0, f, tc, stay, s);
      RemovedOnly(f, tc);
      FreeingEnd(f0, f, Removed(f, tc), tc, stay, s);
      ghost var m1 := mem;
      Release(tc);
      if old(tc in mem.destructor && mem.destructor[tc] == NoDestructor) {
        AdamantKept(m1, mem, refuses, calls, calls, {tc});
      }
    }

    /** `talloc_free_children`: empty `tc`, handing over the children that cannot be freed. */
    method FreeChildren(tc: Addr, ghost stay: set<Addr>, ghost s: set<Addr>)
      requires Valid() && tc in f.own.up && Closed(f, s) && tc in s && Refusing() <= stay
      modifies this
      ensures Valid() && DestructorsKept(old(mem.destructor), mem.destructor) && calls >= old(calls)
      ensures Freeing(old(f), f, tc, stay, s) && f.own.downs[tc] == [] && old(Unyielding()) <= Unyielding()
      ensures old(f.own.downs[tc]) == [] ==> f == old(f) && mem == old(mem) && calls == old(calls)
      decreases Handles(f), Above(f, f.rank[tc]), 1
    {
      hide Represents, WellFormed, Closed, Freed, Freeing;
      ghost var f0 := f;
      WellFormedOf(mem, f, NULL, NULL);
      FreeingStart(f, tc, stay, s);
      ChildHead(mem, f, tc);
      while mem.child[tc] != NULL
        invariant Valid() && WellFormed(f) && tc in f.own.up && DestructorsKept(old(mem.destructor), mem.destructor)
        invariant Freeing(f0, f, tc, stay, s) && Refusing() <= stay && old(Unyielding()) <= Unyielding()
        invariant tc in mem.child && tc in f.own.downs && (mem.child[tc] == NULL <==> f.own.downs[tc] == [])
        invariant calls >= old(calls) && (f0.own.downs[tc] == [] ==> f == f0 && mem == old(mem) && calls == old(calls))
        decreases f.own.up.Keys, |f.own.downs[tc]|
      {
        FreeChild(tc, f0, stay, s);
        StubbornKept(old(mem), mem, refuses, old(calls), calls);
        WellFormedOf(mem, f, NULL, NULL);
        ChildHead(mem, f, tc);
      }
    }

    /** One turn of the loop in `talloc_free_children`. */
    method FreeChild(tc: Addr, ghost f0: Forest, ghost stay: set<Addr>, ghost s: set<Addr>)
      requires Valid() && tc in f.own.up && f.own.downs[tc] != [] && Refusing() <= stay
      requires WellFormed(f0) && tc in f0.own.up && Freeing(f0, f, tc, stay, s) && Closed(f0, s) && tc in s
      modifies this
      ensures Valid() && tc in f.own.up && DestructorsKept(old(mem.destructor), mem.destructor) && calls >= old(calls)
      ensures Freeing(f0, f, tc, stay, s) && old(Unyielding()) <= Unyielding()
      ensures f.own.up.Keys < old(f).own.up.Keys
        || (f.own.up.Keys == old(f).own.up.Keys && |f.own.downs[tc]| < |old(f).own.downs[tc]|)
      decreases Handles(f0), Above(f0, f0.rank[tc]), 0
    {
      hide Represents, WellFormed, Closed, Freed, Freeing;
      ghost var f1 := f;
      WellFormedOf(mem, f, NULL, NULL);
      ChildHead(mem, f, tc);
      var child := mem.child[tc];
      RefsHead(mem, f, child);
      var newParent := NULL;
      if mem.refs[child] != NULL {
        newParent := OwnerOf(mem, f, mem.refs[child]);
      }
      FreeingClosed(f0, f, tc, stay, s);
      Smaller(f0, f, tc, child, stay, s);
      ghost var h := mem.refs[child];
      var freed := Free(child, stay, s);
      WellFormedOf(mem, f, NULL, NULL);
      if !freed {
        HeirFits(f1, tc, child, h);
        if newParent == NULL {
          newParent := OwnerOf(mem, f, tc);
        }
        HandedOver(f0, f1, tc, child, h, stay, s);
        HandOverShrinks(f1, tc, child, h);
        Move(newParent, child);
      } else {
        FreeingChild(f0, f1, f, tc, child, stay, s);
        FreedShrinks(f1, f, tc, child, stay, s);
      }
    }

    /** `talloc_unreference`: give up the newest handle on `ptr` that hangs off `context`; true stands for zero. */
    method Unreference(context: Addr, ptr: Addr) returns (ok: bool)
      requires Valid() && IsContext(f, ptr)
      modifies this
      ensures Valid() && DestructorsKept(old(mem.destructor), mem.destructor) && calls == old(calls)
      ensures ok <==> HandleOf(old(f), ptr, context) != NULL
      ensures if ok then f == DropHandle(old(f), HandleOf(old(f), ptr, context)) else f == old(f) && mem == old(mem)
    {
      hide Represents, WellFormed;
      WellFormedOf(mem, f, NULL, NULL);
      var h := FindHandle(mem, f, context, ptr);
      if h == NULL {
        return false;
      }
      GiveUp(h);
      ok := true;
    }

    /** Lines 308-310: clear the handle's destructor, take it off its list and free it. */
    method GiveUp(h: Addr)
      requires Valid() && h in f.own.up && f.ref.up[h] != NULL
      modifies this
      ensures Valid() && f == DropHandle(old(f), h) && DestructorsKept(old(mem.destructor), mem.destructor)
      ensures calls == old(calls)
    {
      hide Represents, WellFormed, Closed, Freed;
      WellFormedOf(mem, f, NULL, NULL);
      RefsHead(mem, f, h);
      HandlesUnrefer(f, h);
      AnyBusy(mem, f, h);
      UnhookReference(h);
      WellFormedOf(mem, f, NULL, NULL);
      HandleClosed(f, h);
      var _ := Free(h, Refusing(), {h});
    }

    /** `talloc_free` as a caller sees it: what goes is in the subtree, and what stays has settled. */
    method FreePointer(ptr: Addr) returns (freed: bool)
      requires Valid() && (ptr == NULL || IsContext(f, ptr))
      modifies this
      ensures Valid()
      ensures ptr == NULL ==> !freed && f == old(f) && mem == old(mem)
      ensures ptr != NULL && old(f.ref.downs[ptr]) != [] ==> !freed && LostReference(old(f), f, ptr)
      ensures ptr != NULL && old(f.ref.downs[ptr]) == [] ==> old(ptr in mem.destructor) && (freed <==> old(Agrees(ptr)))
      ensures ptr != NULL && old(f.ref.downs[ptr]) == [] && !freed ==> f == old(f) && mem == old(mem)
      ensures ptr != NULL && freed ==> Freed(old(f), f, ptr, old(Refusing()), Subtree(old(f), ptr))
      ensures ptr != NULL && old(f.ref.downs[ptr] == [] && Sealed(f, ptr) && Refusing() !! Subtree(f, ptr)) ==>
        freed && f.own.up.Keys == old(f.own.up.Keys - Subtree(f, ptr))
      ensures freed ==> Survivors(old(f), f, ptr, old(Refusing()))
      ensures old(Unyielding()) <= f.own.up.Keys
    {
      hide Represents, WellFormed, Closed, Freed, Subtree, Sealed, Survivors;
      DestructorKeys(mem, f);
      if ptr == NULL {
        return false;
      }
      WellFormedOf(mem, f, NULL, NULL);
      SubtreeClosed(f, ptr);
      ghost var f0 := f;
      ghost var stay := Refusing();
      freed := Free(ptr, stay, Subtree(f, ptr));
      WellFormedOf(mem, f, NULL, NULL);
      DestructorKeys(mem, f);
      if freed {
        SurvivorsAll(f0, f, ptr, stay);
        if Sealed(f0, ptr) && stay !! Subtree(f0, ptr) {
          FreedWhole(f0, f, ptr, stay);
        }
      }
    }

    /**
     `talloc_unlink`; true stands for zero. Of the owners of `ptr` exactly one occurrence
     of `context` goes; if it was the only owner a free is attempted instead.
     */
    method Unlink(context: Addr, ptr: Addr) returns (ok: bool)
      requires Valid() && (ptr == NULL || IsContext(f, ptr)) && (context == NULL || IsContext(f, context))
      modifies this
      ensures Valid()
      ensures ptr == NULL || context !in old(Owners(f, ptr)) ==> !ok && f == old(f) && mem == old(mem)
      ensures ptr != NULL && context in old(Owners(f, ptr)) && |old(Owners(f, ptr))| > 1 ==>
                ok && OwnerDropped(old(f), f, ptr, context)
      ensures ptr != NULL && old(Owners(f, ptr)) == multiset{context} ==>
                && old(ptr in mem.destructor) && (ok <==> old(Agrees(ptr)))
                && if ok then Freed(old(f), f, ptr, old(Refusing()), Subtree(old(f), ptr))
                   else f == old(f) && mem == old(mem)
    {
      hide Represents, WellFormed, Owners, Freed, Subtree, Reaches;
      if ptr == NULL {
        return false;
      }
      WellFormedOf(mem, f, NULL, NULL);
      ghost var f0 := f;
      HandleOfOwners(f, ptr, context);
      ok := Unreference(context, ptr);
      if ok {
        DroppedOwners(f0, ptr, context);
        return;
      }
      var p := OwnerOf(mem, f, ptr);
      if p != context {
        return false;
      }
      RefsHead(mem, f, ptr);
      if mem.refs[ptr] == NULL {
        OwnersAlone(f, ptr);
        ok := FreePointer(ptr);
        return;
      }
      Promote(ptr);
      ok := true;
    }

    /** Lines 352-363: the holder of the newest reference becomes the owner. */
    method Promote(ptr: Addr)
      requires Valid() && IsContext(f, ptr) && f.ref.downs[ptr] != []
      modifies this
      ensures Valid() && OwnerDropped(old(f), f, ptr, old(f.own.up[ptr])) && |old(Owners(f, ptr))| > 1
      ensures old(f.ref.downs[ptr][0] in f.own.up) && f.own.up[ptr] == old(f.own.up[f.ref.downs[ptr][0]])
    {
      hide Represents, WellFormed, Owners, Reaches;
      WellFormedOf(mem, f, NULL, NULL);
      ghost var f0 := f;
      RefsHead(mem, f, ptr);
      PromoteFits(f, ptr);
      PromotedOwners(f, ptr);
      HandleOfOwners(f, ptr, f.own.up[f.ref.downs[ptr][0]]);
      var newParent := OwnerOf(mem, f, mem.refs[ptr]);
      var ok := Unreference(newParent, ptr);
      assert ok;
      DroppedOwners(f0, ptr, newParent);
      ghost var f1 := f;
      WellFormedOf(mem, f, NULL, NULL);
      var _ := Steal(newParent, ptr);
      WellFormedOf(mem, f, NULL, NULL);
      StolenLinks(f1, newParent, ptr);
      PromotedAll(f0, f1, f, ptr, newParent);
    }
  }

  lemma StolenLinks(f: Forest, q: Addr, p: Addr)
    requires WellFormed(f) && p in f.own.up && (q == NULL || q in f.own.up)
    ensures Moved(f, q, p).own.up == f.own.up[p := q]
  {
  }

  lemma BornLinks(f: Forest, context: Addr, c: Addr)
    requires WellFormed(f) && (context == NULL || context in f.own.up)
    ensures Born(f, context, c).own.up == f.own.up[c := context] && Born(f, context, c).ref == AddUnlinked(f.ref, c)
  {
  }

  /** Chunk 1 owns 2, which owns 3; nothing is referenced and nothing has a destructor. */
  ghost predicate Nested(mem: Memory, f: Forest) {
    && f.own.up == map[1 := NULL, 2 := 1, 3 := 2]
    && f.ref == Links(map[1 := NULL, 2 := NULL, 3 := NULL], map[1 := [], 2 := [], 3 := []])
    && mem.destructor == map[1 := NoDestructor, 2 := NoDestructor, 3 := NoDestructor]
  }

  method NestThree(refuses: Answers) returns (heap: Heap)
    ensures fresh(heap) && heap.Valid() && Nested(heap.mem, heap.f) && heap.refuses == refuses
  {
    hide Represents, WellFormed, Born;
    heap := new Heap(refuses);
    WellFormedOf(heap.mem, heap.f, NULL, NULL);
    BornLinks(heap.f, NULL, 1);
    var p := heap.Alloc(NULL, 8, 1);
    WellFormedOf(heap.mem, heap.f, NULL, NULL);
    BornLinks(heap.f, 1, 2);
    p := heap.Alloc(1, 8, 2);
    WellFormedOf(heap.mem, heap.f, NULL, NULL);
    BornLinks(heap.f, 2, 3);
    p := heap.Alloc(2, 8, 3);
  }

  /**
   `f0`: chunks 1, 2 and 3 are nested, and 3 is referenced by the null context through handle 4. Freeing 1
   frees 3 as well: a reference held by the null context does not save a grandchild of what is freed.
   */
  method NullReferenceLost() returns (heap: Heap, ghost f0: Forest)
    ensures f0.own.up == map[1 := NULL, 2 := 1, 3 := 2, 4 := NULL]
    ensures f0.ref.up == map[1 := NULL, 2 := NULL, 3 := NULL, 4 := 3]
    ensures fresh(heap) && heap.Valid() && WellFormed(f0) && WellFormed(heap.f)
    ensures Freed(f0, heap.f, 1, {}, Subtree(f0, 1)) && 3 !in heap.f.own.up
  {
    hide Represents, WellFormed, Freed, Survivors, Subtree, LostReference;
    heap := ReferNested();
    NestedRefsAre();
    hide NestedRefs;
    WellFormedOf(heap.mem, heap.f, NULL, NULL);
    f0 := heap.f;
    var freed := heap.FreePointer(1);
    WellFormedOf(heap.mem, heap.f, NULL, NULL);
    NullHolderTwoDown(f0, heap.f, 1, {}, 2, 3, 4);
  }

  /** The links after chunk 3 has been referenced through handle 4. */
  ghost function NestedRefs(): (t: Links) {
    var none := Links(map[1 := NULL, 2 := NULL, 3 := NULL], map[1 := [], 2 := [], 3 := []]);
    Push(AddUnlinked(none, 4), 3, 4)
  }

  lemma NestedRefsAre()
    ensures NestedRefs().up == map[1 := NULL, 2 := NULL, 3 := NULL, 4 := 3]
    ensures var downs := NestedRefs().downs; 1 in downs && 2 in downs && 3 in downs
    ensures var downs := NestedRefs().downs; downs[1] == [] && downs[2] == [] && downs[3] == [4]
  {
  }

  method ReferNested() returns (heap: Heap)
    ensures fresh(heap) && heap.Valid() && heap.Refusing() == {}
    ensures heap.f.own.up == map[1 := NULL, 2 := 1, 3 := 2, 4 := NULL] && heap.f.ref == NestedRefs()
    ensures 1 in heap.mem.destructor && heap.Agrees(1)
  {
    hide Represents, WellFormed, Reaches, Owners, Push, AddUnlinked;
    heap := NestThree((c, n) => false);
    WellFormedOf(heap.mem, heap.f, NULL, NULL);
    var _ := heap.Reference(NULL, 3, 4);
  }
}
