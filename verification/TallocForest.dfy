/**
 The ownership forest behind the hierarchical allocator: who owns whom, in which
 order the children of a chunk are chained, and which reference handles point at
 a chunk. Everything here is a value; `TallocHeap` ties it to the raw links.
 */
module TallocForest {

  /** A chunk is known by its address; zero is the null pointer. */
  type Addr = int

  const NULL: Addr := 0

  ghost predicate Apart(s: seq<Addr>, i: nat, j: nat)
    requires i < j < |s|
  {
    s[i] != s[j]
  }

  ghost predicate Distinct(s: seq<Addr>) {
    forall i: nat, j: nat {:trigger Apart(s, i, j)} :: i < j < |s| ==> Apart(s, i, j)
  }

  // ---------- list helpers ----------

  function Nth(s: seq<Addr>, i: int): (r: Addr) {
    if 0 <= i < |s| then s[i] else NULL
  }

  lemma DistinctIndex(s: seq<Addr>, i: nat, j: nat)
    requires Distinct(s) && i < |s| && j < |s| && s[i] == s[j]
    ensures i == j
  {
    assert i < j ==> Apart(s, i, j);
    assert j < i ==> Apart(s, j, i);
  }

  lemma DistinctCons(s: seq<Addr>, c: Addr)
    requires Distinct(s) && c !in s
    ensures Distinct([c] + s)
  {
    forall i: nat, j: nat | i < j < |s| + 1 ensures Apart([c] + s, i, j) {
      assert i > 0 ==> Apart(s, i - 1, j - 1);
    }
  }

  /** The list with its one occurrence of `c` taken out. */
  ghost function Without(s: seq<Addr>, c: Addr): (r: seq<Addr>)
    requires c in s
  {
    if s[0] == c then s[1..] else [s[0]] + Without(s[1..], c)
  }

  lemma {:induction false} WithoutAt(s: seq<Addr>, k: nat)
    requires Distinct(s) && k < |s|
    ensures Without(s, s[k]) == s[..k] + s[k + 1..]
  {
    if k == 0 {
      assert s[..0] + s[1..] == s[1..];
    } else {
      assert Apart(s, 0, k);
      assert Distinct(s[1..]) by {
        forall i: nat, j: nat | i < j < |s| - 1 ensures Apart(s[1..], i, j) { assert Apart(s, i + 1, j + 1); }
      }
      WithoutAt(s[1..], k - 1);
      assert s[1..][k - 1] == s[k];
      assert [s[0]] + (s[1..][..k - 1] + s[1..][k..]) == s[..k] + s[k + 1..];
    }
  }

  lemma WithoutDistinct(s: seq<Addr>, c: Addr)
    requires c in s && Distinct(s)
    ensures Distinct(Without(s, c)) && c !in Without(s, c)
    ensures forall x :: x in Without(s, c) ==> x in s
    ensures forall x :: x in s && x != c ==> x in Without(s, c)
  {
    var k :| 0 <= k < |s| && s[k] == c;
    WithoutAt(s, k);
    var r := Without(s, c);
    forall i: nat, j: nat | i < j < |r| ensures Apart(r, i, j) {
      assert Apart(s, if i < k then i else i + 1, if j < k then j else j + 1);
    }
    forall i: nat | i < |r| ensures r[i] != c {
      assert if i < k then Apart(s, i, k) else Apart(s, k, i + 1);
    }
  }

  // ---------- a relation kept as an up-link and an ordered down-list ----------

  datatype Links = Links(up: map<Addr, Addr>, downs: map<Addr, seq<Addr>>)

  /** Each chunk with an up-link is in the list of that chunk, once, and in no other list. */
  ghost predicate Consistent(t: Links) {
    && t.up.Keys == t.downs.Keys && NULL !in t.up
    && (forall c {:trigger t.downs[t.up[c]]} {:trigger t.up[c] in t.up} {:trigger t.up[c] in t.downs} ::
        c in t.up && t.up[c] != NULL ==> t.up[c] in t.up && c in t.downs[t.up[c]])
    && (forall p, c {:trigger c in t.downs[p]} :: p in t.up && c in t.downs[p] ==> c in t.up && t.up[c] == p)
    && (forall p {:trigger t.downs[p]} :: p in t.up ==> Distinct(t.downs[p]))
  }

  /** Take `c` out of the list it is in, if any. */
  ghost function Cut(t: Links, c: Addr): (u: Links)
    requires Consistent(t) && c in t.up
  {
    var p := t.up[c];
    if p == NULL then t else Links(t.up[c := NULL], t.downs[p := Without(t.downs[p], c)])
  }

  /** Put `c`, which is in no list, at the head of `p`'s list. */
  ghost function Push(t: Links, p: Addr, c: Addr): (u: Links)
    requires p in t.downs
  {
    Links(t.up[c := p], t.downs[p := [c] + t.downs[p]])
  }

  ghost function AddUnlinked(t: Links, c: Addr): (u: Links) {
    Links(t.up[c := NULL], t.downs[c := []])
  }

  ghost function Remove(t: Links, c: Addr): (u: Links) {
    Links(t.up - {c}, t.downs - {c})
  }

  lemma CutConsistent(t: Links, c: Addr)
    requires Consistent(t) && c in t.up
    ensures Consistent(Cut(t, c))
  {
    if t.up[c] != NULL {
      WithoutDistinct(t.downs[t.up[c]], c);
    }
  }

  lemma PushConsistent(t: Links, p: Addr, c: Addr)
    requires Consistent(t) && p in t.up && c in t.up && t.up[c] == NULL
    ensures Consistent(Push(t, p, c))
  {
    DistinctCons(t.downs[p], c);
  }

  lemma AddConsistent(t: Links, c: Addr)
    requires Consistent(t) && c !in t.up && c != NULL
    ensures Consistent(AddUnlinked(t, c))
  {
  }

  lemma RemoveConsistent(t: Links, c: Addr)
    requires Consistent(t) && c in t.up && t.up[c] == NULL && t.downs[c] == []
    ensures Consistent(Remove(t, c))
  {
  }

  // ---------- the forest ----------

  /**
   `own` is ownership: a chunk's parent and its children from the head of the list.
   `ref` is reference: the chunk a handle refers to and the handles that refer to a
   chunk. `rank` witnesses that the two together are acyclic.
   */
  datatype Forest = Forest(own: Links, ref: Links, rank: map<Addr, nat>)

  /** Handles are private to the allocator: nothing is allocated under one and nothing refers to one. */
  ghost predicate HandlesAreLeaves(own: Links, ref: Links)
    requires own.up.Keys == ref.up.Keys && Consistent(own) && Consistent(ref)
  {
    forall h {:trigger ref.up[h]} :: h in ref.up && ref.up[h] != NULL ==> own.downs[h] == [] && ref.downs[h] == []
  }

  /** The rank grows from a chunk to everything it owns. */
  ghost predicate RanksOwned(own: Links, rank: map<Addr, nat>)
    requires own.up.Keys == rank.Keys && Consistent(own)
  {
    forall c {:trigger own.up[c]} :: c in own.up && own.up[c] != NULL ==> rank[own.up[c]] < rank[c]
  }

  /** The rank grows from a handle to the chunk it refers to. */
  ghost predicate RanksReferred(ref: Links, rank: map<Addr, nat>)
    requires ref.up.Keys == rank.Keys && Consistent(ref)
  {
    forall h {:trigger ref.up[h]} :: h in ref.up && ref.up[h] != NULL ==> rank[h] < rank[ref.up[h]]
  }

  ghost predicate WellFormed(f: Forest) {
    match f
    case Forest(own, ref, rank) =>
      && own.up.Keys == ref.up.Keys == rank.Keys
      && Consistent(own) && Consistent(ref)
      && HandlesAreLeaves(own, ref)
      && RanksOwned(own, rank) && RanksReferred(ref, rank)
  }

  /** A new chunk without owner. */
  ghost function AddRoot(f: Forest, c: Addr, r: nat): (g: Forest) {
    Forest(AddUnlinked(f.own, c), AddUnlinked(f.ref, c), f.rank[c := r])
  }

  ghost function Detach(f: Forest, c: Addr): (g: Forest)
    requires WellFormed(f) && c in f.own.up
  {
    f.(own := Cut(f.own, c))
  }

  ghost function Attach(f: Forest, p: Addr, c: Addr): (g: Forest)
    requires p in f.own.downs
  {
    f.(own := Push(f.own, p, c))
  }

  ghost function Refer(f: Forest, h: Addr, t: Addr): (g: Forest)
    requires t in f.ref.downs
  {
    f.(ref := Push(f.ref, t, h))
  }

  ghost function Unrefer(f: Forest, h: Addr): (g: Forest)
    requires WellFormed(f) && h in f.ref.up
  {
    f.(ref := Cut(f.ref, h))
  }

  ghost function Drop(f: Forest, c: Addr): (g: Forest) {
    Forest(Remove(f.own, c), Remove(f.ref, c), f.rank - {c})
  }

  lemma AddRootWellFormed(f: Forest, c: Addr, r: nat)
    requires WellFormed(f) && c !in f.own.up && c != NULL
    ensures WellFormed(AddRoot(f, c, r))
  {
    AddConsistent(f.own, c);
    AddConsistent(f.ref, c);
  }

  lemma DetachWellFormed(f: Forest, c: Addr)
    requires WellFormed(f) && c in f.own.up
    ensures WellFormed(Detach(f, c))
  {
    CutConsistent(f.own, c);
  }

  lemma AttachWellFormed(f: Forest, p: Addr, c: Addr)
    requires WellFormed(f) && p in f.own.up && c in f.own.up && f.own.up[c] == NULL
    requires f.ref.up[p] == NULL && f.rank[p] < f.rank[c]
    ensures WellFormed(Attach(f, p, c))
  {
    PushConsistent(f.own, p, c);
  }

  lemma ReferWellFormed(f: Forest, h: Addr, t: Addr)
    requires WellFormed(f) && h in f.ref.up && t in f.ref.up && f.ref.up[h] == NULL && f.ref.up[t] == NULL
    requires f.own.downs[h] == [] && f.ref.downs[h] == [] && f.rank[h] < f.rank[t]
    ensures WellFormed(Refer(f, h, t))
  {
    PushConsistent(f.ref, t, h);
  }

  lemma UnreferWellFormed(f: Forest, h: Addr)
    requires WellFormed(f) && h in f.ref.up
    ensures WellFormed(Unrefer(f, h))
  {
    CutConsistent(f.ref, h);
  }

  /** A root that owns nothing, refers to nothing and is not referred to can be forgotten. */
  lemma DropWellFormed(f: Forest, c: Addr)
    requires WellFormed(f) && c in f.own.up && f.own.up[c] == f.ref.up[c] == NULL
      && f.own.downs[c] == f.ref.downs[c] == []
    ensures WellFormed(Drop(f, c))
  {
    RemoveConsistent(f.own, c);
    RemoveConsistent(f.ref, c);
  }

  // ---------- reachability and the exact condition for a new edge ----------

  /** There is a path of ownership and reference edges from `a` to `b`. */
  ghost predicate Reaches(f: Forest, a: Addr, b: Addr)
    requires WellFormed(f) && b in f.own.up
    decreases f.rank[b]
  {
    || a == b
    || (f.own.up[b] != NULL && Reaches(f, a, f.own.up[b]))
    || exists h :: h in f.ref.downs[b] && Reaches(f, a, h)
  }

  /** `b` is `a` or a descendant of `a` in the ownership forest. */
  ghost predicate Under(f: Forest, a: Addr, b: Addr)
    requires WellFormed(f) && b in f.own.up
    decreases f.rank[b]
  {
    a == b || (f.own.up[b] != NULL && Under(f, a, f.own.up[b]))
  }

  lemma ReachesOn(f: Forest, a: Addr, b: Addr)
    requires WellFormed(f) && b in f.own.up
    ensures f.own.up[b] != NULL && Reaches(f, a, f.own.up[b]) ==> Reaches(f, a, b)
    ensures forall h :: h in f.ref.downs[b] && Reaches(f, a, h) ==> Reaches(f, a, b)
  {
  }

  /** Everything reachable from `p` moved up by `gap`. */
  ghost function Raise(f: Forest, p: Addr, gap: nat): (r: map<Addr, nat>)
    requires WellFormed(f)
  {
    map c | c in f.rank :: f.rank[c] + if Reaches(f, p, c) then gap else 0
  }

  /** Moving up everything reachable from `p` keeps the ranking, by however much. */
  lemma RaiseWellFormed(f: Forest, p: Addr, gap: nat)
    requires WellFormed(f) && p in f.own.up
    ensures var g := f.(rank := Raise(f, p, gap));
            WellFormed(g) && g.rank[p] == f.rank[p] + gap && forall c :: c in f.own.up && !Reaches(f, p, c) ==>
              g.rank[c] == f.rank[c]
  {
    var r := Raise(f, p, gap);
    forall c | c in f.own.up && f.own.up[c] != NULL ensures r[f.own.up[c]] < r[c] {
      ReachesOn(f, p, c);
    }
    forall h | h in f.ref.up && f.ref.up[h] != NULL ensures r[h] < r[f.ref.up[h]] {
      ReachesOn(f, p, f.ref.up[h]);
    }
  }

  /** A ranking of the forest with the edge from `ctx` to `p` in place of `p`'s old owner. */
  ghost predicate RanksMove(f: Forest, ctx: Addr, p: Addr, r: map<Addr, nat>)
    requires WellFormed(f) && ctx in f.own.up && p in f.own.up && ctx != p
  {
    && r.Keys == f.own.up.Keys
    && (forall c {:trigger f.own.up[c]} :: c in f.own.up && c != p && f.own.up[c] != NULL ==> r[f.own.up[c]] < r[c])
    && (forall h {:trigger f.ref.up[h]} :: h in f.ref.up && f.ref.up[h] != NULL ==> r[h] < r[f.ref.up[h]])
    && r[ctx] < r[p]
  }

  lemma {:induction false} MoveKeepsOrder(f: Forest, ctx: Addr, p: Addr, r: map<Addr, nat>, x: Addr)
    requires WellFormed(f) && ctx in f.own.up && p in f.own.up && ctx != p && RanksMove(f, ctx, p, r)
    requires x in f.own.up && Reaches(f, p, x)
    ensures r[p] <= r[x]
    decreases f.rank[x]
  {
    if x != p {
      if f.own.up[x] != NULL && Reaches(f, p, f.own.up[x]) {
        MoveKeepsOrder(f, ctx, p, r, f.own.up[x]);
      } else {
        var h :| h in f.ref.downs[x] && Reaches(f, p, h);
        MoveKeepsOrder(f, ctx, p, r, h);
      }
    }
  }

  /** Making `ctx` the owner of `p` keeps ownership and reference acyclic exactly when `p` does not reach `ctx`. */
  lemma MoveAcyclicIff(f: Forest, ctx: Addr, p: Addr)
    requires WellFormed(f) && ctx in f.own.up && p in f.own.up && ctx != p
    ensures (exists r :: RanksMove(f, ctx, p, r)) <==> !Reaches(f, p, ctx)
  {
    if !Reaches(f, p, ctx) {
      RaiseRanks(f, ctx, p);
    } else {
      forall r | RanksMove(f, ctx, p, r) ensures false {
        MoveKeepsOrder(f, ctx, p, r, ctx);
      }
    }
  }

  lemma {:induction false} RaiseRanks(f: Forest, ctx: Addr, p: Addr)
    requires WellFormed(f) && ctx in f.own.up && p in f.own.up && ctx != p && !Reaches(f, p, ctx)
    ensures RanksMove(f, ctx, p, Raise(f, p, f.rank[ctx] + 1))
  {
    RaiseWellFormed(f, p, f.rank[ctx] + 1);
    hide Raise, Consistent, HandlesAreLeaves, RanksOwned, RanksReferred, RanksMove;
    AnyRanksMove(f, f.(rank := Raise(f, p, f.rank[ctx] + 1)), ctx, p);
  }

  lemma AnyRanksMove(f: Forest, g: Forest, ctx: Addr, p: Addr)
    requires WellFormed(f) && WellFormed(g) && g.own == f.own && g.ref == f.ref
    requires ctx in f.own.up && p in f.own.up && ctx != p && g.rank[ctx] < g.rank[p]
    ensures RanksMove(f, ctx, p, g.rank)
  {
    hide HandlesAreLeaves;
  }
}
