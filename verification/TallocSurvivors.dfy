/**
 What a free leaves behind: a chunk survives exactly if somebody outside the freed
 part still holds it, directly or through others that are held.
 */
module TallocSurvivors {
  import opened TallocForest
  import opened TallocFree

  /**
   Before `tc` is freed: `c` lies outside, or is owned by, or referenced from, something
   that is itself kept. A reference held by the null context does not count.
   */
  ghost predicate Held(f: Forest, tc: Addr, c: Addr)
    requires WellFormed(f) && c in f.own.up
    decreases f.rank[c]
  {
    c != tc &&
    (|| !Under(f, tc, c)
     || Held(f, tc, f.own.up[c])
     || exists h :: h in f.ref.downs[c] && HeldThrough(f, tc, c, h))
  }

  /** The holder of the handle `h` on `c` is kept. */
  ghost predicate HeldThrough(f: Forest, tc: Addr, c: Addr, h: Addr)
    requires WellFormed(f) && c in f.own.up && h in f.ref.downs[c]
    decreases f.rank[c], 0
  {
    && h in f.own.up && f.own.up[h] != NULL && f.rank[f.own.up[h]] < f.rank[c] && Held(f, tc, f.own.up[h])
  }

  /** What is owned by, or referenced from, a survivor survives. */
  lemma HolderSaves(f0: Forest, f1: Forest, tc: Addr, stay: set<Addr>, s: set<Addr>, c: Addr, p: Addr)
    requires WellFormed(f0) && WellFormed(f1) && tc in f0.own.up && Freed(f0, f1, tc, stay, s) && f0.ref.up[tc] == NULL
    requires c in f0.own.up && f0.ref.up[c] == NULL && c != tc && p != NULL && p in f1.own.up
    requires f0.own.up[c] == p || exists h :: h in f0.ref.downs[c] && h in f0.own.up && f0.own.up[h] == p
    ensures c in f1.own.up
  {
    if f0.own.up[c] == p {
      assert c !in f1.own.up ==> Orphaned(f0, f1, c, NULL);
    } else {
      var h :| h in f0.ref.downs[c] && h in f0.own.up && f0.own.up[h] == p;
      if h in f1.own.up {
        assert f1.ref.up[h] == f0.ref.up[h] == c;
      } else {
        assert h != tc ==> Redeemed(f0, f1, h, NULL);
      }
    }
  }

  /** Owner and holders rank below, are no handles, and are chunks. */
  lemma OwnersBelow(f: Forest, c: Addr, h: Addr)
    requires WellFormed(f) && c in f.own.up
    ensures f.own.up[c] != NULL ==>
      f.own.up[c] in f.own.up && f.ref.up[f.own.up[c]] == NULL && f.rank[f.own.up[c]] < f.rank[c]
    ensures h in f.ref.downs[c] ==> h in f.own.up && f.ref.up[h] == c
    ensures h in f.ref.downs[c] && f.own.up[h] != NULL ==>
              f.own.up[h] in f.own.up && f.ref.up[f.own.up[h]] == NULL && f.rank[f.own.up[h]] < f.rank[c]
  {
    if f.own.up[c] != NULL { OwnerNotHandle(f, c); }
    if h in f.ref.downs[c] && f.own.up[h] != NULL { OwnerNotHandle(f, h); }
  }

  /** Whatever is held survives the free. */
  lemma {:induction false} HeldSurvives(f0: Forest, f1: Forest, tc: Addr, stay: set<Addr>, c: Addr)
    requires WellFormed(f0) && WellFormed(f1) && tc in f0.own.up && Freed(f0, f1, tc, stay, Subtree(f0, tc))
      && f0.ref.up[tc] == NULL
    requires c in f0.own.up && f0.ref.up[c] == NULL && Held(f0, tc, c)
    ensures c in f1.own.up
    decreases f0.rank[c]
  {
    if Under(f0, tc, c) {
      OwnersBelow(f0, c, NULL);
      var p;
      if Held(f0, tc, f0.own.up[c]) {
        p := f0.own.up[c];
      } else {
        var h :| h in f0.ref.downs[c] && HeldThrough(f0, tc, c, h);
        OwnersBelow(f0, c, h);
        p := f0.own.up[h];
      }
      HeldSurvives(f0, f1, tc, stay, p);
      HolderSaves(f0, f1, tc, stay, Subtree(f0, tc), c, p);
    }
  }

  /** No reference into the part being freed is held by the null context. */
  ghost predicate NoNullHolders(f: Forest, tc: Addr)
    requires WellFormed(f)
  {
    forall h {:trigger f.ref.up[h]} :: h in f.own.up && f.ref.up[h] in Subtree(f, tc) ==> f.own.up[h] != NULL
  }

  /** Without refusals and null holders nothing but what is held survives. */
  lemma {:induction false} SurvivorHeld(f0: Forest, f1: Forest, tc: Addr, stay: set<Addr>, c: Addr)
    requires WellFormed(f0) && WellFormed(f1) && tc in f0.own.up && Freed(f0, f1, tc, stay, Subtree(f0, tc))
      && f0.ref.up[tc] == NULL
    requires NoNullHolders(f0, tc) && stay !! Subtree(f0, tc)
    requires c in f1.own.up && c in f0.own.up && f0.ref.up[c] == NULL
    ensures Held(f0, tc, c)
    decreases f0.rank[c]
  {
    if Under(f0, tc, c) && c != tc {
      var o := f0.own.up[c];
      OwnersBelow(f0, c, NULL);
      assert o != NULL && Under(f0, tc, o);
      if o in f1.own.up {
        SurvivorHeld(f0, f1, tc, stay, o);
      } else {
        var h := ClaimedBy(f0, f1, tc, stay, c);
        OwnersBelow(f0, c, h);
        SurvivorHeld(f0, f1, tc, stay, f0.own.up[h]);
        assert HeldThrough(f0, tc, c, h);
      }
    }
  }

  /** A chunk that outlives its owner belongs to a living holder of a reference to it. */
  lemma ClaimedBy(f0: Forest, f1: Forest, tc: Addr, stay: set<Addr>, c: Addr) returns (h: Addr)
    requires WellFormed(f0) && WellFormed(f1) && tc in f0.own.up && Freed(f0, f1, tc, stay, Subtree(f0, tc))
    requires NoNullHolders(f0, tc) && stay !! Subtree(f0, tc) && c in Subtree(f0, tc)
    requires c in f1.own.up && c in f0.own.up && f0.own.up[c] != NULL && f0.own.up[c] !in f1.own.up
    ensures h in f0.own.up && h in f0.ref.downs[c] && f0.own.up[h] != NULL && f0.own.up[h] == f1.own.up[c]
      && f0.own.up[h] in f1.own.up
  {
    assert Settled(f0, f1, c, f0.own.up[tc], NULL, stay);
    var now := f1.own.up[c];
    assert !HeldBy(f0, f1, c, NULL);
    h :| Consumed(f0, f1, h, c) && f0.own.up[h] == now;
  }

  /**
   If no destructor refuses and the null context holds no reference into the part that
   is freed, a chunk survives if and only if it is held.
   */
  lemma SurvivesIff(f0: Forest, f1: Forest, tc: Addr, stay: set<Addr>, c: Addr)
    requires WellFormed(f0) && WellFormed(f1) && tc in f0.own.up && Freed(f0, f1, tc, stay, Subtree(f0, tc))
      && f0.ref.up[tc] == NULL
    requires NoNullHolders(f0, tc) && stay !! Subtree(f0, tc)
    requires c in f0.own.up && f0.ref.up[c] == NULL
    ensures c in f1.own.up <==> Held(f0, tc, c)
  {
    if c in f1.own.up { SurvivorHeld(f0, f1, tc, stay, c); }
    if Held(f0, tc, c) { HeldSurvives(f0, f1, tc, stay, c); }
  }

  /** A reference from outside the part that is freed holds its target. */
  lemma OutsideHolder(f: Forest, tc: Addr, c: Addr, h: Addr)
    requires WellFormed(f) && tc in f.own.up && c in f.own.up && c != tc && h in f.ref.downs[c]
    requires h in f.own.up && f.own.up[h] != NULL && f.own.up[h] !in Subtree(f, tc)
    ensures Held(f, tc, c)
  {
    OwnersBelow(f, c, h);
    assert HeldThrough(f, tc, c, h);
  }

  lemma {:induction false} UnderRank(f: Forest, a: Addr, b: Addr)
    requires WellFormed(f) && b in f.own.up && Under(f, a, b)
    ensures a in f.own.up && f.rank[a] <= f.rank[b]
    decreases f.rank[b]
  {
    if a != b { UnderRank(f, a, f.own.up[b]); }
  }

  /** What lies under something held is held. */
  lemma {:induction false} HeldBelow(f: Forest, tc: Addr, c: Addr, d: Addr)
    requires WellFormed(f) && tc in f.own.up && c in Subtree(f, tc) && Held(f, tc, c) && d in f.own.up && Under(f, c, d)
    ensures Held(f, tc, d)
    decreases f.rank[d]
  {
    if d != c {
      HeldBelow(f, tc, c, f.own.up[d]);
      UnderRank(f, tc, c);
      UnderRank(f, c, f.own.up[d]);
      assert f.rank[f.own.up[d]] < f.rank[d];
    }
  }

  /**
   Who owns the survivor `c`: its old owner, a living holder of a reference, or, if it refused or
   the null context held it, the owner of `tc`.
   */
  ghost predicate WellOwned(f0: Forest, f1: Forest, tc: Addr, stay: set<Addr>, c: Addr)
    requires WellFormed(f0) && WellFormed(f1) && tc in f0.own.up && c in f0.own.up && c in f1.own.up
  {
    var now := f1.own.up[c];
    || (now == f0.own.up[c] && now in f1.own.up)
    || (now != NULL && now in f1.own.up && HeldBy(f0, f1, c, now))
    || (now == f0.own.up[tc] && MovedUp(f0, f1, c, stay))
  }

  /** A chunk that is held survives with everything under it, and has an owner. */
  lemma HeldWhole(f0: Forest, f1: Forest, tc: Addr, stay: set<Addr>, c: Addr)
    requires WellFormed(f0) && WellFormed(f1) && tc in f0.own.up && Freed(f0, f1, tc, stay, Subtree(f0, tc))
      && f0.ref.up[tc] == NULL
    requires c in Subtree(f0, tc) && f0.ref.up[c] == NULL && Held(f0, tc, c)
    ensures c in f1.own.up && WellOwned(f0, f1, tc, stay, c)
    ensures forall d {:trigger Under(f0, c, d)} :: d in f0.own.up && f0.ref.up[d] == NULL && Under(f0, c, d) ==>
              d in f1.own.up && (d != c ==> f1.own.up[d] == f0.own.up[d])
  {
    forall d | d in f0.own.up && f0.ref.up[d] == NULL && Under(f0, c, d)
      ensures d in f1.own.up && (d != c ==> f1.own.up[d] == f0.own.up[d])
    {
      HeldBelow(f0, tc, c, d);
      HeldSurvives(f0, f1, tc, stay, d);
      if d != c {
        var o := f0.own.up[d];
        HeldBelow(f0, tc, c, o);
        OwnersBelow(f0, d, NULL);
        HeldSurvives(f0, f1, tc, stay, o);
        assert Settled(f0, f1, d, f0.own.up[tc], NULL, stay);
      }
    }
    assert Settled(f0, f1, c, f0.own.up[tc], NULL, stay);
    OwnersBelow(f0, c, NULL);
  }

  /**
   The null context is no such holder: one reference of its does not save a chunk two levels down,
   whose owner goes.
   */
  lemma NullHolderLoses(f0: Forest, f1: Forest, tc: Addr, stay: set<Addr>, c: Addr, h: Addr)
    requires WellFormed(f0) && WellFormed(f1) && tc in f0.own.up && Freed(f0, f1, tc, stay, Subtree(f0, tc))
      && f0.ref.up[tc] == NULL
    requires c in Subtree(f0, tc) && c != tc && c !in stay && f0.ref.downs[c] == [h] && h in f0.own.up
      && f0.own.up[h] == NULL
    requires f0.own.up[c] != tc && f0.own.up[c] != NULL && f0.own.up[c] != f0.own.up[tc] && f0.own.up[c] !in f1.own.up
    ensures c !in f1.own.up
  {
    if c in f1.own.up {
      assert Settled(f0, f1, c, f0.own.up[tc], NULL, stay) && Traced(f0, f1, c, f0.own.up[tc], tc);
      OnlyHandle(f0, c, h);
    }
  }

  /**
   Two levels below `tc`: freeing `a` moves `c` up to `tc`, whose own loop then frees it, although
   it was referenced.
   */
  lemma NullHolderTwoDown(f0: Forest, f1: Forest, tc: Addr, stay: set<Addr>, a: Addr, c: Addr, h: Addr)
    requires WellFormed(f0) && WellFormed(f1) && tc in f0.own.up && Freed(f0, f1, tc, stay, Subtree(f0, tc))
      && f0.ref.up[tc] == NULL
    requires a in f0.own.up && f0.own.up[a] == tc && f0.ref.downs[a] == [] && a !in stay
    requires c in f0.own.up && f0.own.up[c] == a && f0.ref.downs[c] == [h] && h in f0.own.up && f0.own.up[h] == NULL
      && c !in stay
    ensures c !in f1.own.up
  {
    OwnersBelow(f0, a, NULL);
    OwnersBelow(f0, c, NULL);
    OwnersBelow(f0, tc, NULL);
    if a in f1.own.up {
      assert Settled(f0, f1, a, f0.own.up[tc], NULL, stay);
      NoHandle(f0, a);
    }
    NullHolderLoses(f0, f1, tc, stay, c, h);
  }

  lemma NoHandle(f: Forest, c: Addr)
    requires WellFormed(f) && c in f.own.up && f.ref.downs[c] == []
    ensures forall k {:trigger f.ref.up[k]} :: k in f.own.up ==> f.ref.up[k] != c
  {
    forall k | k in f.own.up ensures f.ref.up[k] != c {}
  }

  lemma OnlyHandle(f: Forest, c: Addr, h: Addr)
    requires WellFormed(f) && c in f.own.up && f.ref.downs[c] == [h]
    ensures forall k {:trigger f.ref.up[k]} :: k in f.own.up && f.ref.up[k] == c ==> k == h
  {
    forall k | k in f.own.up && f.ref.up[k] == c ensures k == h { assert k in f.ref.downs[f.ref.up[k]]; }
  }

  /** What a caller can tell beforehand: what is held survives, and, without refusals and null holders, nothing else. */
  ghost predicate Survivors(f0: Forest, f1: Forest, tc: Addr, stay: set<Addr>)
    requires WellFormed(f0) && WellFormed(f1) && tc in f0.own.up
  {
    && (forall c {:trigger Held(f0, tc, c)} :: c in f0.own.up && f0.ref.up[c] == NULL && Held(f0, tc, c) ==>
          c in f1.own.up && (c in Subtree(f0, tc) ==> WellOwned(f0, f1, tc, stay, c)))
    && (NoNullHolders(f0, tc) && stay !! Subtree(f0, tc) ==>
          forall c {:trigger Held(f0, tc, c)} :: c in f0.own.up && f0.ref.up[c] == NULL ==>
            (c in f1.own.up <==> Held(f0, tc, c)))
  }

  lemma SurvivorsAll(f0: Forest, f1: Forest, tc: Addr, stay: set<Addr>)
    requires WellFormed(f0) && WellFormed(f1) && tc in f0.own.up && Freed(f0, f1, tc, stay, Subtree(f0, tc))
      && f0.ref.up[tc] == NULL
    ensures Survivors(f0, f1, tc, stay)
  {
    hide Freed, Held, WellOwned, Consistent, HandlesAreLeaves, RanksOwned, RanksReferred;
    forall c | c in f0.own.up && f0.ref.up[c] == NULL && Held(f0, tc, c)
      ensures c in f1.own.up && (c in Subtree(f0, tc) ==> WellOwned(f0, f1, tc, stay, c))
    {
      HeldSurvives(f0, f1, tc, stay, c);
      if c in Subtree(f0, tc) { HeldWhole(f0, f1, tc, stay, c); }
    }
    if NoNullHolders(f0, tc) && stay !! Subtree(f0, tc) {
      forall c | c in f0.own.up && f0.ref.up[c] == NULL ensures c in f1.own.up <==> Held(f0, tc, c) {
        SurvivesIff(f0, f1, tc, stay, c);
      }
    }
  }
}
