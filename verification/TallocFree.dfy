/**
 What a recursive free does to the ownership forest, stated between the forest
 before and the forest after: which chunks may disappear, and who owns the ones
 that outlive their owner.
 */
module TallocFree {
  import opened TallocForest

  /** The handle `h` on `c` was given up between `f0` and `f1`. */
  ghost predicate Consumed(f0: Forest, f1: Forest, h: Addr, c: Addr)
    requires WellFormed(f0)
  {
    h in f0.own.up && h !in f1.own.up && f0.ref.up[h] == c
  }

  /** A handle on `c` that hung off `p` was given up between `f0` and `f1`. */
  ghost predicate HeldBy(f0: Forest, f1: Forest, c: Addr, p: Addr)
    requires WellFormed(f0)
  {
    exists h :: Consumed(f0, f1, h, c) && f0.own.up[h] == p
  }

  /** Nothing is allocated or reordered; surviving handles keep their holder and their target. */
  ghost predicate Kept(f0: Forest, f1: Forest)
    requires WellFormed(f0) && WellFormed(f1)
  {
    && f1.own.up.Keys <= f0.own.up.Keys
    && (forall c {:trigger f1.rank[c]} :: c in f1.own.up ==> f1.rank[c] == f0.rank[c])
    && (forall c {:trigger f1.ref.up[c]} :: c in f1.own.up ==> f1.ref.up[c] == f0.ref.up[c])
    && (forall c {:trigger f1.own.up[c]} :: c in f1.own.up && f0.ref.up[c] != NULL ==> f1.own.up[c] == f0.own.up[c])
  }

  /** What was freed lies in `s` or is a handle on something in `s`; apart from handles it ranks `low` or higher. */
  ghost predicate FreedWithin(f0: Forest, f1: Forest, s: set<Addr>, low: int)
    requires WellFormed(f0)
  {
    forall c {:trigger c in f1.own.up} :: c in f0.own.up && c !in f1.own.up ==>
      if f0.ref.up[c] == NULL then c in s && low <= f0.rank[c] else c in s || f0.ref.up[c] in s
  }

  /** `c` outlived its owner because it refused to be freed, or because the null context held a reference to it. */
  ghost predicate MovedUp(f0: Forest, f1: Forest, c: Addr, stay: set<Addr>)
    requires WellFormed(f0)
  {
    c in stay || HeldBy(f0, f1, c, NULL)
  }

  /**
   Who owns the survivor `c`: its old owner if that survives too and is not `gone`;
   otherwise the holder of a reference it lost, or `up` if it moved up, or, while
   `gone` is still being emptied, `gone`.
   */
  ghost predicate Settled(f0: Forest, f1: Forest, c: Addr, up: Addr, gone: Addr, stay: set<Addr>)
    requires WellFormed(f0) && WellFormed(f1) && c in f0.own.up && c in f1.own.up
  {
    var before, now := f0.own.up[c], f1.own.up[c];
    if before == NULL || (before in f1.own.up && before != gone) then now == before
    else
      || (gone != NULL && now == gone)
      || (now == up && MovedUp(f0, f1, c, stay))
      || (now != NULL && HeldBy(f0, f1, c, now))
  }

  // ---------- who must survive ----------

  /** The handle `h` was given up, but if its holder lives it now owns the chunk itself. */
  ghost predicate Redeemed(f0: Forest, f1: Forest, h: Addr, gone: Addr)
    requires WellFormed(f0) && h in f0.own.up
  {
    var q, c := f0.own.up[h], f0.ref.up[h];
    q == NULL || q == gone || q !in f1.own.up || (c in f1.own.up && f1.own.up[c] == q)
  }

  /** `c` went, and so did its owner. */
  ghost predicate Orphaned(f0: Forest, f1: Forest, c: Addr, gone: Addr)
    requires WellFormed(f0) && c in f0.own.up
  {
    var o := f0.own.up[c];
    o != NULL && (o == gone || o !in f1.own.up)
  }

  ghost predicate LostOne(f0: Forest, f1: Forest, c: Addr)
    requires WellFormed(f0)
  {
    exists h :: Consumed(f0, f1, h, c)
  }

  ghost predicate LostTwo(f0: Forest, f1: Forest, c: Addr)
    requires WellFormed(f0)
  {
    exists h, k :: Consumed(f0, f1, h, c) && Consumed(f0, f1, k, c) && h != k
  }

  /**
   Every change of owner cost `c` a reference; climbing past `tc` from below it cost two, unless the
   new owner held one.
   */
  ghost predicate Traced(f0: Forest, f1: Forest, c: Addr, up: Addr, tc: Addr)
    requires WellFormed(f0) && WellFormed(f1) && c in f0.own.up && c in f1.own.up
  {
    var before, now := f0.own.up[c], f1.own.up[c];
    && (now != before ==> LostOne(f0, f1, c))
    && (now == up && before != tc && before != up && (up == NULL || !HeldBy(f0, f1, c, up)) ==> LostTwo(f0, f1, c))
  }

  /** A chunk other than `tc` goes only after its owner and all living holders let it go. */
  ghost predicate Fair(f0: Forest, f1: Forest, tc: Addr, gone: Addr, stay: set<Addr>)
    requires WellFormed(f0) && WellFormed(f1) && tc in f0.own.up && Kept(f0, f1)
  {
    && (forall h {:trigger Redeemed(f0, f1, h, gone)} ::
          h in f0.own.up && h !in f1.own.up && f0.ref.up[h] != NULL && h != tc ==> Redeemed(f0, f1, h, gone))
    && (forall c {:trigger Orphaned(f0, f1, c, gone)} ::
          c in f0.own.up && c !in f1.own.up && f0.ref.up[c] == NULL && c != tc ==> Orphaned(f0, f1, c, gone))
    && (forall c {:trigger Traced(f0, f1, c, f0.own.up[tc], tc)} ::
          c in f1.own.up && c !in stay ==> Traced(f0, f1, c, f0.own.up[tc], tc))
  }

  /** `tc` and what it owned have been freed, as far as references and destructors let them. */
  ghost predicate Freed(f0: Forest, f1: Forest, tc: Addr, stay: set<Addr>, s: set<Addr>)
    requires WellFormed(f0) && WellFormed(f1) && tc in f0.own.up
  {
    match f0
    case Forest(own, _, rank) =>
      && Kept(f0, f1) && FreedWithin(f0, f1, s, rank[tc]) && tc !in f1.own.up
      && (forall c {:trigger Settled(f0, f1, c, own.up[tc], NULL, stay)} :: c in f1.own.up ==>
        Settled(f0, f1, c, own.up[tc], NULL, stay))
      && f0.ref.downs[tc] == [] && Fair(f0, f1, tc, NULL, stay)
  }

  /** The children of `tc` are being freed. */
  ghost predicate Freeing(f0: Forest, f: Forest, tc: Addr, stay: set<Addr>, s: set<Addr>)
    requires WellFormed(f0) && WellFormed(f) && tc in f0.own.up
  {
    match f0
    case Forest(own, _, rank) =>
      && Kept(f0, f) && FreedWithin(f0, f, s, rank[tc] + 1) && tc in f.own.up && f.own.up[tc] == own.up[tc]
      && (forall c {:trigger Settled(f0, f, c, own.up[tc], tc, stay)} :: c in f.own.up ==>
        Settled(f0, f, c, own.up[tc], tc, stay))
      && Fair(f0, f, tc, tc, stay)
  }

  /** `s` contains everything owned by its members. */
  ghost predicate Closed(f: Forest, s: set<Addr>)
    requires WellFormed(f)
  {
    NULL !in s && forall c {:trigger f.own.up[c]} :: c in f.own.up && f.own.up[c] in s ==> c in s
  }

  lemma HeldByLater(f0: Forest, f: Forest, g: Forest, c: Addr, p: Addr)
    requires WellFormed(f0) && HeldBy(f0, f, c, p) && g.own.up.Keys <= f.own.up.Keys
    ensures HeldBy(f0, g, c, p)
  {
    var h :| Consumed(f0, f, h, c) && f0.own.up[h] == p;
    assert Consumed(f0, g, h, c);
  }

  lemma HeldByEarlier(f0: Forest, f: Forest, g: Forest, c: Addr, p: Addr)
    requires WellFormed(f0) && WellFormed(f) && Kept(f0, f) && HeldBy(f, g, c, p) && c != NULL
    ensures HeldBy(f0, g, c, p)
  {
    var h :| Consumed(f, g, h, c) && f.own.up[h] == p;
    assert Consumed(f0, g, h, c);
  }

  /** The owner of the chunk being emptied is still there, and a chunk that owns something is not a handle. */
  lemma OwnerAlive(f0: Forest, f: Forest, tc: Addr, s: set<Addr>)
    requires WellFormed(f0) && WellFormed(f) && Kept(f0, f) && tc in f0.own.up && FreedWithin(f0, f, s, f0.rank[tc])
    ensures f0.own.up[tc] == NULL || (f0.own.up[tc] in f.own.up && f0.ref.up[f0.own.up[tc]] == NULL)
  {
  }

  /** One survivor of freeing `child` while `tc` is being emptied. */
  lemma SettledStep(f0: Forest, f: Forest, g: Forest, tc: Addr, child: Addr, stay: set<Addr>, s: set<Addr>, c: Addr)
    requires WellFormed(f0) && WellFormed(f) && WellFormed(g) && tc in f0.own.up && child in f.own.up
    requires Freeing(f0, f, tc, stay, s) && f.own.up[child] == tc && Freed(f, g, child, stay, s) && tc in g.own.up
    requires c in g.own.up
    ensures Settled(f0, g, c, f0.own.up[tc], tc, stay)
  {
    var up := f0.own.up[tc];
    var o, o', o'' := f0.own.up[c], f.own.up[c], g.own.up[c];
    assert Settled(f0, f, c, up, tc, stay) && Settled(f, g, c, tc, NULL, stay);
    if o' == NULL || o' in g.own.up {
      assert o'' == o';
      if HeldBy(f0, f, c, o') { HeldByLater(f0, f, g, c, o'); }
      if HeldBy(f0, f, c, NULL) { HeldByLater(f0, f, g, c, NULL); }
    } else if o'' != tc {
      HeldByEarlier(f0, f, g, c, o'');
    }
  }

  lemma FreeingStart(f: Forest, tc: Addr, stay: set<Addr>, s: set<Addr>)
    requires WellFormed(f) && tc in f.own.up
    ensures Freeing(f, f, tc, stay, s)
  {
    hide HandlesAreLeaves, RanksOwned, RanksReferred;
  }

  /** A chunk that a handle refers to is no handle. */
  lemma TargetPlain(f: Forest, h: Addr)
    requires WellFormed(f) && h in f.own.up && f.ref.up[h] != NULL
    ensures f.ref.up[h] in f.own.up && f.ref.up[f.ref.up[h]] == NULL && h in f.ref.downs[f.ref.up[h]]
    ensures f.ref.up[h] != h && f.own.up[h] != f.ref.up[h]
  {
    hide Distinct;
  }

  lemma RedeemedChild(f0: Forest, f: Forest, g: Forest, tc: Addr, child: Addr, stay: set<Addr>, s: set<Addr>, h: Addr)
    requires WellFormed(f0) && WellFormed(f) && WellFormed(g) && tc in f0.own.up && child in f.own.up
    requires Freeing(f0, f, tc, stay, s) && f.own.up[child] == tc && Freed(f, g, child, stay, s)
    requires h in f0.own.up && h !in g.own.up && f0.ref.up[h] != NULL && h != tc
    ensures Redeemed(f0, g, h, tc)
  {
    TargetPlain(f0, h);
    hide Consistent, HandlesAreLeaves, RanksOwned, RanksReferred;
    var q, c := f0.own.up[h], f0.ref.up[h];
    if h in f.own.up {
      assert f.own.up[h] == q && f.ref.up[h] == c;
      if h != child { assert Redeemed(f, g, h, NULL); }
    } else {
      assert Redeemed(f0, f, h, tc);
      if q != NULL && q != tc && q in g.own.up {
        assert c in f.own.up && f.own.up[c] == q;
        assert f.ref.up[c] == f0.ref.up[c];
        assert c in g.own.up ==> Settled(f, g, c, tc, NULL, stay);
        assert c !in g.own.up && c != child ==> Orphaned(f, g, c, NULL);
      }
    }
  }

  lemma OrphanedChild(f0: Forest, f: Forest, g: Forest, tc: Addr, child: Addr, stay: set<Addr>, s: set<Addr>, c: Addr)
    requires WellFormed(f0) && WellFormed(f) && WellFormed(g) && tc in f0.own.up && child in f.own.up && tc != NULL
    requires Freeing(f0, f, tc, stay, s) && f.own.up[child] == tc && Freed(f, g, child, stay, s)
    requires c in f0.own.up && c !in g.own.up && f0.ref.up[c] == NULL && c != tc
    ensures Orphaned(f0, g, c, tc)
  {
    hide Consistent, HandlesAreLeaves, RanksOwned, RanksReferred;
    if c in f.own.up {
      assert Settled(f0, f, c, f0.own.up[tc], tc, stay);
      assert f.ref.up[c] == f0.ref.up[c];
      if c != child { assert Orphaned(f, g, c, NULL); }
    } else {
      assert Orphaned(f0, f, c, tc);
    }
  }

  lemma LostLater(f0: Forest, f: Forest, g: Forest, c: Addr)
    requires WellFormed(f0) && g.own.up.Keys <= f.own.up.Keys
    ensures LostOne(f0, f, c) ==> LostOne(f0, g, c)
    ensures LostTwo(f0, f, c) ==> LostTwo(f0, g, c)
  {
    hide WellFormed;
    forall h | Consumed(f0, f, h, c) ensures Consumed(f0, g, h, c) {}
  }

  lemma LostEarlier(f0: Forest, f: Forest, g: Forest, c: Addr)
    requires WellFormed(f0) && WellFormed(f) && Kept(f0, f) && LostOne(f, g, c)
    ensures LostOne(f0, g, c)
  {
    hide Consistent, HandlesAreLeaves, RanksOwned, RanksReferred;
    var h :| Consumed(f, g, h, c);
    assert f.ref.up[h] == f0.ref.up[h];
    assert Consumed(f0, g, h, c);
  }

  lemma TracedChild(f0: Forest, f: Forest, g: Forest, tc: Addr, child: Addr, stay: set<Addr>, s: set<Addr>, c: Addr)
    requires WellFormed(f0) && WellFormed(f) && WellFormed(g) && tc in f0.own.up && child in f.own.up && tc != NULL
    requires Freeing(f0, f, tc, stay, s) && f.own.up[child] == tc && Freed(f, g, child, stay, s)
    requires c in g.own.up && c !in stay && f0.own.up[tc] != tc
    ensures Traced(f0, g, c, f0.own.up[tc], tc)
  {
    assert c != NULL;
    hide Consistent, HandlesAreLeaves, RanksOwned, RanksReferred;
    var up := f0.own.up[tc];
    assert Traced(f0, f, c, up, tc) && Traced(f, g, c, tc, child);
    assert Settled(f, g, c, tc, NULL, stay);
    LostLater(f0, f, g, c);
    if LostOne(f, g, c) { LostEarlier(f0, f, g, c); }
    if g.own.up[c] == up && f.own.up[c] != up {
      if HeldBy(f, g, c, up) && up != NULL { HeldByEarlier(f0, f, g, c, up); }
    } else if up != NULL && HeldBy(f0, f, c, up) {
      HeldByLater(f0, f, g, c, up);
    }
  }

  /** The child was freed: the loop goes on. */
  lemma FreeingChild(f0: Forest, f: Forest, g: Forest, tc: Addr, child: Addr, stay: set<Addr>, s: set<Addr>)
    requires WellFormed(f0) && WellFormed(f) && WellFormed(g) && tc in f0.own.up && child in f.own.up
    requires Freeing(f0, f, tc, stay, s) && f.own.up[child] == tc && Freed(f, g, child, stay, s)
    ensures Freeing(f0, g, tc, stay, s)
  {
    OwnerAlive(f, g, child, s);
    OwnerAlive(f0, f, tc, s);
    assert tc in g.own.up && tc != NULL && f0.own.up[tc] != tc;
    hide Consistent, HandlesAreLeaves, RanksOwned, RanksReferred;
    assert Settled(f, g, tc, tc, NULL, stay);
    hide Fair, Settled;
    FreedWithinChild(f0, f, g, tc, child, s);
    forall c | c in g.own.up ensures Settled(f0, g, c, f0.own.up[tc], tc, stay) {
      SettledStep(f0, f, g, tc, child, stay, s, c);
    }
    FairChild(f0, f, g, tc, child, stay, s);
  }

  lemma FreedWithinChild(f0: Forest, f: Forest, g: Forest, tc: Addr, child: Addr, s: set<Addr>)
    requires WellFormed(f0) && WellFormed(f) && WellFormed(g) && tc in f0.own.up && child in f.own.up
      && f.own.up[child] == tc && tc in f.own.up
    requires Kept(f0, f) && Kept(f, g) && FreedWithin(f0, f, s, f0.rank[tc] + 1) && FreedWithin(f, g, s, f.rank[child])
    ensures Kept(f0, g) && FreedWithin(f0, g, s, f0.rank[tc] + 1)
  {
    assert f0.rank[tc] + 1 <= f.rank[child];
    hide Consistent, HandlesAreLeaves, RanksOwned, RanksReferred;
    forall c | c in f0.own.up && c !in g.own.up
      ensures if f0.ref.up[c] == NULL then c in s && f0.rank[tc] + 1 <= f0.rank[c] else c in s || f0.ref.up[c] in s
    {
      if c in f.own.up { assert f.ref.up[c] == f0.ref.up[c] && f.rank[c] == f0.rank[c]; }
    }
  }

  lemma FairChild(f0: Forest, f: Forest, g: Forest, tc: Addr, child: Addr, stay: set<Addr>, s: set<Addr>)
    requires WellFormed(f0) && WellFormed(f) && WellFormed(g) && tc in f0.own.up && child in f.own.up && tc != NULL
    requires Freeing(f0, f, tc, stay, s) && f.own.up[child] == tc && Freed(f, g, child, stay, s) && f0.own.up[tc] != tc
    requires Kept(f0, g)
    ensures Fair(f0, g, tc, tc, stay)
  {
    hide Consistent, HandlesAreLeaves, RanksOwned, RanksReferred, Freeing, Freed, Redeemed, Orphaned, Traced;
    forall h | h in f0.own.up && h !in g.own.up && f0.ref.up[h] != NULL && h != tc ensures Redeemed(f0, g, h, tc) {
      RedeemedChild(f0, f, g, tc, child, stay, s, h);
    }
    forall c | c in f0.own.up && c !in g.own.up && f0.ref.up[c] == NULL && c != tc ensures Orphaned(f0, g, c, tc) {
      OrphanedChild(f0, f, g, tc, child, stay, s, c);
    }
    forall c | c in g.own.up && c !in stay ensures Traced(f0, g, c, f0.own.up[tc], tc) {
      TracedChild(f0, f, g, tc, child, stay, s, c);
    }
  }

  /** Nothing but `child` changed owner, and nothing but the handle `h`, if it is not null, disappeared. */
  ghost predicate OnlyMoved(f: Forest, g: Forest, child: Addr, p: Addr, h: Addr)
    requires WellFormed(f) && WellFormed(g)
  {
    && child in f.own.up && child != h && g.own.up.Keys == f.own.up.Keys - {h} && g.own.up[child] == p
    && (forall c {:trigger g.own.up[c]} :: c in g.own.up && c != child ==> g.own.up[c] == f.own.up[c])
    && (forall c {:trigger g.ref.up[c]} :: c in g.own.up ==> g.ref.up[c] == f.ref.up[c])
    && (forall c {:trigger g.rank[c]} :: c in g.own.up ==> g.rank[c] == f.rank[c])
  }

  /**
   `child`, a child of `tc`, goes to `p`: to the holder of the handle `h` it lost, if that is not
   null, and otherwise to `up`.
   */
  ghost predicate GoesTo(f: Forest, tc: Addr, up: Addr, child: Addr, p: Addr, h: Addr, stay: set<Addr>)
    requires WellFormed(f)
  {
    && child in f.own.up && f.own.up[child] == tc && f.ref.up[child] == NULL
    && if h == NULL then child in stay && p == up
       else h in f.own.up && f.ref.up[h] == child && p == if f.own.up[h] == NULL then up else f.own.up[h]
  }

  /** The same, seen from the forest before `tc` was being emptied. */
  ghost predicate Step(f0: Forest, f: Forest, g: Forest, tc: Addr, child: Addr, p: Addr, h: Addr, stay: set<Addr>)
    requires WellFormed(f0) && WellFormed(f) && WellFormed(g)
  {
    && tc in f0.own.up && tc in f.own.up && f.own.up[tc] == f0.own.up[tc] && Kept(f0, f) && OnlyMoved(f, g, child, p, h)
    && NULL !in f.own.up && child != NULL && tc != child && child in f.own.up && f.own.up[child] == tc
    && child in f0.own.up && f0.ref.up[child] == NULL
    && if h == NULL then child in stay && p == f0.own.up[tc]
       else
         && h in f.own.up && h in f0.own.up && Consumed(f0, g, h, child) && f0.own.up[h] == f.own.up[h]
         && f.ref.up[h] == child
         && h != tc && p == if f0.own.up[h] == NULL then f0.own.up[tc] else f0.own.up[h]
  }

  lemma StepHolds(f0: Forest, f: Forest, g: Forest, tc: Addr, child: Addr, p: Addr, h: Addr, stay: set<Addr>)
    requires WellFormed(f0) && WellFormed(f) && WellFormed(g) && tc in f0.own.up && tc in f.own.up
      && f.own.up[tc] == f0.own.up[tc]
    requires Kept(f0, f) && GoesTo(f, tc, f0.own.up[tc], child, p, h, stay) && OnlyMoved(f, g, child, p, h)
    ensures Step(f0, f, g, tc, child, p, h, stay)
  {
    ChildApart(f, tc, child);
    hide Consistent, HandlesAreLeaves, RanksOwned, RanksReferred;
    assert f.ref.up[child] == f0.ref.up[child];
    if h != NULL { assert f.ref.up[h] == f0.ref.up[h]; }
  }

  lemma ChildApart(f: Forest, tc: Addr, child: Addr)
    requires WellFormed(f) && child in f.own.up && f.own.up[child] == tc && tc in f.own.up
    ensures child != NULL && NULL !in f.own.up && tc != child && f.ref.up[tc] == NULL
  {
    OwnerNotHandle(f, child);
  }

  /** The child could not be freed: it was handed to the holder of the reference it lost, or to the owner of `tc`. */
  lemma FreeingMoved(f0: Forest, f: Forest, g: Forest, tc: Addr, child: Addr, p: Addr, h: Addr, stay: set<Addr>,
      s: set<Addr>)
    requires WellFormed(f0) && WellFormed(f) && WellFormed(g) && tc in f0.own.up && child in s
    requires Freeing(f0, f, tc, stay, s) && GoesTo(f, tc, f0.own.up[tc], child, p, h, stay)
      && OnlyMoved(f, g, child, p, h)
    ensures Freeing(f0, g, tc, stay, s)
  {
    hide Consistent, HandlesAreLeaves, RanksOwned, RanksReferred, Step, GoesTo, Kept, FreedWithin, OnlyMoved,
      Settled, Fair;
    StepHolds(f0, f, g, tc, child, p, h, stay);
    OwnerStays(f0, f, g, tc, child, p, h, stay);
    KeptMoved(f0, f, g, tc, child, p, h, stay, s);
    FairMoved(f0, f, g, tc, child, p, h, stay);
    forall c | c in g.own.up ensures Settled(f0, g, c, f0.own.up[tc], tc, stay) {
      assert Settled(f0, f, c, f0.own.up[tc], tc, stay);
      SettledMoved(f0, f, g, tc, child, p, h, stay, c);
    }
  }

  lemma OwnerStays(f0: Forest, f: Forest, g: Forest, tc: Addr, child: Addr, p: Addr, h: Addr, stay: set<Addr>)
    requires WellFormed(f0) && WellFormed(f) && WellFormed(g) && Step(f0, f, g, tc, child, p, h, stay)
    ensures tc in g.own.up && g.own.up[tc] == f0.own.up[tc]
    ensures forall c :: c in g.own.up ==> c in f.own.up && c in f0.own.up
  {
    hide Consistent, HandlesAreLeaves, RanksOwned, RanksReferred;
  }

  lemma KeptMoved(f0: Forest, f: Forest, g: Forest, tc: Addr, child: Addr, p: Addr, h: Addr, stay: set<Addr>,
      s: set<Addr>)
    requires WellFormed(f0) && WellFormed(f) && WellFormed(g) && Step(f0, f, g, tc, child, p, h, stay) && child in s
    requires tc in f0.own.up && FreedWithin(f0, f, s, f0.rank[tc] + 1)
    ensures Kept(f0, g) && FreedWithin(f0, g, s, f0.rank[tc] + 1)
  {
    hide Consistent, HandlesAreLeaves, RanksOwned, RanksReferred;
    forall c | c in f0.own.up && c !in g.own.up
      ensures if f0.ref.up[c] == NULL then c in s && f0.rank[tc] + 1 <= f0.rank[c] else c in s || f0.ref.up[c] in s
    {
      if c in f.own.up { assert c == h; }
    }
  }

  lemma SettledMoved(f0: Forest, f: Forest, g: Forest, tc: Addr, child: Addr, p: Addr, h: Addr, stay: set<Addr>,
      c: Addr)
    requires WellFormed(f0) && WellFormed(f) && WellFormed(g) && Step(f0, f, g, tc, child, p, h, stay)
    requires tc in f0.own.up && c in f0.own.up && c in f.own.up && c in g.own.up
      && Settled(f0, f, c, f0.own.up[tc], tc, stay)
    ensures Settled(f0, g, c, f0.own.up[tc], tc, stay)
  {
    var o := f0.own.up[c];
    if o != NULL { OwnerNotHandle(f0, c); }
    hide Consistent, HandlesAreLeaves, RanksOwned, RanksReferred;
    if c == child {
      if h != NULL { assert HeldBy(f0, g, child, f0.own.up[h]); }
    } else {
      if HeldBy(f0, f, c, g.own.up[c]) { HeldByLater(f0, f, g, c, g.own.up[c]); }
      if HeldBy(f0, f, c, NULL) { HeldByLater(f0, f, g, c, NULL); }
    }
  }

  lemma TracedMoved(f0: Forest, f: Forest, g: Forest, tc: Addr, child: Addr, p: Addr, h: Addr, stay: set<Addr>, c: Addr)
    requires WellFormed(f0) && WellFormed(f) && WellFormed(g) && Step(f0, f, g, tc, child, p, h, stay)
    requires tc in f0.own.up && c in f0.own.up && c in f.own.up && c in g.own.up && c !in stay
      && Traced(f0, f, c, f0.own.up[tc], tc)
    ensures Traced(f0, g, c, f0.own.up[tc], tc)
  {
    hide Consistent, HandlesAreLeaves, RanksOwned, RanksReferred;
    if c != child {
      TracedLater(f0, f, g, tc, c);
    } else {
      assert LostOne(f0, g, c);
      if f0.own.up[c] != tc {
        var k :| Consumed(f0, f, k, c);
        assert Consumed(f0, g, k, c) && k != h;
      }
    }
  }

  lemma TracedLater(f0: Forest, f: Forest, g: Forest, tc: Addr, c: Addr)
    requires WellFormed(f0) && WellFormed(f) && WellFormed(g) && tc in f0.own.up && g.own.up.Keys <= f.own.up.Keys
    requires c in f0.own.up && c in g.own.up && g.own.up[c] == f.own.up[c] && Traced(f0, f, c, f0.own.up[tc], tc)
    ensures Traced(f0, g, c, f0.own.up[tc], tc)
  {
    hide HandlesAreLeaves, RanksOwned, RanksReferred, Consistent;
    var up := f0.own.up[tc];
    LostLater(f0, f, g, c);
    if up != NULL && HeldBy(f0, f, c, up) { HeldByLater(f0, f, g, c, up); }
  }

  /** The handle that was lost in this step: its holder, if not null, is the new owner. */
  lemma RedeemedNow(f0: Forest, f: Forest, g: Forest, tc: Addr, child: Addr, p: Addr, h: Addr, stay: set<Addr>)
    requires WellFormed(f0) && WellFormed(f) && WellFormed(g) && Step(f0, f, g, tc, child, p, h, stay) && h != NULL
    ensures h in f0.own.up && Redeemed(f0, g, h, tc)
  {
    hide Consistent, HandlesAreLeaves, RanksOwned, RanksReferred;
  }

  /** A handle that was lost before: its holder still owns the chunk. */
  lemma RedeemedBefore(f0: Forest, f: Forest, g: Forest, tc: Addr, child: Addr, p: Addr, h: Addr, stay: set<Addr>,
      k: Addr)
    requires WellFormed(f0) && WellFormed(f) && WellFormed(g) && Step(f0, f, g, tc, child, p, h, stay)
    requires k in f0.own.up && Redeemed(f0, f, k, tc) && (h == NULL || f0.ref.up[k] != h)
    ensures Redeemed(f0, g, k, tc)
  {
    hide Consistent, HandlesAreLeaves, RanksOwned, RanksReferred;
  }

  lemma TargetNotHandle(f: Forest, k: Addr, h: Addr)
    requires WellFormed(f) && k in f.own.up && f.ref.up[k] != NULL && h in f.own.up && f.ref.up[h] != NULL
    ensures f.ref.up[k] != h
  {
    TargetPlain(f, k);
  }

  lemma FairMoved(f0: Forest, f: Forest, g: Forest, tc: Addr, child: Addr, p: Addr, h: Addr, stay: set<Addr>)
    requires WellFormed(f0) && WellFormed(f) && WellFormed(g) && Step(f0, f, g, tc, child, p, h, stay)
    requires tc in f0.own.up && Kept(f0, f) && Kept(f0, g) && Fair(f0, f, tc, tc, stay)
    ensures Fair(f0, g, tc, tc, stay)
  {
    hide Consistent, HandlesAreLeaves, RanksOwned, RanksReferred, Redeemed, Traced;
    forall k | k in f0.own.up && k !in g.own.up && f0.ref.up[k] != NULL && k != tc ensures Redeemed(f0, g, k, tc) {
      if k in f.own.up {
        RedeemedNow(f0, f, g, tc, child, p, h, stay);
      } else {
        assert Redeemed(f0, f, k, tc);
        if h != NULL { TargetNotHandle(f0, k, h); }
        RedeemedBefore(f0, f, g, tc, child, p, h, stay, k);
      }
    }
    forall c | c in f0.own.up && c !in g.own.up && f0.ref.up[c] == NULL && c != tc ensures Orphaned(f0, g, c, tc) {
      assert Orphaned(f0, f, c, tc);
    }
    forall c | c in g.own.up && c !in stay ensures Traced(f0, g, c, f0.own.up[tc], tc) {
      assert Traced(f0, f, c, f0.own.up[tc], tc);
      TracedMoved(f0, f, g, tc, child, p, h, stay, c);
    }
  }

  lemma OwnerNotHandle(f: Forest, c: Addr)
    requires WellFormed(f) && c in f.own.up && f.own.up[c] != NULL
    ensures f.ref.up[f.own.up[c]] == NULL
  {
    assert c in f.own.downs[f.own.up[c]];
  }

  /** Nothing but `tc` disappeared. */
  ghost predicate OnlyDropped(f: Forest, g: Forest, tc: Addr)
    requires WellFormed(f) && WellFormed(g)
  {
    && tc in f.own.up && g.own.up.Keys == f.own.up.Keys - {tc}
    && (forall c {:trigger g.own.up[c]} :: c in g.own.up ==> g.own.up[c] == f.own.up[c])
    && (forall c {:trigger g.ref.up[c]} :: c in g.own.up ==> g.ref.up[c] == f.ref.up[c])
    && (forall c {:trigger g.rank[c]} :: c in g.own.up ==> g.rank[c] == f.rank[c])
  }

  /** Once `tc` owns nothing it can be dropped, and everything has settled. */
  lemma FreeingEnd(f0: Forest, f: Forest, g: Forest, tc: Addr, stay: set<Addr>, s: set<Addr>)
    requires WellFormed(f0) && WellFormed(f) && WellFormed(g) && tc in f0.own.up && tc in s
    requires Freeing(f0, f, tc, stay, s) && Emptied(f0, f, g, tc)
    ensures Freed(f0, g, tc, stay, s)
  {
    EmptiedRoot(f0, f, g, tc);
    hide Consistent, RanksOwned, RanksReferred, HandlesAreLeaves, Fair, Kept, FreedWithin, Emptied, Settled;
    KeptDropped(f0, f, g, tc, s);
    FairEnd(f0, f, g, tc, stay);
    forall c | c in g.own.up ensures Settled(f0, g, c, f0.own.up[tc], NULL, stay) {
      assert Settled(f0, f, c, f0.own.up[tc], tc, stay);
      SettledEnd(f0, f, g, tc, stay, c);
    }
  }

  /** `tc`, which nothing refers to and which owns nothing any more, is dropped. */
  ghost predicate Emptied(f0: Forest, f: Forest, g: Forest, tc: Addr)
    requires WellFormed(f0) && WellFormed(f) && WellFormed(g)
  {
    && tc in f0.own.up && f0.ref.up[tc] == NULL && f0.ref.downs[tc] == []
    && OnlyDropped(f, g, tc) && f.own.downs[tc] == []
  }

  lemma EmptiedRoot(f0: Forest, f: Forest, g: Forest, tc: Addr)
    requires WellFormed(f0) && WellFormed(f) && WellFormed(g) && Emptied(f0, f, g, tc)
    ensures tc != NULL && tc !in g.own.up && f0.ref.downs[tc] == []
    ensures forall c {:trigger f.own.up[c]} {:trigger c in g.own.up} :: c in g.own.up ==>
      c in f.own.up && f.own.up[c] != tc
  {
    hide RanksOwned, RanksReferred, HandlesAreLeaves;
  }

  lemma SettledEnd(f0: Forest, f: Forest, g: Forest, tc: Addr, stay: set<Addr>, c: Addr)
    requires WellFormed(f0) && WellFormed(f) && WellFormed(g) && tc in f0.own.up && Emptied(f0, f, g, tc)
    requires c in f0.own.up && c in f.own.up && c in g.own.up && f.own.up[c] != tc
      && Settled(f0, f, c, f0.own.up[tc], tc, stay)
    ensures Settled(f0, g, c, f0.own.up[tc], NULL, stay)
  {
    hide Consistent, RanksOwned, RanksReferred, HandlesAreLeaves;
    if HeldBy(f0, f, c, g.own.up[c]) { HeldByLater(f0, f, g, c, g.own.up[c]); }
    if HeldBy(f0, f, c, NULL) { HeldByLater(f0, f, g, c, NULL); }
  }

  lemma FairEnd(f0: Forest, f: Forest, g: Forest, tc: Addr, stay: set<Addr>)
    requires WellFormed(f0) && WellFormed(f) && WellFormed(g) && tc in f0.own.up && Kept(f0, f) && Kept(f0, g)
    requires Fair(f0, f, tc, tc, stay) && Emptied(f0, f, g, tc) && tc != NULL
    ensures Fair(f0, g, tc, NULL, stay)
  {
    hide HandlesAreLeaves, RanksOwned, RanksReferred, Consistent, Traced;
    forall k | k in f0.own.up && k !in g.own.up && f0.ref.up[k] != NULL && k != tc ensures Redeemed(f0, g, k, NULL) {
      assert Redeemed(f0, f, k, tc);
      TargetPlain(f0, k);
    }
    forall c | c in f0.own.up && c !in g.own.up && f0.ref.up[c] == NULL && c != tc ensures Orphaned(f0, g, c, NULL) {
      assert Orphaned(f0, f, c, tc);
    }
    forall c | c in g.own.up && c !in stay ensures Traced(f0, g, c, f0.own.up[tc], tc) {
      assert Traced(f0, f, c, f0.own.up[tc], tc);
      TracedLater(f0, f, g, tc, c);
    }
  }

  lemma KeptDropped(f0: Forest, f: Forest, g: Forest, tc: Addr, s: set<Addr>)
    requires WellFormed(f0) && WellFormed(f) && WellFormed(g) && tc in f0.own.up && tc in s && Emptied(f0, f, g, tc)
    requires Kept(f0, f) && FreedWithin(f0, f, s, f0.rank[tc] + 1)
    ensures Kept(f0, g) && FreedWithin(f0, g, s, f0.rank[tc])
  {
    hide Consistent, HandlesAreLeaves, RanksOwned, RanksReferred;
  }

  /** While `tc` is being emptied, `s` stays closed under ownership. */
  lemma FreeingClosed(f0: Forest, f: Forest, tc: Addr, stay: set<Addr>, s: set<Addr>)
    requires WellFormed(f0) && WellFormed(f) && tc in f0.own.up && tc in s
    requires Freeing(f0, f, tc, stay, s) && Closed(f0, s)
    ensures Closed(f, s)
  {
    forall c | c in f.own.up && f.own.up[c] in s ensures c in s {
      assert Settled(f0, f, c, f0.own.up[tc], tc, stay);
      var o := f0.own.up[c];
      if f.own.up[c] != o && o != tc {
        assert o in f0.own.up && o !in f.own.up && f0.own.downs[o] != [];
      }
    }
  }

  // ---------- the two ways a chunk leaves its owner ----------

  /** `c` with the owner `p`, null meaning no owner. */
  ghost function Moved(f: Forest, p: Addr, c: Addr): (g: Forest)
    requires WellFormed(f) && c in f.own.up && (p == NULL || p in f.own.up)
  {
    if p == NULL then Detach(f, c) else Attach(Detach(f, c), p, c)
  }

  /** The forest without the handle `h`. */
  ghost function DropHandle(f: Forest, h: Addr): (g: Forest)
    requires WellFormed(f) && h in f.own.up
  {
    UnreferWellFormed(f, h);
    Drop(Detach(Unrefer(f, h), h), h)
  }

  lemma MovedOnly(f: Forest, p: Addr, c: Addr)
    requires WellFormed(f) && c in f.own.up && (p == NULL || p in f.own.up) && WellFormed(Moved(f, p, c))
      && NULL !in f.own.up
    ensures OnlyMoved(f, Moved(f, p, c), c, p, NULL)
  {
  }

  lemma DropHandleWellFormed(f: Forest, h: Addr)
    requires WellFormed(f) && h in f.own.up && f.ref.up[h] != NULL
    ensures WellFormed(DropHandle(f, h)) && OnlyDropped(f, DropHandle(f, h), h)
  {
    var g := Unrefer(f, h);
    UnreferredLeaf(f, h);
    hide Consistent, HandlesAreLeaves, RanksOwned, RanksReferred;
    RemovedOnly(g, h);
  }

  /** Once it refers to nothing, a handle is a leaf. */
  lemma UnreferredLeaf(f: Forest, h: Addr)
    requires WellFormed(f) && h in f.own.up && f.ref.up[h] != NULL
    ensures var g := Unrefer(f, h);
            && WellFormed(g) && h in g.own.up && IsLeaf(g, h) && g.own == f.own && g.rank == f.rank
            && g.ref.up == f.ref.up[h := NULL]
  {
    UnreferWellFormed(f, h);
    assert h !in f.ref.downs[h];
  }

  /** The forest without the leaf `c`. */
  ghost function Removed(f: Forest, c: Addr): (g: Forest)
    requires WellFormed(f) && c in f.own.up
  {
    Drop(Detach(f, c), c)
  }

  ghost predicate IsLeaf(f: Forest, c: Addr)
    requires WellFormed(f) && c in f.own.up
  {
    f.own.downs[c] == [] && f.ref.downs[c] == [] && f.ref.up[c] == NULL
  }

  lemma DetachedLeaf(f: Forest, c: Addr)
    requires WellFormed(f) && c in f.own.up && IsLeaf(f, c)
    ensures var g := Detach(f, c); WellFormed(g) && c in g.own.up && IsLeaf(g, c) && g.own.up[c] == NULL
  {
    DetachWellFormed(f, c);
  }

  lemma RemovedOnly(f: Forest, c: Addr)
    requires WellFormed(f) && c in f.own.up && IsLeaf(f, c)
    ensures WellFormed(Removed(f, c)) && OnlyDropped(f, Removed(f, c), c)
  {
    DetachWellFormed(f, c);
    DropWellFormed(Detach(f, c), c);
  }

  /** Freeing a handle frees nothing else. */
  lemma FreedHandle(f: Forest, h: Addr, stay: set<Addr>, s: set<Addr>)
    requires WellFormed(f) && h in f.own.up && f.ref.up[h] != NULL && h in s
    ensures WellFormed(DropHandle(f, h)) && Freed(f, DropHandle(f, h), h, stay, s)
  {
    DropHandleWellFormed(f, h);
    HandleOwnsNothing(f, h);
    hide Consistent, HandlesAreLeaves, RanksOwned, RanksReferred, DropHandle;
    OnlyHandleFreed(f, DropHandle(f, h), h, stay, s);
  }

  lemma HandleOwnsNothing(f: Forest, h: Addr)
    requires WellFormed(f) && h in f.own.up && f.ref.up[h] != NULL
    ensures f.ref.downs[h] == [] && NULL !in f.own.up
    ensures forall c {:trigger f.own.up[c]} :: c in f.own.up ==> f.own.up[c] != h
    ensures forall c {:trigger f.own.up[c]} :: c in f.own.up ==> f.own.up[c] == NULL || f.own.up[c] in f.own.up
  {
    forall c | c in f.own.up ensures f.own.up[c] != h {
      if f.own.up[c] == h { OwnerNotHandle(f, c); }
    }
  }

  lemma OnlyHandleFreed(f: Forest, g: Forest, h: Addr, stay: set<Addr>, s: set<Addr>)
    requires WellFormed(f) && WellFormed(g) && OnlyDropped(f, g, h) && f.ref.up[h] != NULL && h in s
      && f.ref.downs[h] == []
    requires forall c {:trigger f.own.up[c]} :: c in f.own.up ==> f.own.up[c] != h
    requires forall c {:trigger f.own.up[c]} :: c in f.own.up ==> f.own.up[c] == NULL || f.own.up[c] in f.own.up
    ensures Freed(f, g, h, stay, s)
  {
    hide Consistent, HandlesAreLeaves, RanksOwned, RanksReferred;
  }

  /** A handle is a leaf once it is off its list, so destroying it frees nothing else. */
  lemma HandleClosed(f: Forest, h: Addr)
    requires WellFormed(f) && h in f.own.up && f.own.downs[h] == [] && h != NULL
    ensures Closed(f, {h})
  {
    assert forall c {:trigger f.own.up[c]} :: c in f.own.up && f.own.up[c] == h ==> c in f.own.downs[f.own.up[c]];
  }

  lemma NonemptyHas(s: seq<Addr>)
    ensures s != [] ==> s[0] in s
  {
  }

  /** Emptying `tc` neither adds references to it nor turns it into a handle. */
  lemma FreeingRefs(f0: Forest, f: Forest, tc: Addr, stay: set<Addr>, s: set<Addr>)
    requires WellFormed(f0) && WellFormed(f) && tc in f0.own.up && Freeing(f0, f, tc, stay, s)
    requires f0.ref.downs[tc] == [] && f0.ref.up[tc] == NULL
    ensures tc in f.own.up && f.ref.downs[tc] == [] && f.ref.up[tc] == NULL
  {
    forall h | h in f.ref.downs[tc] ensures h in f0.ref.downs[tc] {
      assert f.ref.up[h] == f0.ref.up[h];
    }
    NonemptyHas(f.ref.downs[tc]);
  }

  /** The free of `tc` only gave up the newest reference to it. */
  ghost predicate LostReference(f0: Forest, f1: Forest, tc: Addr)
    requires WellFormed(f0) && tc in f0.own.up
  {
    f0.ref.downs[tc] != [] && f0.ref.downs[tc][0] in f0.own.up && f1 == DropHandle(f0, f0.ref.downs[tc][0])
  }

  ghost function Handles(f: Forest): (s: set<Addr>)
    requires WellFormed(f)
  {
    set h | h in f.ref.up && f.ref.up[h] != NULL
  }

  /** The chunks that rank above `r`. */
  ghost function Above(f: Forest, r: nat): (s: set<Addr>) {
    set c | c in f.rank && r < f.rank[c]
  }

  lemma HandlesUnrefer(f: Forest, h: Addr)
    requires WellFormed(f) && h in f.ref.up && f.ref.up[h] != NULL
    ensures var g := Unrefer(f, h);
            WellFormed(g) && Handles(g) < Handles(f) && h in g.own.up && IsLeaf(g, h) && g.own == f.own
              && g.rank == f.rank
  {
    UnreferWellFormed(f, h);
    assert h !in f.ref.downs[h];
    assert h in Handles(f);
  }

  /** Freeing a child of a chunk being emptied is a smaller problem. */
  lemma Smaller(f0: Forest, f: Forest, tc: Addr, child: Addr, stay: set<Addr>, s: set<Addr>)
    requires WellFormed(f0) && WellFormed(f) && tc in f0.own.up && Freeing(f0, f, tc, stay, s)
    requires child in f.own.up && f.own.up[child] == tc
    ensures Handles(f) <= Handles(f0) && Above(f, f.rank[child]) < Above(f0, f0.rank[tc])
  {
    forall h | h in Handles(f) ensures h in Handles(f0) { assert f.ref.up[h] == f0.ref.up[h]; }
    forall c | c in Above(f, f.rank[child]) ensures c in Above(f0, f0.rank[tc]) { assert f.rank[c] == f0.rank[c]; }
    assert child in Above(f0, f0.rank[tc]);
  }

  lemma ClosedOwn(f: Forest, g: Forest, s: set<Addr>)
    requires WellFormed(f) && WellFormed(g) && Closed(f, s) && g.own == f.own
    ensures Closed(g, s)
  {
  }

  // ---------- handing a child over ----------

  /** The forest after the failed free of a child whose newest handle was `h`, null if it refused. */
  ghost function AfterRefusal(f: Forest, h: Addr): (g: Forest)
    requires WellFormed(f) && (h == NULL || h in f.own.up)
  {
    if h == NULL then f else DropHandle(f, h)
  }

  /** Who takes the child: the holder of the lost reference, else the owner of the chunk being freed. */
  ghost function Heir(f: Forest, tc: Addr, h: Addr): (p: Addr)
    requires WellFormed(f) && tc in f.own.up && (h == NULL || h in f.own.up)
  {
    if h != NULL && f.own.up[h] != NULL then f.own.up[h] else f.own.up[tc]
  }

  /** The heir is alive, is no handle, and ranks below the child, so handing over cannot close a cycle. */
  lemma HeirFits(f: Forest, tc: Addr, child: Addr, h: Addr)
    requires WellFormed(f) && child in f.own.up && f.own.up[child] == tc && tc != NULL
    requires h == NULL || (h in f.own.up && f.ref.up[h] == child)
    ensures var g := AfterRefusal(f, h);
            WellFormed(g) && tc in g.own.up && child in g.own.up && g.own.up[tc] == f.own.up[tc]
              && g.own.up[child] == tc
    ensures var g, p := AfterRefusal(f, h), Heir(f, tc, h);
            p == NULL || (p in g.own.up && g.ref.up[p] == NULL && g.rank[p] < g.rank[child])
  {
    OwnersPlain(f, tc, child, h);
    hide Consistent, HandlesAreLeaves, RanksOwned, RanksReferred, DropHandle;
    if h != NULL {
      DropHandleWellFormed(f, h);
      hide OnlyDropped;
      var g := DropHandle(f, h);
      StillThere(f, g, h, tc);
      StillThere(f, g, h, child);
      if Heir(f, tc, h) != NULL { StillThere(f, g, h, Heir(f, tc, h)); }
    }
  }

  lemma StillThere(f: Forest, g: Forest, h: Addr, c: Addr)
    requires WellFormed(f) && WellFormed(g) && OnlyDropped(f, g, h) && c in f.own.up && c != h
    ensures c in g.own.up && g.own.up[c] == f.own.up[c] && g.ref.up[c] == f.ref.up[c] && g.rank[c] == f.rank[c]
  {
  }

  lemma OwnersPlain(f: Forest, tc: Addr, child: Addr, h: Addr)
    requires WellFormed(f) && child in f.own.up && f.own.up[child] == tc && tc != NULL
    requires h == NULL || (h in f.own.up && f.ref.up[h] == child)
    ensures tc in f.own.up && f.ref.up[tc] == NULL && f.rank[tc] < f.rank[child] && h != tc && h != child
      && child != NULL
    ensures f.own.up[tc] == NULL
      || (f.own.up[tc] in f.own.up && f.ref.up[f.own.up[tc]] == NULL && f.own.up[tc] != h
        && f.rank[f.own.up[tc]] < f.rank[tc])
    ensures h != NULL && f.own.up[h] != NULL ==>
      f.own.up[h] in f.own.up && f.ref.up[f.own.up[h]] == NULL && f.own.up[h] != h
        && f.rank[f.own.up[h]] < f.rank[child]
  {
    OwnerNotHandle(f, child);
    if f.own.up[tc] != NULL { OwnerNotHandle(f, tc); }
    if h != NULL && f.own.up[h] != NULL { OwnerNotHandle(f, h); }
  }

  lemma MovedWellFormed(f: Forest, p: Addr, c: Addr)
    requires WellFormed(f) && c in f.own.up
      && (p == NULL || (p in f.own.up && f.ref.up[p] == NULL && f.rank[p] < f.rank[c]))
    ensures WellFormed(Moved(f, p, c)) && OnlyMoved(f, Moved(f, p, c), c, p, NULL)
  {
    DetachWellFormed(f, c);
    if p != NULL { AttachWellFormed(Detach(f, c), p, c); }
    MovedOnly(f, p, c);
  }

  lemma HandedOver(f0: Forest, f: Forest, tc: Addr, child: Addr, h: Addr, stay: set<Addr>, s: set<Addr>)
    requires WellFormed(f0) && WellFormed(f) && tc in f0.own.up && tc in s && child in f.own.up
      && Freeing(f0, f, tc, stay, s)
    requires f.own.up[child] == tc && tc != NULL && child in s && f.ref.up[child] == NULL
    requires if h == NULL then child in stay else h in f.own.up && f.ref.up[h] == child
    ensures h == NULL || h in f.own.up
    ensures var g, p := AfterRefusal(f, h), Heir(f, tc, h);
            WellFormed(g) && child in g.own.up && (p == NULL || p in g.own.up) && WellFormed(Moved(g, p, child))
            && Freeing(f0, Moved(g, p, child), tc, stay, s)
  {
    HandOver(f, tc, child, h);
    hide Consistent, HandlesAreLeaves, RanksOwned, RanksReferred, DropHandle, Moved, AfterRefusal, Kept, FreedWithin,
      Fair, Settled, OnlyMoved;
    FreeingMoved(f0, f, Moved(AfterRefusal(f, h), Heir(f, tc, h), child), tc, child, Heir(f, tc, h), h, stay, s);
  }

  /** Handing a child over moves it and drops its newest handle, and nothing else. */
  lemma HandOver(f: Forest, tc: Addr, child: Addr, h: Addr)
    requires WellFormed(f) && child in f.own.up && f.own.up[child] == tc && tc != NULL
    requires h == NULL || (h in f.own.up && f.ref.up[h] == child)
    ensures tc in f.own.up
    ensures var g, p := AfterRefusal(f, h), Heir(f, tc, h);
            && WellFormed(g) && child in g.own.up && (p == NULL || p in g.own.up) && WellFormed(Moved(g, p, child))
            && OnlyMoved(f, Moved(g, p, child), child, p, h)
  {
    OwnersPlain(f, tc, child, h);
    HeirFits(f, tc, child, h);
    MovedWellFormed(AfterRefusal(f, h), Heir(f, tc, h), child);
    if h != NULL { DropHandleWellFormed(f, h); }
    assert NULL !in f.own.up;
    hide Consistent, HandlesAreLeaves, RanksOwned, RanksReferred, DropHandle, Moved;
    BothMoved(f, AfterRefusal(f, h), Moved(AfterRefusal(f, h), Heir(f, tc, h), child), child, Heir(f, tc, h), h);
  }

  lemma BothMoved(f: Forest, f2: Forest, g: Forest, child: Addr, p: Addr, h: Addr)
    requires WellFormed(f) && WellFormed(f2) && WellFormed(g) && child in f.own.up && child != h && NULL !in f.own.up
    requires if h == NULL then f2 == f else OnlyDropped(f, f2, h)
    requires OnlyMoved(f2, g, child, p, NULL)
    ensures OnlyMoved(f, g, child, p, h)
  {
    hide Consistent, HandlesAreLeaves, RanksOwned, RanksReferred;
  }

  /** Each turn of the loop loses a chunk or shortens the list of children. */
  lemma HandOverShrinks(f: Forest, tc: Addr, child: Addr, h: Addr)
    requires WellFormed(f) && child in f.own.up && f.own.up[child] == tc && tc != NULL
    requires h == NULL || (h in f.own.up && f.ref.up[h] == child)
    ensures h == NULL || h in f.own.up
    ensures var f2, p := AfterRefusal(f, h), Heir(f, tc, h);
            WellFormed(f2) && child in f2.own.up && (p == NULL || p in f2.own.up)
    ensures var g := Moved(AfterRefusal(f, h), Heir(f, tc, h), child);
            if h == NULL then g.own.up.Keys == f.own.up.Keys && tc in g.own.downs
              && |g.own.downs[tc]| < |f.own.downs[tc]|
            else g.own.up.Keys < f.own.up.Keys
  {
    HeirFits(f, tc, child, h);
    hide Consistent, HandlesAreLeaves, RanksOwned, RanksReferred;
    if h != NULL {
      MovedWellFormed(AfterRefusal(f, h), Heir(f, tc, h), child);
      DropHandleWellFormed(f, h);
    } else {
      MovedShorter(f, f.own.up[tc], tc, child);
    }
  }

  lemma MovedShorter(f: Forest, p: Addr, tc: Addr, child: Addr)
    requires WellFormed(f) && child in f.own.up && f.own.up[child] == tc && tc != NULL && (p == NULL || p in f.own.up)
      && p != tc
    ensures var g := Moved(f, p, child);
            tc in f.own.up && g.own.up.Keys == f.own.up.Keys && tc in g.own.downs
              && |g.own.downs[tc]| < |f.own.downs[tc]|
  {
    hide HandlesAreLeaves, RanksOwned, RanksReferred;
    var k: nat :| k < |f.own.downs[tc]| && f.own.downs[tc][k] == child;
    WithoutAt(f.own.downs[tc], k);
  }

  lemma FreedShrinks(f: Forest, g: Forest, tc: Addr, child: Addr, stay: set<Addr>, s: set<Addr>)
    requires WellFormed(f) && WellFormed(g) && child in f.own.up && f.own.up[child] == tc && tc != NULL
    requires Freed(f, g, child, stay, s)
    ensures tc in g.own.up && g.own.up.Keys < f.own.up.Keys
  {
    OwnerAlive(f, g, child, s);
    assert child in f.own.up.Keys;
  }

  // ---------- the owners of a chunk ----------

  /** Whom each handle in `s` hangs off, null meaning nobody. */
  ghost function Holders(up: map<Addr, Addr>, s: seq<Addr>): (r: seq<Addr>)
    requires forall i :: 0 <= i < |s| ==> s[i] in up
  {
    seq(|s|, i requires 0 <= i < |s| => up[s[i]])
  }

  /** Everyone who keeps `p` alive: its owner and the holder of each reference to it. */
  ghost function Owners(f: Forest, p: Addr): (r: multiset<Addr>)
    requires WellFormed(f) && p in f.own.up
  {
    RefsInUp(f, p);
    multiset{f.own.up[p]} + multiset(Holders(f.own.up, f.ref.downs[p]))
  }

  lemma RefsInUp(f: Forest, p: Addr)
    requires WellFormed(f) && p in f.own.up
    ensures p in f.ref.downs && forall i :: 0 <= i < |f.ref.downs[p]| ==> f.ref.downs[p][i] in f.own.up
  {
    forall i | 0 <= i < |f.ref.downs[p]| ensures f.ref.downs[p][i] in f.own.up {
      var h := f.ref.downs[p][i];
      assert h in f.ref.downs[p];
    }
  }

  lemma HoldersWithout(up: map<Addr, Addr>, after: map<Addr, Addr>, s: seq<Addr>, k: nat)
    requires k < |s| && forall i :: 0 <= i < |s| ==> s[i] in up
    requires forall i :: 0 <= i < |s| && i != k ==> s[i] in after && after[s[i]] == up[s[i]]
    ensures var t := s[..k] + s[k + 1..];
            && (forall i :: 0 <= i < |t| ==> t[i] in after)
            && multiset(Holders(after, t)) == multiset(Holders(up, s)) - multiset{up[s[k]]}
  {
    var t := s[..k] + s[k + 1..];
    var a, b := Holders(up, s), Holders(after, t);
    assert forall i :: 0 <= i < |b| ==> b[i] == a[if i < k then i else i + 1];
    assert b == a[..k] + a[k + 1..];
    OneOut(a, k);
  }

  lemma OneOut(a: seq<Addr>, k: nat)
    requires k < |a|
    ensures multiset(a[..k] + a[k + 1..]) == multiset(a) - multiset{a[k]}
  {
    assert a == a[..k] + [a[k]] + a[k + 1..];
  }

  /** The other references to `p` are still there when one handle on it is dropped. */
  lemma RefsDropHandle(f: Forest, p: Addr, k: nat)
    requires WellFormed(f) && p in f.own.up && k < |f.ref.downs[p]|
    ensures f.ref.downs[p][k] in f.own.up
    ensures var s, h := f.ref.downs[p], f.ref.downs[p][k];
            var g := DropHandle(f, h);
            && WellFormed(g) && p in g.own.up && g.own.up[p] == f.own.up[p] && g.ref.downs[p] == s[..k] + s[k + 1..]
            && OnlyDropped(f, g, h) && (forall i :: 0 <= i < |s| && i != k ==> s[i] in g.own.up)
  {
    var s := f.ref.downs[p];
    var h := s[k];
    assert h in s;
    hide HandlesAreLeaves, RanksOwned, RanksReferred;
    DropHandleWellFormed(f, h);
    WithoutAt(s, k);
    HandleApart(f, p, h);
    forall i | 0 <= i < |s| && i != k ensures s[i] in f.own.up && s[i] != h {
      assert s[i] in s;
      if s[i] == h { DistinctIndex(s, i, k); }
    }
  }

  lemma HandleApart(f: Forest, p: Addr, h: Addr)
    requires WellFormed(f) && h in f.own.up && f.ref.up[h] == p && p != NULL
    ensures p in f.own.up && p != h
  {
  }

  /** Giving up the handle at position `k` takes its holder out of the owners once. */
  lemma OwnersDropHandle(f: Forest, p: Addr, k: nat)
    requires WellFormed(f) && p in f.own.up && k < |f.ref.downs[p]|
    ensures f.ref.downs[p][k] in f.own.up
    ensures var g := DropHandle(f, f.ref.downs[p][k]);
            WellFormed(g) && p in g.own.up && Owners(g, p) == Owners(f, p) - multiset{f.own.up[f.ref.downs[p][k]]}
  {
    RefsInUp(f, p);
    RefsDropHandle(f, p, k);
    hide HandlesAreLeaves, RanksOwned, RanksReferred, Consistent;
    HoldersWithout(f.own.up, DropHandle(f, f.ref.downs[p][k]).own.up, f.ref.downs[p], k);
  }

  /** Giving up a handle does not change the owners of any chunk but its target. */
  lemma OwnersDropOther(f: Forest, h: Addr, c: Addr)
    requires WellFormed(f) && h in f.own.up && f.ref.up[h] != NULL && c in f.own.up && c != h && c != f.ref.up[h]
    ensures WellFormed(DropHandle(f, h)) && c in DropHandle(f, h).own.up && Owners(DropHandle(f, h), c) == Owners(f, c)
  {
    DropHandleWellFormed(f, h);
    RefsInUp(f, c);
    var g := DropHandle(f, h);
    assert g.ref.downs[c] == f.ref.downs[c];
    RefsInUp(g, c);
    hide Consistent, HandlesAreLeaves, RanksOwned, RanksReferred, DropHandle;
    HoldersSame(f.own.up, g.own.up, f.ref.downs[c]);
  }

  /** Moving `p` does not change who holds references to `c`. */
  lemma HoldersMoved(f: Forest, g: Forest, q: Addr, p: Addr, c: Addr)
    requires WellFormed(f) && WellFormed(g) && OnlyMoved(f, g, p, q, NULL) && g.ref == f.ref && f.ref.up[p] == NULL
      && c in f.own.up
    ensures forall i :: 0 <= i < |f.ref.downs[c]| ==> f.ref.downs[c][i] in f.own.up && f.ref.downs[c][i] in g.own.up
    ensures Holders(g.own.up, f.ref.downs[c]) == Holders(f.own.up, f.ref.downs[c])
  {
    forall i | 0 <= i < |f.ref.downs[c]|
      ensures f.ref.downs[c][i] in f.own.up && f.ref.downs[c][i] in g.own.up && f.ref.downs[c][i] != p {
      var h := f.ref.downs[c][i];
      assert h in f.ref.downs[c];
    }
  }

  /** A new owner replaces the old one; nobody else's owners change. */
  lemma OwnersMoved(f: Forest, q: Addr, p: Addr, c: Addr)
    requires WellFormed(f) && p in f.own.up
      && (q == NULL || (q in f.own.up && f.ref.up[q] == NULL && f.rank[q] < f.rank[p]))
    requires f.ref.up[p] == NULL && c in f.own.up
    ensures var g := Moved(f, q, p);
            WellFormed(g) && c in g.own.up && Owners(g, c) ==
              if c == p then Owners(f, p) - multiset{f.own.up[p]} + multiset{q} else Owners(f, c)
  {
    MovedWellFormed(f, q, p);
    HoldersMoved(f, Moved(f, q, p), q, p, c);
  }

  // ---------- freeing a whole subtree ----------

  ghost function Subtree(f: Forest, tc: Addr): (s: set<Addr>)
    requires WellFormed(f)
  {
    set c | c in f.own.up && Under(f, tc, c)
  }

  lemma SubtreeClosed(f: Forest, tc: Addr)
    requires WellFormed(f) && tc in f.own.up
    ensures tc in Subtree(f, tc) && Closed(f, Subtree(f, tc))
  {
  }

  /** Nothing refers into the subtree of `tc` from outside it. */
  ghost predicate Sealed(f: Forest, tc: Addr)
    requires WellFormed(f)
  {
    forall h {:trigger f.ref.up[h]} :: h in f.ref.up && f.ref.up[h] in Subtree(f, tc) ==> h in Subtree(f, tc)
  }

  /** A sealed subtree whose destructors cannot refuse leaves no survivor. */
  lemma {:induction false} NoSurvivor(f0: Forest, f1: Forest, tc: Addr, stay: set<Addr>, c: Addr)
    requires WellFormed(f0) && WellFormed(f1) && tc in f0.own.up && Freed(f0, f1, tc, stay, Subtree(f0, tc))
    requires Sealed(f0, tc) && stay !! Subtree(f0, tc) && f0.ref.up[tc] == NULL
    requires c in Subtree(f0, tc)
    ensures c !in f1.own.up
    decreases f0.rank[c]
  {
    if c != tc && c in f1.own.up {
      var o := f0.own.up[c];
      NoSurvivor(f0, f1, tc, stay, o);
      assert Settled(f0, f1, c, f0.own.up[tc], NULL, stay);
      var now := f1.own.up[c];
      var p := if now != NULL && HeldBy(f0, f1, c, now) then now else NULL;
      var h :| Consumed(f0, f1, h, c) && f0.own.up[h] == p;
      NoSurvivor(f0, f1, tc, stay, p);
    }
  }

  /** Such a free takes away exactly the subtree. */
  lemma FreedWhole(f0: Forest, f1: Forest, tc: Addr, stay: set<Addr>)
    requires WellFormed(f0) && WellFormed(f1) && tc in f0.own.up && Freed(f0, f1, tc, stay, Subtree(f0, tc))
    requires Sealed(f0, tc) && stay !! Subtree(f0, tc) && f0.ref.up[tc] == NULL
    ensures f1.own.up.Keys == f0.own.up.Keys - Subtree(f0, tc)
  {
    forall c | c in Subtree(f0, tc) ensures c !in f1.own.up {
      NoSurvivor(f0, f1, tc, stay, c);
    }
  }

  /** A new handle `h` under `q` makes `q` one more owner of `p` and leaves the owners of every other chunk alone. */
  lemma OwnersReferred(f: Forest, g: Forest, q: Addr, h: Addr, p: Addr, c: Addr)
    requires WellFormed(f) && WellFormed(g) && p in f.own.up && c in f.own.up && h !in f.own.up
    requires g.own.up == f.own.up[h := q] && g.ref == Push(AddUnlinked(f.ref, h), p, h)
    ensures c in g.own.up && Owners(g, c) == Owners(f, c) + if c == p then multiset{q} else multiset{}
  {
    RefsInUp(f, c);
    RefsInUp(g, c);
    hide Consistent, HandlesAreLeaves, RanksOwned, RanksReferred;
    HoldersSame(f.own.up, g.own.up, f.ref.downs[c]);
    if c == p { HoldersPushed(g.own.up, h, f.ref.downs[c]); }
  }

  lemma HoldersSame(up: map<Addr, Addr>, after: map<Addr, Addr>, s: seq<Addr>)
    requires forall i :: 0 <= i < |s| ==> s[i] in up && s[i] in after && after[s[i]] == up[s[i]]
    ensures Holders(after, s) == Holders(up, s)
  {
  }

  lemma HoldersPushed(up: map<Addr, Addr>, h: Addr, s: seq<Addr>)
    requires h in up && forall i :: 0 <= i < |s| ==> s[i] in up
    ensures (forall i :: 0 <= i < |[h] + s| ==> ([h] + s)[i] in up)
      && multiset(Holders(up, [h] + s)) == multiset{up[h]} + multiset(Holders(up, s))
  {
    assert Holders(up, [h] + s) == [up[h]] + Holders(up, s);
  }

  /** The position of the newest handle in `s` that hangs off `q`; the length of `s` if there is none. */
  ghost function NewestHeld(up: map<Addr, Addr>, s: seq<Addr>, q: Addr): (k: nat)
    requires forall i :: 0 <= i < |s| ==> s[i] in up
    ensures k <= |s| && (k < |s| ==> up[s[k]] == q) && forall j :: 0 <= j < k ==> up[s[j]] != q
  {
    if s == [] || up[s[0]] == q then 0 else
      var k := 1 + NewestHeld(up, s[1..], q);
      assert forall j :: 0 < j < k ==> s[j] == s[1..][j - 1];
      k
  }

  /** The handle that `talloc_unreference` gives up, null if there is none. */
  ghost function HandleOf(f: Forest, p: Addr, q: Addr): (h: Addr)
    requires WellFormed(f) && p in f.own.up
    ensures h != NULL ==> h in f.own.up && f.ref.up[h] == p && f.own.up[h] == q
  {
    RefsInUp(f, p);
    var s := f.ref.downs[p];
    var k := NewestHeld(f.own.up, s, q);
    var h := Nth(s, k);
    assert h != NULL ==> h in s;
    h
  }

  /** Reaching goes up in rank, so a lower chunk is not reached. */
  lemma {:induction false} ReachesRank(f: Forest, a: Addr, b: Addr)
    requires WellFormed(f) && a in f.own.up && b in f.own.up && Reaches(f, a, b)
    ensures f.rank[a] <= f.rank[b]
    decreases f.rank[b]
  {
    if a != b {
      if f.own.up[b] != NULL && Reaches(f, a, f.own.up[b]) {
        ReachesRank(f, a, f.own.up[b]);
      } else {
        var h :| h in f.ref.downs[b] && Reaches(f, a, h);
        ReachesRank(f, a, h);
      }
    }
  }

  /** There is a handle to give up exactly when `q` holds a reference; giving it up takes `q` out of the owners once. */
  lemma HandleOfOwners(f: Forest, p: Addr, q: Addr)
    requires WellFormed(f) && p in f.own.up
    ensures var h := HandleOf(f, p, q);
            if h == NULL then Owners(f, p)[q] == if f.own.up[p] == q then 1 else 0
            else
              && WellFormed(DropHandle(f, h)) && p in DropHandle(f, h).own.up
              && Owners(DropHandle(f, h), p) == Owners(f, p) - multiset{q}
              && q in Owners(f, p) && |Owners(f, p)| > 1
  {
    RefsInUp(f, p);
    var s := f.ref.downs[p];
    var k := NewestHeld(f.own.up, s, q);
    var a := Holders(f.own.up, s);
    if k < |s| {
      var h := s[k];
      assert h in s;
      OwnersDropHandle(f, p, k);
      assert a[k] == q;
    } else {
      assert q !in a;
    }
  }

  /** Giving up the newest handle and moving to its holder takes the old owner out of the owners once. */
  lemma PromotedOwners(f: Forest, p: Addr)
    requires WellFormed(f) && p in f.own.up && f.ref.downs[p] != []
    ensures f.ref.downs[p][0] in f.own.up
    ensures var h := f.ref.downs[p][0]; h == HandleOf(f, p, f.own.up[h])
    ensures var q := f.own.up[f.ref.downs[p][0]];
            WellFormed(DropHandle(f, f.ref.downs[p][0]))
            && Owners(f, p) - multiset{q} - multiset{f.own.up[p]} + multiset{q} == Owners(f, p) - multiset{f.own.up[p]}
            && |Owners(f, p)| > 1
  {
    RefsInUp(f, p);
    var s := f.ref.downs[p];
    var h := s[0];
    assert h in s;
    DropHandleWellFormed(f, h);
    var a := Holders(f.own.up, s);
    assert a[0] == f.own.up[h];
    assert a[0] in multiset(a);
  }

  /** The holder of the newest reference can take `p` over without closing a cycle. */
  lemma PromoteFits(f: Forest, p: Addr)
    requires WellFormed(f) && p in f.own.up && f.ref.downs[p] != []
    ensures f.ref.downs[p][0] in f.own.up
    ensures var h := f.ref.downs[p][0];
            var g, q := DropHandle(f, h), f.own.up[h];
            && WellFormed(g) && p in g.own.up && g.ref.up[p] == NULL && g.own.up[p] == f.own.up[p] && q != p
            && (q == NULL || (q in g.own.up && g.ref.up[q] == NULL && !Reaches(g, p, q)))
  {
    var h := f.ref.downs[p][0];
    assert h in f.ref.downs[p];
    HandleApart(f, p, h);
    DropHandleWellFormed(f, h);
    var q := f.own.up[h];
    if q != NULL { OwnerNotHandle(f, h); }
    assert f.ref.up[p] == NULL && (q != NULL ==> q in f.own.up && f.rank[q] < f.rank[p] && q != h);
    hide Consistent, HandlesAreLeaves, RanksOwned, RanksReferred, DropHandle;
    var g := DropHandle(f, h);
    if q != NULL && Reaches(g, p, q) { ReachesRank(g, p, q); }
  }

  lemma OwnersAlone(f: Forest, p: Addr)
    requires WellFormed(f) && p in f.own.up && f.ref.downs[p] == []
    ensures Owners(f, p) == multiset{f.own.up[p]}
  {
  }
}
