/**
 Which entries and files are left: an entry that passes 1 and 2 come to is there when the run ends exactly when its
 object was whole and listed at that moment.
 */
module FsckFate {
  import opened Wrappers
  import opened HandleLists
  import opened FsckModel
  import opened FsckPasses
  import opened FsckFrame
  import opened FsckLinks
  import opened FsckIntact
  import opened FsckPassOne
  import opened FsckTurns
  import opened FsckRun
  import opened FsckCycles
  import opened FsckOrder
  import opened FsckVisits
  import opened FsckSalvage

  // ---------- entries left in place, through pass 2 ----------

  function AllWalked(st: State): set<Handle> {
    set d | d in st.walked
  }

  lemma TracingAll(base: Fs, st: State, free: set<Handle>, h: Handle)
    requires Tracing(base, st, free)
    ensures Tracing(base, st, AllWalked(st) + {h}) && Tracing(base, st, AllWalked(st))
  {
  }

  lemma SortOutTraced(o: Options, base: Fs, st: State, s: State, h: Handle, i: nat)
    requires Sound(s) && s.alt.Some? && i < |s.main| && !s.halted && Inv(o, s, {}, {})
    requires !Listed(s, h) && h !in s.walked && (forall l :: l in s.links ==> l.target != h)
    requires Named(base) && Tracing(base, s, AllWalked(s))
    ensures var r := SortOut(o, s, h, i);
            !r.halted ==> Tracing(base, r, AllWalked(r))
  {
    var b := GetAttr(s.fs, h);
    var r := SortOut(o, s, h, i);
    if b.Some? && b.value.Directory? {
      var w := Descend(o, s, h);
      OpenInv(o, s, h, {});
      TracingAll(base, s, AllWalked(s), h);
      DescendTraced(o, base, s, h, {h}, AllWalked(s) + {h}, {});
      if !w.halted { TracingAll(base, w, AllWalked(s) + {h}, h); }
    } else if b.None? || b.value.Unknown? {
      SmallerObject(o, s, h);
      SmallerTrans(s.(fs := base), s, r);
    }
  }

  lemma {:induction false} SubTreesTraced(o: Options, base: Fs, st: State)
    requires Sound(st) && st.alt.Some? && !st.halted && Inv(o, st, {}, {})
    requires Named(base) && Tracing(base, st, AllWalked(st))
    ensures var r := SubTrees(o, st);
            !r.halted ==> Tracing(base, r, AllWalked(r))
    decreases Size(st.main)
  {
    var i := PopServer(st.main);
    if i.Some? {
      var t := NextTurn(o, base, st, i.value);
      if !t.halted { SubTreesTraced(o, base, t); }
    }
  }

  /** One turn of pass 2 keeps what the next one relies on. */
  lemma NextTurn(o: Options, base: Fs, st: State, i: nat) returns (t: State)
    requires Sound(st) && st.alt.Some? && !st.halted && Inv(o, st, {}, {}) && i < |st.main| && st.main[i] != []
    requires Named(base) && Tracing(base, st, AllWalked(st))
    ensures var s := st.(main := PopAt(st.main, i));
            && Sound(s) && Inv(o, s, {}, {}) && Tracing(base, s, AllWalked(s)) && !Listed(s, Top(st.main, i))
            && Top(st.main, i) !in st.walked && (forall l :: l in st.links ==> l.target != Top(st.main, i))
            && t == SortOut(o, s, Top(st.main, i), i)
    ensures Sound(t) && t.alt.Some? && Size(t.main) < Size(st.main)
    ensures !t.halted ==> Inv(o, t, {}, {}) && Tracing(base, t, AllWalked(t))
  {
    var h := Top(st.main, i);
    var s := st.(main := PopAt(st.main, i));
    PopGone(st, i);
    PopSound(st, i);
    InvShrinks(o, st, s, {}, {});
    assert h !in st.walked;
    TracingAll(base, s, AllWalked(s), h);
    t := SortOut(o, s, h, i);
    SortOutInv(o, s, h, i);
    SortOutTraced(o, base, st, s, h, i);
    SortOutSound(o, s, h, i);
    SizeShrunk(s.main, t.main);
  }

  // ---------- what pass 2 does with an orphan ----------

  /**
   One turn of pass 2, in a destructive run: an object that cannot be read or has no known type is removed, a directory
   is walked and put aside, and everything else is put aside as it is.
   */
  lemma SortOutTurn(o: Options, s: State, h: Handle, i: nat, x: Handle)
    requires Sound(s) && s.alt.Some? && i < |s.main| && !s.halted && o.destructive
    ensures var t := SortOut(o, s, h, i);
            var known := GetAttr(s.fs, h).Some? && !s.fs[h].Unknown?;
            && (!known ==> t.alt == s.alt && t.main == s.main && (!t.halted ==> t.fs == s.fs - {h})
                           && (Obliging(o) && h in s.fs ==> !t.halted))
            && (known && s.fs[h].Directory? ==> s.walked + [h] <= t.walked && (!t.halted ==> In(t.alt.value, h)))
            && (known && !s.fs[h].Directory? ==>
                  && t.fs == s.fs && t.log == s.log && t.main == s.main && t.walked == s.walked && !t.halted
                  && (In(t.alt.value, x) <==> In(s.alt.value, x) || x == h))
  {
    var b := GetAttr(s.fs, h);
    if b.Some? && b.value.Directory? {
      var w := Descend(o, s, h);
      WalkedFirst(o, s, h);
      if !w.halted { AddIn(w.alt.value, h, i, h); }
    } else if b.Some? && !b.value.Unknown? {
      AddIn(s.alt.value, h, i, x);
    } else {
      ObjectWorks(o, s, h);
    }
  }

  /** Orphans are readable objects of known types, and every orphaned directory was walked. */
  ghost predicate AsideWalked(st: State) {
    st.alt.Some? && forall x :: In(st.alt.value, x) && x in st.fs ==> SortedOut(st, x)
  }

  predicate SortedOut(st: State, x: Handle)
    requires x in st.fs
  {
    !st.fs[x].Unreadable? && !st.fs[x].Unknown? && (st.fs[x].Directory? ==> x in st.walked)
  }

  lemma AsideStays(st: State, r: State)
    requires AsideWalked(st) && Smaller(st, r) && st.walked <= r.walked
    ensures AsideWalked(r)
  {
    forall x | In(r.alt.value, x) && x in r.fs ensures SortedOut(r, x) {
      InShrunk(st.alt.value, r.alt.value, x);
      assert Trimmed(st.fs[x], r.fs[x]) && SortedOut(st, x);
    }
  }

  lemma SortOutAside(o: Options, s: State, h: Handle, i: nat)
    requires Sound(s) && s.alt.Some? && i < |s.main| && !s.halted && AsideWalked(s)
    ensures AsideWalked(SortOut(o, s, h, i))
  {
    var b := GetAttr(s.fs, h);
    var t := SortOut(o, s, h, i);
    if b.Some? && b.value.Directory? {
      var w := Descend(o, s, h);
      WalkedFirst(o, s, h);
      DescendFramed(o, s.fs, s, h);
      AsideStays(s, w);
      assert w.walked[|s.walked|] == h;
      if h in w.fs { assert Trimmed(s.fs[h], w.fs[h]); }
      if !w.halted { forall x ensures In(t.alt.value, x) <==> In(w.alt.value, x) || x == h { AddIn(w.alt.value, h, i, x); } }
    } else if b.Some? && !b.value.Unknown? {
      forall x ensures In(t.alt.value, x) <==> In(s.alt.value, x) || x == h { AddIn(s.alt.value, h, i, x); }
    } else {
      SmallerObject(o, s, h);
      AsideStays(s, t);
    }
  }

  lemma {:induction false} SubTreesAside(o: Options, st: State)
    requires Sound(st) && AsideWalked(st)
    ensures AsideWalked(SubTrees(o, st))
    decreases Size(st.main)
  {
    var i := PopServer(st.main);
    if !st.halted && i.Some? {
      var h := Top(st.main, i.value);
      var s := st.(main := PopAt(st.main, i.value));
      PopSound(st, i.value);
      forall x | In(s.alt.value, x) && x in s.fs ensures SortedOut(s, x) { assert SortedOut(st, x); }
      SortOutAside(o, s, h, i.value);
      var t := SortOut(o, s, h, i.value);
      SortOutSound(o, s, h, i.value);
      SizeShrunk(s.main, t.main);
      SubTreesAside(o, t);
    }
  }

  /** What pass 2 returns: readable objects of known types, and no directory that it did not walk. */
  lemma OrphansWalked(o: Options, s1: State)
    requires Sound(s1)
    ensures var s2 := PassTwo(o, s1);
            forall x :: In(s2.alt.value, x) && x in s2.fs ==> SortedOut(s2, x)
  {
    FreshEmpty(s1.main);
    var s := s1.(alt := Some(Fresh(s1.main)));
    assert AsideWalked(s);
    SubTreesAside(o, s);
  }

  // ---------- every entry of a walked directory is visited ----------

  /** What a walk relies on. */
  ghost predicate Walkable(o: Options, base: Fs, st: State, open: set<Handle>, free: set<Handle>, pending: set<Link>) {
    Sound(st) && Inv(o, st, open, pending) && !st.halted && Named(base) && Tracing(base, st, free)
  }

  lemma {:induction false} DescendVisits(o: Options, base: Fs, st: State, dir: Handle, open: set<Handle>, free: set<Handle>,
                                         pending: set<Link>, d: Handle, e: Dirent) returns (v: State)
    requires Walkable(o, base, st, open, free, pending) && dir in open && dir in free && dir !in st.walked && dir in st.fs
    requires var r := Descend(o, st, dir); !r.halted && d in r.walked && d !in st.walked && e in Entries(base, d)
    ensures InDescend(o, st, dir, v, d, e)
    decreases Left(st.main, st.alt), 2, 0
  {
    var s := st.(walked := st.walked + [dir]);
    var es := Entries(st.fs, dir);
    EnterWalk(o, st, dir, open, pending);
    EnterTraced(base, st, s, dir, free);
    assert st.fs[dir] == base[dir];
    v := WalkVisits(o, base, s, dir, es, open, free, pending, d, e);
  }

  lemma {:induction false} WalkVisits(o: Options, base: Fs, st: State, dir: Handle, es: seq<Dirent>, open: set<Handle>,
                                      free: set<Handle>, pending: set<Link>, d: Handle, e: Dirent) returns (v: State)
    requires Walkable(o, base, st, open, free, pending + LinksOf(dir, es)) && dir in st.walked && AllAwait(st, dir, es)
    requires !WalkEntries(o, st, dir, es).halted
    requires (d == dir && e in es) || (d in WalkEntries(o, st, dir, es).walked && d !in st.walked && e in Entries(base, d))
    ensures InWalk(o, st, dir, es, v, d, e)
    decreases Left(st.main, st.alt), 1, |es|
  {
    var f := es[0];
    var rest := pending + LinksOf(dir, es[1..]);
    LinksHead(dir, es, pending);
    var s := Visit(o, st, dir, f);
    SmallerLeft(st, s);
    if d == dir && e == f {
      v := st;
    } else if d in s.walked && d !in st.walked {
      assert Awaits(st, dir, f);
      v := InsideVisits(o, base, st, dir, f, open, free, rest, d, e);
    } else {
      assert f in es && Awaits(st, dir, f);
      VisitTraced(o, base, st, dir, f, open, free, rest);
      VisitInv(o, st, dir, f, open, rest);
      StillAwaits(base, st, s, dir, es, free);
      v := WalkVisits(o, base, s, dir, es[1..], open, free, pending, d, e);
    }
  }

  lemma {:induction false} InsideVisits(o: Options, base: Fs, st: State, dir: Handle, f: Dirent, open: set<Handle>,
                                        free: set<Handle>, pending: set<Link>, d: Handle, e: Dirent) returns (v: State)
    requires Walkable(o, base, st, open, free, pending + {Link(dir, f.name, f.handle)}) && !Visit(o, st, dir, f).halted
    requires d in Visit(o, st, dir, f).walked && d !in st.walked && e in Entries(base, d)
    ensures InVisit(o, st, f.handle, v, d, e)
    decreases Left(st.main, st.alt), 0, 0
  {
    var h := f.handle;
    if !Entered(st, h) { NotEntered(o, st, dir, f); }
    VisitDirectory(o, st, dir, f);
    var s := AfterClaim(st, MatchDirdata(st.main, st.alt, st.fs[h].dirdata));
    var l := Link(dir, f.name, h);
    EnterOpen(o, st, s, h, open, pending + {l});
    OpenTraced(base, st, s, h, free);
    v := DescendVisits(o, base, s, h, open + {h}, free + {h}, pending + {l}, d, e);
  }

  /** How pass 1 begins when it does not stop at the root. */
  lemma RootEntered(o: Options, st: State, root: Handle) returns (t: State)
    requires Sound(st) && Unique(st) && st.alt.None? && !st.halted && st.links == {} && st.walked == []
    requires !PassOne(o, st, root).halted
    ensures root in st.fs && st.fs[root].Directory? && In(st.main, root)
    ensures var s := st.(main := RemoveAt(st.main, root, Find(st.main, root).value));
            && Sound(s)
            && var c := MatchDirdata(s.main, s.alt, st.fs[root].dirdata); c.Claim? && c.complete && t == AfterClaim(s, c)
    ensures Sound(t) && Unique(t) && !Listed(t, root) && !t.halted && t.fs == st.fs && t.links == {} && t.walked == []
    ensures PassOne(o, st, root) == Descend(o, t, root)
  {
    var s := st.(main := RemoveAt(st.main, root, Find(st.main, root).value));
    RootLeaves(st, s, root);
    RootSteps(o, st, root);
    t := RootClaims(s, root);
    SmallerLeft(s, t);
  }

  lemma StartWalkable(o: Options, st: State, root: Handle)
    requires Sound(st) && Unique(st) && !st.halted && st.links == {} && st.walked == [] && Named(st.fs) && !Listed(st, root)
    requires root in st.fs && st.fs[root].Directory?
    ensures Walkable(o, st.fs, st, {root}, {root}, {})
  {
    InitialInv(o, st);
    OpenInv(o, st, root, {});
  }

  lemma PassOneVisits(o: Options, st: State, root: Handle, d: Handle, e: Dirent) returns (v: State)
    requires Sound(st) && Unique(st) && st.alt.None? && !st.halted && st.links == {} && st.walked == []
    requires Named(st.fs) && !PassOne(o, st, root).halted && d in PassOne(o, st, root).walked && e in Entries(st.fs, d)
    ensures InPassOne(o, st, root, v, d, e)
  {
    var t := RootEntered(o, st, root);
    StartWalkable(o, t, root);
    v := DescendVisits(o, st.fs, t, root, {root}, {root}, {}, d, e);
  }

  lemma {:induction false} SubTreesVisits(o: Options, base: Fs, st: State, d: Handle, e: Dirent) returns (v: State)
    requires Sound(st) && st.alt.Some? && !st.halted && Inv(o, st, {}, {})
    requires Named(base) && Tracing(base, st, AllWalked(st)) && !SubTrees(o, st).halted
    requires d in SubTrees(o, st).walked && d !in st.walked && e in Entries(base, d)
    ensures InSubTrees(o, st, v, d, e)
    decreases Size(st.main)
  {
    var i := PopServer(st.main).value;
    var t := NextTurn(o, base, st, i);
    if d in t.walked {
      v := TurnVisits(o, base, st.(main := PopAt(st.main, i)), Top(st.main, i), i, d, e);
    } else {
      v := SubTreesVisits(o, base, t, d, e);
    }
  }

  lemma TurnVisits(o: Options, base: Fs, s: State, h: Handle, i: nat, d: Handle, e: Dirent) returns (v: State)
    requires Sound(s) && s.alt.Some? && i < |s.main| && !s.halted && Inv(o, s, {}, {}) && Named(base)
    requires Tracing(base, s, AllWalked(s)) && !Listed(s, h) && h !in s.walked && (forall l :: l in s.links ==> l.target != h)
    requires var t := SortOut(o, s, h, i); !t.halted && d in t.walked && d !in s.walked && e in Entries(base, d)
    ensures h in s.fs && s.fs[h].Directory? && InDescend(o, s, h, v, d, e)
  {
    OpenInv(o, s, h, {});
    TracingAll(base, s, AllWalked(s), h);
    v := DescendVisits(o, base, s, h, {h}, AllWalked(s) + {h}, {}, d, e);
  }

  // ---------- what is left after passes 1 and 2 ----------

  /** An entry of `d` that was visited in state `v`, and its object, in a later state `r`. */
  ghost predicate Decided(v: State, r: State, d: Handle, e: Dirent) {
    && (d in r.fs ==> (e in Entries(r.fs, d) <==> Stays(v, e.handle)))
    && (Listed(v, e.handle) && e.handle in v.fs && !v.fs[e.handle].Unreadable? && !v.fs[e.handle].Directory? ==>
          (e.handle in r.fs <==> Stays(v, e.handle)))
  }

  /** `x` is the entry's handle if that was listed. */
  lemma LaterDecided(o: Options, v: State, r: State, d: Handle, e: Dirent, x: Handle, free: set<Handle>)
    requires Sound(v) && Unique(v) && !v.halted && o.destructive && (Listed(v, e.handle) ==> x == e.handle)
    requires Lasts(Visit(o, v, d, e), r, x) && !r.halted && Traced(r, free)
    ensures Decided(v, r, d, e) && (Listed(v, e.handle) ==> !Listed(r, e.handle))
  {
    var s := Visit(o, v, d, e);
    VisitSettles(o, v, d, e);
    if Stays(v, e.handle) {
      assert Link(d, e.name, e.handle) in r.links;
    } else if d in r.fs {
      assert Trimmed(s.fs[d], r.fs[d]);
      assert e !in Entries(s.fs, d);
    }
  }

  /**
   After pass 1: an entry it came to is there exactly when its handle was listed and its object was a file or directory
   with all its parts listed, or a symlink; a listed file is there exactly when its entry is.
   */
  lemma PassOneDecides(o: Options, st: State, root: Handle, v: State, d: Handle, e: Dirent)
    requires Sound(st) && Unique(st) && st.alt.None? && !st.halted && st.links == {} && st.walked == []
    requires o.destructive && Named(st.fs) && !PassOne(o, st, root).halted && InPassOne(o, st, root, v, d, e)
    ensures Decided(v, PassOne(o, st, root), d, e)
  {
    PassOneSeen(o, st, root, v, d, e, e.handle);
    PassOneTraced(o, st, root);
    LaterDecided(o, v, PassOne(o, st, root), d, e, e.handle, {root});
  }

  lemma PassOneSeen(o: Options, st: State, root: Handle, v: State, d: Handle, e: Dirent, x: Handle)
    requires Sound(st) && Unique(st) && st.alt.None? && InPassOne(o, st, root, v, d, e)
    ensures Sound(v) && Unique(v) && !v.halted && Lasts(Visit(o, v, d, e), PassOne(o, st, root), x)
  {
    var s := st.(main := RemoveAt(st.main, root, Find(st.main, root).value));
    RootLeaves(st, s, root);
    RootSteps(o, st, root);
    var t := RootClaims(s, root);
    DescendSeen(o, t, root, v, d, e, x);
  }

  // ---------- to the end of the run ----------

  /** Pass 1 or pass 2 came to entry `e` of directory `d` in state `v`. */
  ghost predicate Came(o: Options, st: State, root: Handle, v: State, d: Handle, e: Dirent)
    requires Sound(st) && st.alt.None?
  {
    InPassOne(o, st, root, v, d, e) || InPassTwo(o, PassOne(o, st, root), v, d, e)
  }

  lemma TwoPassesSeen(o: Options, st: State, root: Handle, v: State, d: Handle, e: Dirent, x: Handle)
    requires Start(st) && !PassOne(o, st, root).halted && Came(o, st, root, v, d, e) && (Listed(v, x) || x == NULL_HANDLE)
    ensures Sound(v) && Unique(v) && !v.halted && Lasts(Visit(o, v, d, e), PassTwo(o, PassOne(o, st, root)), x)
  {
    var s1 := PassOne(o, st, root);
    PassOneFrame(o, st, root);
    SecondStart(o, s1);
    var s := s1.(alt := Some(Fresh(s1.main)));
    if InPassOne(o, st, root, v, d, e) {
      PassOneSeen(o, st, root, v, d, e, x);
      PassTwoLasts(o, s1, x);
      LastsTrans(Visit(o, v, d, e), s1, PassTwo(o, s1), x);
    } else {
      SubTreesSeen(o, s, v, d, e, x);
    }
  }

  lemma PassTwoLasts(o: Options, s1: State, x: Handle)
    requires Sound(s1) && Unique(s1) && s1.alt.None?
    ensures Lasts(s1, PassTwo(o, s1), x)
  {
    SecondStart(o, s1);
    var s := s1.(alt := Some(Fresh(s1.main)));
    assert Lasts(s1, s, x);
    SubTreesLasts(o, s, x);
    LastsTrans(s1, s, PassTwo(o, s1), x);
  }

  lemma TwoPassesTraced(o: Options, st: State, root: Handle)
    requires Start(st) && Named(st.fs) && !PassOne(o, st, root).halted && !PassTwo(o, PassOne(o, st, root)).halted
    ensures var s1 := PassOne(o, st, root);
            var s := s1.(alt := Some(Fresh(s1.main)));
            && Sound(s) && Inv(o, s, {}, {}) && Tracing(st.fs, s, AllWalked(s))
            && Traced(PassTwo(o, s1), AllWalked(PassTwo(o, s1)))
  {
    var s1 := PassOne(o, st, root);
    PassOneFrame(o, st, root);
    PassOneInv(o, st, root);
    PassOneTraced(o, st, root);
    PassTwoTraced(o, st.fs, s1, s1.(alt := Some(Fresh(s1.main))), {root}, root);
  }

  lemma PassTwoTraced(o: Options, base: Fs, s1: State, s: State, free: set<Handle>, root: Handle)
    requires Sound(s1) && Inv(o, s1, {}, {}) && s1.alt.None? && !s1.halted && Named(base) && Tracing(base, s1, free)
    requires s == s1.(alt := Some(Fresh(s1.main))) && !PassTwo(o, s1).halted
    ensures Sound(s) && Inv(o, s, {}, {}) && Tracing(base, s, AllWalked(s))
    ensures Traced(PassTwo(o, s1), AllWalked(PassTwo(o, s1)))
  {
    SecondStart(o, s1);
    TracingAll(base, s1, free, root);
    SubTreesTraced(o, base, s);
  }

  lemma RestDecides(o: Options, v: State, s2: State, t2: State, r: State, laf: Handle, d: Handle, e: Dirent)
    requires Decided(v, s2, d, e) && (Listed(v, e.handle) ==> !Listed(t2, e.handle)) && t2.fs == s2.fs
    requires Steady(t2, r, laf) && Respects(o, t2, r) && (d != laf || Listed(v, e.handle))
    ensures Decided(v, r, d, e)
  {
  }

  /**
   When the run ends: an entry that pass 1 or pass 2 came to is there, if its directory is, exactly when its handle was
   listed at the visit and its object was a file or directory with all its parts listed, or a symlink. A file that was
   listed is there exactly when all its datafiles were. (Pass 3 makes entries in lost+found again for directories whose
   entries were removed there.)
   */
  lemma RunDecides(o: Options, st: State, root: Handle, laf: Handle, v: State, d: Handle, e: Dirent)
    requires Start(st) && o.destructive && Named(st.fs)
    requires !PassOne(o, st, root).halted && !PassTwo(o, PassOne(o, st, root)).halted
    requires Came(o, st, root, v, d, e) && (d != laf || Listed(v, e.handle))
    ensures Decided(v, Run(o, st, root, laf), d, e)
  {
    var s2 := PassTwo(o, PassOne(o, st, root));
    var x := if Listed(v, e.handle) then e.handle else NULL_HANDLE;
    TwoPassesSeen(o, st, root, v, d, e, x);
    TwoPassesTraced(o, st, root);
    LaterDecided(o, v, s2, d, e, x, AllWalked(s2));
    TwoPasses(o, st, root);
    ThirdStage(o, st, root, laf);
    var t2 := NextPass(s2, Some(Fresh(s2.alt.value)));
    NextPassListed(s2, Some(Fresh(s2.alt.value)));
    RestRespects(o, t2, laf);
    RestDecides(o, v, s2, t2, Run(o, st, root, laf), laf, d, e);
  }

  /** Every entry of a directory that was walked was visited, and so decided. */
  lemma EntriesDecided(o: Options, st: State, root: Handle, laf: Handle, d: Handle, e: Dirent) returns (v: State)
    requires Start(st) && o.destructive && Named(st.fs)
    requires !PassOne(o, st, root).halted && !PassTwo(o, PassOne(o, st, root)).halted
    requires d in PassTwo(o, PassOne(o, st, root)).walked && e in Entries(st.fs, d) && d != laf
    ensures Came(o, st, root, v, d, e) && Decided(v, Run(o, st, root, laf), d, e)
  {
    var s1 := PassOne(o, st, root);
    if d in s1.walked {
      v := PassOneVisits(o, st, root, d, e);
    } else {
      TwoPassesTraced(o, st, root);
      v := SubTreesVisits(o, st.fs, s1.(alt := Some(Fresh(s1.main))), d, e);
    }
    RunDecides(o, st, root, laf, v, d, e);
  }
}
