/**
 What becomes of the datafiles of a file that is claimed while pass 2 walks an orphaned sub-tree: from the claim to the
 end of the run.
 */
module FsckWalkRescue {
  import opened Wrappers
  import opened HandleLists
  import opened FsckModel
  import opened FsckPasses
  import opened FsckFrame
  import opened FsckLinks
  import opened FsckIntact
  import opened FsckOwners
  import opened FsckTurns
  import opened FsckOwnersRun
  import opened FsckCycles
  import opened FsckOrder
  import opened FsckVisits

  // ---------- the two fates of a datafile ----------

  /** `m` is a file and `x` a datafile object. */
  predicate Pair(base: Fs, m: Handle, x: Handle) {
    m in base && base[m].Metafile? && x in base && base[x].Datafile?
  }

  /** The datafile is a part of no other object. */
  ghost predicate Sole(base: Fs, m: Handle, x: Handle) {
    Pair(base, m, x) && forall k :: k in base && k != m ==> x !in Parts(base[k])
  }

  /** The file will not be claimed again, and the datafile is still listed if it is there at all. */
  ghost predicate Lost(st: State, m: Handle, x: Handle) {
    st.halted || (!Listed(st, m) && (x in st.fs ==> Listed(st, x)))
  }

  /** The datafile is there, and off the lists. */
  ghost predicate Held(st: State, x: Handle) {
    x in st.fs && !Listed(st, x)
  }

  /** No file kept in between has `x` as a datafile. */
  ghost predicate Spared(base: Fs, st: State, r: State, x: Handle) {
    forall k :: k in r.kept - st.kept ==> x !in DatafilesOf(base, k)
  }

  /** Whichever fate it is, it stays the same; and what is held is given to no other file. */
  ghost predicate Carries(o: Options, base: Fs, st: State, r: State, m: Handle, x: Handle) {
    && (o.destructive && Sole(base, m, x) && Lost(st, m, x) ==> Lost(r, m, x))
    && (Held(st, x) ==> Held(r, x) && Spared(base, st, r, x))
    && st.kept <= r.kept
  }

  lemma CarriesTrans(o: Options, base: Fs, a: State, b: State, c: State, m: Handle, x: Handle)
    requires Carries(o, base, a, b, m, x) && Carries(o, base, b, c, m, x)
    ensures Carries(o, base, a, c, m, x)
  {
    forall k | Held(a, x) && k in c.kept - a.kept ensures x !in DatafilesOf(base, k) {
      assert k in b.kept - a.kept || k in c.kept - b.kept;
    }
  }

  lemma LostShrinks(st: State, r: State, m: Handle, x: Handle)
    requires Lost(st, m, x) && !st.halted && Smaller(st, r) && (x in r.fs && Listed(st, x) ==> Listed(r, x))
    ensures Lost(r, m, x)
  {
    SmallerLeft(st, r);
  }

  // ---------- a lost datafile stays lost ----------

  lemma {:induction false} DescendLost(o: Options, base: Fs, st: State, dir: Handle, m: Handle, x: Handle)
    requires Sound(st) && SameParts(base, st.fs) && Sole(base, m, x) && o.destructive && Lost(st, m, x)
    ensures Lost(Descend(o, st, dir), m, x)
    decreases Left(st.main, st.alt), 2, 0
  {
    if !st.halted { WalkLost(o, base, st.(walked := st.walked + [dir]), dir, Entries(st.fs, dir), m, x); }
  }

  lemma {:induction false} WalkLost(o: Options, base: Fs, st: State, dir: Handle, es: seq<Dirent>, m: Handle, x: Handle)
    requires Sound(st) && SameParts(base, st.fs) && Sole(base, m, x) && o.destructive && Lost(st, m, x)
    ensures Lost(WalkEntries(o, st, dir, es), m, x)
    decreases Left(st.main, st.alt), 1, |es|
  {
    if !st.halted && es != [] {
      var s := Visit(o, st, dir, es[0]);
      VisitLost(o, base, st, dir, es[0], m, x);
      SmallerLeft(st, s);
      WalkLost(o, base, s, dir, es[1..], m, x);
    }
  }

  lemma {:induction false} VisitLost(o: Options, base: Fs, st: State, dir: Handle, e: Dirent, m: Handle, x: Handle)
    requires Sound(st) && SameParts(base, st.fs) && Sole(base, m, x) && o.destructive && Lost(st, m, x) && !st.halted
    ensures Lost(Visit(o, st, dir, e), m, x)
    decreases Left(st.main, st.alt), 0, 1
  {
    var h := e.handle;
    var r := Visit(o, st, dir, e);
    if x in st.fs { assert Kin(base[x], st.fs[x]); }
    if h in st.fs { assert Kin(base[h], st.fs[h]); }
    if !Listed(st, h) || x !in st.fs {
      LostShrinks(st, r, m, x);
    } else if GetAttr(st.fs, h).None? {
      VisitUnreadable(o, st, dir, e);
      FinishKeeps(st, RemoveDirent(o, st, dir, e.name), h, x);
      LostShrinks(st, r, m, x);
    } else if st.fs[h].Metafile? {
      VisitFile(o, st, dir, e);
      FileLost(o, st, r, dir, e, m, x);
    } else if st.fs[h].Directory? {
      DirectoryLost(o, base, st, r, dir, e, m, x);
    } else {
      VisitOther(o, st, dir, e);
      OtherLost(o, st, r, dir, e, m, x);
    }
  }

  lemma FileLost(o: Options, st: State, r: State, dir: Handle, e: Dirent, m: Handle, x: Handle)
    requires Sound(st) && Lost(st, m, x) && !st.halted && x in st.fs && Listed(st, e.handle)
    requires e.handle in st.fs && st.fs[e.handle].Metafile? && x != e.handle && x !in st.fs[e.handle].dfiles
    requires var j := FileOutcome(o, st, ClaimAll(st.main, st.alt, st.fs[e.handle].dfiles), dir, e);
             Smaller(st, j) && r == Finish(st, j, e.handle) && Smaller(st, r)
    ensures Lost(r, m, x)
  {
    var c := ClaimAll(st.main, st.alt, st.fs[e.handle].dfiles);
    var j := FileOutcome(o, st, c, dir, e);
    ClaimTakesOnly(st, st.fs[e.handle].dfiles, x);
    if c.Claim? {
      assert j.main == c.main && j.alt == c.alt;
      FinishKeeps(st, j, e.handle, x);
    }
    LostShrinks(st, r, m, x);
  }

  /** An entry that names the datafile itself: the object is removed. */
  lemma OtherLost(o: Options, st: State, r: State, dir: Handle, e: Dirent, m: Handle, x: Handle)
    requires Sound(st) && Lost(st, m, x) && !st.halted && x in st.fs && st.fs[x].Datafile? && o.destructive
    requires Listed(st, e.handle) && e.handle in st.fs
    requires var j := if st.fs[e.handle].Symlink? then Keep(st, dir, e) else Discard(o, st, dir, e);
             Smaller(st, j) && r == Finish(st, j, e.handle) && Smaller(st, r)
    ensures Lost(r, m, x)
  {
    var j := if st.fs[e.handle].Symlink? then Keep(st, dir, e) else Discard(o, st, dir, e);
    if x == e.handle {
      DiscardRemoves(o, st, dir, e);
    } else {
      FinishKeeps(st, j, e.handle, x);
    }
    if !r.halted { LostShrinks(st, r, m, x); }
  }

  lemma {:induction false} DirectoryLost(o: Options, base: Fs, st: State, r: State, dir: Handle, e: Dirent, m: Handle, x: Handle)
    requires Sound(st) && SameParts(base, st.fs) && Sole(base, m, x) && o.destructive && Lost(st, m, x) && !st.halted
    requires x in st.fs && Listed(st, e.handle) && e.handle in st.fs && st.fs[e.handle].Directory? && x != e.handle
    requires x !in Parts(st.fs[e.handle]) && r == Visit(o, st, dir, e)
    ensures Lost(r, m, x)
    decreases Left(st.main, st.alt), 0, 0
  {
    var h := e.handle;
    VisitDirectory(o, st, dir, e);
    var c := MatchDirdata(st.main, st.alt, st.fs[h].dirdata);
    var s := AfterClaim(st, c);
    if st.fs[h].dirdata.Some? { ClaimTakesOnly(st, st.fs[h].dirdata.value, x); }
    LostShrinks(st, s, m, x);
    if c.Claim? && c.complete && In(st.main, h) {
      var w := Descend(o, s, h);
      DescendLost(o, base, s, h, m, x);
      FinishLost(st, Keep(w, dir, e), r, h, m, x);
    } else {
      var j := if c.Claim? && !c.complete then Discard(o, s, dir, e) else if c.Claim? then Keep(s, dir, e) else s;
      assert r == Finish(st, j, h);
      assert j.main == s.main && j.alt == s.alt;
      if !j.halted { FinishKeeps(st, j, h, x); LostShrinks(st, r, m, x); }
    }
  }

  lemma FinishLost(st: State, j: State, r: State, h: Handle, m: Handle, x: Handle)
    requires Sound(st) && Listed(st, h) && Smaller(st, j) && x != h && Lost(j, m, x) && r == Finish(st, j, h)
    ensures Lost(r, m, x)
  {
    if !j.halted {
      FinishShrinks(st, j, h);
      if Listed(j, x) { FinishKeeps(st, j, h, x); }
      LostShrinks(j, r, m, x);
    }
  }

  // ---------- stretches of pass 2 ----------

  /** What claims rely on, with no file followed. */
  ghost predicate Own(base: Fs, st: State, home: Handle -> nat) {
    OwnPre(base, st, {}, {}, home)
  }

  /** A stretch that only takes handles off the lists. */
  lemma ShrinkCarries(o: Options, base: Fs, st: State, r: State, m: Handle, x: Handle)
    requires Smaller(st, r) && OnlyListedGone(st, r) && NewFromLists(base, st, r) && st.kept <= r.kept
    requires o.destructive && Sole(base, m, x) && Lost(st, m, x) ==> Lost(r, m, x)
    ensures Carries(o, base, st, r, m, x)
  {
    SmallerLeft(st, r);
  }

  lemma DescendCarries(o: Options, base: Fs, st: State, dir: Handle, m: Handle, x: Handle, home: Handle -> nat)
    requires Own(base, st, home) && Pair(base, m, x) && !st.halted
    ensures Carries(o, base, st, Descend(o, st, dir), m, x) && Own(base, Descend(o, st, dir), home)
  {
    DescendOwn(o, base, st, dir, {}, {}, home);
    if o.destructive && Sole(base, m, x) && Lost(st, m, x) { DescendLost(o, base, st, dir, m, x); }
    ShrinkCarries(o, base, st, Descend(o, st, dir), m, x);
  }

  lemma WalkCarries(o: Options, base: Fs, st: State, dir: Handle, es: seq<Dirent>, m: Handle, x: Handle, home: Handle -> nat)
    requires Own(base, st, home) && Pair(base, m, x)
    ensures Carries(o, base, st, WalkEntries(o, st, dir, es), m, x)
  {
    WalkOwned(o, base, st, dir, es, {}, {}, home);
    WalkFramed(o, st.fs, st, dir, es);
    if o.destructive && Sole(base, m, x) && Lost(st, m, x) { WalkLost(o, base, st, dir, es, m, x); }
    ShrinkCarries(o, base, st, WalkEntries(o, st, dir, es), m, x);
  }

  lemma VisitOwn(o: Options, base: Fs, st: State, dir: Handle, e: Dirent, home: Handle -> nat)
    requires Own(base, st, home) && !st.halted
    ensures Own(base, Visit(o, st, dir, e), home)
  {
    VisitOwned(o, base, st, dir, e, {}, {}, home);
    VisitBacked(o, st, dir, e);
    OwnPreShrinks(base, st, Visit(o, st, dir, e), {}, {}, home);
  }

  /** A directory that was popped and walked is put aside. */
  lemma AsideCarries(o: Options, base: Fs, w: State, h: Handle, i: nat, m: Handle, x: Handle)
    requires w.alt.Some? && i < |w.alt.value| && h != m && h != x
    ensures Carries(o, base, w, PutAside(w, h, i), m, x)
  {
    if !w.halted {
      AsideListed(w, h, i, m);
      AsideListed(w, h, i, x);
    }
  }

  lemma SortOutCarries(o: Options, base: Fs, st: State, i: nat, m: Handle, x: Handle, home: Handle -> nat)
    requires Own(base, st, home) && Pair(base, m, x) && st.alt.Some? && i < |st.main| && st.main[i] != [] && !st.halted
    ensures var s := st.(main := PopAt(st.main, i));
            Sound(s) && Carries(o, base, st, SortOut(o, s, Top(st.main, i), i), m, x)
  {
    var h := Top(st.main, i);
    var s := st.(main := PopAt(st.main, i));
    PopGone(st, i);
    PopOwn(base, st, i, {}, {}, home);
    var r := SortOut(o, s, h, i);
    SortOutRespects(o, st, i);
    if h in st.fs { assert Kin(base[h], st.fs[h]); }
    var a := GetAttr(s.fs, h);
    if a.Some? && a.value.Directory? {
      var w := Descend(o, s, h);
      DescendCarries(o, base, s, h, m, x, home);
      AsideCarries(o, base, w, h, i, m, x);
      CarriesTrans(o, base, s, w, r, m, x);
    } else if a.None? || a.value.Unknown? {
      assert forall y :: Listed(r, y) <==> Listed(s, y);
      if x in st.fs { assert Kin(base[x], st.fs[x]); }
    } else {
      forall y ensures Listed(r, y) <==> Listed(s, y) || y == h { AsideListed(s, h, i, y); }
    }
  }

  lemma {:induction false} SubTreesCarries(o: Options, base: Fs, st: State, m: Handle, x: Handle, home: Handle -> nat)
    requires Own(base, st, home) && Pair(base, m, x) && st.alt.Some?
    ensures Carries(o, base, st, SubTrees(o, st), m, x)
    decreases Size(st.main)
  {
    var i := PopServer(st.main);
    if !st.halted && i.Some? {
      var s := st.(main := PopAt(st.main, i.value));
      PopGone(st, i.value);
      var t := SortOut(o, s, Top(st.main, i.value), i.value);
      SortOutCarries(o, base, st, i.value, m, x, home);
      SortOutOwn(o, base, st, i.value, {}, {}, home);
      SizeShrunk(s.main, t.main);
      SubTreesCarries(o, base, t, m, x, home);
      CarriesTrans(o, base, st, t, SubTrees(o, t), m, x);
    }
  }

  // ---------- after a visit of pass 2 ----------

  /** What the rest of the walk does after a visit. */
  ghost predicate After(o: Options, base: Fs, st: State, v: State, d: Handle, e: Dirent, r: State,
                        m: Handle, x: Handle, home: Handle -> nat) {
    && Own(base, v, home) && !v.halted && v.alt.Some? == st.alt.Some?
    && Carries(o, base, Visit(o, v, d, e), r, m, x)
  }

  lemma AfterThen(o: Options, base: Fs, st: State, v: State, d: Handle, e: Dirent, r: State, u: State,
                  m: Handle, x: Handle, home: Handle -> nat)
    requires After(o, base, st, v, d, e, r, m, x, home) && Carries(o, base, r, u, m, x)
    ensures After(o, base, st, v, d, e, u, m, x, home)
  {
    CarriesTrans(o, base, Visit(o, v, d, e), r, u, m, x);
  }

  lemma {:induction false} DescendAfter(o: Options, base: Fs, st: State, dir: Handle, v: State, d: Handle, e: Dirent,
                                        m: Handle, x: Handle, home: Handle -> nat)
    requires Own(base, st, home) && Pair(base, m, x) && InDescend(o, st, dir, v, d, e)
    ensures After(o, base, st, v, d, e, Descend(o, st, dir), m, x, home)
    decreases Left(st.main, st.alt), 2, 0
  {
    var s := st.(walked := st.walked + [dir]);
    ListsKept(st.main, st.alt);
    ShrinkOwn(base, st, s, {}, {}, home);
    WalkAfter(o, base, s, dir, Entries(st.fs, dir), v, d, e, m, x, home);
  }

  lemma {:induction false} WalkAfter(o: Options, base: Fs, st: State, dir: Handle, es: seq<Dirent>, v: State, d: Handle, e: Dirent,
                                     m: Handle, x: Handle, home: Handle -> nat)
    requires Own(base, st, home) && Pair(base, m, x) && InWalk(o, st, dir, es, v, d, e)
    ensures After(o, base, st, v, d, e, WalkEntries(o, st, dir, es), m, x, home)
    decreases Left(st.main, st.alt), 1, |es|
  {
    var s := Visit(o, st, dir, es[0]);
    VisitOwn(o, base, st, dir, es[0], home);
    SmallerLeft(st, s);
    if InWalk(o, s, dir, es[1..], v, d, e) {
      WalkAfter(o, base, s, dir, es[1..], v, d, e, m, x, home);
    } else {
      var r := WalkEntries(o, s, dir, es[1..]);
      WalkCarries(o, base, s, dir, es[1..], m, x, home);
      if InVisit(o, st, es[0].handle, v, d, e) {
        InsideAfter(o, base, st, dir, es[0], v, d, e, m, x, home);
        AfterThen(o, base, st, v, d, e, s, r, m, x, home);
      }
    }
  }

  lemma {:induction false} InsideAfter(o: Options, base: Fs, st: State, dir: Handle, f: Dirent, v: State, d: Handle, e: Dirent,
                                       m: Handle, x: Handle, home: Handle -> nat)
    requires Own(base, st, home) && Pair(base, m, x) && !st.halted && InVisit(o, st, f.handle, v, d, e)
    ensures After(o, base, st, v, d, e, Visit(o, st, dir, f), m, x, home)
    decreases Left(st.main, st.alt), 0, 0
  {
    var h := f.handle;
    var c := MatchDirdata(st.main, st.alt, st.fs[h].dirdata);
    var s := AfterClaim(st, c);
    VisitDirectory(o, st, dir, f);
    ClaimOwn(base, st, c, {}, {}, home);
    DescendAfter(o, base, s, h, v, d, e, m, x, home);
    var w := Descend(o, s, h);
    assert Kin(base[h], st.fs[h]);
    FinishCarries(o, base, st, w, Visit(o, st, dir, f), dir, f, m, x);
    AfterThen(o, base, s, v, d, e, w, Visit(o, st, dir, f), m, x, home);
  }

  lemma FinishCarries(o: Options, base: Fs, st: State, w: State, r: State, dir: Handle, f: Dirent, m: Handle, x: Handle)
    requires Sound(st) && Listed(st, f.handle) && Smaller(st, Keep(w, dir, f)) && r == Finish(st, Keep(w, dir, f), f.handle)
    requires x != f.handle
    ensures Carries(o, base, w, r, m, x)
  {
    var k := Keep(w, dir, f);
    assert forall y :: Listed(k, y) <==> Listed(w, y);
    FinishShrinks(st, k, f.handle);
    SmallerLeft(k, r);
    if Lost(w, m, x) { FinishLost(st, k, r, f.handle, m, x); }
  }

  lemma {:induction false} SubTreesAfter(o: Options, base: Fs, st: State, v: State, d: Handle, e: Dirent,
                                         m: Handle, x: Handle, home: Handle -> nat)
    requires Own(base, st, home) && Pair(base, m, x) && st.alt.Some? && InSubTrees(o, st, v, d, e)
    ensures After(o, base, st, v, d, e, SubTrees(o, st), m, x, home)
    decreases Size(st.main)
  {
    var i := PopServer(st.main).value;
    var h := Top(st.main, i);
    var s := st.(main := PopAt(st.main, i));
    PopGone(st, i);
    var t := SortOut(o, s, h, i);
    SortOutOwn(o, base, st, i, {}, {}, home);
    SizeShrunk(s.main, t.main);
    if InSubTrees(o, t, v, d, e) {
      SubTreesAfter(o, base, t, v, d, e, m, x, home);
    } else {
      TurnAfter(o, base, st, s, t, i, v, d, e, m, x, home);
      SubTreesCarries(o, base, t, m, x, home);
      AfterThen(o, base, st, v, d, e, t, SubTrees(o, t), m, x, home);
    }
  }

  lemma TurnAfter(o: Options, base: Fs, st: State, s: State, t: State, i: nat, v: State, d: Handle, e: Dirent,
                  m: Handle, x: Handle, home: Handle -> nat)
    requires Own(base, st, home) && Pair(base, m, x) && st.alt.Some? && i < |st.main| && st.main[i] != [] && !st.halted
    requires s == st.(main := PopAt(st.main, i)) && Sound(s) && t == SortOut(o, s, Top(st.main, i), i)
    requires Top(st.main, i) in st.fs && st.fs[Top(st.main, i)].Directory? && InDescend(o, s, Top(st.main, i), v, d, e)
    ensures After(o, base, st, v, d, e, t, m, x, home)
  {
    var h := Top(st.main, i);
    PopOwn(base, st, i, {}, {}, home);
    DescendAfter(o, base, s, h, v, d, e, m, x, home);
    var w := Descend(o, s, h);
    assert Kin(base[h], st.fs[h]);
    AsideCarries(o, base, w, h, i, m, x);
    AfterThen(o, base, s, v, d, e, w, t, m, x, home);
  }

  // ---------- the claim ----------

  /** The entry names a listed file whose datafiles are listed too, all different, and datafile objects. */
  ghost predicate Claimable(base: Fs, v: State, m: Handle) {
    && Listed(v, m) && m in v.fs && v.fs[m].Metafile? && v.fs[m].dfiles != [] && Distinct(v.fs[m].dfiles)
    && forall x :: x in v.fs[m].dfiles ==> Listed(v, x) && Pair(base, m, x)
  }

  /**
   The visit to a file that finds all its datafiles: each is held or lost from then on, and all are held exactly when
   they are in step.
   */
  lemma ClaimFate(o: Options, base: Fs, v: State, d: Handle, e: Dirent, home: Handle -> nat)
    requires Own(base, v, home) && v.alt.Some? && !v.halted && Claimable(base, v, e.handle)
    ensures var t, hs := Visit(o, v, d, e), v.fs[e.handle].dfiles;
            && e.handle in t.kept
            && (forall x :: x in hs ==> if Listed(t, x) then Lost(t, e.handle, x) else Held(t, x))
            && ((forall x :: x in hs ==> !Listed(t, x)) <==> InStep(v.main, hs, home(hs[|hs| - 1]), home))
  {
    var m := e.handle;
    var hs := v.fs[m].dfiles;
    var t := Visit(o, v, d, e);
    VisitFile(o, v, d, e);
    ClaimIff(v, hs, home);
    var c := ClaimAll(v.main, v.alt, hs);
    var j := FileOutcome(o, v, c, d, e);
    FinishGone(v, j, m);
    assert j.main == c.main && j.alt == c.alt;
    forall x | x in hs ensures Listed(t, x) <==> Listed(AfterClaim(v, c), x) { TakenIff(base, v, j, t, m, x); }
  }

  lemma TakenIff(base: Fs, v: State, j: State, t: State, m: Handle, x: Handle)
    requires Sound(v) && Listed(v, m) && Smaller(v, j) && t == Finish(v, j, m) && Pair(base, m, x)
    ensures Listed(t, x) <==> Listed(j, x)
  {
    FinishShrinks(v, j, m);
    SmallerLeft(j, t);
    if Listed(j, x) { FinishKeeps(v, j, m, x); }
  }
}
