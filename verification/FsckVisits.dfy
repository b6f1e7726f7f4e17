/**
 The visits of a walk: in which state it comes to which entry, what it does with the entry there and then, and what is
 left of that when passes 1 and 2 are over.
 */
module FsckVisits {
  import opened Wrappers
  import opened HandleLists
  import opened FsckModel
  import opened FsckPasses
  import opened FsckFrame
  import opened FsckLinks
  import opened FsckIntact
  import opened FsckPassOne
  import opened FsckTurns
  import opened FsckCycles
  import opened FsckOrder

  // ---------- which visits there are ----------

  /** The walk of `dir` from `st` comes to entry `e` of directory `d` in state `v`. */
  ghost predicate InDescend(o: Options, st: State, dir: Handle, v: State, d: Handle, e: Dirent)
    requires Sound(st)
    decreases Left(st.main, st.alt), 2, 0
  {
    !st.halted && InWalk(o, st.(walked := st.walked + [dir]), dir, Entries(st.fs, dir), v, d, e)
  }

  ghost predicate InWalk(o: Options, st: State, dir: Handle, es: seq<Dirent>, v: State, d: Handle, e: Dirent)
    requires Sound(st)
    decreases Left(st.main, st.alt), 1, |es|
  {
    && !st.halted && es != []
    && (|| (v == st && d == dir && e == es[0])
        || InVisit(o, st, es[0].handle, v, d, e)
        || (SmallerLeft(st, Visit(o, st, dir, es[0])); InWalk(o, Visit(o, st, dir, es[0]), dir, es[1..], v, d, e)))
  }

  /** The same inside the visit to a directory that is entered. */
  ghost predicate InVisit(o: Options, st: State, h: Handle, v: State, d: Handle, e: Dirent)
    requires Sound(st)
    decreases Left(st.main, st.alt), 0, 0
  {
    && Entered(st, h)
    && (MatchSound(st, h); InDescend(o, AfterClaim(st, MatchDirdata(st.main, st.alt, st.fs[h].dirdata)), h, v, d, e))
  }

  /** The loop of find_sub_trees from `st` comes to entry `e` of directory `d` in state `v`. */
  ghost predicate InSubTrees(o: Options, st: State, v: State, d: Handle, e: Dirent)
    requires Sound(st) && st.alt.Some?
    decreases Size(st.main)
  {
    var i := PopServer(st.main);
    && !st.halted && i.Some?
    && var h := Top(st.main, i.value);
       var s := st.(main := PopAt(st.main, i.value));
       PopSound(st, i.value);
       var t := SortOut(o, s, h, i.value);
       SizeShrunk(s.main, t.main);
       SortOutSound(o, s, h, i.value);
       (h in st.fs && st.fs[h].Directory? && InDescend(o, s, h, v, d, e)) || InSubTrees(o, t, v, d, e)
  }

  /** Pass 1 comes to entry `e` of directory `d` in state `v`. */
  ghost predicate InPassOne(o: Options, st: State, root: Handle, v: State, d: Handle, e: Dirent)
    requires Sound(st) && st.alt.None?
  {
    && !st.halted && root in st.fs && st.fs[root].Directory? && In(st.main, root)
    && var s := st.(main := RemoveAt(st.main, root, Find(st.main, root).value));
       RootSteps(o, st, root);
       var c := MatchDirdata(s.main, s.alt, st.fs[root].dirdata);
       c.Claim? && c.complete && InDescend(o, AfterClaim(s, c), root, v, d, e)
  }

  /** Pass 2 comes to entry `e` of directory `d` in state `v`. */
  ghost predicate InPassTwo(o: Options, st: State, v: State, d: Handle, e: Dirent)
    requires Sound(st)
  {
    FreshEmpty(st.main);
    InSubTrees(o, st.(alt := Some(Fresh(st.main))), v, d, e)
  }

  // ---------- after a visit ----------

  /**
   Objects may go, directories may lose entries, and the records grow. If `x` is off the lists it stays off them, and
   stays there if it is there.
   */
  ghost predicate Lasts(a: State, b: State, x: Handle) {
    && FsShrunk(a.fs, b.fs)
    && (!Listed(a, x) ==> !Listed(b, x) && (x in a.fs ==> x in b.fs))
    && a.links <= b.links && a.walked <= b.walked && (a.halted ==> b.halted)
  }

  lemma LastsTrans(a: State, b: State, c: State, x: Handle)
    requires Lasts(a, b, x) && Lasts(b, c, x)
    ensures Lasts(a, c, x)
  {
    forall h | h in c.fs ensures h in a.fs && Trimmed(a.fs[h], c.fs[h]) {
      assert Trimmed(a.fs[h], b.fs[h]) && Trimmed(b.fs[h], c.fs[h]);
    }
  }

  lemma FramedLasts(o: Options, base: Fs, st: State, r: State, x: Handle)
    requires Smaller(st, r) && Framed(o, base, st, r) && (st.halted ==> r.halted)
    ensures Lasts(st, r, x)
  {
    SmallerLeft(st, r);
  }

  lemma WalkLasts(o: Options, st: State, dir: Handle, es: seq<Dirent>, x: Handle)
    requires Sound(st)
    ensures Lasts(st, WalkEntries(o, st, dir, es), x)
  {
    WalkFramed(o, st.fs, st, dir, es);
    FramedLasts(o, st.fs, st, WalkEntries(o, st, dir, es), x);
  }

  lemma VisitLasts(o: Options, st: State, dir: Handle, e: Dirent, x: Handle)
    requires Sound(st) && Unique(st) && !st.halted
    ensures var s := Visit(o, st, dir, e);
            Lasts(st, s, x) && Sound(s) && Unique(s) && Left(s.main, s.alt) <= Left(st.main, st.alt)
  {
    var s := Visit(o, st, dir, e);
    VisitFramed(o, st.fs, st, dir, e);
    FramedLasts(o, st.fs, st, s, x);
    SmallerLeft(st, s);
    UniqueShrinks(st, s);
  }

  /** From `st` the walk came to `v`, and from the visit there it went on to `r`. */
  ghost predicate Seen(o: Options, st: State, v: State, d: Handle, e: Dirent, r: State, x: Handle) {
    && Sound(v) && Unique(v) && !v.halted && v.alt.Some? == st.alt.Some?
    && Lasts(st, v, x) && d in v.walked && Lasts(Visit(o, v, d, e), r, x)
  }

  lemma SeenThen(o: Options, st: State, v: State, d: Handle, e: Dirent, r: State, u: State, x: Handle)
    requires Seen(o, st, v, d, e, r, x) && Lasts(r, u, x)
    ensures Seen(o, st, v, d, e, u, x)
  {
    LastsTrans(Visit(o, v, d, e), r, u, x);
  }

  lemma SeenFrom(o: Options, st: State, s: State, v: State, d: Handle, e: Dirent, r: State, x: Handle)
    requires Lasts(st, s, x) && st.alt.Some? == s.alt.Some? && Seen(o, s, v, d, e, r, x)
    ensures Seen(o, st, v, d, e, r, x)
  {
    LastsTrans(st, s, v, x);
  }

  lemma {:induction false} DescendSeen(o: Options, st: State, dir: Handle, v: State, d: Handle, e: Dirent, x: Handle)
    requires Sound(st) && Unique(st) && InDescend(o, st, dir, v, d, e)
    ensures Seen(o, st, v, d, e, Descend(o, st, dir), x)
    decreases Left(st.main, st.alt), 2, 0
  {
    var s := st.(walked := st.walked + [dir]);
    assert forall h :: Times(s, h) == Times(st, h);
    assert Lasts(st, s, x);
    WalkSeen(o, s, dir, Entries(st.fs, dir), v, d, e, x);
    SeenFrom(o, st, s, v, d, e, Descend(o, st, dir), x);
  }

  lemma {:induction false} WalkSeen(o: Options, st: State, dir: Handle, es: seq<Dirent>, v: State, d: Handle, e: Dirent, x: Handle)
    requires Sound(st) && Unique(st) && dir in st.walked && InWalk(o, st, dir, es, v, d, e)
    ensures Seen(o, st, v, d, e, WalkEntries(o, st, dir, es), x)
    decreases Left(st.main, st.alt), 1, |es|
  {
    var s := Visit(o, st, dir, es[0]);
    VisitLasts(o, st, dir, es[0], x);
    var r := WalkEntries(o, s, dir, es[1..]);
    if InWalk(o, s, dir, es[1..], v, d, e) {
      WalkSeen(o, s, dir, es[1..], v, d, e, x);
      SeenFrom(o, st, s, v, d, e, r, x);
    } else {
      WalkLasts(o, s, dir, es[1..], x);
      if InVisit(o, st, es[0].handle, v, d, e) {
        InsideSeen(o, st, dir, es[0], v, d, e, x);
        SeenThen(o, st, v, d, e, s, r, x);
      }
    }
  }

  lemma {:induction false} InsideSeen(o: Options, st: State, dir: Handle, f: Dirent, v: State, d: Handle, e: Dirent, x: Handle)
    requires Sound(st) && Unique(st) && !st.halted && InVisit(o, st, f.handle, v, d, e)
    ensures Seen(o, st, v, d, e, Visit(o, st, dir, f), x)
    decreases Left(st.main, st.alt), 0, 0
  {
    var h := f.handle;
    VisitDirectory(o, st, dir, f);
    var s := AfterClaim(st, MatchDirdata(st.main, st.alt, st.fs[h].dirdata));
    SmallerLeft(st, s);
    UniqueShrinks(st, s);
    DescendSeen(o, s, h, v, d, e, x);
    var w := Descend(o, s, h);
    SeenFrom(o, st, s, v, d, e, w, x);
    FinishLasts(st, w, Visit(o, st, dir, f), dir, f, x);
    SeenThen(o, st, v, d, e, w, Visit(o, st, dir, f), x);
  }

  lemma FinishLasts(st: State, w: State, r: State, dir: Handle, f: Dirent, x: Handle)
    requires Sound(st) && Listed(st, f.handle) && Smaller(st, Keep(w, dir, f)) && r == Finish(st, Keep(w, dir, f), f.handle)
    ensures Lasts(w, r, x)
  {
    var k := Keep(w, dir, f);
    assert forall y :: Listed(k, y) <==> Listed(w, y);
    FinishShrinks(st, k, f.handle);
    SmallerLeft(k, r);
  }

  // ---------- the same for the loop of pass 2 ----------

  lemma SortOutLasts(o: Options, st: State, i: nat, x: Handle)
    requires Sound(st) && Unique(st) && st.alt.Some? && i < |st.main| && st.main[i] != [] && !st.halted
    ensures var s := st.(main := PopAt(st.main, i));
            Sound(s) && Lasts(st, SortOut(o, s, Top(st.main, i), i), x)
  {
    var h := Top(st.main, i);
    var s := st.(main := PopAt(st.main, i));
    PopGone(st, i);
    SmallerLeft(st, s);
    var r := SortOut(o, s, h, i);
    SortOutRespects(o, st, i);
    var b := GetAttr(s.fs, h);
    if b.Some? && b.value.Directory? {
      var w := Descend(o, s, h);
      DescendFramed(o, s.fs, s, h);
      SmallerLeft(s, w);
      if !w.halted { AsideListed(w, h, i, x); }
    } else if b.Some? && !b.value.Unknown? {
      AsideListed(s, h, i, x);
    }
  }

  lemma AsideLasts(w: State, h: Handle, i: nat, x: Handle)
    requires w.alt.Some? && i < |w.alt.value| && x != h
    ensures Lasts(w, PutAside(w, h, i), x)
  {
    if !w.halted { AsideListed(w, h, i, x); }
  }

  lemma TurnSeen(o: Options, st: State, s: State, h: Handle, i: nat, w: State, v: State, d: Handle, e: Dirent, x: Handle)
    requires Sound(s) && Unique(s) && s.alt.Some? && i < |s.main| && !Listed(s, h) && h != NULL_HANDLE && st.alt.Some?
    requires w == Descend(o, s, h) && InDescend(o, s, h, v, d, e) && (Listed(v, x) || x == NULL_HANDLE)
    requires Smaller(st, s) && s.fs == st.fs && s.links == st.links && s.walked == st.walked && (st.halted ==> s.halted)
    ensures Seen(o, st, v, d, e, PutAside(w, h, i), x)
  {
    if x != NULL_HANDLE { DescendSeen(o, s, h, v, d, e, h); }
    DescendSeen(o, s, h, v, d, e, x);
    SmallerLeft(st, s);
    SeenFrom(o, st, s, v, d, e, w, x);
    AsideLasts(w, h, i, x);
    SeenThen(o, st, v, d, e, w, PutAside(w, h, i), x);
  }

  lemma HereSeen(o: Options, st: State, s: State, h: Handle, i: nat, t: State, v: State, d: Handle, e: Dirent, x: Handle)
    requires Sound(s) && Unique(s) && s.alt.Some? && i < |s.main| && !Listed(s, h) && h != NULL_HANDLE && st.alt.Some?
    requires h in s.fs && s.fs[h].Directory? && InDescend(o, s, h, v, d, e) && (Listed(v, x) || x == NULL_HANDLE)
    requires Smaller(st, s) && s.fs == st.fs && s.links == st.links && s.walked == st.walked && (st.halted ==> s.halted)
    requires t == SortOut(o, s, h, i)
    ensures Seen(o, st, v, d, e, t, x)
  {
    var w := Descend(o, s, h);
    assert t == PutAside(w, h, i);
    TurnSeen(o, st, s, h, i, w, v, d, e, x);
  }

  lemma {:induction false} SubTreesLasts(o: Options, st: State, x: Handle)
    requires Sound(st) && Unique(st) && st.alt.Some?
    ensures Lasts(st, SubTrees(o, st), x)
    decreases Size(st.main)
  {
    var i := PopServer(st.main);
    if !st.halted && i.Some? {
      var s := st.(main := PopAt(st.main, i.value));
      PopGone(st, i.value);
      var t := SortOut(o, s, Top(st.main, i.value), i.value);
      SortOutLasts(o, st, i.value, x);
      SortOutSound(o, s, Top(st.main, i.value), i.value);
      SortOutUnique(o, s, Top(st.main, i.value), i.value);
      SizeShrunk(s.main, t.main);
      SubTreesLasts(o, t, x);
      LastsTrans(st, t, SubTrees(o, t), x);
    }
  }

  lemma {:induction false} SubTreesSeen(o: Options, st: State, v: State, d: Handle, e: Dirent, x: Handle)
    requires Sound(st) && Unique(st) && st.alt.Some? && InSubTrees(o, st, v, d, e) && (Listed(v, x) || x == NULL_HANDLE)
    ensures Seen(o, st, v, d, e, SubTrees(o, st), x)
    decreases Size(st.main)
  {
    var i := PopServer(st.main).value;
    var h := Top(st.main, i);
    var s := st.(main := PopAt(st.main, i));
    PopGone(st, i);
    var t := SortOut(o, s, h, i);
    SortOutSound(o, s, h, i);
    SortOutUnique(o, s, h, i);
    SizeShrunk(s.main, t.main);
    if InSubTrees(o, t, v, d, e) {
      SubTreesSeen(o, t, v, d, e, x);
      SortOutLasts(o, st, i, x);
      SeenFrom(o, st, t, v, d, e, SubTrees(o, t), x);
    } else {
      HereSeen(o, st, s, h, i, t, v, d, e, x);
      SubTreesLasts(o, t, x);
      SeenThen(o, st, v, d, e, t, SubTrees(o, t), x);
    }
  }

  // ---------- what a visit does ----------

  /**
   Whether an entry for `h` stays: the handle is listed, and it is a file with all its datafiles listed, a directory with
   all its dirdata listed, or a symlink.
   */
  predicate Stays(v: State, h: Handle) {
    && Listed(v, h) && h in v.fs
    && match v.fs[h]
       case Metafile(dfiles) => forall x :: x in dfiles ==> Listed(v, x)
       case Directory(dirdata, _) => dirdata.Some? && forall x :: x in dirdata.value ==> Listed(v, x)
       case Symlink => true
       case _ => false
  }

  /** Whether the object goes with the entry: it is listed and can be read, and its entry does not stay. */
  predicate Goes(v: State, h: Handle) {
    Listed(v, h) && h in v.fs && !v.fs[h].Unreadable? && !Stays(v, h)
  }

  /** The entry is left in place, or it goes, with its object or without. */
  ghost predicate Settles(v: State, s: State, d: Handle, e: Dirent) {
    && (Stays(v, e.handle) ==> Link(d, e.name, e.handle) in s.links)
    && (!Stays(v, e.handle) ==> !HasEntry(s.fs, d, e.name))
    && (Goes(v, e.handle) ==> e.handle !in s.fs)
    && (e.handle in v.fs && !Goes(v, e.handle) ==> e.handle in s.fs || v.fs[e.handle].Directory?)
  }

  lemma DropSettles(o: Options, st: State, d: Handle, e: Dirent)
    requires o.destructive && !st.halted
    ensures var r := RemoveDirent(o, st, d, e.name);
            !r.halted ==> !HasEntry(r.fs, d, e.name) && r.fs.Keys == st.fs.Keys
  {
  }

  lemma DiscardSettles(o: Options, st: State, d: Handle, e: Dirent)
    requires o.destructive && !st.halted
    ensures var r := Discard(o, st, d, e);
            !r.halted ==> !HasEntry(r.fs, d, e.name) && e.handle !in r.fs
  {
    var t := RemoveObject(o, st, e.handle);
    if !t.halted { DropSettles(o, t, d, e); }
  }

  lemma CompleteIff(v: State, hs: seq<Handle>)
    requires Sound(v)
    ensures var c := ClaimAll(v.main, v.alt, hs);
            c.Claim? ==> (c.complete <==> forall x :: x in hs ==> Listed(v, x))
  {
    ProbeComplete(v.main, v.alt, hs, 0);
    assert forall x :: Where(v.main, v.alt, x).Some? <==> Listed(v, x);
  }

  /** The entry and its object go. */
  lemma GoneSettles(o: Options, v: State, s: State, r: State, d: Handle, e: Dirent)
    requires o.destructive && !s.halted && s.fs == v.fs && !Stays(v, e.handle) && Listed(v, e.handle) && e.handle in v.fs
    requires !v.fs[e.handle].Unreadable?
    requires var j := Discard(o, s, d, e); r.fs == j.fs && r.links == j.links && r.halted == j.halted
    ensures !r.halted ==> Settles(v, r, d, e)
  {
    DiscardSettles(o, s, d, e);
  }

  /** The entry stays; `w` is the state before that is recorded. */
  lemma KeptSettles(v: State, w: State, r: State, d: Handle, e: Dirent)
    requires Stays(v, e.handle) && (e.handle in w.fs || v.fs[e.handle].Directory?)
    requires var j := Keep(w, d, e); r.fs == j.fs && r.links == j.links && r.halted == j.halted
    ensures !r.halted ==> Settles(v, r, d, e)
  {
  }

  lemma FileSettles(o: Options, v: State, d: Handle, e: Dirent)
    requires Sound(v) && !v.halted && o.destructive
    requires Listed(v, e.handle) && e.handle in v.fs && v.fs[e.handle].Metafile?
    ensures var s := Visit(o, v, d, e); !s.halted ==> Settles(v, s, d, e)
  {
    VisitFile(o, v, d, e);
    CompleteIff(v, v.fs[e.handle].dfiles);
    var c := ClaimAll(v.main, v.alt, v.fs[e.handle].dfiles);
    var s := AfterClaim(v, c);
    var r := Visit(o, v, d, e);
    if c.Claim? && c.complete {
      KeptSettles(v, s.(kept := s.kept + {e.handle}), r, d, e);
    } else if c.Claim? {
      GoneSettles(o, v, s, r, d, e);
    }
  }

  lemma DirectorySettles(o: Options, v: State, d: Handle, e: Dirent)
    requires Sound(v) && !v.halted && o.destructive
    requires Listed(v, e.handle) && e.handle in v.fs && v.fs[e.handle].Directory?
    ensures var s := Visit(o, v, d, e); !s.halted ==> Settles(v, s, d, e)
  {
    VisitDirectory(o, v, d, e);
    var c := MatchDirdata(v.main, v.alt, v.fs[e.handle].dirdata);
    MatchIff(v, e.handle);
    MatchedSettles(o, v, c, Descend(o, AfterClaim(v, c), e.handle), Visit(o, v, d, e), d, e);
  }

  lemma MatchIff(v: State, h: Handle)
    requires Sound(v) && Listed(v, h) && h in v.fs && v.fs[h].Directory?
    ensures var c := MatchDirdata(v.main, v.alt, v.fs[h].dirdata);
            c.Claim? ==> (c.complete <==> Stays(v, h))
  {
    if v.fs[h].dirdata.Some? { CompleteIff(v, v.fs[h].dirdata.value); }
  }

  /** `c` is the outcome of match_dirdata and `w` the state after the walk. */
  lemma MatchedSettles(o: Options, v: State, c: Claim, w: State, r: State, d: Handle, e: Dirent)
    requires !v.halted && o.destructive && Listed(v, e.handle) && e.handle in v.fs && v.fs[e.handle].Directory?
    requires c.Claim? ==> (c.complete <==> Stays(v, e.handle))
    requires var j := DirectoryOutcome(o, v, c, w, d, e); r.fs == j.fs && r.links == j.links && r.halted == j.halted
    ensures !r.halted ==> Settles(v, r, d, e)
  {
    var s := AfterClaim(v, c);
    if c.Claim? && c.complete {
      KeptSettles(v, if In(v.main, e.handle) then w else s, r, d, e);
    } else if c.Claim? {
      GoneSettles(o, v, s, r, d, e);
    }
  }

  lemma VisitSettles(o: Options, v: State, d: Handle, e: Dirent)
    requires Sound(v) && Unique(v) && !v.halted && o.destructive
    ensures var s := Visit(o, v, d, e); !s.halted ==> Settles(v, s, d, e) && !Listed(s, e.handle)
  {
    PlainPast(o, v, d, e);
    if !Listed(v, e.handle) {
      DropSettles(o, v, d, e);
    } else if GetAttr(v.fs, e.handle).None? {
      VisitUnreadable(o, v, d, e);
      DropSettles(o, v, d, e);
    } else if v.fs[e.handle].Metafile? {
      FileSettles(o, v, d, e);
    } else if v.fs[e.handle].Directory? {
      DirectorySettles(o, v, d, e);
    } else {
      VisitOther(o, v, d, e);
      if v.fs[e.handle].Symlink? {
        KeptSettles(v, v, Visit(o, v, d, e), d, e);
      } else {
        GoneSettles(o, v, v, Visit(o, v, d, e), d, e);
      }
    }
  }
}
