/**
 Without -y, -p or -a: the lists still drain, the run finishes, and nothing changes.
 */
module FsckDryRun {
  import opened Wrappers
  import opened HandleLists
  import opened FsckModel
  import opened FsckPasses
  import opened FsckFrame
  import opened FsckLinks
  import opened FsckIntact
  import opened FsckPassOne
  import opened FsckTurns
  import opened FsckRun

  // ---------- a dry run does not stop early ----------

  /** No object lists a part twice. */
  ghost predicate NoTwice(fs: Fs) {
    forall m :: m in fs ==> Distinct(Parts(fs[m]))
  }

  /** Claims find a list to remove from: there is a second one, or no handle is asked for twice. */
  ghost predicate Calm(o: Options, st: State) {
    !o.destructive && Sound(st) && !st.halted && (st.alt.Some? || (Unique(st) && NoTwice(st.fs)))
  }

  lemma CalmClaim(o: Options, st: State, hs: seq<Handle>)
    requires Calm(o, st) && (Distinct(hs) || st.alt.Some?)
    ensures ClaimAll(st.main, st.alt, hs).Claim?
  {
    var p := ProbeAll(st.main, st.alt, hs, 0);
    if st.alt.Some? {
      DrainSome(st.main, st.alt.value, p.found, p.idx);
    } else {
      ClaimSingle(st, hs);
    }
  }

  lemma CalmShrinks(o: Options, st: State, r: State)
    requires Calm(o, st) && Smaller(st, r) && r.fs == st.fs && !r.halted
    ensures Calm(o, r)
  {
    SmallerLeft(st, r);
    if st.alt.None? { UniqueShrinks(st, r); }
  }

  lemma DryRemoval(o: Options, st: State, dir: Handle, e: Dirent)
    requires !o.destructive && !st.halted
    ensures RemoveDirent(o, st, dir, e.name).fs == st.fs && !RemoveDirent(o, st, dir, e.name).halted
    ensures RemoveObject(o, st, e.handle).fs == st.fs && !RemoveObject(o, st, e.handle).halted
    ensures Discard(o, st, dir, e).fs == st.fs && !Discard(o, st, dir, e).halted
  {
  }

  lemma {:induction false} DescendCalm(o: Options, st: State, dir: Handle)
    requires Calm(o, st)
    ensures Calm(o, Descend(o, st, dir))
    decreases Left(st.main, st.alt), 2, 0
  {
    var s := st.(walked := st.walked + [dir]);
    ListsKept(st.main, st.alt);
    CalmShrinks(o, st, s);
    WalkCalm(o, s, dir, Entries(st.fs, dir));
  }

  lemma {:induction false} WalkCalm(o: Options, st: State, dir: Handle, es: seq<Dirent>)
    requires Calm(o, st)
    ensures Calm(o, WalkEntries(o, st, dir, es))
    decreases Left(st.main, st.alt), 1, |es|
  {
    if es != [] {
      VisitCalm(o, st, dir, es[0]);
      SmallerLeft(st, Visit(o, st, dir, es[0]));
      WalkCalm(o, Visit(o, st, dir, es[0]), dir, es[1..]);
    }
  }

  lemma {:induction false} VisitCalm(o: Options, st: State, dir: Handle, e: Dirent)
    requires Calm(o, st)
    ensures Calm(o, Visit(o, st, dir, e))
    decreases Left(st.main, st.alt), 0, 1
  {
    var h := e.handle;
    var r := Visit(o, st, dir, e);
    DryRemoval(o, st, dir, e);
    if !Listed(st, h) {
      CalmShrinks(o, st, r);
    } else if GetAttr(st.fs, h).None? {
      VisitUnreadable(o, st, dir, e);
      CalmShrinks(o, st, r);
    } else if st.fs[h].Metafile? {
      VisitFile(o, st, dir, e);
      FileCalm(o, st, r, dir, e);
    } else if st.fs[h].Directory? {
      VisitDirectory(o, st, dir, e);
      DirectoryCalm(o, st, r, dir, e);
    } else {
      VisitOther(o, st, dir, e);
      CalmShrinks(o, st, r);
    }
  }

  lemma FileCalm(o: Options, st: State, r: State, dir: Handle, e: Dirent)
    requires Calm(o, st) && Listed(st, e.handle) && e.handle in st.fs && st.fs[e.handle].Metafile? && Smaller(st, r)
    requires var j := FileOutcome(o, st, ClaimAll(st.main, st.alt, st.fs[e.handle].dfiles), dir, e);
             Smaller(st, j) && r == Finish(st, j, e.handle)
    ensures Calm(o, r)
  {
    CalmClaim(o, st, Parts(st.fs[e.handle]));
    DryRemoval(o, AfterClaim(st, ClaimAll(st.main, st.alt, st.fs[e.handle].dfiles)), dir, e);
    CalmShrinks(o, st, r);
  }

  lemma DryWalk(o: Options, st: State, dir: Handle)
    requires !o.destructive && Sound(st)
    ensures Descend(o, st, dir).fs == st.fs
  {
    DescendFramed(o, st.fs, st, dir);
  }

  lemma {:induction false} DirectoryCalm(o: Options, st: State, r: State, dir: Handle, e: Dirent)
    requires Calm(o, st) && Listed(st, e.handle) && e.handle in st.fs && st.fs[e.handle].Directory? && Smaller(st, r)
    requires var c := MatchDirdata(st.main, st.alt, st.fs[e.handle].dirdata);
             && Smaller(st, AfterClaim(st, c)) && Sound(AfterClaim(st, c))
             && (c.Claim? && c.complete ==> Left(c.main, c.alt) < Left(st.main, st.alt))
             && var j := DirectoryOutcome(o, st, c, Descend(o, AfterClaim(st, c), e.handle), dir, e);
                Smaller(st, j) && r == Finish(st, j, e.handle)
    ensures Calm(o, r)
    decreases Left(st.main, st.alt), 0, 0
  {
    var h := e.handle;
    if st.fs[h].dirdata.Some? { CalmClaim(o, st, Parts(st.fs[h])); }
    var c := MatchDirdata(st.main, st.alt, st.fs[h].dirdata);
    var s := AfterClaim(st, c);
    CalmShrinks(o, st, s);
    DryRemoval(o, s, dir, e);
    if c.complete {
      DescendCalm(o, s, h);
      DryWalk(o, s, h);
    }
    CalmShrinks(o, st, r);
  }

  lemma {:induction false} SubTreesCalm(o: Options, st: State)
    requires Calm(o, st) && st.alt.Some?
    ensures Calm(o, SubTrees(o, st))
    decreases Size(st.main)
  {
    var i := PopServer(st.main);
    if i.Some? {
      var s := st.(main := PopAt(st.main, i.value));
      var h := Top(st.main, i.value);
      var t := SortOut(o, s, h, i.value);
      PopSound(st, i.value);
      CalmShrinks(o, st, s);
      DescendCalm(o, s, h);
      DryRemoval(o, s, h, Dirent("", h));
      SortOutSound(o, s, h, i.value);
      SizeShrunk(s.main, t.main);
      SubTreesCalm(o, t);
    }
  }

  lemma SalvageCalm(o: Options, st: State, laf: Handle, h: Handle, i: nat)
    requires Calm(o, st) && st.alt.Some? && i < |st.main| && h != NULL_HANDLE
    ensures Calm(o, Salvage(o, st, laf, h, i))
  {
    SalvageSound(o, st, laf, h, i);
    var a := GetAttr(st.fs, h);
    if a.Some? && a.value.Metafile? {
      CalmClaim(o, st, a.value.dfiles);
      DryRemoval(o, AfterClaim(st, ClaimAll(st.main, st.alt, a.value.dfiles)), laf, Dirent("", h));
    } else if a.Some? && a.value.Directory? {
      if a.value.dirdata.Some? { CalmClaim(o, st, a.value.dirdata.value); }
      DryRemoval(o, AfterClaim(st, MatchDirdata(st.main, st.alt, a.value.dirdata)), laf, Dirent("", h));
    }
  }

  lemma {:induction false} FillCalm(o: Options, st: State, laf: Handle)
    requires Calm(o, st) && st.alt.Some?
    ensures Calm(o, FillLoop(o, st, laf))
    decreases Size(st.main)
  {
    var i := PopServer(st.main);
    if i.Some? {
      var s := st.(main := PopAt(st.main, i.value));
      var h := Top(st.main, i.value);
      var t := Salvage(o, s, laf, h, i.value);
      PopSound(st, i.value);
      CalmShrinks(o, st, s);
      SalvageCalm(o, s, laf, h, i.value);
      SizeShrunk(s.main, t.main);
      FillCalm(o, t, laf);
    }
  }

  lemma {:induction false} CullCalm(o: Options, st: State)
    requires !o.destructive && Fourth(st) && !st.halted
    ensures !CullLoop(o, st).halted
    decreases Size(st.main)
  {
    var i := PopServer(st.main);
    if i.Some? {
      CullTurn(o, st, i.value);
      CullCalm(o, CullOne(o, st.(main := PopAt(st.main, i.value)), Top(st.main, i.value)));
    }
  }

  /** A dry run changes nothing, however it ends. */
  lemma DryRunChangesNothing(o: Options, st: State, root: Handle, laf: Handle)
    requires Start(st) && !o.destructive
    ensures Run(o, st, root, laf).fs == st.fs
  {
    RunStages(o, st, root, laf);
  }

  /** A dry run of all four passes finishes with all lists drained and the file system untouched. */
  lemma DryRun(o: Options, st: State, root: Handle, laf: Handle)
    requires Start(st) && !o.destructive && RootComplete(st, root) && NoTwice(st.fs)
    ensures var r := Run(o, st, root, laf);
            r.fs == st.fs && !r.halted && forall h :: !In(r.main, h)
  {
    var t := PassOneEnters(o, st, root);
    assert Distinct(Parts(st.fs[root]));
    DescendCalm(o, t, root);
    var s1 := PassOne(o, st, root);
    TwoPasses(o, st, root);
    SecondStart(o, s1);
    SubTreesCalm(o, s1.(alt := Some(Fresh(s1.main))));
    var s2 := PassTwo(o, s1);
    ThirdStart(o, s2);
    var t2 := NextPass(s2, Some(Fresh(s2.alt.value)));
    FillCalm(o, t2, laf);
    FillKeeps(o, t2, laf);
    var s3 := PassThree(o, s2, laf);
    FourthStart(o, s3);
    CullCalm(o, NextPass(s3, None));
    RunStages(o, st, root, laf);
  }
}
