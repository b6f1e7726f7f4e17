/**
 Ownership of datafiles through passes 2, 3 and 4.
 */
module FsckOwnersRun {
  import opened Wrappers
  import opened HandleLists
  import opened FsckModel
  import opened FsckPasses
  import opened FsckFrame
  import opened FsckLinks
  import opened FsckIntact
  import opened FsckOwners
  import opened FsckTurns

  /** A handle popped and put aside again is no datafile of a file that is followed. */
  lemma AsideOwn(base: Fs, st: State, s: State, t: State, i: nat, f: set<Handle>, g: set<Handle>, home: Handle -> nat)
    requires OwnPre(base, st, f, g, home) && i < |st.main| && st.main[i] != []
    requires s == st.(main := PopAt(st.main, i)) && Smaller(s, t) && !Listed(s, Top(st.main, i))
    requires OwnPre(base, t, f, g, home) && NewFromLists(base, s, t) && Top(st.main, i) in t.fs
    requires t.alt.Some? && i < |t.alt.value|
    ensures OwnPre(base, PutAside(t, Top(st.main, i), i), f, g, home)
  {
    var h := Top(st.main, i);
    var r := PutAside(t, h, i);
    PopSound(st, i);
    if !t.halted {
      PutAsideSound(t, h, i);
      SmallerLeft(s, t);
      AsideUnique(t, h, i);
      forall x ensures Listed(r, x) <==> Listed(t, x) || x == h { AsideListed(t, h, i, x); }
      assert h in st.main[i];
      AsideOwned(base, st, s, t, r, h, f, g);
      AsideLocated(t, h, i, home);
    }
  }

  lemma AsideOwned(base: Fs, st: State, s: State, t: State, r: State, h: Handle, f: set<Handle>, g: set<Handle>)
    requires Owned(base, st, f, g) && Listed(st, h) && !Listed(s, h)
    requires Owned(base, t, f, g) && NewFromLists(base, s, t) && s.kept == st.kept
    requires r.fs == t.fs && r.kept == t.kept && forall x :: Listed(r, x) <==> Listed(t, x) || x == h
    ensures Owned(base, r, f, g)
  {
    forall m, x | m in r.kept && m in f + g && x in DatafilesOf(base, m) ensures x in r.fs && !Listed(r, x) {
      assert m in st.kept || m in t.kept - s.kept;
    }
  }

  lemma AsideLocated(st: State, h: Handle, i: nat, home: Handle -> nat)
    requires Located(st, home) && st.alt.Some? && i < |st.alt.value| && home(h) == i
    ensures Located(PutAside(st, h, i), home)
  {
  }

  lemma ShrinkOwn(base: Fs, st: State, r: State, f: set<Handle>, g: set<Handle>, home: Handle -> nat)
    requires OwnPre(base, st, f, g, home) && Smaller(st, r) && OnlyListedGone(st, r) && r.kept == st.kept
    requires !r.halted ==> Backed(r)
    ensures OwnPre(base, r, f, g, home)
  {
    OwnedShrinks(base, st, r, f, g);
    OwnPreShrinks(base, st, r, f, g, home);
  }

  /** The popped handle is of no interest to the files that are followed. */
  lemma PopOwn(base: Fs, st: State, i: nat, f: set<Handle>, g: set<Handle>, home: Handle -> nat)
    requires OwnPre(base, st, f, g, home) && i < |st.main| && st.main[i] != [] && !st.halted
    ensures OwnPre(base, st.(main := PopAt(st.main, i)), f, g, home)
    ensures forall m, x :: m in st.kept && m in f + g && x in DatafilesOf(base, m) ==> x != Top(st.main, i)
  {
    PopGone(st, i);
    ShrinkOwn(base, st, st.(main := PopAt(st.main, i)), f, g, home);
  }

  /** Removing an object that no followed file has as a datafile. */
  lemma RemoveOwn(o: Options, base: Fs, st: State, h: Handle, f: set<Handle>, g: set<Handle>, home: Handle -> nat)
    requires OwnPre(base, st, f, g, home) && !Listed(st, h)
    requires forall m, x :: m in st.kept && m in f + g && x in DatafilesOf(base, m) ==> x != h
    ensures OwnPre(base, RemoveObject(o, st, h), f, g, home)
  {
    var r := RemoveObject(o, st, h);
    SmallerObject(o, st, h);
    SmallerLeft(st, r);
    assert forall x :: Listed(r, x) <==> Listed(st, x);
    assert Owned(base, r, f, g);
    OwnPreShrinks(base, st, r, f, g, home);
  }

  lemma DescendOwn(o: Options, base: Fs, st: State, dir: Handle, f: set<Handle>, g: set<Handle>, home: Handle -> nat)
    requires OwnPre(base, st, f, g, home) && !st.halted
    ensures var t := Descend(o, st, dir);
            OwnPre(base, t, f, g, home) && NewFromLists(base, st, t) && st.kept <= t.kept && OnlyListedGone(st, t)
  {
    DescendOwned(o, base, st, dir, f, g, home);
    DescendFramed(o, st.fs, st, dir);
    DescendBacked(o, st, dir);
    OwnPreShrinks(base, st, Descend(o, st, dir), f, g, home);
  }

  lemma SortOutOwn(o: Options, base: Fs, st: State, i: nat, f: set<Handle>, g: set<Handle>, home: Handle -> nat)
    requires OwnPre(base, st, f, g, home) && st.alt.Some? && i < |st.main| && st.main[i] != [] && !st.halted
    ensures var r := SortOut(o, st.(main := PopAt(st.main, i)), Top(st.main, i), i);
            OwnPre(base, r, f, g, home) && st.kept <= r.kept
  {
    var h := Top(st.main, i);
    var s := st.(main := PopAt(st.main, i));
    PopGone(st, i);
    PopOwn(base, st, i, f, g, home);
    assert Smaller(s, s);
    var b := GetAttr(s.fs, h);
    if b.Some? && b.value.Directory? {
      DescendOwn(o, base, s, h, f, g, home);
      AsideOwn(base, st, s, Descend(o, s, h), i, f, g, home);
    } else if b.None? || b.value.Unknown? {
      RemoveOwn(o, base, s, h, f, g, home);
    } else {
      AsideOwn(base, st, s, s, i, f, g, home);
    }
  }

  lemma {:induction false} SubTreesOwn(o: Options, base: Fs, st: State, f: set<Handle>, g: set<Handle>, home: Handle -> nat)
    requires OwnPre(base, st, f, g, home) && st.alt.Some?
    ensures var r := SubTrees(o, st);
            OwnPre(base, r, f, g, home) && st.kept <= r.kept
    decreases Size(st.main)
  {
    var i := PopServer(st.main);
    if !st.halted && i.Some? {
      var s := st.(main := PopAt(st.main, i.value));
      var t := SortOut(o, s, Top(st.main, i.value), i.value);
      PopGone(st, i.value);
      SortOutOwn(o, base, st, i.value, f, g, home);
      SizeShrunk(s.main, t.main);
      SubTreesOwn(o, base, t, f, g, home);
    }
  }

  lemma CreateOwn(o: Options, base: Fs, st: State, dir: Handle, name: string, h: Handle,
                  f: set<Handle>, g: set<Handle>, home: Handle -> nat)
    requires OwnPre(base, st, f, g, home)
    ensures OwnPre(base, CreateDirent(o, st, dir, name, h).0, f, g, home)
  {
    var r := CreateDirent(o, st, dir, name, h).0;
    CreateParts(o, st, dir, name, h);
    assert forall x :: Listed(r, x) <==> Listed(st, x);
    assert forall x :: Times(r, x) == Times(st, x);
    assert forall x :: x in st.fs ==> x in r.fs;
  }

  /** A claim takes handles off the lists, or stops the program. */
  lemma ClaimOwn(base: Fs, st: State, c: Claim, f: set<Handle>, g: set<Handle>, home: Handle -> nat)
    requires OwnPre(base, st, f, g, home) && !st.halted && (c.Claim? ==> ListsShrunk(st.main, st.alt, c.main, c.alt))
    ensures OwnPre(base, AfterClaim(st, c), f, g, home)
  {
    ListsKept(st.main, st.alt);
    SmallerLeft(st, AfterClaim(st, c));
    ShrinkOwn(base, st, AfterClaim(st, c), f, g, home);
  }

  /** A file whose claim succeeds joins the kept files; if it is followed, its datafiles are now off the lists. */
  lemma KeptOwn(base: Fs, st: State, h: Handle, f: set<Handle>, g: set<Handle>, home: Handle -> nat)
    requires OwnPre(base, st, f, g, home) && h in st.fs && st.fs[h].Metafile? && !st.halted
    requires var c := ClaimAll(st.main, st.alt, st.fs[h].dfiles); c.Claim? && c.complete
    ensures var s := AfterClaim(st, ClaimAll(st.main, st.alt, st.fs[h].dfiles));
            OwnPre(base, s.(kept := s.kept + {h}), f, g, home)
  {
    var hs := st.fs[h].dfiles;
    assert Kin(base[h], st.fs[h]) && DatafilesOf(base, h) == hs;
    var s := AfterClaim(st, ClaimAll(st.main, st.alt, hs));
    var k := s.(kept := s.kept + {h});
    ClaimSound(st, hs);
    if h in g { ClaimTogether(base, st, h, home); }
    SmallerLeft(st, k);
    assert forall x :: Listed(k, x) <==> Listed(s, x);
    OwnedKept(base, st, k, h, f, g);
    OwnPreShrinks(base, st, k, f, g, home);
  }

  lemma SalvageFileOwn(o: Options, base: Fs, st: State, laf: Handle, h: Handle,
                       f: set<Handle>, g: set<Handle>, home: Handle -> nat)
    requires OwnPre(base, st, f, g, home) && h in st.fs && st.fs[h].Metafile? && !Listed(st, h) && !st.halted
    requires forall m, x :: m in st.kept && m in f + g && x in DatafilesOf(base, m) ==> x != h
    ensures var r := SalvageFile(o, st, laf, h, st.fs[h].dfiles);
            OwnPre(base, r, f, g, home) && st.kept <= r.kept
  {
    var hs := st.fs[h].dfiles;
    var c := ClaimAll(st.main, st.alt, hs);
    var s := AfterClaim(st, c);
    ClaimSound(st, hs);
    ClaimOwn(base, st, c, f, g, home);
    if c.Claim? && c.complete {
      var k := s.(kept := s.kept + {h});
      KeptOwn(base, st, h, f, g, home);
      CreateOwn(o, base, k, laf, "lostfile." + Decimal(h), h, f, g, home);
      var t := CreateDirent(o, k, laf, "lostfile." + Decimal(h), h).0;
      assert Smaller(t, t.(halted := true)) by { ListsKept(t.main, t.alt); }
      ShrinkOwn(base, t, t.(halted := true), f, g, home);
    } else if c.Claim? {
      SmallerLeft(st, s);
      RemoveOwn(o, base, s, h, f, g, home);
    }
  }

  lemma SalvageDirectoryOwn(o: Options, base: Fs, st: State, laf: Handle, h: Handle,
                            f: set<Handle>, g: set<Handle>, home: Handle -> nat)
    requires OwnPre(base, st, f, g, home) && h in st.fs && st.fs[h].Directory? && !Listed(st, h) && !st.halted
    requires forall m, x :: m in st.kept && m in f + g && x in DatafilesOf(base, m) ==> x != h
    ensures var r := SalvageDirectory(o, st, laf, h, st.fs[h].dirdata);
            OwnPre(base, r, f, g, home) && st.kept == r.kept
  {
    var c := MatchDirdata(st.main, st.alt, st.fs[h].dirdata);
    var s := AfterClaim(st, c);
    MatchSound(st, h);
    ClaimOwn(base, st, c, f, g, home);
    SmallerLeft(st, s);
    RemoveOwn(o, base, s, h, f, g, home);
    var u := if c.Claim? && c.complete then s else RemoveObject(o, s, h);
    CreateOwn(o, base, u, laf, "lostdir." + Decimal(h), h, f, g, home);
    var t := CreateDirent(o, u, laf, "lostdir." + Decimal(h), h).0;
    assert Listed(t, h) <==> Listed(u, h);
    RemoveOwn(o, base, t, h, f, g, home);
  }

  lemma SalvageOwn(o: Options, base: Fs, st: State, laf: Handle, i: nat, f: set<Handle>, g: set<Handle>, home: Handle -> nat)
    requires OwnPre(base, st, f, g, home) && st.alt.Some? && i < |st.main| && st.main[i] != [] && !st.halted
    ensures var r := Salvage(o, st.(main := PopAt(st.main, i)), laf, Top(st.main, i), i);
            OwnPre(base, r, f, g, home) && st.kept <= r.kept
  {
    var h := Top(st.main, i);
    var s := st.(main := PopAt(st.main, i));
    PopGone(st, i);
    PopOwn(base, st, i, f, g, home);
    var b := GetAttr(s.fs, h);
    if b.Some? && b.value.Metafile? {
      SalvageFileOwn(o, base, s, laf, h, f, g, home);
    } else if b.Some? && b.value.Directory? {
      SalvageDirectoryOwn(o, base, s, laf, h, f, g, home);
    } else {
      assert Smaller(s, s) by { ListsKept(s.main, s.alt); }
      AsideOwn(base, st, s, s, i, f, g, home);
    }
  }

  lemma {:induction false} FillOwn(o: Options, base: Fs, st: State, laf: Handle, f: set<Handle>, g: set<Handle>, home: Handle -> nat)
    requires OwnPre(base, st, f, g, home) && st.alt.Some?
    ensures var r := FillLoop(o, st, laf);
            OwnPre(base, r, f, g, home) && st.kept <= r.kept
    decreases Size(st.main)
  {
    var i := PopServer(st.main);
    if !st.halted && i.Some? {
      var s := st.(main := PopAt(st.main, i.value));
      var t := Salvage(o, s, laf, Top(st.main, i.value), i.value);
      PopGone(st, i.value);
      SalvageOwn(o, base, st, laf, i.value, f, g, home);
      SizeShrunk(s.main, t.main);
      FillOwn(o, base, t, laf, f, g, home);
    }
  }

  // ---------- every linked file is a kept one ----------

  ghost predicate FilesKept(base: Fs, st: State) {
    && SameParts(base, st.fs)
    && forall l :: l in st.links && l.target in base && base[l.target].Metafile? ==> l.target in st.kept
  }

  lemma ShrunkParts(base: Fs, f: Fs, g: Fs)
    requires FsShrunk(base, f) && FsShrunk(f, g)
    ensures FsShrunk(base, g) && SameParts(base, g)
  {
    forall h | h in g ensures h in base && Trimmed(base[h], g[h]) {
      assert h in f && Trimmed(f[h], g[h]) && Trimmed(base[h], f[h]);
    }
  }

  lemma SortOutFiles(o: Options, base: Fs, st: State, h: Handle, i: nat)
    requires Sound(st) && st.alt.Some? && i < |st.main| && FsShrunk(base, st.fs) && FilesKept(base, st)
    ensures var r := SortOut(o, st, h, i);
            FsShrunk(base, r.fs) && FilesKept(base, r)
  {
    var r := SortOut(o, st, h, i);
    ShrunkParts(base, st.fs, r.fs);
    var a := GetAttr(st.fs, h);
    if a.Some? && a.value.Directory? {
      var t := Descend(o, st, h);
      DescendFramed(o, base, st, h);
      assert r.links == t.links && r.kept == t.kept;
    }
  }

  lemma {:induction false} SubTreesFiles(o: Options, base: Fs, st: State)
    requires Sound(st) && st.alt.Some? && FsShrunk(base, st.fs) && FilesKept(base, st)
    ensures FsShrunk(base, SubTrees(o, st).fs) && FilesKept(base, SubTrees(o, st))
    decreases Size(st.main)
  {
    var i := PopServer(st.main);
    if !st.halted && i.Some? {
      var s := st.(main := PopAt(st.main, i.value));
      var h := Top(st.main, i.value);
      var t := SortOut(o, s, h, i.value);
      PopSound(st, i.value);
      SortOutSound(o, s, h, i.value);
      SortOutFiles(o, base, s, h, i.value);
      SizeShrunk(s.main, t.main);
      SubTreesFiles(o, base, t);
    }
  }

  lemma SalvageFiles(o: Options, base: Fs, st: State, laf: Handle, h: Handle, i: nat)
    requires Sound(st) && st.alt.Some? && i < |st.main| && FilesKept(base, st)
    ensures FilesKept(base, Salvage(o, st, laf, h, i))
  {
    var r := Salvage(o, st, laf, h, i);
    SalvageParts(o, st, laf, h, i);
    forall x | x in r.fs ensures x in base && Kin(base[x], r.fs[x]) {
      assert Kin(st.fs[x], r.fs[x]) && Kin(base[x], st.fs[x]);
    }
    assert h in st.fs ==> Kin(base[h], st.fs[h]);
  }

  lemma {:induction false} FillFiles(o: Options, base: Fs, st: State, laf: Handle)
    requires Sound(st) && st.alt.Some? && FilesKept(base, st)
    ensures FilesKept(base, FillLoop(o, st, laf))
    decreases Size(st.main)
  {
    var i := PopServer(st.main);
    if !st.halted && i.Some? {
      var s := st.(main := PopAt(st.main, i.value));
      var h := Top(st.main, i.value);
      var t := Salvage(o, s, laf, h, i.value);
      PopSound(st, i.value);
      SalvageSound(o, s, laf, h, i.value);
      SalvageFiles(o, base, s, laf, h, i.value);
      SizeShrunk(s.main, t.main);
      FillFiles(o, base, t, laf);
    }
  }
}
