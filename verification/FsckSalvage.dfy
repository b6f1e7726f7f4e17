/**
 What a turn of pass 3 does to the popped object and to lost+found, and what is left of that when the run ends.
 */
module FsckSalvage {
  import opened Wrappers
  import opened HandleLists
  import opened FsckModel
  import opened FsckPasses
  import opened FsckFrame
  import opened FsckLinks
  import opened FsckIntact
  import opened FsckTurns
  import opened FsckRun
  import opened FsckRunOwners
  import opened FsckWalkRescue
  import opened FsckRunRescue

  // ---------- one turn ----------

  /** Lost+found is a readable directory, and the name is not taken. */
  predicate Free(fs: Fs, laf: Handle, name: string) {
    laf in fs && fs[laf].Directory? && !HasEntry(fs, laf, name)
  }

  /** Every object but these two is as before. */
  ghost predicate OthersAsBefore(f: Fs, g: Fs, laf: Handle, h: Handle) {
    && (forall x :: x != laf && x != h ==> (x in f <==> x in g))
    && (forall x :: x != laf && x != h && x in f && x in g ==> g[x] == f[x])
  }

  lemma ClaimSome(s: State, hs: seq<Handle>)
    requires Sound(s) && s.alt.Some?
    ensures var c := ClaimAll(s.main, s.alt, hs);
            c.Claim? && (c.complete <==> forall x :: x in hs ==> Listed(s, x))
  {
    var p := ProbeAll(s.main, s.alt, hs, 0);
    DrainSome(s.main, s.alt.value, p.found, p.idx);
    ProbeComplete(s.main, s.alt, hs, 0);
    assert forall x :: Where(s.main, s.alt, x).Some? <==> Listed(s, x);
  }

  /**
   An orphaned file in a destructive run: it gets the entry `lostfile.<handle>` if all its datafiles are listed, and is
   removed otherwise. The program stops when the entry cannot be made, and else only when told to.
   */
  lemma FileTurn(o: Options, s: State, laf: Handle, h: Handle, i: nat)
    requires Sound(s) && s.alt.Some? && i < |s.main| && !s.halted && o.destructive
    requires h in s.fs && s.fs[h].Metafile?
    ensures var t := Salvage(o, s, laf, h, i);
            var name := "lostfile." + Decimal(h);
            var full := forall x :: x in s.fs[h].dfiles ==> Listed(s, x);
            && (full && !Free(s.fs, laf, name) ==> t.halted)
            && (Obliging(o) ==> (t.halted <==> full && !Free(s.fs, laf, name)))
            && (!t.halted ==>
                  && (h in t.fs <==> full)
                  && Entries(t.fs, laf) == Entries(s.fs, laf) + (if full then [Dirent(name, h)] else [])
                  && OthersAsBefore(s.fs, t.fs, laf, h))
  {
    ClaimSome(s, s.fs[h].dfiles);
    var t := SalvageFile(o, s, laf, h, s.fs[h].dfiles);
    assert Salvage(o, s, laf, h, i) == t;
  }

  /** Naming a directory, given what is left of it. */
  lemma NameTurn(o: Options, u: State, laf: Handle, h: Handle)
    requires !u.halted && o.destructive
    ensures var t := NameDirectory(o, u, laf, h);
            var name := "lostdir." + Decimal(h);
            && (Free(u.fs, laf, name) ==>
                  && !t.halted && t.fs.Keys == u.fs.Keys
                  && Entries(t.fs, laf) == Entries(u.fs, laf) + [Dirent(name, h)])
            && (!Free(u.fs, laf, name) ==>
                  && (h !in u.fs ==> t.halted) && (Obliging(o) && h in u.fs ==> !t.halted)
                  && (!t.halted ==> t.fs == u.fs - {h}))
            && (!t.halted ==> OthersAsBefore(u.fs, t.fs, laf, h))
  {
  }

  /**
   An orphaned directory in a destructive run: it gets the entry `lostdir.<handle>` exactly when lost+found has no entry
   of that name, and it is still there afterwards exactly when its dirdata are all listed and the name was free. The
   entry is made for a directory that was just removed, too. If the directory was removed and the name is taken, the
   program stops; otherwise it stops only when told to.
   */
  lemma DirectoryTurn(o: Options, s: State, laf: Handle, h: Handle, i: nat)
    requires Sound(s) && s.alt.Some? && i < |s.main| && !s.halted && o.destructive
    requires h in s.fs && s.fs[h].Directory?
    ensures var t := Salvage(o, s, laf, h, i);
            var name := "lostdir." + Decimal(h);
            var full := s.fs[h].dirdata.Some? && forall x :: x in s.fs[h].dirdata.value ==> Listed(s, x);
            var free := Free(s.fs, laf, name);
            && (!full && (!free || h == laf) ==> t.halted)
            && (Obliging(o) ==> (t.halted <==> !full && (!free || h == laf)))
            && (!t.halted ==>
                  && (h in t.fs <==> full && free)
                  && (free || h != laf ==> Entries(t.fs, laf) == Entries(s.fs, laf) + (if free then [Dirent(name, h)] else []))
                  && OthersAsBefore(s.fs, t.fs, laf, h))
  {
    var dirdata := s.fs[h].dirdata;
    if dirdata.Some? { ClaimSome(s, dirdata.value); }
    var c := MatchDirdata(s.main, s.alt, dirdata);
    var a := s.(main := c.main, alt := c.alt);
    var u := if c.complete then a else RemoveObject(o, a, h);
    ObjectWorks(o, a, h);
    var t := Salvage(o, s, laf, h, i);
    assert t == if u.halted then u else NameDirectory(o, u, laf, h);
    if !u.halted {
      NameTurn(o, u, laf, h);
      if !c.complete {
        assert u.fs == s.fs - {h};
        if h != laf { assert Entries(u.fs, laf) == Entries(s.fs, laf); }
      }
    }
  }

  /**
   Anything else: datafiles, dirdata and what getattr fails on go on the list for pass 4; a symlink, or an object of
   another type, is dropped from the lists and nothing is done to it.
   */
  lemma OtherTurn(o: Options, s: State, laf: Handle, h: Handle, i: nat, x: Handle)
    requires Sound(s) && s.alt.Some? && i < |s.main| && !s.halted
    requires h !in s.fs || !(s.fs[h].Metafile? || s.fs[h].Directory?)
    ensures var t := Salvage(o, s, laf, h, i);
            var dropped := h in s.fs && (s.fs[h].Symlink? || s.fs[h].Unknown?);
            && t.fs == s.fs && t.log == s.log && !t.halted && t.main == s.main
            && (In(t.alt.value, x) <==> In(s.alt.value, x) || (x == h && !dropped))
  {
    if GetAttr(s.fs, h).None? || s.fs[h].Datafile? || s.fs[h].Dirdata? { AddIn(s.alt.value, h, i, x); }
  }

  // ---------- to the end of the run ----------

  /** What is still there is as it was, but lost+found may have new entries for handles that were listed. */
  ghost predicate Steady(st: State, r: State, laf: Handle) {
    && (forall x :: x in r.fs ==> x in st.fs && (x != laf ==> r.fs[x] == st.fs[x]))
    && (laf in r.fs ==>
          forall e: Dirent :: !Listed(st, e.handle) ==> (e in Entries(r.fs, laf) <==> e in Entries(st.fs, laf)))
  }

  /** However a turn ends, no directory changes but lost+found, which has at most one entry more. */
  lemma TurnEntries(o: Options, s: State, laf: Handle, h: Handle, i: nat)
    requires Sound(s) && s.alt.Some? && i < |s.main| && !s.halted
    ensures OneEntry(s.fs, Salvage(o, s, laf, h, i).fs, laf, h)
  {
    var b := GetAttr(s.fs, h);
    if b.Some? && b.value.Metafile? {
      var c := ClaimAll(s.main, s.alt, b.value.dfiles);
      var a := AfterClaim(s, c);
      RemoveOne(o, a, laf, h);
      CreateOne(o, a.(kept := a.kept + {h}), laf, "lostfile." + Decimal(h), h);
      assert Salvage(o, s, laf, h, i) == SalvageFile(o, s, laf, h, b.value.dfiles);
    } else if b.Some? && b.value.Directory? {
      DirectoryOne(o, s, laf, h, b.value.dirdata);
    }
  }

  /** Objects may go; lost+found may have new entries for `h`; nothing else about entries changes. */
  ghost predicate OneEntry(f: Fs, g: Fs, laf: Handle, h: Handle) {
    && (forall x :: x in g ==> x in f && (x != laf ==> g[x] == f[x]))
    && (laf in g ==> forall e: Dirent :: e.handle != h ==> (e in Entries(g, laf) <==> e in Entries(f, laf)))
  }

  lemma RemoveOne(o: Options, s: State, laf: Handle, h: Handle)
    ensures OneEntry(s.fs, RemoveObject(o, s, h).fs, laf, h)
  {
  }

  lemma CreateOne(o: Options, s: State, laf: Handle, name: string, h: Handle)
    ensures OneEntry(s.fs, CreateDirent(o, s, laf, name, h).0.fs, laf, h)
  {
  }

  lemma DirectoryOne(o: Options, s: State, laf: Handle, h: Handle, dirdata: Option<seq<Handle>>)
    requires Sound(s) && (dirdata.Some? ==> dirdata.value != [])
    ensures OneEntry(s.fs, SalvageDirectory(o, s, laf, h, dirdata).fs, laf, h)
  {
    var c := MatchDirdata(s.main, s.alt, dirdata);
    var a := AfterClaim(s, c);
    var u := if c.Claim? && c.complete then a else RemoveObject(o, a, h);
    RemoveOne(o, a, laf, h);
    CreateOne(o, u, laf, "lostdir." + Decimal(h), h);
    RemoveOne(o, CreateDirent(o, u, laf, "lostdir." + Decimal(h), h).0, laf, h);
  }

  lemma TurnSteady(o: Options, st: State, laf: Handle, i: nat)
    requires Third(o, st) && !st.halted && i < |st.main| && st.main[i] != []
    ensures var s := st.(main := PopAt(st.main, i));
            Sound(s) && Steady(st, Salvage(o, s, laf, Top(st.main, i), i), laf)
  {
    PopGone(st, i);
    TurnEntries(o, st.(main := PopAt(st.main, i)), laf, Top(st.main, i), i);
  }

  lemma {:induction false} FillSteady(o: Options, st: State, laf: Handle)
    requires Third(o, st)
    ensures Steady(st, FillLoop(o, st, laf), laf)
    decreases Size(st.main)
  {
    var i := PopServer(st.main);
    if !st.halted && i.Some? {
      FillTurn(o, st, laf, i.value);
      TurnSteady(o, st, laf, i.value);
      var t := Salvage(o, st.(main := PopAt(st.main, i.value)), laf, Top(st.main, i.value), i.value);
      FillSteady(o, t, laf);
      TurnLists(o, st, laf, i.value);
      SteadyTrans(st, t, FillLoop(o, t, laf), laf);
    }
  }

  lemma SteadyTrans(a: State, b: State, c: State, laf: Handle)
    requires Steady(a, b, laf) && Steady(b, c, laf) && forall x :: Listed(b, x) ==> Listed(a, x)
    ensures Steady(a, c, laf)
  {
  }

  /** A turn puts nothing new on the lists. */
  lemma TurnLists(o: Options, st: State, laf: Handle, i: nat)
    requires Third(o, st) && !st.halted && i < |st.main| && st.main[i] != []
    ensures var s := st.(main := PopAt(st.main, i));
            Sound(s) && forall x :: Listed(Salvage(o, s, laf, Top(st.main, i), i), x) ==> Listed(st, x)
  {
    var h := Top(st.main, i);
    var s := st.(main := PopAt(st.main, i));
    PopGone(st, i);
    SmallerLeft(st, s);
    var t := Salvage(o, s, laf, h, i);
    if ListsShrunk(s.main, s.alt, t.main, t.alt) {
      SmallerLeft(s, s.(main := t.main, alt := t.alt));
    } else {
      forall x ensures Listed(t, x) <==> Listed(s, x) || x == h { AsideListed(s, h, i, x); }
    }
  }

  /** Pass 4 changes no object it does not remove. */
  lemma {:induction false} CullSame(o: Options, st: State, x: Handle)
    requires Fourth(st)
    ensures x in CullLoop(o, st).fs ==> x in st.fs && CullLoop(o, st).fs[x] == st.fs[x]
    decreases Size(st.main)
  {
    var i := PopServer(st.main);
    if !st.halted && i.Some? {
      CullTurn(o, st, i.value);
      CullSame(o, CullOne(o, st.(main := PopAt(st.main, i.value)), Top(st.main, i.value)), x);
    }
  }

  /** What is left of a run after `st`, a state between two turns of pass 3. */
  function Rest(o: Options, st: State, laf: Handle): State
    requires Sound(st) && st.alt.Some?
  {
    var s3 := FillLoop(o, st, laf);
    if s3.halted then s3 else PassFour(o, s3)
  }

  lemma RestRespects(o: Options, st: State, laf: Handle)
    requires Third(o, st)
    ensures Respects(o, st, Rest(o, st, laf))
    ensures Steady(st, Rest(o, st, laf), laf)
  {
    var s3 := FillLoop(o, st, laf);
    FillKeeps(o, st, laf);
    if !s3.halted {
      FourthStart(o, s3);
      var t3 := NextPass(s3, None);
      CullKeeps(o, t3);
      RespectsTrans(o, st, s3, t3);
      RespectsTrans(o, st, t3, PassFour(o, s3));
    }
    FillSteady(o, st, laf);
    if !s3.halted {
      forall x | x in PassFour(o, s3).fs ensures x in s3.fs && PassFour(o, s3).fs[x] == s3.fs[x] {
        CullSame(o, NextPass(s3, None), x);
      }
    }
  }

  /** Pass 3 comes to a state `v`, pops `h` there, with lost+found on no list, and the turn does not stop the program. */
  ghost predicate Turn(o: Options, st: State, root: Handle, laf: Handle, v: State, i: nat)
    requires Start(st)
  {
    && o.destructive && !PassOne(o, st, root).halted && !PassTwo(o, PassOne(o, st, root)).halted
    && InPassThree(o, PassTwo(o, PassOne(o, st, root)), laf, v) && !v.halted && PopServer(v.main) == Some(i)
    && laf in v.fs && v.fs[laf].Directory? && !Listed(v, laf)
    && var s := v.(main := PopAt(v.main, i));
       Sound(s) && s.alt.Some? && !Salvage(o, s, laf, Top(v.main, i), i).halted
  }

  lemma TurnToEnd(o: Options, st: State, root: Handle, laf: Handle, v: State, i: nat)
    requires Start(st) && Turn(o, st, root, laf, v, i)
    ensures Third(o, v)
    ensures var t := Salvage(o, v.(main := PopAt(v.main, i)), laf, Top(v.main, i), i);
            && Third(o, t) && laf in t.fs && !Listed(t, laf)
            && Run(o, st, root, laf) == Rest(o, t, laf)
  {
    var s2 := PassTwo(o, PassOne(o, st, root));
    PassOneFrame(o, st, root);
    ThirdStage(o, st, root, laf);
    ThirdOwn(o, st.fs, st, root);
    FillReaches(o, st.fs, NextPass(s2, Some(Fresh(s2.alt.value))), laf, v, HomeIn(st.main));
    FillTurn(o, v, laf, i);
    var s := v.(main := PopAt(v.main, i));
    FillUnfolds(o, v, s, Salvage(o, s, laf, Top(v.main, i), i), laf, i);
  }

  /** What the turn did to lost+found and to the popped object is how it stays. */
  lemma StaysToEnd(o: Options, t: State, r: State, laf: Handle, e: Dirent)
    requires Third(o, t) && laf in t.fs && !Listed(t, laf) && r == Rest(o, t, laf) && !Listed(t, e.handle)
    ensures e in Entries(r.fs, laf) <==> e in Entries(t.fs, laf)
    ensures e.handle in r.fs <==> e.handle in t.fs
  {
    RestRespects(o, t, laf);
  }

  /**
   When the run ends, an orphaned directory that pass 3 came to has its entry in lost+found exactly when there was no
   entry of that name, and it exists exactly when its dirdata were all listed and the name was free.
   */
  lemma RunNamesDirectory(o: Options, st: State, root: Handle, laf: Handle, v: State, i: nat)
    requires Start(st) && Turn(o, st, root, laf, v, i)
    requires Top(v.main, i) in v.fs && v.fs[Top(v.main, i)].Directory?
    ensures var h, r := Top(v.main, i), Run(o, st, root, laf);
            var e := Dirent("lostdir." + Decimal(h), h);
            var full := v.fs[h].dirdata.Some? && forall x :: x in v.fs[h].dirdata.value ==> x != h && Listed(v, x);
            && (e in Entries(r.fs, laf) <==> !HasEntry(v.fs, laf, e.name) || e in Entries(v.fs, laf))
            && (h in r.fs <==> full && !HasEntry(v.fs, laf, e.name))
  {
    var s := v.(main := PopAt(v.main, i));
    TurnToEnd(o, st, root, laf, v, i);
    PopGone(v, i);
    PopListed(v, s, i);
    DirectoryToEnd(o, s, Salvage(o, s, laf, Top(v.main, i), i), Run(o, st, root, laf), laf, Top(v.main, i), i);
  }

  lemma DirectoryToEnd(o: Options, s: State, t: State, r: State, laf: Handle, h: Handle, i: nat)
    requires Sound(s) && s.alt.Some? && i < |s.main| && !s.halted && o.destructive && h in s.fs && s.fs[h].Directory?
    requires !Listed(s, h) && h != laf && laf in s.fs && s.fs[laf].Directory?
    requires t == Salvage(o, s, laf, h, i) && !t.halted && Third(o, t) && laf in t.fs && !Listed(t, laf) && r == Rest(o, t, laf)
    ensures var e := Dirent("lostdir." + Decimal(h), h);
            var full := s.fs[h].dirdata.Some? && forall x :: x in s.fs[h].dirdata.value ==> Listed(s, x);
            && (e in Entries(r.fs, laf) <==> !HasEntry(s.fs, laf, e.name) || e in Entries(s.fs, laf))
            && (h in r.fs <==> full && !HasEntry(s.fs, laf, e.name))
  {
    DirectoryTurn(o, s, laf, h, i);
    SmallerLeft(s, s.(main := t.main, alt := t.alt));
    StaysToEnd(o, t, r, laf, Dirent("lostdir." + Decimal(h), h));
  }

  lemma PopListed(v: State, s: State, i: nat)
    requires Sound(v) && Unique(v) && i < |v.main| && v.main[i] != [] && s == v.(main := PopAt(v.main, i))
    ensures forall x :: Listed(s, x) <==> Listed(v, x) && x != Top(v.main, i)
  {
    PopGone(v, i);
    PopIn(v.main, i);
  }

  /** Likewise for an orphaned file: it is named, and exists, exactly when its datafiles were all listed. */
  lemma RunNamesFile(o: Options, st: State, root: Handle, laf: Handle, v: State, i: nat)
    requires Start(st) && Turn(o, st, root, laf, v, i)
    requires Top(v.main, i) in v.fs && v.fs[Top(v.main, i)].Metafile?
    ensures var h, r := Top(v.main, i), Run(o, st, root, laf);
            var e := Dirent("lostfile." + Decimal(h), h);
            var full := forall x :: x in v.fs[h].dfiles ==> x != h && Listed(v, x);
            && (e in Entries(r.fs, laf) <==> full || e in Entries(v.fs, laf))
            && (h in r.fs <==> full)
  {
    var s := v.(main := PopAt(v.main, i));
    TurnToEnd(o, st, root, laf, v, i);
    PopGone(v, i);
    PopListed(v, s, i);
    FileToEnd(o, s, Salvage(o, s, laf, Top(v.main, i), i), Run(o, st, root, laf), laf, Top(v.main, i), i);
  }

  lemma FileToEnd(o: Options, s: State, t: State, r: State, laf: Handle, h: Handle, i: nat)
    requires Sound(s) && s.alt.Some? && i < |s.main| && !s.halted && o.destructive && h in s.fs && s.fs[h].Metafile?
    requires !Listed(s, h) && laf in s.fs && s.fs[laf].Directory?
    requires t == Salvage(o, s, laf, h, i) && !t.halted && Third(o, t) && laf in t.fs && !Listed(t, laf) && r == Rest(o, t, laf)
    ensures var e := Dirent("lostfile." + Decimal(h), h);
            var full := forall x :: x in s.fs[h].dfiles ==> Listed(s, x);
            && (e in Entries(r.fs, laf) <==> full || e in Entries(s.fs, laf))
            && (h in r.fs <==> full)
  {
    FileTurn(o, s, laf, h, i);
    SmallerLeft(s, s.(main := t.main, alt := t.alt));
    StaysToEnd(o, t, r, laf, Dirent("lostfile." + Decimal(h), h));
  }
}
