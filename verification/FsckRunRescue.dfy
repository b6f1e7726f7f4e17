/**
 Files claimed in passes 2 and 3, to the end of the run: when they have all their datafiles, and that they have those
 they took alone.
 */
module FsckRunRescue {
  import opened Wrappers
  import opened HandleLists
  import opened FsckModel
  import opened FsckPasses
  import opened FsckFrame
  import opened FsckLinks
  import opened FsckIntact
  import opened FsckOwners
  import opened FsckPassOne
  import opened FsckTurns
  import opened FsckOwnersRun
  import opened FsckRun
  import opened FsckRunOwners
  import opened FsckRescue
  import opened FsckVisits
  import opened FsckWalkRescue

  // ---------- from pass 2 to the end ----------

  /** What pass 2 holds is there when the run ends, however it ends. */
  lemma HeldAtEnd(o: Options, st: State, root: Handle, laf: Handle, x: Handle)
    requires Start(st) && !PassOne(o, st, root).halted && Held(PassTwo(o, PassOne(o, st, root)), x)
    ensures x in Run(o, st, root, laf).fs
  {
    var s2 := PassTwo(o, PassOne(o, st, root));
    TwoPasses(o, st, root);
    if !s2.halted {
      ThirdStage(o, st, root, laf);
      var s3 := PassThree(o, s2, laf);
      if !s3.halted {
        NextPassListed(s3, None);
        CullKeeps(o, NextPass(s3, None));
      }
    }
  }

  /** What is gone after pass 2 stays gone. */
  lemma GoneAfterTwo(o: Options, st: State, root: Handle, laf: Handle, x: Handle)
    requires Start(st) && !Run(o, st, root, laf).halted && x !in PassTwo(o, PassOne(o, st, root)).fs
    ensures x !in Run(o, st, root, laf).fs
  {
    var s3 := PassThree(o, PassTwo(o, PassOne(o, st, root)), laf);
    ThirdStage(o, st, root, laf);
    CullKeeps(o, NextPass(s3, None));
  }

  lemma LeftUnclaimed(base: Fs, s2: State, t2: State, m: Handle, x: Handle)
    requires SameParts(base, s2.fs) && Sole(base, m, x) && x in s2.fs && t2.fs == s2.fs
    requires Listed(t2, x) && !Listed(t2, m)
    ensures Unclaimed(t2, x)
  {
    assert Kin(base[x], s2.fs[x]);
    forall k | Listed(t2, k) && k in t2.fs ensures x !in Parts(t2.fs[k]) { assert Kin(base[k], s2.fs[k]); }
  }

  /** What pass 2 loses is gone when a destructive run is complete. */
  lemma LostAtEnd(o: Options, base: Fs, st: State, root: Handle, laf: Handle, m: Handle, x: Handle)
    requires Start(st) && o.destructive && !Run(o, st, root, laf).halted
    requires var s2 := PassTwo(o, PassOne(o, st, root));
             SameParts(base, s2.fs) && Sole(base, m, x) && Lost(s2, m, x)
    ensures x !in Run(o, st, root, laf).fs
  {
    var s2 := PassTwo(o, PassOne(o, st, root));
    if x !in s2.fs {
      GoneAfterTwo(o, st, root, laf, x);
    } else {
      TwoPasses(o, st, root);
      ThirdStage(o, st, root, laf);
      var t2 := NextPass(s2, Some(Fresh(s2.alt.value)));
      NextPassListed(s2, Some(Fresh(s2.alt.value)));
      LeftUnclaimed(base, s2, t2, m, x);
      RestOfRun(o, t2, laf, x);
    }
  }

  /**
   After pass 2: a datafile of a file that was claimed, and of no other object, is there when the run ends exactly when
   it is not in hl_notree.
   */
  lemma AfterPassTwo(o: Options, st: State, root: Handle, laf: Handle, m: Handle, x: Handle)
    requires Start(st) && o.destructive && !Run(o, st, root, laf).halted
    requires var s2 := PassTwo(o, PassOne(o, st, root));
             Sole(s2.fs, m, x) && !In(s2.alt.value, m)
    ensures x in Run(o, st, root, laf).fs <==> !In(PassTwo(o, PassOne(o, st, root)).alt.value, x)
  {
    var s2 := PassTwo(o, PassOne(o, st, root));
    TwoPasses(o, st, root);
    if In(s2.alt.value, x) {
      LostAtEnd(o, s2.fs, st, root, laf, m, x);
    } else {
      HeldAtEnd(o, st, root, laf, x);
    }
  }

  // ---------- claims of pass 2 ----------

  lemma SecondOwn(o: Options, base: Fs, st: State, root: Handle)
    requires Start(st) && !PassOne(o, st, root).halted && SameParts(base, PassOne(o, st, root).fs)
    ensures var s1 := PassOne(o, st, root);
            Own(base, s1.(alt := Some(Fresh(s1.main))), HomeIn(st.main))
  {
    var s1 := PassOne(o, st, root);
    StartLocated(st);
    PassOneFrame(o, st, root);
    PassOneInv(o, st, root);
    LocatedShrinks(st, s1, HomeIn(st.main));
    EmptyOwn(o, base, s1, HomeIn(st.main));
  }

  /** An empty second list changes nothing. */
  lemma EmptyOwn(o: Options, base: Fs, s1: State, home: Handle -> nat)
    requires Sound(s1) && Unique(s1) && Backed(s1) && Located(s1, home) && SameParts(base, s1.fs) && s1.alt.None?
    ensures Own(base, s1.(alt := Some(Fresh(s1.main))), home)
  {
    SecondStart(o, s1);
    var s := s1.(alt := Some(Fresh(s1.main)));
    assert Located(s, home);
    assert Owned(base, s, {}, {});
  }

  /** From a visit of pass 2 to the end of pass 2. */
  lemma VisitToTwo(o: Options, base: Fs, st: State, root: Handle, v: State, d: Handle, e: Dirent, m: Handle, x: Handle)
    requires Start(st) && !PassOne(o, st, root).halted && SameParts(base, PassOne(o, st, root).fs) && Pair(base, m, x)
    requires InPassTwo(o, PassOne(o, st, root), v, d, e)
    ensures Own(base, v, HomeIn(st.main)) && !v.halted && v.alt.Some?
    ensures Carries(o, base, Visit(o, v, d, e), PassTwo(o, PassOne(o, st, root)), m, x)
  {
    var s1 := PassOne(o, st, root);
    SecondOwn(o, base, st, root);
    SubTreesAfter(o, base, s1.(alt := Some(Fresh(s1.main))), v, d, e, m, x, HomeIn(st.main));
  }

  /**
   A file that pass 2 claims, and whose datafiles no other object has, still has all its datafiles when the run is over
   exactly when they are in step at the claim.
   */
  lemma WalkRescueIff(o: Options, st: State, root: Handle, laf: Handle, v: State, d: Handle, e: Dirent)
    requires Start(st) && o.destructive && !Run(o, st, root, laf).halted
    requires InPassTwo(o, PassOne(o, st, root), v, d, e) && Claimable(PassOne(o, st, root).fs, v, e.handle)
    requires forall x :: x in v.fs[e.handle].dfiles ==> Sole(PassOne(o, st, root).fs, e.handle, x)
    ensures var hs, home := v.fs[e.handle].dfiles, HomeIn(st.main);
            (forall x :: x in hs ==> x in Run(o, st, root, laf).fs) <==> InStep(v.main, hs, home(hs[|hs| - 1]), home)
  {
    var s1 := PassOne(o, st, root);
    var hs := v.fs[e.handle].dfiles;
    assert hs[0] in hs;
    VisitToTwo(o, s1.fs, st, root, v, d, e, e.handle, hs[0]);
    ClaimFate(o, s1.fs, v, d, e, HomeIn(st.main));
    forall x | x in hs ensures x in Run(o, st, root, laf).fs <==> !Listed(Visit(o, v, d, e), x) {
      DatafileFate(o, st, root, laf, v, d, e, x);
    }
  }

  lemma DatafileFate(o: Options, st: State, root: Handle, laf: Handle, v: State, d: Handle, e: Dirent, x: Handle)
    requires Start(st) && o.destructive && !Run(o, st, root, laf).halted
    requires InPassTwo(o, PassOne(o, st, root), v, d, e) && Sole(PassOne(o, st, root).fs, e.handle, x)
    requires Sound(v) && var t := Visit(o, v, d, e); if Listed(t, x) then Lost(t, e.handle, x) else Held(t, x)
    ensures x in Run(o, st, root, laf).fs <==> !Listed(Visit(o, v, d, e), x)
  {
    var s1 := PassOne(o, st, root);
    VisitToTwo(o, s1.fs, st, root, v, d, e, e.handle, x);
    if Listed(Visit(o, v, d, e), x) {
      TwoPasses(o, st, root);
      LostAtEnd(o, s1.fs, st, root, laf, e.handle, x);
    } else {
      HeldAtEnd(o, st, root, laf, x);
    }
  }

  // ---------- claims of pass 3 ----------

  /** The loop of fill_lost_and_found from `st` comes to state `v`. */
  ghost predicate InFill(o: Options, st: State, laf: Handle, v: State)
    requires Sound(st) && st.alt.Some?
    decreases Size(st.main)
  {
    var i := PopServer(st.main);
    || v == st
    || (&& !st.halted && i.Some?
        && var h := Top(st.main, i.value);
           var s := st.(main := PopAt(st.main, i.value));
           PopSound(st, i.value);
           var t := Salvage(o, s, laf, h, i.value);
           SizeShrunk(s.main, t.main);
           SalvageSound(o, s, laf, h, i.value);
           InFill(o, t, laf, v))
  }

  lemma {:induction false} FillReaches(o: Options, base: Fs, st: State, laf: Handle, v: State, home: Handle -> nat)
    requires Third(o, st) && Own(base, st, home) && InFill(o, st, laf, v)
    ensures Third(o, v) && Own(base, v, home) && FillLoop(o, v, laf) == FillLoop(o, st, laf)
    decreases Size(st.main)
  {
    if v != st {
      var i := PopServer(st.main).value;
      var s := st.(main := PopAt(st.main, i));
      PopGone(st, i);
      var t := Salvage(o, s, laf, Top(st.main, i), i);
      FillTurn(o, st, laf, i);
      SalvageOwn(o, base, st, laf, i, {}, {}, home);
      FillReaches(o, base, t, laf, v, home);
    }
  }

  /** Pass 3 comes to state `v`. */
  ghost predicate InPassThree(o: Options, st: State, laf: Handle, v: State)
    requires Sound(st) && st.alt.Some?
  {
    FreshEmpty(st.alt.value);
    InFill(o, NextPass(st, Some(Fresh(st.alt.value))), laf, v)
  }

  lemma ThirdOwn(o: Options, base: Fs, st: State, root: Handle)
    requires Start(st) && !PassOne(o, st, root).halted && SameParts(base, PassOne(o, st, root).fs)
    ensures var s2 := PassTwo(o, PassOne(o, st, root));
            Own(base, NextPass(s2, Some(Fresh(s2.alt.value))), HomeIn(st.main))
  {
    var s1 := PassOne(o, st, root);
    SecondOwn(o, base, st, root);
    SubTreesOwn(o, base, s1.(alt := Some(Fresh(s1.main))), {}, {}, HomeIn(st.main));
    NextOwn(base, PassTwo(o, s1), {}, {}, HomeIn(st.main));
  }

  /** The same for a file that pass 3 claims. */
  lemma FillRescueIff(o: Options, st: State, root: Handle, laf: Handle, v: State, i: nat)
    requires Start(st) && o.destructive && !Run(o, st, root, laf).halted
    requires InPassThree(o, PassTwo(o, PassOne(o, st, root)), laf, v)
    requires !v.halted && PopServer(v.main) == Some(i) && Rescuable(v, i)
    ensures var hs, home := v.fs[Top(v.main, i)].dfiles, HomeIn(st.main);
            (forall x :: x in hs ==> x in Run(o, st, root, laf).fs) <==> InStep(PopAt(v.main, i), hs, home(hs[|hs| - 1]), home)
  {
    var s1 := PassOne(o, st, root);
    var s2 := PassTwo(o, s1);
    ThirdStage(o, st, root, laf);
    ThirdOwn(o, s1.fs, st, root);
    FillReaches(o, s1.fs, NextPass(s2, Some(Fresh(s2.alt.value))), laf, v, HomeIn(st.main));
    RescueIff(o, v, laf, i, HomeIn(st.main));
  }

  // ---------- what is taken in step is not shared with later files ----------

  lemma SalvageSpares(o: Options, base: Fs, st: State, laf: Handle, i: nat, x: Handle, home: Handle -> nat)
    requires Own(base, st, home) && st.alt.Some? && i < |st.main| && st.main[i] != [] && !st.halted && Held(st, x)
    ensures var s := st.(main := PopAt(st.main, i));
            Sound(s) && var t := Salvage(o, s, laf, Top(st.main, i), i); Held(t, x) && Spared(base, st, t, x)
  {
    var s := st.(main := PopAt(st.main, i));
    PopGone(st, i);
    SalvageRespects(o, st, laf, i);
    TurnSpares(o, base, s, laf, Top(st.main, i), i, x);
  }

  lemma TurnSpares(o: Options, base: Fs, s: State, laf: Handle, h: Handle, i: nat, x: Handle)
    requires Sound(s) && s.alt.Some? && i < |s.main| && SameParts(base, s.fs) && !Listed(s, x)
    ensures Spared(base, s, Salvage(o, s, laf, h, i), x)
  {
    var b := GetAttr(s.fs, h);
    if b.Some? && b.value.Metafile? {
      assert Kin(base[h], s.fs[h]);
      FileSpares(o, base, s, laf, h, x);
    } else if b.Some? && b.value.Directory? {
      assert SalvageDirectory(o, s, laf, h, b.value.dirdata).kept == s.kept;
    }
  }

  lemma FileSpares(o: Options, base: Fs, s: State, laf: Handle, h: Handle, x: Handle)
    requires Sound(s) && h in s.fs && s.fs[h].Metafile? && h in base && base[h] == s.fs[h] && !Listed(s, x)
    ensures Spared(base, s, SalvageFile(o, s, laf, h, s.fs[h].dfiles), x)
  {
    ClaimSound(s, s.fs[h].dfiles);
    var r := SalvageFile(o, s, laf, h, s.fs[h].dfiles);
    forall k | k in r.kept - s.kept ensures x !in DatafilesOf(base, k) { assert k == h; }
  }

  lemma {:induction false} FillSpares(o: Options, base: Fs, st: State, laf: Handle, x: Handle, home: Handle -> nat)
    requires Own(base, st, home) && st.alt.Some? && Held(st, x)
    ensures Spared(base, st, FillLoop(o, st, laf), x)
    decreases Size(st.main)
  {
    var i := PopServer(st.main);
    if !st.halted && i.Some? {
      var s := st.(main := PopAt(st.main, i.value));
      PopGone(st, i.value);
      var t := Salvage(o, s, laf, Top(st.main, i.value), i.value);
      SalvageSpares(o, base, st, laf, i.value, x, home);
      SalvageOwn(o, base, st, laf, i.value, {}, {}, home);
      SizeShrunk(s.main, t.main);
      FillSpares(o, base, t, laf, x, home);
    }
  }

  /** What pass 2 holds goes to no file that a later pass keeps. */
  lemma SparedToEnd(o: Options, st: State, root: Handle, laf: Handle, x: Handle)
    requires Start(st) && !PassOne(o, st, root).halted && Held(PassTwo(o, PassOne(o, st, root)), x)
    ensures Spared(st.fs, PassTwo(o, PassOne(o, st, root)), Run(o, st, root, laf), x)
  {
    var s1 := PassOne(o, st, root);
    var s2 := PassTwo(o, s1);
    if !s2.halted {
      PassOneFrame(o, st, root);
      ThirdOwn(o, st.fs, st, root);
      TwoPasses(o, st, root);
      var t2 := NextPass(s2, Some(Fresh(s2.alt.value)));
      NextPassListed(s2, Some(Fresh(s2.alt.value)));
      FillSpares(o, st.fs, t2, laf, x, HomeIn(st.main));
      ThirdStage(o, st, root, laf);
      var s3 := PassThree(o, s2, laf);
      if !s3.halted { CullKeeps(o, NextPass(s3, None)); }
    }
  }

  /**
   A file that pass 2 claims in step shares no datafile with any file kept after it, whatever their servers and however
   the run ends.
   */
  lemma WalkClaimOwns(o: Options, st: State, root: Handle, laf: Handle, v: State, d: Handle, e: Dirent, k: Handle)
    requires Start(st) && !PassOne(o, st, root).halted
    requires InPassTwo(o, PassOne(o, st, root), v, d, e) && Claimable(st.fs, v, e.handle)
    requires var hs, home := v.fs[e.handle].dfiles, HomeIn(st.main); InStep(v.main, hs, home(hs[|hs| - 1]), home)
    requires Sound(v) && k in Run(o, st, root, laf).kept - Visit(o, v, d, e).kept
    ensures Disjoint(v.fs[e.handle].dfiles, DatafilesOf(st.fs, k))
  {
    var s1 := PassOne(o, st, root);
    var s2 := PassTwo(o, s1);
    var hs := v.fs[e.handle].dfiles;
    PassOneFrame(o, st, root);
    assert hs[0] in hs;
    VisitToTwo(o, st.fs, st, root, v, d, e, e.handle, hs[0]);
    ClaimFate(o, st.fs, v, d, e, HomeIn(st.main));
    forall x | x in hs ensures x !in DatafilesOf(st.fs, k) {
      VisitToTwo(o, st.fs, st, root, v, d, e, e.handle, x);
      SparedToEnd(o, st, root, laf, x);
      assert k in s2.kept || k in Run(o, st, root, laf).kept - s2.kept;
    }
  }

  /** Pass 3 pops a file whose datafiles are all listed, all different, and in step. */
  ghost predicate InStepTurn(v: State, i: nat, home: Handle -> nat) {
    && PopServer(v.main) == Some(i) && !v.halted
    && var m := Top(v.main, i);
       && m in v.fs && v.fs[m].Metafile? && v.fs[m].dfiles != [] && Distinct(v.fs[m].dfiles)
       && (forall x :: x in v.fs[m].dfiles ==> Listed(v.(main := PopAt(v.main, i)), x))
       && InStep(PopAt(v.main, i), v.fs[m].dfiles, home(v.fs[m].dfiles[|v.fs[m].dfiles| - 1]), home)
  }

  /** Likewise for a file that pass 3 claims in step. */
  lemma FillClaimOwns(o: Options, st: State, root: Handle, laf: Handle, v: State, i: nat, k: Handle)
    requires Start(st) && !PassOne(o, st, root).halted && !PassTwo(o, PassOne(o, st, root)).halted
    requires InPassThree(o, PassTwo(o, PassOne(o, st, root)), laf, v) && InStepTurn(v, i, HomeIn(st.main))
    requires var s := v.(main := PopAt(v.main, i));
             && Sound(s) && s.alt.Some?
             && k in Run(o, st, root, laf).kept - Salvage(o, s, laf, Top(v.main, i), i).kept
    ensures Disjoint(v.fs[Top(v.main, i)].dfiles, DatafilesOf(st.fs, k))
  {
    var s2 := PassTwo(o, PassOne(o, st, root));
    PassOneFrame(o, st, root);
    ThirdStage(o, st, root, laf);
    ThirdOwn(o, st.fs, st, root);
    FillReaches(o, st.fs, NextPass(s2, Some(Fresh(s2.alt.value))), laf, v, HomeIn(st.main));
    var s3 := PassThree(o, s2, laf);
    if !s3.halted { CullKeeps(o, NextPass(s3, None)); }
    RescueClaimOwns(o, st.fs, v, laf, i, k, HomeIn(st.main));
  }

  lemma RescueClaimOwns(o: Options, base: Fs, v: State, laf: Handle, i: nat, k: Handle, home: Handle -> nat)
    requires Own(base, v, home) && v.alt.Some? && InStepTurn(v, i, home)
    requires var s := v.(main := PopAt(v.main, i));
             Sound(s) && k in FillLoop(o, v, laf).kept - Salvage(o, s, laf, Top(v.main, i), i).kept
    ensures Disjoint(v.fs[Top(v.main, i)].dfiles, DatafilesOf(base, k))
  {
    var s := v.(main := PopAt(v.main, i));
    var t := Salvage(o, s, laf, Top(v.main, i), i);
    FillUnfolds(o, v, s, t, laf, i);
    TurnHolds(o, base, v, s, t, laf, i, home);
    AllSpared(o, base, t, laf, v.fs[Top(v.main, i)].dfiles, k, home);
  }

  lemma TurnHolds(o: Options, base: Fs, v: State, s: State, t: State, laf: Handle, i: nat, home: Handle -> nat)
    requires Own(base, v, home) && v.alt.Some? && InStepTurn(v, i, home)
    requires s == v.(main := PopAt(v.main, i)) && Sound(s) && t == Salvage(o, s, laf, Top(v.main, i), i)
    ensures Own(base, t, home) && forall x :: x in v.fs[Top(v.main, i)].dfiles ==> Held(t, x)
  {
    PopOwn(base, v, i, {}, {}, home);
    HeldFrom(o, s, t, laf, Top(v.main, i), i, home);
    SalvageOwn(o, base, v, laf, i, {}, {}, home);
  }

  lemma FillUnfolds(o: Options, v: State, s: State, t: State, laf: Handle, i: nat)
    requires Sound(v) && v.alt.Some? && !v.halted && PopServer(v.main) == Some(i)
    requires s == v.(main := PopAt(v.main, i)) && Sound(s) && t == Salvage(o, s, laf, Top(v.main, i), i)
    ensures Sound(t) && FillLoop(o, v, laf) == FillLoop(o, t, laf)
  {
    PopSound(v, i);
    SalvageSound(o, s, laf, Top(v.main, i), i);
  }

  lemma AllSpared(o: Options, base: Fs, t: State, laf: Handle, hs: seq<Handle>, k: Handle, home: Handle -> nat)
    requires Own(base, t, home) && t.alt.Some? && (forall x :: x in hs ==> Held(t, x))
    requires k in FillLoop(o, t, laf).kept - t.kept
    ensures Disjoint(hs, DatafilesOf(base, k))
  {
    forall x | x in hs ensures x !in DatafilesOf(base, k) { FillSpares(o, base, t, laf, x, home); }
  }

  /** A claim of pass 3 in step: all the datafiles are held from then on. */
  lemma HeldFrom(o: Options, s: State, t: State, laf: Handle, m: Handle, i: nat, home: Handle -> nat)
    requires Sound(s) && Unique(s) && Backed(s) && Located(s, home) && s.alt.Some? && i < |s.main|
    requires m in s.fs && s.fs[m].Metafile? && s.fs[m].dfiles != [] && Distinct(s.fs[m].dfiles)
    requires forall x :: x in s.fs[m].dfiles ==> Listed(s, x)
    requires InStep(s.main, s.fs[m].dfiles, home(s.fs[m].dfiles[|s.fs[m].dfiles| - 1]), home)
    requires t == Salvage(o, s, laf, m, i)
    ensures forall x :: x in s.fs[m].dfiles ==> Held(t, x)
  {
    var hs := s.fs[m].dfiles;
    ClaimIff(s, hs, home);
    NamedFile(o, s, laf, m, i, ClaimAll(s.main, s.alt, hs));
  }
}
