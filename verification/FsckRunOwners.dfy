/**
 Which files own their datafiles when a run ends: what the four passes guarantee together.
 */
module FsckRunOwners {
  import opened Wrappers
  import opened HandleLists
  import opened FsckModel
  import opened FsckPasses
  import opened FsckFrame
  import opened FsckLinks
  import opened FsckOwners
  import opened FsckPassOne
  import opened FsckTurns
  import opened FsckOwnersRun
  import opened FsckRun

  // ---------- where a handle lives ----------

  /** One server reported all these handles. */
  ghost predicate OnOneServer(l: Lists, hs: seq<Handle>) {
    exists i :: 0 <= i < |l| && forall x :: x in hs ==> x in l[i]
  }

  /** The server that reported a handle. */
  ghost function HomeIn(l: Lists): Handle -> nat {
    h => if In(l, h) then Find(l, h).value else 0
  }

  lemma StartLocated(st: State)
    requires Start(st)
    ensures Located(st, HomeIn(st.main))
  {
    forall i, h | 0 <= i < |st.main| && h in st.main[i] ensures HomeIn(st.main)(h) == i {
      assert Times(st, h) <= 1;
      assert In(st.main, h);
      OneServer(st.main, h, i, Find(st.main, h).value);
    }
  }

  lemma OneServerTogether(st: State, m: Handle)
    requires Start(st) && OnOneServer(st.main, DatafilesOf(st.fs, m))
    ensures Together(st.fs, m, HomeIn(st.main))
  {
    var i :| 0 <= i < |st.main| && forall x :: x in DatafilesOf(st.fs, m) ==> x in st.main[i];
    StartLocated(st);
  }

  // ---------- the passes ----------

  /** In pass 1 every file can be followed. */
  lemma FirstOwn(o: Options, st: State, root: Handle, home: Handle -> nat)
    requires Start(st) && Located(st, home)
    ensures OwnPre(st.fs, PassOne(o, st, root), {}, st.fs.Keys, home)
  {
    var t := PassOneEnters(o, st, root);
    var s1 := PassOne(o, st, root);
    var all := st.fs.Keys;
    SmallerLeft(st, t);
    ShrinkOwn(st.fs, st, t, {}, all, home);
    if !t.halted { DescendOwn(o, st.fs, t, root, {}, all, home); }
  }

  lemma FirstKept(o: Options, st: State, root: Handle)
    requires Start(st)
    ensures var s1 := PassOne(o, st, root);
            s1.alt.None? && FsShrunk(st.fs, s1.fs) && FilesKept(st.fs, s1)
  {
    PassOneFrame(o, st, root);
    ListsKept(st.main, st.alt);
    ShrunkParts(st.fs, st.fs, PassOne(o, st, root).fs);
  }

  /** Files kept in pass 1 are followed from then on, whatever their servers. */
  lemma FollowKept(base: Fs, st: State, g: set<Handle>, home: Handle -> nat)
    requires OwnPre(base, st, {}, base.Keys, home) && st.alt.None?
    ensures OwnPre(base, st, st.kept, g, home)
  {
    forall m | m in st.kept ensures m in {} + base.Keys || DatafilesOf(base, m) == [] {
    }
  }

  /** Ownership through passes 2 and 3, from whatever pass 1 guarantees. */
  lemma LaterOwn(o: Options, base: Fs, s1: State, laf: Handle, f: set<Handle>, g: set<Handle>, home: Handle -> nat)
    requires OwnPre(base, s1, f, g, home) && s1.alt.None? && !s1.halted && forall m :: m in g ==> Together(base, m, home)
    requires FsShrunk(base, s1.fs) && FilesKept(base, s1)
    ensures var s2 := PassTwo(o, s1);
            && OwnPre(base, s2, f, g, home) && FilesKept(base, s2)
            && (!s2.halted ==> OwnPre(base, PassThree(o, s2, laf), f, g, home) && FilesKept(base, PassThree(o, s2, laf)))
  {
    SecondStart(o, s1);
    var s := s1.(alt := Some(Fresh(s1.main)));
    assert Located(s, home);
    SubTreesOwn(o, base, s, f, g, home);
    SubTreesFiles(o, base, s);
    var s2 := PassTwo(o, s1);
    if !s2.halted {
      NextOwn(base, s2, f, g, home);
      var t2 := NextPass(s2, Some(Fresh(s2.alt.value)));
      FillOwn(o, base, t2, laf, f, g, home);
      FillFiles(o, base, t2, laf);
    }
  }

  lemma NextOwn(base: Fs, st: State, f: set<Handle>, g: set<Handle>, home: Handle -> nat)
    requires OwnPre(base, st, f, g, home) && st.alt.Some?
    ensures OwnPre(base, NextPass(st, Some(Fresh(st.alt.value))), f, g, home)
  {
    NextPassListed(st, Some(Fresh(st.alt.value)));
  }

  /** What a run leaves to the files that are followed; every linked file is a kept one. */
  ghost predicate EndOwned(base: Fs, r: State, f: set<Handle>, g: set<Handle>) {
    && (forall m, x :: m in r.kept && m in f + g && x in DatafilesOf(base, m) ==> x in r.fs)
    && (forall m, k :: m in r.kept && k in r.kept && m != k && (m in f || (m in g && k in f + g)) ==>
          Disjoint(DatafilesOf(base, m), DatafilesOf(base, k)))
    && (forall l :: l in r.links && l.target in base && base[l.target].Metafile? ==> l.target in r.kept)
  }

  lemma RunOwn(o: Options, st: State, root: Handle, laf: Handle, g: set<Handle>, home: Handle -> nat)
    requires Start(st) && Located(st, home) && forall m :: m in g ==> Together(st.fs, m, home)
    ensures EndOwned(st.fs, Run(o, st, root, laf), PassOne(o, st, root).kept, g)
  {
    var s1 := PassOne(o, st, root);
    FirstOwn(o, st, root, home);
    FirstKept(o, st, root);
    FollowKept(st.fs, s1, g, home);
    if s1.halted {
      StopOwn(st.fs, s1, s1.kept, g);
    } else {
      LaterOwn(o, st.fs, s1, laf, s1.kept, g, home);
      LaterEnd(o, st, root, laf, g, home);
    }
  }

  lemma LaterEnd(o: Options, st: State, root: Handle, laf: Handle, g: set<Handle>, home: Handle -> nat)
    requires Start(st) && !PassOne(o, st, root).halted
    requires var s1 := PassOne(o, st, root);
             var s2 := PassTwo(o, s1);
             && OwnPre(st.fs, s2, s1.kept, g, home) && FilesKept(st.fs, s2)
             && (!s2.halted ==> OwnPre(st.fs, PassThree(o, s2, laf), s1.kept, g, home) && FilesKept(st.fs, PassThree(o, s2, laf)))
    ensures EndOwned(st.fs, Run(o, st, root, laf), PassOne(o, st, root).kept, g)
  {
    var s1 := PassOne(o, st, root);
    var s2 := PassTwo(o, s1);
    if s2.halted {
      StopOwn(st.fs, s2, s1.kept, g);
    } else {
      var s3 := PassThree(o, s2, laf);
      ThirdStage(o, st, root, laf);
      StopOwn(st.fs, s3, s1.kept, g);
      if !s3.halted { CullOwn(o, st.fs, s3, s1.kept, g); }
    }
  }

  /** When the program stops early. */
  lemma StopOwn(base: Fs, st: State, f: set<Handle>, g: set<Handle>)
    requires Owned(base, st, f, g) && FilesKept(base, st)
    ensures EndOwned(base, st, f, g)
  {
  }

  lemma CullOwn(o: Options, base: Fs, st: State, f: set<Handle>, g: set<Handle>)
    requires Sound(st) && Unique(st) && st.alt.Some? && Fourth(NextPass(st, None)) && Owned(base, st, f, g) && FilesKept(base, st)
    ensures EndOwned(base, PassFour(o, st), f, g)
  {
    var t := NextPass(st, None);
    NextPassListed(st, None);
    CullKeeps(o, t);
    forall m, x | m in st.kept && m in f + g && x in DatafilesOf(base, m) ensures x in PassFour(o, st).fs {
      assert x in t.fs && !Listed(t, x);
    }
  }

  // ---------- theorems about whole runs ----------

  /** A file that keeps its datafiles to itself: pass 1 kept it, or all its datafiles are on one server. */
  ghost predicate Secure(o: Options, st: State, root: Handle, m: Handle)
    requires Sound(st) && st.alt.None?
  {
    m in PassOne(o, st, root).kept || OnOneServer(st.main, DatafilesOf(st.fs, m))
  }

  /**
   A kept file has all its datafiles when the run ends, however it ends and on any graph, if pass 1 kept it or its
   datafiles are all on one server.
   */
  lemma RunKeepsDatafiles(o: Options, st: State, root: Handle, laf: Handle, m: Handle)
    requires Start(st) && m in Run(o, st, root, laf).kept && Secure(o, st, root, m)
    ensures forall x :: x in DatafilesOf(st.fs, m) ==> x in Run(o, st, root, laf).fs
  {
    var home := HomeIn(st.main);
    StartLocated(st);
    if m in PassOne(o, st, root).kept {
      RunOwn(o, st, root, laf, {}, home);
    } else {
      OneServerTogether(st, m);
      RunOwn(o, st, root, laf, {m}, home);
    }
  }

  /**
   Two kept files share no datafile, in any pass and on any graph, if pass 1 kept one of them or each has its
   datafiles on one server.
   */
  lemma RunOwners(o: Options, st: State, root: Handle, laf: Handle, m: Handle, k: Handle)
    requires Start(st) && m in Run(o, st, root, laf).kept && k in Run(o, st, root, laf).kept && m != k
    requires || m in PassOne(o, st, root).kept
             || k in PassOne(o, st, root).kept
             || (OnOneServer(st.main, DatafilesOf(st.fs, m)) && OnOneServer(st.main, DatafilesOf(st.fs, k)))
    ensures Disjoint(DatafilesOf(st.fs, m), DatafilesOf(st.fs, k))
  {
    var home := HomeIn(st.main);
    StartLocated(st);
    if m in PassOne(o, st, root).kept || k in PassOne(o, st, root).kept {
      RunOwn(o, st, root, laf, {}, home);
      assert Disjoint(DatafilesOf(st.fs, m), DatafilesOf(st.fs, k)) || Disjoint(DatafilesOf(st.fs, k), DatafilesOf(st.fs, m));
    } else {
      OneServerTogether(st, m);
      OneServerTogether(st, k);
      RunOwn(o, st, root, laf, {m, k}, home);
    }
  }

  /** The same for two files that are named by entries of walked directories after a complete destructive run. */
  lemma RunExclusiveOwners(o: Options, st: State, root: Handle, laf: Handle, d: Handle, e: Dirent, c: Handle, f: Dirent)
    requires Start(st) && o.destructive
    requires var r := Run(o, st, root, laf);
             && !r.halted
             && d in r.walked && e in Entries(r.fs, d) && c in r.walked && f in Entries(r.fs, c)
             && e.handle in r.fs && r.fs[e.handle].Metafile? && f.handle in r.fs && r.fs[f.handle].Metafile?
    requires e.handle != f.handle
    requires || e.handle in PassOne(o, st, root).kept
             || f.handle in PassOne(o, st, root).kept
             || (OnOneServer(st.main, DatafilesOf(st.fs, e.handle)) && OnOneServer(st.main, DatafilesOf(st.fs, f.handle)))
    ensures var r := Run(o, st, root, laf);
            Disjoint(r.fs[e.handle].dfiles, r.fs[f.handle].dfiles)
  {
    var r := Run(o, st, root, laf);
    RunStages(o, st, root, laf);
    RespectsTrans(o, st, PassOne(o, st, root), r);
    assert Link(d, e.name, e.handle) in r.links + {};
    assert Link(c, f.name, f.handle) in r.links + {};
    assert Kin(st.fs[e.handle], r.fs[e.handle]) && Kin(st.fs[f.handle], r.fs[f.handle]);
    StartLocated(st);
    RunOwn(o, st, root, laf, {}, HomeIn(st.main));
    RunOwners(o, st, root, laf, e.handle, f.handle);
  }
}
