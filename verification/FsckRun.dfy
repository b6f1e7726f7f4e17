/**
 The whole run: what the four passes of pvfs2-fsck guarantee together.
 */
module FsckRun {
  import opened Wrappers
  import opened HandleLists
  import opened FsckModel
  import opened FsckPasses
  import opened FsckFrame
  import opened FsckLinks
  import opened FsckIntact
  import opened FsckPassOne
  import opened FsckTurns

  /** What the passes are given: handles reported once each, none null, all of existing objects. */
  ghost predicate Start(st: State) {
    && st == Initial(st.fs, st.main)
    && Sound(st) && Unique(st) && Backed(st)
  }

  /** No handle is the target of two entries of walked directories. */
  ghost predicate SingleReferences(st: State) {
    forall d, e, c, f ::
      (d in st.walked && e in Entries(st.fs, d) && c in st.walked && f in Entries(st.fs, c) && e.handle == f.handle) ==>
        d == c && e.name == f.name
  }

  lemma RefsSingle(o: Options, st: State)
    requires Refs(o, st) && o.destructive
    ensures SingleReferences(st)
    ensures forall d, e :: d in st.walked && e in Entries(st.fs, d) ==> !Listed(st, e.handle)
  {
    forall d, e | d in st.walked && e in Entries(st.fs, d)
      ensures Link(d, e.name, e.handle) in st.links
    {
      assert Link(d, e.name, e.handle) in st.links + {};
    }
  }

  // ---------- passes 1 and 2 ----------

  lemma TwoPasses(o: Options, st: State, root: Handle)
    requires Start(st)
    ensures var s1 := PassOne(o, st, root);
            var s2 := PassTwo(o, s1);
            && Unique(s1) && Respects(o, st, s1) && (!s1.halted ==> Inv(o, s1, {}, {}) && Backed(s1))
            && Unique(s2) && Respects(o, s1, s2)
            && (!s1.halted && !s2.halted ==> Inv(o, s2, {}, {}) && Backed(s2) && forall h :: !In(s2.main, h))
  {
    var s1 := PassOne(o, st, root);
    PassOneInv(o, st, root);
    PassOneFrame(o, st, root);
    SecondStart(o, s1);
    var s := s1.(alt := Some(Fresh(s1.main)));
    SubTreesRespects(o, s);
    RespectsTrans(o, s1, s, SubTrees(o, s));
    if !s1.halted {
      SubTreesInv(o, s);
      SubTreesBacked(o, s);
    }
  }

  lemma PassOneFrame(o: Options, st: State, root: Handle)
    requires Start(st)
    ensures var r := PassOne(o, st, root);
            && Smaller(st, r) && Unique(r) && Respects(o, st, r) && (!r.halted ==> Backed(r))
            && NewFilesKept(st.fs, st, r) && Paced(o, r)
  {
    var t := PassOneEnters(o, st, root);
    var r := PassOne(o, st, root);
    PassOneInv(o, st, root);
    UniqueShrinks(st, r);
    SmallerLeft(st, t);
    assert Paced(o, st) by { assert st.log == []; }
    assert Paced(o, t);
    if !t.halted {
      DescendFramed(o, st.fs, t, root);
      DescendBacked(o, t, root);
    }
    SmallerRespects(o, st, r);
  }

  /** An empty second list changes nothing. */
  lemma SecondStart(o: Options, st: State)
    requires Sound(st) && Unique(st) && st.alt.None?
    ensures var s := st.(alt := Some(Fresh(st.main)));
            && Sound(s) && Unique(s) && Respects(o, st, s) && (forall h :: Listed(s, h) <==> Listed(st, h))
            && (Backed(st) ==> Backed(s)) && (Inv(o, st, {}, {}) ==> Inv(o, s, {}, {}))
  {
    var s := st.(alt := Some(Fresh(st.main)));
    FreshEmpty(st.main);
    forall h ensures Times(s, h) == Times(st, h) { FreshCount(st.main, h); }
    assert forall h :: Times(s, h) <= 1 by { forall h ensures Times(s, h) <= 1 { assert Times(st, h) <= 1; } }
  }

  /** The entries left in place, and those made in lost+found, name different handles, none of which is still listed. */
  ghost predicate SingleLinks(st: State) {
    && (forall l :: l in st.links ==> !Listed(st, l.target))
    && (forall l, m :: l in st.links && m in st.links && l.target == m.target ==> l == m)
  }

  /**
   After pass 1 and pass 2, on any graph: no directory was walked twice, and the entries left in place name
   different handles, none of them in hl_notree. After a destructive run these are all the entries that walked
   directories have.
   */
  lemma OrphansUnreferenced(o: Options, st: State, root: Handle)
    requires Start(st)
    ensures var s1 := PassOne(o, st, root);
            var s2 := PassTwo(o, s1);
            !s1.halted && !s2.halted ==>
              && (forall i, j :: 0 <= i < j < |s2.walked| ==> s2.walked[i] != s2.walked[j])
              && SingleLinks(s2)
              && (o.destructive ==>
                    && SingleReferences(s2)
                    && forall d, e :: d in s2.walked && e in Entries(s2.fs, d) ==> !In(s2.alt.value, e.handle))
  {
    var s1 := PassOne(o, st, root);
    var s2 := PassTwo(o, s1);
    TwoPasses(o, st, root);
    if !s1.halted && !s2.halted && o.destructive { RefsSingle(o, s2); }
  }

  // ---------- all four passes ----------

  lemma ThirdStart(o: Options, st: State)
    requires Sound(st) && Unique(st) && st.alt.Some? && Backed(st) && Inv(o, st, {}, {})
    ensures var s := NextPass(st, Some(Fresh(st.alt.value)));
            Third(o, s) && Respects(o, st, s)
  {
    NextPassListed(st, Some(Fresh(st.alt.value)));
    NextPassRespects(o, st, Some(Fresh(st.alt.value)));
    FreshEmpty(st.alt.value);
    RefsShrinks(o, st, NextPass(st, Some(Fresh(st.alt.value))));
  }

  lemma FourthStart(o: Options, st: State)
    requires Third(o, st)
    ensures var s := NextPass(st, None);
            Fourth(s) && Respects(o, st, s) && Refs(o, s)
  {
    NextPassListed(st, None);
    NextPassRespects(o, st, None);
    RefsShrinks(o, st, NextPass(st, None));
  }

  /** Pass 3 starts and ends in states that pass 4 can work with. */
  lemma ThirdStage(o: Options, st: State, root: Handle, laf: Handle)
    requires Start(st) && !PassOne(o, st, root).halted && !PassTwo(o, PassOne(o, st, root)).halted
    ensures var s2 := PassTwo(o, PassOne(o, st, root));
            var t2 := NextPass(s2, Some(Fresh(s2.alt.value)));
            var s3 := PassThree(o, s2, laf);
            && Third(o, t2) && Third(o, s3) && Respects(o, s2, s3)
            && (!s3.halted ==> Fourth(NextPass(s3, None)) && forall h :: !In(s3.main, h))
  {
    var s2 := PassTwo(o, PassOne(o, st, root));
    TwoPasses(o, st, root);
    ThirdStart(o, s2);
    var t2 := NextPass(s2, Some(Fresh(s2.alt.value)));
    FillKeeps(o, t2, laf);
    var s3 := PassThree(o, s2, laf);
    RespectsTrans(o, s2, t2, s3);
    if !s3.halted { FourthStart(o, s3); }
  }

  /** The four states a run goes through, as far as it gets. */
  lemma RunStages(o: Options, st: State, root: Handle, laf: Handle)
    requires Start(st)
    ensures var s1 := PassOne(o, st, root);
            var r := Run(o, st, root, laf);
            && Respects(o, st, s1) && Respects(o, s1, r)
            && (!r.halted ==> !s1.halted && Refs(o, r) && forall h :: !In(r.main, h))
  {
    var s1 := PassOne(o, st, root);
    TwoPasses(o, st, root);
    assert Respects(o, s1, s1);
    if !s1.halted && !PassTwo(o, s1).halted {
      var s2 := PassTwo(o, s1);
      var s3 := PassThree(o, s2, laf);
      ThirdStage(o, st, root, laf);
      RespectsTrans(o, s1, s2, s3);
      if !s3.halted {
        FourthStart(o, s3);
        var t3 := NextPass(s3, None);
        CullKeeps(o, t3);
        var r := PassFour(o, s3);
        RespectsTrans(o, s1, s3, t3);
        RespectsTrans(o, s1, t3, r);
        RefsShrinks(o, t3, r);
      }
    }
  }

  /**
   Pass 4 never fails one of its asserts: with prompts answered Y it always ends, and a destructive one removes
   exactly the objects pass 3 left on the list.
   */
  lemma LeftoversCulled(o: Options, st: State, root: Handle, laf: Handle)
    requires Start(st) && !PassOne(o, st, root).halted && !PassTwo(o, PassOne(o, st, root)).halted
    requires !PassThree(o, PassTwo(o, PassOne(o, st, root)), laf).halted
    ensures var s3 := PassThree(o, PassTwo(o, PassOne(o, st, root)), laf);
            var r := Run(o, st, root, laf);
            && (Obliging(o) ==> !r.halted)
            && (!r.halted && o.destructive ==> forall x :: x in r.fs <==> x in s3.fs && !In(s3.alt.value, x))
  {
    ThirdStage(o, st, root, laf);
    CullKeeps(o, NextPass(PassThree(o, PassTwo(o, PassOne(o, st, root)), laf), None));
  }

  /**
   After a complete run the entries left in place and those made in lost+found name different handles. After a
   destructive one no handle is the target of two entries of walked directories.
   */
  lemma RunSingleReferences(o: Options, st: State, root: Handle, laf: Handle)
    requires Start(st)
    ensures var r := Run(o, st, root, laf);
            !r.halted ==> SingleLinks(r) && (o.destructive ==> SingleReferences(r))
  {
    RunStages(o, st, root, laf);
    var r := Run(o, st, root, laf);
    if !r.halted && o.destructive { RefsSingle(o, r); }
  }

  /**
   When no cycle of directories can be reached from the root, what pass 1 left in place is
   intact when the run ends, however it ends: the object exists, and so do all its
   datafiles or dirdata.
   */
  lemma RunIntact(o: Options, st: State, root: Handle, laf: Handle, rank: Handle -> nat)
    requires Start(st) && Ranked(st.fs, root, rank)
    ensures var s1 := PassOne(o, st, root);
            var r := Run(o, st, root, laf);
            !s1.halted ==> forall l :: l in s1.links ==> Survives(st.fs, r.fs, l.target)
  {
    var s1 := PassOne(o, st, root);
    var r := Run(o, st, root, laf);
    PassOneIntact(o, st, root, rank);
    PassOneInv(o, st, root);
    RunStages(o, st, root, laf);
    if !s1.halted {
      forall l | l in s1.links ensures Survives(st.fs, r.fs, l.target) {
        StaysIntact(o, st, s1, r, l.target);
      }
    }
  }

  /** The object is still there, made of the same parts, and all of them are still there. */
  ghost predicate Survives(f: Fs, g: Fs, t: Handle) {
    && t in f && t in g && !g[t].Unreadable? && Parts(g[t]) == Parts(f[t])
    && forall x :: x in Parts(g[t]) ==> x in g
  }

  lemma StaysIntact(o: Options, st: State, s: State, r: State, t: Handle)
    requires SameParts(st.fs, s.fs) && Respects(o, s, r) && Intact(s, t) && !Listed(s, t)
    ensures Survives(st.fs, r.fs, t)
  {
    assert Kin(s.fs[t], r.fs[t]) && Kin(st.fs[t], s.fs[t]);
  }

  /** With -s N, no stretch of a run without a prompt removes more than max(1, N) entries and objects. */
  lemma RunPaced(o: Options, st: State, root: Handle, laf: Handle, i: nat, j: nat)
    requires Start(st) && o.destructive && o.safety.Some?
    requires var log := Run(o, st, root, laf).log;
             i <= j <= |log| && forall k :: i <= k < j ==> !log[k].Prompted?
    ensures Removals(Run(o, st, root, laf).log[i..j]) <= Allowance(o.safety.value)
  {
    PassOneFrame(o, st, root);
    RunStages(o, st, root, laf);
    var log := Run(o, st, root, laf).log;
    DuePaces(log, o.safety.value);
    WindowBound(log, o.safety.value, i, j);
  }

  /**
   When the user is asked, and what an answer does. Without -y or without -s nobody is asked. The first
   prompt stands in front of removal number max(1, N), every later one after max(1, N) further removals,
   and nothing is removed past that without a prompt. Every prompt but the last was answered Y; if the
   last was answered N, the run is over and nothing follows the prompt.
   */
  lemma RunPrompts(o: Options, st: State, root: Handle, laf: Handle, k: nat)
    requires Start(st)
    requires k < |Run(o, st, root, laf).log|
    ensures PromptedWell(o, Run(o, st, root, laf), k)
  {
    PassOneFrame(o, st, root);
    RunStages(o, st, root, laf);
    PacedPrompts(o, Run(o, st, root, laf), k);
  }
}
