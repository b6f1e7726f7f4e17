/**
 Where the handles go in pass 2: the books of its loop balance, and say what every handle was taken for.
 */
module FsckAccounts {
  import opened Wrappers
  import opened HandleLists
  import opened FsckModel
  import opened FsckPasses
  import opened FsckFrame
  import opened FsckLinks
  import opened FsckLedger
  import opened FsckTurns
  import opened FsckRun

  /** Objects of unknown type and objects that cannot be read. */
  predicate Hopeless(fs: Fs, x: Handle) {
    x in fs && (fs[x].Unreadable? || fs[x].Unknown?)
  }

  /** What a turn of find_sub_trees takes, the popped handle `h` apart if it is put aside. */
  ghost function SortOutTook(o: Options, st: State, h: Handle): Ledger
    requires Sound(st)
  {
    var a := GetAttr(st.fs, h);
    if a.None? || a.value.Unknown? then Blank().(removed := multiset{h})
    else if a.value.Directory? then DescendTook(o, st, h)
    else Blank()
  }

  /** The books of find_sub_trees. */
  ghost function SubTreesTook(o: Options, st: State): Ledger
    requires Sound(st) && st.alt.Some?
    decreases Size(st.main)
  {
    var i := PopServer(st.main);
    if st.halted || i.None? then Blank()
    else
      var h := Top(st.main, i.value);
      var s := st.(main := PopAt(st.main, i.value));
      PopSound(st, i.value);
      var t := SortOut(o, s, h, i.value);
      SizeShrunk(s.main, t.main);
      SortOutSound(o, s, h, i.value);
      Plus(SortOutTook(o, s, h), SubTreesTook(o, t))
  }

  // ---------- the books balance ----------

  lemma AsideTimes(st: State, h: Handle, i: nat, x: Handle)
    requires st.alt.Some? && i < |st.alt.value| && !st.halted
    ensures Times(PutAside(st, h, i), x) == Times(st, x) + if x == h then 1 else 0
  {
    AddCount(st.alt.value, h, i, x);
  }

  lemma SortOutBalance(o: Options, st: State, s: State, i: nat, x: Handle)
    requires Sound(st) && st.alt.Some? && i < |st.main| && st.main[i] != []
    requires s == st.(main := PopAt(st.main, i)) && Sound(s)
    ensures var t := SortOut(o, s, Top(st.main, i), i);
            !t.halted ==> Times(st, x) == Times(t, x) + Total(SortOutTook(o, s, Top(st.main, i)), x)
  {
    var h := Top(st.main, i);
    PopCount(st.main, i, x);
    var a := GetAttr(s.fs, h);
    if a.Some? && a.value.Directory? {
      var w := Descend(o, s, h);
      DescendBalance(o, s, h, x);
      if !w.halted { AsideTimes(w, h, i, x); }
    } else if a.Some? && !a.value.Unknown? && !s.halted {
      AsideTimes(s, h, i, x);
    }
  }

  lemma {:induction false} SubTreesBalance(o: Options, st: State, x: Handle)
    requires Sound(st) && st.alt.Some?
    ensures var r := SubTrees(o, st);
            !r.halted ==> Times(st, x) == Times(r, x) + Total(SubTreesTook(o, st), x)
    decreases Size(st.main)
  {
    var i := PopServer(st.main);
    if !st.halted && i.Some? {
      var s := st.(main := PopAt(st.main, i.value));
      var h := Top(st.main, i.value);
      PopSound(st, i.value);
      var t := SortOut(o, s, h, i.value);
      SortOutBalance(o, st, s, i.value, x);
      SortOutSound(o, s, h, i.value);
      SizeShrunk(s.main, t.main);
      SubTreesBalance(o, t, x);
    }
  }

  // ---------- what the books say ----------

  /** The objects the loop removed were hopeless, and they are gone unless this is a dry run. */
  ghost predicate Removed(o: Options, base: Fs, r: State, l: Ledger) {
    forall x :: x in l.removed ==> Hopeless(base, x) && (o.destructive ==> x !in r.fs)
  }

  /** The books of a stretch of pass 2, in terms of the file system `base` it started with. */
  ghost predicate Explained(o: Options, base: Fs, from: nat, r: State, l: Ledger) {
    && from <= |r.walked|
    && Means(base, Since(r, from), l)
    && (!r.halted ==> Removed(o, base, r, l))
  }

  lemma SortOutExplained(o: Options, base: Fs, from: nat, st: State, s: State, i: nat)
    requires Sound(st) && Backed(st) && FsShrunk(base, st.fs) && st.alt.Some? && i < |st.main| && st.main[i] != []
    requires s == st.(main := PopAt(st.main, i)) && Sound(s) && from <= |st.walked| && !st.halted
    ensures var t := SortOut(o, s, Top(st.main, i), i);
            st.walked <= t.walked && Explained(o, base, from, t, SortOutTook(o, s, Top(st.main, i)))
  {
    var h := Top(st.main, i);
    assert h in st.main[i] && Listed(st, h);
    assert Trimmed(base[h], st.fs[h]);
    var a := GetAttr(s.fs, h);
    if a.Some? && a.value.Directory? { DescendMeans(o, base, from, s, h); }
  }

  lemma FsShrunkTrans(a: Fs, b: Fs, c: Fs)
    requires FsShrunk(a, b) && FsShrunk(b, c)
    ensures FsShrunk(a, c)
  {
  }

  lemma ExplainedPlus(o: Options, base: Fs, from: nat, t: State, r: State, a: Ledger, b: Ledger)
    requires Explained(o, base, from, t, a) && Explained(o, base, from, r, b) && t.walked <= r.walked
    requires FsShrunk(t.fs, r.fs) && (t.halted ==> r.halted)
    ensures Explained(o, base, from, r, Plus(a, b))
  {
    MeansLater(base, t, r, from, a);
    MeansPlus(base, Since(r, from), a, b);
  }

  lemma {:induction false} SubTreesExplained(o: Options, base: Fs, from: nat, st: State)
    requires Sound(st) && Unique(st) && FsShrunk(base, st.fs) && st.alt.Some? && (!st.halted ==> Backed(st)) && from <= |st.walked|
    ensures var r := SubTrees(o, st);
            st.walked <= r.walked && FsShrunk(st.fs, r.fs) && (st.halted ==> r.halted)
            && Explained(o, base, from, r, SubTreesTook(o, st))
    decreases Size(st.main)
  {
    var i := PopServer(st.main);
    if !st.halted && i.Some? {
      var s := st.(main := PopAt(st.main, i.value));
      var h := Top(st.main, i.value);
      PopGone(st, i.value);
      var t := SortOut(o, s, h, i.value);
      SortOutExplained(o, base, from, st, s, i.value);
      SortOutBacked(o, st, i.value);
      SortOutUnique(o, s, h, i.value);
      SortOutSound(o, s, h, i.value);
      FsShrunkTrans(base, st.fs, t.fs);
      SizeShrunk(s.main, t.main);
      SubTreesExplained(o, base, from, t);
      FsShrunkTrans(st.fs, t.fs, SubTrees(o, t).fs);
      ExplainedPlus(o, base, from, t, SubTrees(o, t), SortOutTook(o, s, h), SubTreesTook(o, t));
    }
  }

  // ---------- nothing is put on the lists ----------

  lemma SortOutShrinks(o: Options, st: State, i: nat, x: Handle)
    requires Sound(st) && Unique(st) && st.alt.Some? && i < |st.main| && st.main[i] != []
    ensures var r := SortOut(o, st.(main := PopAt(st.main, i)), Top(st.main, i), i);
            Listed(r, x) ==> Listed(st, x)
  {
    var h := Top(st.main, i);
    var s := st.(main := PopAt(st.main, i));
    PopGone(st, i);
    var a := GetAttr(s.fs, h);
    if a.Some? && a.value.Directory? {
      var t := Descend(o, s, h);
      SmallerLeft(s, t);
      if !t.halted { AsideListed(t, h, i, x); }
    } else if a.None? || a.value.Unknown? {
      assert Listed(RemoveObject(o, s, h), x) <==> Listed(s, x);
    } else if !s.halted {
      AsideListed(s, h, i, x);
    }
  }

  lemma {:induction false} SubTreesShrinks(o: Options, st: State, x: Handle)
    requires Sound(st) && Unique(st) && st.alt.Some?
    ensures Listed(SubTrees(o, st), x) ==> Listed(st, x)
    decreases Size(st.main)
  {
    var i := PopServer(st.main);
    if !st.halted && i.Some? {
      var s := st.(main := PopAt(st.main, i.value));
      var h := Top(st.main, i.value);
      var t := SortOut(o, s, h, i.value);
      PopGone(st, i.value);
      SortOutShrinks(o, st, i.value, x);
      SortOutUnique(o, s, h, i.value);
      SortOutSound(o, s, h, i.value);
      SizeShrunk(s.main, t.main);
      SubTreesShrinks(o, t, x);
    }
  }

  // ---------- pass 2 ----------

  /** The books of pass 2. */
  ghost function PassTwoTook(o: Options, st: State): Ledger
    requires Sound(st)
  {
    FreshEmpty(st.main);
    SubTreesTook(o, st.(alt := Some(Fresh(st.main))))
  }

  /**
   Pass 2 conserves handles: how often a handle was listed is how often it is in hl_notree, was taken as an entry of a
   directory that pass 2 walked, as a datafile or dirdata of what such an entry names, or was given to remove_object
   because its object cannot be read or has no known type.
   */
  lemma PassTwoConserves(o: Options, st: State, root: Handle)
    requires Start(st) && !PassOne(o, st, root).halted
    ensures var s1 := PassOne(o, st, root);
            var s2 := PassTwo(o, s1);
            && s1.walked <= s2.walked
            && (!s2.halted ==> forall x :: Count(s1.main, x) == Count(s2.alt.value, x) + Total(PassTwoTook(o, s1), x))
            && Explained(o, s1.fs, |s1.walked|, s2, PassTwoTook(o, s1))
  {
    var s1 := PassOne(o, st, root);
    var s2 := PassTwo(o, s1);
    TwoPasses(o, st, root);
    SecondStart(o, s1);
    var s := s1.(alt := Some(Fresh(s1.main)));
    SubTreesExplained(o, s1.fs, |s1.walked|, s);
    if !s2.halted {
      forall x ensures Count(s1.main, x) == Count(s2.alt.value, x) + Total(PassTwoTook(o, s1), x) {
        SubTreesBalance(o, s, x);
        FreshCount(s1.main, x);
        CountIn(s2.main, x);
      }
    }
  }

  /** What pass 2 returns was on the list and is there once, even when it stops early. */
  lemma PassTwoReturns(o: Options, st: State, root: Handle, x: Handle)
    requires Start(st) && !PassOne(o, st, root).halted
    ensures var s1 := PassOne(o, st, root);
            var s2 := PassTwo(o, s1);
            Count(s2.alt.value, x) <= Count(s1.main, x) <= 1
  {
    var s1 := PassOne(o, st, root);
    var s2 := PassTwo(o, s1);
    TwoPasses(o, st, root);
    SecondStart(o, s1);
    SubTreesShrinks(o, s1.(alt := Some(Fresh(s1.main))), x);
    assert Times(s2, x) <= 1 && Times(s1, x) <= 1;
    CountIn(s2.alt.value, x);
    CountIn(s1.main, x);
  }
}
