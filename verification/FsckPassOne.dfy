/**
 Pass 1 of pvfs2-fsck: the walk from the root.
 */
module FsckPassOne {
  import opened Wrappers
  import opened HandleLists
  import opened FsckModel
  import opened FsckPasses
  import opened FsckFrame
  import opened FsckLinks
  import opened FsckIntact

  /** The state pvfs2-fsck starts from: the file system and the handles its servers reported. */
  function Initial(fs: Fs, lists: Lists): State {
    State(fs, lists, None, 0, 0, [], false, [], {}, {})
  }

  // ---------- pass 1 ----------

  /** How pass 1 begins: the root leaves the list and gives up its dirdata, then the walk starts. */
  lemma PassOneEnters(o: Options, st: State, root: Handle) returns (t: State)
    requires Sound(st) && Unique(st) && st.alt.None? && !st.halted
    ensures Smaller(st, t) && Sound(t) && Unique(t) && t.fs == st.fs
    ensures t.links == st.links && t.walked == st.walked && t.kept == st.kept && t.log == st.log
    ensures t.removals == st.removals && t.prompts == st.prompts
    ensures if t.halted then PassOne(o, st, root) == t
            else PassOne(o, st, root) == Descend(o, t, root) && !Listed(t, root) && root in st.fs && st.fs[root].Directory?
                 && forall x :: x in Parts(st.fs[root]) ==> Listed(st, x) && !Listed(t, x)
    ensures GetAttr(st.fs, root).Some? && st.fs[root].Directory? && In(st.main, root) && root !in Parts(st.fs[root])
            && st.fs[root].dirdata.Some? && Distinct(Parts(st.fs[root]))
            && (forall x :: x in Parts(st.fs[root]) ==> Listed(st, x))
            ==> !t.halted
  {
    if GetAttr(st.fs, root).None? || !st.fs[root].Directory? || !In(st.main, root) {
      t := st.(halted := true);
      assert forall h :: Times(t, h) == Times(st, h);
    } else {
      var s := st.(main := RemoveAt(st.main, root, Find(st.main, root).value));
      RootLeaves(st, s, root);
      RootSteps(o, st, root);
      t := RootClaims(s, root);
      SmallerTrans(st, s, t);
      assert forall x :: x in Parts(st.fs[root]) && Listed(s, x) ==> Listed(st, x);
      if In(t.main, root) { InShrunk(s.main, t.main, root); }
    }
  }

  /** The root comes off the list. */
  lemma RootLeaves(st: State, s: State, root: Handle)
    requires Sound(st) && Unique(st) && st.alt.None? && In(st.main, root)
    requires s == st.(main := RemoveAt(st.main, root, Find(st.main, root).value))
    ensures Smaller(st, s) && Sound(s) && Unique(s) && !Listed(s, root)
    ensures forall x :: x != root ==> (Listed(s, x) <==> Listed(st, x))
  {
    var i := Find(st.main, root).value;
    RemoveAtShrinks(st.main, root, i);
    SmallerLeft(st, s);
    UniqueShrinks(st, s);
    assert UniqueIn(st.main, None) by { forall h ensures Count(st.main, h) + 0 <= 1 { assert Times(st, h) <= 1; } }
    GoneFromMain(st.main, None, root);
    forall x | x != root ensures In(s.main, x) <==> In(st.main, x) { RemoveAtIn(st.main, root, i, x); }
  }

  /** The root's dirdata comes off the list, or the program stops. */
  lemma RootClaims(s: State, root: Handle) returns (t: State)
    requires Sound(s) && Unique(s) && s.alt.None? && !s.halted && root in s.fs && s.fs[root].Directory?
    ensures var c := MatchDirdata(s.main, s.alt, s.fs[root].dirdata);
            t == if c.Crash? || !c.complete then s.(halted := true) else AfterClaim(s, c)
    ensures Smaller(s, t) && Sound(t) && Unique(t)
    ensures !t.halted ==> forall x :: x in Parts(s.fs[root]) ==> Listed(s, x) && !Listed(t, x)
    ensures s.fs[root].dirdata.Some? && Distinct(Parts(s.fs[root])) && (forall x :: x in Parts(s.fs[root]) ==> Listed(s, x))
            ==> !t.halted
  {
    var d := s.fs[root].dirdata;
    var c := MatchDirdata(s.main, s.alt, d);
    MatchShrinks(s.main, s.alt, d);
    t := if c.Crash? || !c.complete then s.(halted := true) else AfterClaim(s, c);
    ListsKept(s.main, s.alt);
    SmallerLeft(s, t);
    UniqueShrinks(s, t);
    if d.Some? {
      ClaimSingle(s, d.value);
      ClaimSound(s, d.value);
      ProbeComplete(s.main, s.alt, d.value, 0);
    }
  }

  lemma OpenInv(o: Options, st: State, d: Handle, pending: set<Link>)
    requires Inv(o, st, {}, pending) && !Listed(st, d) && (d in st.fs ==> st.fs[d].Directory?)
    requires forall l :: l in st.links ==> l.target != d
    ensures Inv(o, st, {d}, pending)
  {
    assert Shut(st, d);
  }

  lemma CloseInv(o: Options, st: State, d: Handle, pending: set<Link>)
    requires Inv(o, st, {d}, pending) && !In(st.main, d)
    ensures Inv(o, st, {}, pending)
  {
  }

  lemma InitialInv(o: Options, st: State)
    requires Unique(st) && st.links == {} && st.walked == []
    ensures Inv(o, st, {}, {})
  {
  }

  lemma PassOneInv(o: Options, st: State, root: Handle)
    requires Sound(st) && Unique(st) && st.alt.None? && !st.halted && st.links == {} && st.walked == []
    ensures var r := PassOne(o, st, root);
            Smaller(st, r) && Sound(r) && r.alt.None? && (!r.halted ==> Inv(o, r, {}, {}))
  {
    var t := PassOneEnters(o, st, root);
    var r := PassOne(o, st, root);
    if !t.halted {
      SmallerTrans(st, t, r);
      InitialInv(o, t);
      OpenInv(o, t, root, {});
      DescendInv(o, t, root, {root}, {});
      SmallerLeft(t, r);
      if !r.halted { CloseInv(o, r, root, {}); }
    }
    SmallerLeft(st, r);
  }

  /** The root is listed and readable, and so is all its dirdata. */
  ghost predicate RootComplete(st: State, root: Handle) {
    && GetAttr(st.fs, root).Some? && st.fs[root].Directory? && In(st.main, root)
    && st.fs[root].dirdata.Some? && root !in Parts(st.fs[root])
    && forall x :: x in Parts(st.fs[root]) ==> Listed(st, x)
  }

  /** The walk from the root starts well. */
  lemma RootGood(o: Options, st: State, t: State, root: Handle)
    requires Sound(st) && Unique(t) && Backed(st) && st.alt.None? && Smaller(st, t) && t.fs == st.fs && t.links == {} && t.walked == []
    requires root in st.fs && st.fs[root].Directory? && !Listed(t, root)
    requires forall x :: x in Parts(st.fs[root]) ==> Listed(st, x) && !Listed(t, x)
    ensures Inv(o, t, {root}, {}) && Good(st.fs, root, t, {root})
  {
    InitialInv(o, t);
    OpenInv(o, t, root, {});
    SmallerLeft(st, t);
    assert Intact(t, root);
    assert Untouched(st.fs, t);
  }

  /**
   Pass 1 when no cycle of directories can be reached from the root. It never aborts when
   the root is complete, names are distinct and prompts are answered with Y, and every
   entry it leaves in place names an object that exists with all its parts.
   */
  lemma PassOneIntact(o: Options, st: State, root: Handle, rank: Handle -> nat)
    requires Sound(st) && Unique(st) && Backed(st) && st.alt.None? && !st.halted && st.links == {} && st.walked == []
    requires Ranked(st.fs, root, rank)
    ensures var r := PassOne(o, st, root);
            && (!r.halted ==> forall l :: l in r.links ==> Intact(r, l.target))
            && (!r.halted && o.destructive ==>
                  forall d, e :: d in r.walked && e in Entries(r.fs, d) ==> Intact(r, e.handle))
            && (Obliging(o) && Tidy(st.fs) && RootComplete(st, root) ==> !r.halted)
  {
    var t := PassOneEnters(o, st, root);
    var r := PassOne(o, st, root);
    if RootComplete(st, root) && Tidy(st.fs) { assert Distinct(Parts(st.fs[root])); }
    if !t.halted {
      RootGood(o, st, t, root);
      DescendGood(o, st.fs, root, rank, t, root, {root}, {});
    }
    if !r.halted && o.destructive {
      PassOneInv(o, st, root);
      EntriesIntact(r);
    }
  }

  /** Every entry of a walked directory is one that was left in place. */
  lemma EntriesIntact(r: State)
    requires Settled(r, {}) && forall l :: l in r.links ==> Intact(r, l.target)
    ensures forall d, e :: d in r.walked && e in Entries(r.fs, d) ==> Intact(r, e.handle)
  {
    forall d, e | d in r.walked && e in Entries(r.fs, d) ensures Intact(r, e.handle) {
      assert Link(d, e.name, e.handle) in r.links + {};
    }
  }
}
