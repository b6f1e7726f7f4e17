/**
 Pass 1 when no cycle of directories can be reached from the root: it never aborts, and
 every entry it leaves in place names an object that exists together with all its
 datafiles or dirdata.
 */
module FsckIntact {
  import opened Wrappers
  import opened HandleLists
  import opened FsckModel
  import opened FsckFrame
  import opened FsckLinks

  /**
   The directories that can be reached from the root form no cycle, apart from entries that lead back to the root:
   they have positive ranks, and every entry leads to a lower one. Other directories may have rank 0.
   */
  ghost predicate Ranked(fs: Fs, root: Handle, rank: Handle -> nat) {
    && rank(root) > 0
    && forall d, e ::
         rank(d) > 0 && e in Entries(fs, d) && e.handle in fs && fs[e.handle].Directory? && e.handle != root ==>
           0 < rank(e.handle) < rank(d)
  }

  /** Entry names in a directory differ, and no object lists a part twice. */
  ghost predicate Tidy(fs: Fs) {
    forall d :: d in fs ==>
      && (fs[d].Directory? ==> DistinctNames(fs[d].entries))
      && Distinct(Parts(fs[d]))
  }

  predicate DistinctNames(es: seq<Dirent>) {
    forall i, j :: 0 <= i < j < |es| ==> es[i].name != es[j].name
  }

  predicate Distinct(hs: seq<Handle>) {
    forall i, j :: 0 <= i < j < |hs| ==> hs[i] != hs[j]
  }

  /** Every prompt is answered with Y. */
  ghost predicate Obliging(o: Options) {
    forall k :: o.reply(k)
  }

  /** The object exists, can be read, and all its parts exist and are accounted for. */
  ghost predicate Intact(st: State, t: Handle) {
    && t in st.fs && !st.fs[t].Unreadable?
    && forall x :: x in Parts(st.fs[t]) ==> x in st.fs && !Listed(st, x)
  }

  /** What is linked or being walked is intact, and what is listed exists. */
  ghost predicate Safe(st: State, root: Handle, open: set<Handle>) {
    && st.alt.None?
    && !Listed(st, root)
    && (forall h :: Listed(st, h) ==> h in st.fs)
    && (forall l :: l in st.links ==> Intact(st, l.target))
    && (forall d :: d in open ==> Intact(st, d))
  }

  /** Directories that were not walked are as they were. */
  ghost predicate Untouched(base: Fs, st: State) {
    FsShrunk(base, st.fs) && forall d :: d in st.fs && d !in st.walked ==> st.fs[d] == base[d]
  }

  /** The open directories are the ancestors of the one being walked. */
  ghost predicate Above(rank: Handle -> nat, root: Handle, open: set<Handle>, dir: Handle) {
    rank(dir) > 0 && dir in open && forall d :: d in open ==> d == root || rank(dir) <= rank(d)
  }

  ghost predicate SameOn(st: State, r: State, ds: set<Handle>) {
    forall d :: d in ds && d in st.fs ==> d in r.fs && r.fs[d] == st.fs[d]
  }

  // ---------- claims against a single list ----------

  /** No handle but the null handle occurs twice. */
  predicate DistinctReal(hs: seq<Handle>) {
    forall i, j :: 0 <= i < j < |hs| && hs[i] != NULL_HANDLE ==> hs[i] != hs[j]
  }

  /** Draining a single list takes all the handles, and finds each of them if they differ. */
  lemma {:induction false} DrainSingle(main: Lists, hs: seq<Handle>, idx: nat)
    requires Servers(main, None) && idx < |main| && UniqueIn(main, None)
    ensures var d := DrainAll(main, None, hs, idx);
            d.Drained? ==> d.alt.None? && forall x :: x in hs && x != NULL_HANDLE ==> !In(d.main, x)
    ensures DistinctReal(hs) && (forall x :: x in hs && x != NULL_HANDLE ==> In(main, x)) ==>
              DrainAll(main, None, hs, idx).Drained?
    decreases |hs|
  {
    if hs == [] {
    } else if hs[0] == NULL_HANDLE {
      DrainSingle(main, hs[1..], idx);
      assert DistinctReal(hs) ==> DistinctReal(hs[1..]);
    } else if In(main, hs[0]) {
      var i := Find(main, hs[0]).value;
      var m := RemoveAt(main, hs[0], i);
      var d := DrainAll(m, None, hs[1..], i);
      UniqueRemoved(main, hs[0], i);
      DrainSingle(m, hs[1..], i);
      GoneFromMain(main, None, hs[0]);
      DrainShrinks(m, None, hs[1..], i);
      if d.Drained? { GoneShrinks(m, None, d.main, d.alt, hs[0]); }
      if DistinctReal(hs) && (forall x :: x in hs && x != NULL_HANDLE ==> In(main, x)) {
        forall x | x in hs[1..] && x != NULL_HANDLE ensures In(m, x) {
          RemoveAtIn(main, hs[0], i, x);
        }
        assert DistinctReal(hs[1..]);
      }
    }
  }

  lemma UniqueRemoved(main: Lists, h: Handle, i: nat)
    requires UniqueIn(main, None) && i < |main|
    ensures UniqueIn(RemoveAt(main, h, i), None)
  {
    RemoveAtShrinks(main, h, i);
    forall x ensures Count(RemoveAt(main, h, i), x) + 0 <= 1 {
      CountShrunk(main, RemoveAt(main, h, i), x);
      assert Count(main, x) + 0 <= 1;
    }
  }

  lemma {:induction false} ProbeShape(main: Lists, alt: Option<Lists>, hs: seq<Handle>, idx: nat)
    requires Servers(main, alt) && idx < |main|
    ensures var f := ProbeAll(main, alt, hs, idx).found;
            forall i :: 0 <= i < |hs| ==> f[i] == NULL_HANDLE || (f[i] == hs[i] && Where(main, alt, hs[i]).Some?)
  {
    if hs != [] {
      var w := Where(main, alt, hs[0]);
      ProbeShape(main, alt, hs[1..], if w.Some? then w.value else idx);
    }
  }

  /** In pass 1 a complete claim takes every handle it was asked for. */
  lemma ClaimSingle(st: State, hs: seq<Handle>)
    requires Sound(st) && Unique(st) && st.alt.None?
    ensures var c := ClaimAll(st.main, st.alt, hs);
            && (c.Claim? ==> c.alt.None?)
            && (c.Claim? && c.complete ==> forall x :: x in hs ==> !In(c.main, x))
            && (Distinct(hs) ==> c.Claim?)
  {
    var p := ProbeAll(st.main, st.alt, hs, 0);
    assert UniqueIn(st.main, None) by {
      forall h ensures Count(st.main, h) + 0 <= 1 { assert Times(st, h) <= 1; }
    }
    ProbeComplete(st.main, st.alt, hs, 0);
    ProbeShape(st.main, st.alt, hs, 0);
    DrainSingle(st.main, p.found, p.idx);
    assert Distinct(hs) ==> DistinctReal(p.found);
  }

  // ---------- one visit ----------

  ghost predicate Good(base: Fs, root: Handle, st: State, open: set<Handle>) {
    Safe(st, root, open) && Untouched(base, st)
  }

  /** Only handles leave the lists, and entries that stay are recorded, all of them intact. */
  lemma GoodShrinks(base: Fs, root: Handle, st: State, r: State, open: set<Handle>, closing: set<Handle>)
    requires Good(base, root, st, open + closing)
    requires ListsShrunk(st.main, st.alt, r.main, r.alt) && r.fs == st.fs && r.walked == st.walked
    requires forall l :: l in r.links ==> l in st.links || l.target in closing
    ensures Good(base, root, r, open)
  {
    SmallerLeft(st, r);
    forall t | t in open || (exists l :: l in r.links && l.target == t) ensures Intact(r, t) {
      assert Intact(st, t);
    }
  }

  /** The entry was removed, and perhaps its object; the handle is off the list. */
  lemma GoodDropped(base: Fs, root: Handle, st: State, r: State, dir: Handle, h: Handle, open: set<Handle>)
    requires Good(base, root, st, open) && LinksExclusive(st, open)
    requires Listed(st, h) && h !in open && dir in st.walked
    requires Smaller(st, r) && !Listed(r, h) && r.links == st.links && r.walked == st.walked
    requires forall x :: x in st.fs && x != h ==> x in r.fs
    requires forall x :: x in r.fs && x != dir ==> x in st.fs && r.fs[x] == st.fs[x]
    ensures Good(base, root, r, open) && SameOn(st, r, open - {dir})
  {
    SmallerLeft(st, r);
    forall t | t in open || (exists l :: l in r.links && l.target == t) ensures Intact(r, t) {
      assert Intact(st, t);
      assert t != h;
      assert Parts(r.fs[t]) == Parts(st.fs[t]);
    }
    SmallerTrans(st.(fs := base), st, r);
  }

  ghost predicate OthersStay(st: State, r: State, dir: Handle, name: string) {
    forall a :: a in Entries(st.fs, dir) && a.name != name ==> a in Entries(r.fs, dir)
  }

  /** Removing an entry of a directory that exists touches nothing else, and works if the entry is there. */
  lemma DirentWorks(o: Options, st: State, dir: Handle, name: string)
    requires !st.halted
    ensures var r := RemoveDirent(o, st, dir, name);
            && r.links == st.links && r.walked == st.walked && OthersStay(st, r, dir, name)
            && (forall x :: x in st.fs <==> x in r.fs)
            && (forall x :: x in r.fs && x != dir ==> r.fs[x] == st.fs[x])
            && (Obliging(o) && HasEntry(st.fs, dir, name) ==> !r.halted)
  {
  }

  lemma ObjectWorks(o: Options, st: State, h: Handle)
    requires !st.halted
    ensures var r := RemoveObject(o, st, h);
            && r.links == st.links && r.walked == st.walked
            && (forall x :: x in st.fs && x != h ==> x in r.fs)
            && (forall x :: x in r.fs ==> x in st.fs && r.fs[x] == st.fs[x])
            && (Obliging(o) && h in st.fs ==> !r.halted)
  {
  }

  /** What a visit must deliver. */
  ghost predicate Delivers(o: Options, base: Fs, root: Handle, st: State, r: State, dir: Handle, e: Dirent, open: set<Handle>) {
    && (!r.halted ==> Good(base, root, r, open) && SameOn(st, r, open - {dir}) && OthersStay(st, r, dir, e.name))
    && (Obliging(o) && Tidy(base) && HasEntry(st.fs, dir, e.name) ==> !r.halted)
  }

  /** Discarding an entry: its object is listed and is not one of the open directories. */
  lemma GoodDiscarded(o: Options, base: Fs, root: Handle, st: State, s: State, dir: Handle, e: Dirent, open: set<Handle>)
    requires Sound(st) && Unique(st) && Good(base, root, st, open) && LinksExclusive(st, open)
    requires Listed(st, e.handle) && e.handle !in open && dir in open && dir in st.walked
    requires !st.halted && !s.halted && Smaller(st, s) && s.fs == st.fs && s.links == st.links && s.walked == st.walked
    ensures Smaller(st, Discard(o, s, dir, e))
    ensures Delivers(o, base, root, st, Finish(st, Discard(o, s, dir, e), e.handle), dir, e, open)
  {
    var h := e.handle;
    var t := RemoveObject(o, s, h);
    var d := Discard(o, s, dir, e);
    ObjectWorks(o, s, h);
    SmallerDiscard(o, s, dir, e);
    SmallerTrans(st, s, d);
    if !t.halted {
      DirentWorks(o, t, dir, e.name);
      assert Entries(t.fs, dir) == Entries(st.fs, dir);
      if !d.halted {
        FinishGone(st, d, h);
        var r := Finish(st, d, h);
        SmallerTrans(st, d, r);
        GoodDropped(base, root, st, r, dir, h, open);
      }
    }
  }

  /** A directory lost entries and handles left the list. */
  lemma GoodTrimmed(base: Fs, root: Handle, st: State, r: State, dir: Handle, open: set<Handle>)
    requires Good(base, root, st, open) && dir in st.walked
    requires Smaller(st, r) && r.links == st.links && r.walked == st.walked
    requires forall x :: x in st.fs <==> x in r.fs
    requires forall x :: x in r.fs && x != dir ==> r.fs[x] == st.fs[x]
    ensures Good(base, root, r, open) && SameOn(st, r, open - {dir})
  {
    SmallerLeft(st, r);
    forall t | t in open || (exists l :: l in r.links && l.target == t) ensures Intact(r, t) {
      assert Intact(st, t);
      assert Parts(r.fs[t]) == Parts(st.fs[t]);
    }
    SmallerTrans(st.(fs := base), st, r);
  }

  /** An entry whose handle is on no list, or whose object cannot be read; `r` is the state after the visit. */
  lemma UnenteredDelivers(o: Options, base: Fs, root: Handle, st: State, r: State, dir: Handle, e: Dirent, open: set<Handle>)
    requires Good(base, root, st, open) && dir in st.walked && !st.halted
    requires Smaller(st, r)
    requires var d := RemoveDirent(o, st, dir, e.name);
             r.fs == d.fs && r.links == d.links && r.walked == d.walked && r.halted == d.halted
    ensures Delivers(o, base, root, st, r, dir, e, open)
  {
    DirentWorks(o, st, dir, e.name);
    if !r.halted { GoodTrimmed(base, root, st, r, dir, open); }
  }

  lemma FileDelivers(o: Options, base: Fs, root: Handle, st: State, dir: Handle, e: Dirent, open: set<Handle>)
    requires Sound(st) && Unique(st) && Good(base, root, st, open) && LinksExclusive(st, open)
    requires dir in open && dir in st.walked && !st.halted
    requires Listed(st, e.handle) && e.handle !in open && e.handle in st.fs && st.fs[e.handle].Metafile?
    requires var c := ClaimAll(st.main, st.alt, st.fs[e.handle].dfiles);
             Smaller(st, FileOutcome(o, st, c, dir, e))
    ensures var c := ClaimAll(st.main, st.alt, st.fs[e.handle].dfiles);
            Delivers(o, base, root, st, Finish(st, FileOutcome(o, st, c, dir, e), e.handle), dir, e, open)
  {
    var h := e.handle;
    var hs := st.fs[h].dfiles;
    var c := ClaimAll(st.main, st.alt, hs);
    var s := AfterClaim(st, c);
    ClaimSound(st, hs);
    ClaimSingle(st, hs);
    if c.Claim? && c.complete {
      FinishGone(st, FileOutcome(o, st, c, dir, e), h);
      GoodKept(base, root, st, s, Finish(st, FileOutcome(o, st, c, dir, e), h), h, open);
    } else if c.Claim? {
      GoodDiscarded(o, base, root, st, s, dir, e, open);
    } else {
      assert Tidy(base) ==> Distinct(Parts(base[h]));
    }
  }

  /** What a claim finds and leaves, in one place. */
  lemma ClaimSound(st: State, hs: seq<Handle>)
    requires Sound(st)
    ensures var c := ClaimAll(st.main, st.alt, hs);
            && (c.Claim? ==> ListsShrunk(st.main, st.alt, c.main, c.alt))
            && (c.Claim? && c.complete ==> forall x :: x in hs ==> Listed(st, x))
  {
    ClaimShrinks(st.main, st.alt, hs);
    ProbeComplete(st.main, st.alt, hs, 0);
  }

  /** A complete claim makes its object intact; then its entry may be recorded. */
  lemma GoodKept(base: Fs, root: Handle, st: State, s: State, r: State, h: Handle, open: set<Handle>)
    requires Good(base, root, st, open) && h in st.fs && !st.fs[h].Unreadable?
    requires ListsShrunk(st.main, st.alt, s.main, s.alt) && s.fs == st.fs && s.walked == st.walked && s.links == st.links
    requires forall x :: x in Parts(st.fs[h]) ==> Listed(st, x) && !Listed(s, x)
    requires ListsShrunk(s.main, s.alt, r.main, r.alt) && r.fs == s.fs && r.walked == s.walked
    requires forall l :: l in r.links ==> l in s.links || l.target == h
    ensures Good(base, root, r, open)
  {
    assert open + {} == open;
    GoodShrinks(base, root, st, s, open, {});
    assert Intact(s, h);
    assert Good(base, root, s, open + {h});
    GoodShrinks(base, root, s, r, open, {h});
  }

  lemma OtherDelivers(o: Options, base: Fs, root: Handle, st: State, dir: Handle, e: Dirent, open: set<Handle>)
    requires Sound(st) && Unique(st) && Good(base, root, st, open) && LinksExclusive(st, open)
    requires dir in open && dir in st.walked && !st.halted
    requires Listed(st, e.handle) && e.handle !in open
    requires e.handle in st.fs && !st.fs[e.handle].Metafile? && !st.fs[e.handle].Directory? && !st.fs[e.handle].Unreadable?
    ensures Delivers(o, base, root, st, Finish(st, Keep(st, dir, e), e.handle), dir, e, open)
    ensures Delivers(o, base, root, st, Finish(st, Discard(o, st, dir, e), e.handle), dir, e, open)
  {
    assert Smaller(st, st);
    FinishGone(st, Keep(st, dir, e), e.handle);
    GoodKept(base, root, st, st, Finish(st, Keep(st, dir, e), e.handle), e.handle, open);
    GoodDiscarded(o, base, root, st, st, dir, e, open);
  }

  // ---------- the walk ----------

  lemma {:induction false} DescendGood(o: Options, base: Fs, root: Handle, rank: Handle -> nat, st: State, dir: Handle,
                                       open: set<Handle>, pending: set<Link>)
    requires Sound(st) && Inv(o, st, open, pending) && Good(base, root, st, open)
    requires Ranked(base, root, rank) && Above(rank, root, open, dir) && dir !in st.walked && !st.halted
    ensures var r := Descend(o, st, dir);
            && (!r.halted ==> Good(base, root, r, open) && SameOn(st, r, open - {dir}))
            && (Obliging(o) && Tidy(base) ==> !r.halted)
    decreases Left(st.main, st.alt), 2, 0
  {
    var s := st.(walked := st.walked + [dir]);
    var es := Entries(st.fs, dir);
    EnterWalk(o, st, dir, open, pending);
    assert Good(base, root, s, open) by {
      forall t | t in open || (exists l :: l in s.links && l.target == t) ensures Intact(s, t) { assert Intact(st, t); }
    }
    assert Tidy(base) ==> DistinctNames(es) by {
      if Tidy(base) && dir in st.fs { assert st.fs[dir] == base[dir]; }
    }
    assert forall e :: e in es ==> e in Entries(base, dir);
    WalkGood(o, base, root, rank, s, dir, es, open, pending);
  }

  lemma EnterWalk(o: Options, st: State, dir: Handle, open: set<Handle>, pending: set<Link>)
    requires Inv(o, st, open, pending) && dir in open && dir !in st.walked
    ensures Inv(o, st.(walked := st.walked + [dir]), open, pending + LinksOf(dir, Entries(st.fs, dir)))
  {
    var s := st.(walked := st.walked + [dir]);
    assert forall h :: Times(s, h) == Times(st, h);
    assert forall h :: Listed(s, h) <==> Listed(st, h);
    forall d | d in open ensures Shut(s, d) { assert Shut(st, d); }
  }

  lemma {:induction false} WalkGood(o: Options, base: Fs, root: Handle, rank: Handle -> nat, st: State, dir: Handle,
                                    es: seq<Dirent>, open: set<Handle>, pending: set<Link>)
    requires Sound(st) && Inv(o, st, open, pending + LinksOf(dir, es)) && Good(base, root, st, open)
    requires Ranked(base, root, rank) && Above(rank, root, open, dir) && dir in st.walked && !st.halted
    requires (forall e :: e in es ==> e in Entries(base, dir)) && (Tidy(base) ==> StillThere(st, dir, es))
    ensures var r := WalkEntries(o, st, dir, es);
            && (!r.halted ==> Good(base, root, r, open) && SameOn(st, r, open - {dir}))
            && (Obliging(o) && Tidy(base) ==> !r.halted)
    decreases Left(st.main, st.alt), 1, |es|, 0
  {
    if es != [] {
      var e := es[0];
      var rest := pending + LinksOf(dir, es[1..]);
      LinksHead(dir, es, pending);
      var s := Visit(o, st, dir, e);
      assert e in es;
      VisitGood(o, base, root, rank, st, dir, e, open, rest);
      VisitInv(o, st, dir, e, open, rest);
      SmallerLeft(st, s);
      if Tidy(base) { assert e in Entries(st.fs, dir) && HasEntry(st.fs, dir, e.name); }
      if !s.halted {
        VisitFramed(o, st.fs, st, dir, e);
        RestGood(o, base, root, rank, st, s, dir, es, open, pending);
      }
    }
  }

  /** From the first entry to the rest; `s` is the state after the first visit. */
  lemma {:induction false} RestGood(o: Options, base: Fs, root: Handle, rank: Handle -> nat, st: State, s: State, dir: Handle,
                                    es: seq<Dirent>, open: set<Handle>, pending: set<Link>)
    requires es != [] && Delivers(o, base, root, st, s, dir, es[0], open) && !s.halted
    requires Sound(s) && Inv(o, s, open, pending + LinksOf(dir, es[1..]))
    requires Ranked(base, root, rank) && Above(rank, root, open, dir) && dir in s.walked
    requires (forall e :: e in es ==> e in Entries(base, dir)) && (Tidy(base) ==> StillThere(st, dir, es))
    ensures var r := WalkEntries(o, s, dir, es[1..]);
            && (!r.halted ==> Good(base, root, r, open) && SameOn(st, r, open - {dir}))
            && (Obliging(o) && Tidy(base) ==> !r.halted)
    decreases Left(s.main, s.alt), 1, |es| - 1, 1
  {
    if Tidy(base) { NextThere(st, s, dir, es); }
    WalkGood(o, base, root, rank, s, dir, es[1..], open, pending);
    var r := WalkEntries(o, s, dir, es[1..]);
    if !r.halted { SameOnTrans(st, s, r, open - {dir}); }
  }

  /** The entries still to be visited are there, under different names. */
  ghost predicate StillThere(st: State, dir: Handle, es: seq<Dirent>) {
    DistinctNames(es) && forall e :: e in es ==> e in Entries(st.fs, dir)
  }

  lemma SameOnTrans(a: State, b: State, c: State, ds: set<Handle>)
    requires SameOn(a, b, ds) && SameOn(b, c, ds)
    ensures SameOn(a, c, ds)
  {
  }

  lemma NextThere(st: State, s: State, dir: Handle, es: seq<Dirent>)
    requires es != [] && OthersStay(st, s, dir, es[0].name) && StillThere(st, dir, es)
    ensures StillThere(s, dir, es[1..])
  {
  }

  lemma {:induction false} VisitGood(o: Options, base: Fs, root: Handle, rank: Handle -> nat, st: State, dir: Handle,
                                     e: Dirent, open: set<Handle>, pending: set<Link>)
    requires Sound(st) && Inv(o, st, open, pending + {Link(dir, e.name, e.handle)}) && Good(base, root, st, open)
    requires Ranked(base, root, rank) && Above(rank, root, open, dir) && dir in st.walked && !st.halted
    requires e in Entries(base, dir)
    ensures Delivers(o, base, root, st, Visit(o, st, dir, e), dir, e, open)
    decreases Left(st.main, st.alt), 0, 2
  {
    var h := e.handle;
    if !Listed(st, h) {
      UnenteredDelivers(o, base, root, st, Visit(o, st, dir, e), dir, e, open);
    } else if GetAttr(st.fs, h).None? {
      VisitUnreadable(o, st, dir, e);
      UnenteredDelivers(o, base, root, st, Visit(o, st, dir, e), dir, e, open);
    } else {
      BelowOpen(base, root, rank, st, dir, e, open);
      if st.fs[h].Metafile? {
        VisitFile(o, st, dir, e);
        FileDelivers(o, base, root, st, dir, e, open);
      } else if st.fs[h].Directory? {
        VisitDirectory(o, st, dir, e);
        var c := MatchDirdata(st.main, st.alt, st.fs[h].dirdata);
        var s := AfterClaim(st, c);
        if c.Claim? && c.complete {
          EnteredDelivers(o, base, root, rank, st, s, dir, e, open, pending);
        } else {
          DirectoryDelivers(o, base, root, st, dir, e, Descend(o, s, h), open);
        }
      } else {
        VisitOther(o, st, dir, e);
        OtherDelivers(o, base, root, st, dir, e, open);
      }
    }
  }

  /** Without cycles, the entry of a directory never names that directory or one above it. */
  lemma BelowOpen(base: Fs, root: Handle, rank: Handle -> nat, st: State, dir: Handle, e: Dirent, open: set<Handle>)
    requires Good(base, root, st, open) && WalkOnce(st, open)
    requires Ranked(base, root, rank) && Above(rank, root, open, dir) && e in Entries(base, dir)
    requires Listed(st, e.handle) && e.handle in st.fs
    ensures e.handle !in open
  {
    var h := e.handle;
    assert h in open ==> Shut(st, h);
    assert Trimmed(base[h], st.fs[h]);
  }

  /** A directory that lacks dirdata is discarded. */
  lemma DirectoryDelivers(o: Options, base: Fs, root: Handle, st: State, dir: Handle, e: Dirent, w: State, open: set<Handle>)
    requires Sound(st) && Unique(st) && Good(base, root, st, open) && LinksExclusive(st, open)
    requires dir in open && dir in st.walked && !st.halted
    requires Listed(st, e.handle) && e.handle !in open && e.handle in st.fs && st.fs[e.handle].Directory?
    requires var c := MatchDirdata(st.main, st.alt, st.fs[e.handle].dirdata);
             Smaller(st, AfterClaim(st, c)) && !(c.Claim? && c.complete) && Smaller(st, DirectoryOutcome(o, st, c, w, dir, e))
    ensures var c := MatchDirdata(st.main, st.alt, st.fs[e.handle].dirdata);
            Delivers(o, base, root, st, Finish(st, DirectoryOutcome(o, st, c, w, dir, e), e.handle), dir, e, open)
  {
    var h := e.handle;
    var c := MatchDirdata(st.main, st.alt, st.fs[h].dirdata);
    if c.Claim? {
      GoodDiscarded(o, base, root, st, AfterClaim(st, c), dir, e, open);
    } else {
      ClaimSingle(st, st.fs[h].dirdata.value);
      assert Tidy(base) ==> Distinct(Parts(base[h]));
    }
  }

  /** The directory is intact while it is walked, and when its entry is recorded. */
  lemma {:induction false} EnteredDelivers(o: Options, base: Fs, root: Handle, rank: Handle -> nat, st: State, s: State,
                                           dir: Handle, e: Dirent, open: set<Handle>, pending: set<Link>)
    requires Sound(st) && Inv(o, st, open, pending + {Link(dir, e.name, e.handle)}) && Good(base, root, st, open)
    requires Ranked(base, root, rank) && Above(rank, root, open, dir) && !st.halted
    requires e in Entries(base, dir)
    requires In(st.main, e.handle) && e.handle !in open && e.handle in st.fs && st.fs[e.handle].Directory?
    requires var c := MatchDirdata(st.main, st.alt, st.fs[e.handle].dirdata);
             c.Claim? && c.complete && s == AfterClaim(st, c)
    requires Smaller(st, s) && Sound(s) && Left(s.main, s.alt) < Left(st.main, st.alt)
    ensures Smaller(st, Descend(o, s, e.handle))
    ensures Delivers(o, base, root, st, Finish(st, Keep(Descend(o, s, e.handle), dir, e), e.handle), dir, e, open)
    decreases Left(st.main, st.alt), 0, 1
  {
    var h := e.handle;
    EnterReady(o, base, root, rank, st, s, dir, e, open, pending + {Link(dir, e.name, h)});
    DescendGood(o, base, root, rank, s, h, open + {h}, pending + {Link(dir, e.name, h)});
    var t := Descend(o, s, h);
    SmallerTrans(st, s, t);
    if !t.halted { WalkedDelivers(o, base, root, st, s, t, dir, e, open); }
  }

  lemma EnterReady(o: Options, base: Fs, root: Handle, rank: Handle -> nat, st: State, s: State, dir: Handle, e: Dirent,
                   open: set<Handle>, pending: set<Link>)
    requires Sound(st) && Inv(o, st, open, pending) && Good(base, root, st, open)
    requires Ranked(base, root, rank) && Above(rank, root, open, dir) && e in Entries(base, dir)
    requires In(st.main, e.handle) && e.handle !in open && e.handle in st.fs && st.fs[e.handle].Directory?
    requires var c := MatchDirdata(st.main, st.alt, st.fs[e.handle].dirdata);
             c.Claim? && c.complete && s == AfterClaim(st, c)
    requires Smaller(st, s)
    ensures Inv(o, s, open + {e.handle}, pending) && Good(base, root, s, open + {e.handle})
    ensures Above(rank, root, open + {e.handle}, e.handle) && e.handle !in s.walked
  {
    EnterGood(o, base, root, st, s, e.handle, open, pending);
    EnteredAbove(base, root, rank, st, dir, e, open);
  }

  /** Everything the walk of a directory with complete dirdata may rely on. */
  lemma EnterGood(o: Options, base: Fs, root: Handle, st: State, s: State, h: Handle, open: set<Handle>, pending: set<Link>)
    requires Sound(st) && Inv(o, st, open, pending) && Good(base, root, st, open)
    requires In(st.main, h) && h !in open && h in st.fs && st.fs[h].Directory?
    requires var c := MatchDirdata(st.main, st.alt, st.fs[h].dirdata);
             c.Claim? && c.complete && s == AfterClaim(st, c)
    requires Smaller(st, s)
    ensures Inv(o, s, open + {h}, pending) && Good(base, root, s, open + {h})
    ensures h !in s.walked && h != root
  {
    InvShrinks(o, st, s, open, pending);
    EnterInv(o, st, s, h, open, pending);
    ClaimSingle(st, st.fs[h].dirdata.value);
    ClaimSound(st, st.fs[h].dirdata.value);
    EnteredGood(base, root, st, s, h, open);
  }

  lemma EnteredAbove(base: Fs, root: Handle, rank: Handle -> nat, st: State, dir: Handle, e: Dirent, open: set<Handle>)
    requires Ranked(base, root, rank) && Above(rank, root, open, dir) && e in Entries(base, dir)
    requires FsShrunk(base, st.fs) && e.handle in st.fs && st.fs[e.handle].Directory? && e.handle != root
    ensures Above(rank, root, open + {e.handle}, e.handle)
  {
    assert Trimmed(base[e.handle], st.fs[e.handle]);
    assert rank(e.handle) < rank(dir);
  }

  lemma WalkedDelivers(o: Options, base: Fs, root: Handle, st: State, s: State, t: State, dir: Handle, e: Dirent, open: set<Handle>)
    requires Sound(st) && Unique(st) && Listed(st, e.handle) && dir in open
    requires s.fs == st.fs && Smaller(st, t) && !t.halted
    requires Good(base, root, t, open + {e.handle}) && SameOn(s, t, open + {e.handle} - {e.handle}) && e.handle !in open
    ensures Delivers(o, base, root, st, Finish(st, Keep(t, dir, e), e.handle), dir, e, open)
  {
    var k := Keep(t, dir, e);
    assert open + {e.handle} - {e.handle} == open;
    FinishGone(st, k, e.handle);
    GoodShrinks(base, root, t, Finish(st, k, e.handle), open, {e.handle});
  }

  lemma EnteredGood(base: Fs, root: Handle, st: State, s: State, h: Handle, open: set<Handle>)
    requires Good(base, root, st, open) && h in st.fs && !st.fs[h].Unreadable?
    requires ListsShrunk(st.main, st.alt, s.main, s.alt) && s.fs == st.fs && s.walked == st.walked && s.links == st.links
    requires forall x :: x in Parts(st.fs[h]) ==> Listed(st, x) && !Listed(s, x)
    ensures Good(base, root, s, open + {h})
  {
    assert open + {} == open;
    GoodShrinks(base, root, st, s, open, {});
    assert Intact(s, h);
  }
}
