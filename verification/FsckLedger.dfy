/**
 The books of a walk: which handles it takes off the lists, and what it takes them for. They follow the walk step by
 step; what was listed before is what is listed afterwards plus what the books say was taken.
 */
module FsckLedger {
  import opened Wrappers
  import opened HandleLists
  import opened FsckModel
  import opened FsckFrame
  import opened FsckLinks

  /**
   Handles taken as entries of walked directories, as datafiles and as dirdata of the objects these name, and handles
   whose objects the loop of pass 2 removed.
   */
  datatype Ledger = Ledger(named: multiset<Handle>, datafiles: multiset<Handle>, dirdata: multiset<Handle>,
                           removed: multiset<Handle>)

  function Blank(): Ledger {
    Ledger(multiset{}, multiset{}, multiset{}, multiset{})
  }

  function Plus(a: Ledger, b: Ledger): Ledger {
    Ledger(a.named + b.named, a.datafiles + b.datafiles, a.dirdata + b.dirdata, a.removed + b.removed)
  }

  function Total(l: Ledger, x: Handle): nat {
    l.named[x] + l.datafiles[x] + l.dirdata[x] + l.removed[x]
  }

  function One(h: Handle, taken: bool): multiset<Handle> {
    if taken then multiset{h} else multiset{}
  }

  // ---------- claims ----------

  ghost function Both(main: Lists, alt: Option<Lists>, x: Handle): nat {
    Count(main, x) + if alt.Some? then Count(alt.value, x) else 0
  }

  /** What the second loop takes off the lists. */
  ghost function DrainTook(main: Lists, alt: Option<Lists>, hs: seq<Handle>, idx: nat): multiset<Handle>
    requires Servers(main, alt) && idx < |main|
    decreases |hs|
  {
    if hs == [] then multiset{}
    else if hs[0] == NULL_HANDLE then DrainTook(main, alt, hs[1..], idx)
    else if In(main, hs[0]) then
      var i := Find(main, hs[0]).value;
      One(hs[0], true) + DrainTook(RemoveAt(main, hs[0], i), alt, hs[1..], i)
    else if alt.None? then multiset{}
    else One(hs[0], hs[0] in alt.value[idx]) + DrainTook(main, Some(RemoveAt(alt.value, hs[0], idx)), hs[1..], idx)
  }

  lemma {:induction false} DrainBalance(main: Lists, alt: Option<Lists>, hs: seq<Handle>, idx: nat, x: Handle)
    requires Servers(main, alt) && idx < |main|
    ensures var d := DrainAll(main, alt, hs, idx);
            d.Drained? ==> Both(main, alt, x) == Both(d.main, d.alt, x) + DrainTook(main, alt, hs, idx)[x]
    ensures x in DrainTook(main, alt, hs, idx) ==> x in hs && x != NULL_HANDLE
    decreases |hs|
  {
    if hs != [] {
      if hs[0] == NULL_HANDLE {
        DrainBalance(main, alt, hs[1..], idx, x);
      } else if In(main, hs[0]) {
        var i := Find(main, hs[0]).value;
        RemoveAtCount(main, hs[0], i, x);
        DrainBalance(RemoveAt(main, hs[0], i), alt, hs[1..], i, x);
      } else if alt.Some? {
        RemoveAtCount(alt.value, hs[0], idx, x);
        DrainBalance(main, Some(RemoveAt(alt.value, hs[0], idx)), hs[1..], idx, x);
      }
    }
  }

  /** What verify_datafiles or match_dirdata takes off the lists. */
  ghost function ClaimTook(main: Lists, alt: Option<Lists>, hs: seq<Handle>): multiset<Handle>
    requires Servers(main, alt)
  {
    var p := ProbeAll(main, alt, hs, 0);
    if DrainAll(main, alt, p.found, p.idx).NullList? then multiset{} else DrainTook(main, alt, p.found, p.idx)
  }

  lemma ClaimBalance(st: State, hs: seq<Handle>, x: Handle)
    requires Servers(st.main, st.alt)
    ensures Times(st, x) == Times(AfterClaim(st, ClaimAll(st.main, st.alt, hs)), x) + ClaimTook(st.main, st.alt, hs)[x]
    ensures x in ClaimTook(st.main, st.alt, hs) ==> x in hs
  {
    var p := ProbeAll(st.main, st.alt, hs, 0);
    DrainBalance(st.main, st.alt, p.found, p.idx, x);
    ProbeFinds(st.main, st.alt, hs, 0, x);
  }

  // ---------- walks ----------

  ghost function DescendTook(o: Options, st: State, dir: Handle): Ledger
    requires Sound(st)
    decreases Left(st.main, st.alt), 2, 0
  {
    if st.halted then Blank()
    else WalkTook(o, st.(walked := st.walked + [dir]), dir, Entries(st.fs, dir))
  }

  ghost function WalkTook(o: Options, st: State, dir: Handle, es: seq<Dirent>): Ledger
    requires Sound(st)
    decreases Left(st.main, st.alt), 1, |es|
  {
    if st.halted || es == [] then Blank()
    else
      var s := Visit(o, st, dir, es[0]);
      SmallerLeft(st, s);
      Plus(VisitTook(o, st, dir, es[0]), WalkTook(o, s, dir, es[1..]))
  }

  /** The parts of the object the entry names, what the walk of it takes, and at last the entry's own handle. */
  ghost function VisitTook(o: Options, st: State, dir: Handle, e: Dirent): Ledger
    requires Sound(st)
    decreases Left(st.main, st.alt), 0, 1
  {
    if !Listed(st, e.handle) then Blank()
    else Plus(PartsTook(o, st, e), Blank().(named := FinishTook(st, Judge(o, st, dir, e), e.handle)))
  }

  /** The end of a visit takes the handle off the list it was found on, if it is still there. */
  ghost function FinishTook(st: State, s: State, h: Handle): multiset<Handle>
    requires Servers(st.main, st.alt) && Listed(st, h)
    requires |s.main| == |st.main| && s.alt.Some? == st.alt.Some? && (s.alt.Some? ==> |s.alt.value| == |s.main|)
  {
    var i := Where(st.main, st.alt, h).value;
    One(h, !s.halted && h in (if In(st.main, h) then s.main[i] else s.alt.value[i]))
  }

  ghost function PartsTook(o: Options, st: State, e: Dirent): Ledger
    requires Sound(st)
    decreases Left(st.main, st.alt), 0, 0
  {
    var a := GetAttr(st.fs, e.handle);
    if a.None? then Blank()
    else if a.value.Metafile? then Blank().(datafiles := ClaimTook(st.main, st.alt, a.value.dfiles))
    else if a.value.Directory? && a.value.dirdata.Some? then
      var c := ClaimAll(st.main, st.alt, a.value.dirdata.value);
      var took := Blank().(dirdata := ClaimTook(st.main, st.alt, a.value.dirdata.value));
      MatchSound(st, e.handle);
      if c.Claim? && c.complete && In(st.main, e.handle) then Plus(took, DescendTook(o, AfterClaim(st, c), e.handle)) else took
    else Blank()
  }

  // ---------- the books balance ----------

  lemma {:induction false} DescendBalance(o: Options, st: State, dir: Handle, x: Handle)
    requires Sound(st)
    ensures Times(st, x) == Times(Descend(o, st, dir), x) + Total(DescendTook(o, st, dir), x)
    decreases Left(st.main, st.alt), 2, 0
  {
    if !st.halted { WalkBalance(o, st.(walked := st.walked + [dir]), dir, Entries(st.fs, dir), x); }
  }

  lemma {:induction false} WalkBalance(o: Options, st: State, dir: Handle, es: seq<Dirent>, x: Handle)
    requires Sound(st)
    ensures Times(st, x) == Times(WalkEntries(o, st, dir, es), x) + Total(WalkTook(o, st, dir, es), x)
    decreases Left(st.main, st.alt), 1, |es|
  {
    if !st.halted && es != [] {
      var s := Visit(o, st, dir, es[0]);
      VisitBalance(o, st, dir, es[0], x);
      SmallerLeft(st, s);
      WalkBalance(o, s, dir, es[1..], x);
    }
  }

  lemma {:induction false} VisitBalance(o: Options, st: State, dir: Handle, e: Dirent, x: Handle)
    requires Sound(st)
    ensures Times(st, x) == Times(Visit(o, st, dir, e), x) + Total(VisitTook(o, st, dir, e), x)
    decreases Left(st.main, st.alt), 0, 1
  {
    if Listed(st, e.handle) {
      var j := Judge(o, st, dir, e);
      JudgeBalance(o, st, dir, e, x);
      FinishBalance(st, j, e.handle, x);
      assert Visit(o, st, dir, e) == Finish(st, j, e.handle);
    }
  }

  lemma FinishBalance(st: State, s: State, h: Handle, x: Handle)
    requires Servers(st.main, st.alt) && Listed(st, h)
    requires |s.main| == |st.main| && s.alt.Some? == st.alt.Some? && (s.alt.Some? ==> |s.alt.value| == |s.main|)
    ensures Times(s, x) == Times(Finish(st, s, h), x) + FinishTook(st, s, h)[x]
  {
    var i := Where(st.main, st.alt, h).value;
    RemoveAtCount(s.main, h, i, x);
    if s.alt.Some? { RemoveAtCount(s.alt.value, h, i, x); }
  }

  lemma {:induction false} JudgeBalance(o: Options, st: State, dir: Handle, e: Dirent, x: Handle)
    requires Sound(st)
    ensures Times(st, x) == Times(Judge(o, st, dir, e), x) + Total(PartsTook(o, st, e), x)
    decreases Left(st.main, st.alt), 0, 0
  {
    var h := e.handle;
    var a := GetAttr(st.fs, h);
    if a.Some? && a.value.Metafile? {
      ClaimBalance(st, a.value.dfiles, x);
      SameLists(o, st, ClaimAll(st.main, st.alt, a.value.dfiles), dir, e, x);
    } else if a.Some? && a.value.Directory? && a.value.dirdata.Some? {
      var c := ClaimAll(st.main, st.alt, a.value.dirdata.value);
      var s := AfterClaim(st, c);
      MatchSound(st, h);
      ClaimBalance(st, a.value.dirdata.value, x);
      SameLists(o, st, c, dir, e, x);
      if c.Claim? && c.complete && In(st.main, h) { DescendBalance(o, s, h, x); }
    }
  }

  /** Keeping and discarding entries leaves the lists alone. */
  lemma SameLists(o: Options, st: State, c: Claim, dir: Handle, e: Dirent, x: Handle)
    ensures Times(FileOutcome(o, st, c, dir, e), x) == Times(AfterClaim(st, c), x)
    ensures !(c.Claim? && c.complete && In(st.main, e.handle)) ==>
              forall w :: Times(DirectoryOutcome(o, st, c, w, dir, e), x) == Times(AfterClaim(st, c), x)
  {
  }

  // ---------- what the books say ----------

  /** One of these directories has an entry for the handle. */
  ghost predicate NamedBy(base: Fs, ws: seq<Handle>, x: Handle) {
    exists d, e :: d in ws && e in Entries(base, d) && e.handle == x
  }

  /** The handle is a datafile of a file that one of these directories names. */
  ghost predicate DatafileUnder(base: Fs, ws: seq<Handle>, x: Handle) {
    exists m :: NamedBy(base, ws, m) && m in base && base[m].Metafile? && x in base[m].dfiles
  }

  /** The handle is dirdata of a directory that one of these directories names. */
  ghost predicate DirdataUnder(base: Fs, ws: seq<Handle>, x: Handle) {
    exists m :: NamedBy(base, ws, m) && m in base && base[m].Directory? && x in Parts(base[m])
  }

  /** Every handle in the books was an entry of one of these directories, or a part of what such an entry names. */
  ghost predicate Means(base: Fs, ws: seq<Handle>, l: Ledger) {
    && (forall x :: x in l.named ==> NamedBy(base, ws, x))
    && (forall x :: x in l.datafiles ==> DatafileUnder(base, ws, x))
    && (forall x :: x in l.dirdata ==> DirdataUnder(base, ws, x))
  }

  /** The directories walked since there were `from` of them. */
  function Since(st: State, from: nat): seq<Handle>
    requires from <= |st.walked|
  {
    st.walked[from..]
  }

  lemma StillSince(st: State, r: State, from: nat, d: Handle)
    requires from <= |st.walked| && st.walked <= r.walked && d in Since(st, from)
    ensures d in Since(r, from)
  {
    var i :| 0 <= i < |Since(st, from)| && Since(st, from)[i] == d;
    assert Since(r, from)[i] == d;
  }

  lemma NamedLater(base: Fs, st: State, r: State, from: nat, x: Handle)
    requires from <= |st.walked| && st.walked <= r.walked && NamedBy(base, Since(st, from), x)
    ensures NamedBy(base, Since(r, from), x)
  {
    var d, e :| d in Since(st, from) && e in Entries(base, d) && e.handle == x;
    StillSince(st, r, from, d);
  }

  lemma MeansLater(base: Fs, st: State, r: State, from: nat, l: Ledger)
    requires from <= |st.walked| && st.walked <= r.walked && Means(base, Since(st, from), l)
    ensures Means(base, Since(r, from), l)
  {
    forall x | x in l.named ensures NamedBy(base, Since(r, from), x) { NamedLater(base, st, r, from, x); }
    forall x | x in l.datafiles ensures DatafileUnder(base, Since(r, from), x) {
      var m :| NamedBy(base, Since(st, from), m) && m in base && base[m].Metafile? && x in base[m].dfiles;
      NamedLater(base, st, r, from, m);
    }
    forall x | x in l.dirdata ensures DirdataUnder(base, Since(r, from), x) {
      var m :| NamedBy(base, Since(st, from), m) && m in base && base[m].Directory? && x in Parts(base[m]);
      NamedLater(base, st, r, from, m);
    }
  }

  lemma MeansPlus(base: Fs, ws: seq<Handle>, a: Ledger, b: Ledger)
    requires Means(base, ws, a) && Means(base, ws, b)
    ensures Means(base, ws, Plus(a, b))
  {
  }

  lemma {:induction false} DescendMeans(o: Options, base: Fs, from: nat, st: State, dir: Handle)
    requires Sound(st) && FsShrunk(base, st.fs) && from <= |st.walked|
    ensures var r := Descend(o, st, dir);
            && st.walked <= r.walked && DescendTook(o, st, dir).removed == multiset{}
            && Means(base, Since(r, from), DescendTook(o, st, dir))
    decreases Left(st.main, st.alt), 2, 0
  {
    if !st.halted {
      var s := st.(walked := st.walked + [dir]);
      assert Since(s, from)[|st.walked| - from] == dir;
      assert forall e :: e in Entries(st.fs, dir) ==> e in Entries(base, dir);
      WalkMeans(o, base, from, s, dir, Entries(st.fs, dir));
    }
  }

  lemma {:induction false} WalkMeans(o: Options, base: Fs, from: nat, st: State, dir: Handle, es: seq<Dirent>)
    requires Sound(st) && FsShrunk(base, st.fs) && from <= |st.walked| && dir in Since(st, from)
    requires forall e :: e in es ==> e in Entries(base, dir)
    ensures var r := WalkEntries(o, st, dir, es);
            && st.walked <= r.walked && WalkTook(o, st, dir, es).removed == multiset{}
            && Means(base, Since(r, from), WalkTook(o, st, dir, es))
    decreases Left(st.main, st.alt), 1, |es|
  {
    if !st.halted && es != [] {
      var s := Visit(o, st, dir, es[0]);
      assert es[0] in es;
      VisitMeans(o, base, from, st, dir, es[0]);
      SmallerLeft(st, s);
      var r := WalkEntries(o, s, dir, es[1..]);
      SmallerTrans(st.(fs := base), st, s);
      StillSince(st, s, from, dir);
      WalkMeans(o, base, from, s, dir, es[1..]);
      MeansLater(base, s, r, from, VisitTook(o, st, dir, es[0]));
      MeansPlus(base, Since(r, from), VisitTook(o, st, dir, es[0]), WalkTook(o, s, dir, es[1..]));
    }
  }

  lemma {:induction false} VisitMeans(o: Options, base: Fs, from: nat, st: State, dir: Handle, e: Dirent)
    requires Sound(st) && FsShrunk(base, st.fs) && from <= |st.walked| && dir in Since(st, from) && e in Entries(base, dir)
    ensures var r := Visit(o, st, dir, e);
            && st.walked <= r.walked && VisitTook(o, st, dir, e).removed == multiset{}
            && Means(base, Since(r, from), VisitTook(o, st, dir, e))
    decreases Left(st.main, st.alt), 0, 2
  {
    VisitFramed(o, base, st, dir, e);
    if Listed(st, e.handle) {
      var j := Judge(o, st, dir, e);
      var r := Visit(o, st, dir, e);
      assert r.walked == j.walked;
      PartsMeans(o, base, from, st, j, dir, e);
      assert NamedBy(base, Since(st, from), e.handle);
      var n := Blank().(named := FinishTook(st, j, e.handle));
      assert Means(base, Since(st, from), n);
      MeansLater(base, st, r, from, n);
      MeansPlus(base, Since(r, from), PartsTook(o, st, e), n);
    }
  }

  lemma FileMeans(base: Fs, ws: seq<Handle>, st: State, h: Handle)
    requires Sound(st) && FsShrunk(base, st.fs) && NamedBy(base, ws, h) && h in st.fs && st.fs[h].Metafile?
    ensures Means(base, ws, Blank().(datafiles := ClaimTook(st.main, st.alt, st.fs[h].dfiles)))
  {
    assert Trimmed(base[h], st.fs[h]);
    forall x | x in ClaimTook(st.main, st.alt, st.fs[h].dfiles) ensures DatafileUnder(base, ws, x) {
      ClaimBalance(st, st.fs[h].dfiles, x);
    }
  }

  lemma DirdataMeans(base: Fs, ws: seq<Handle>, st: State, h: Handle)
    requires Sound(st) && FsShrunk(base, st.fs) && NamedBy(base, ws, h)
    requires h in st.fs && st.fs[h].Directory? && st.fs[h].dirdata.Some?
    ensures Means(base, ws, Blank().(dirdata := ClaimTook(st.main, st.alt, st.fs[h].dirdata.value)))
  {
    assert Trimmed(base[h], st.fs[h]);
    forall x | x in ClaimTook(st.main, st.alt, st.fs[h].dirdata.value) ensures DirdataUnder(base, ws, x) {
      ClaimBalance(st, st.fs[h].dirdata.value, x);
    }
  }

  /** What a visit takes before the entry's own handle; `j` is the state after that. */
  lemma {:induction false} PartsMeans(o: Options, base: Fs, from: nat, st: State, j: State, dir: Handle, e: Dirent)
    requires Sound(st) && FsShrunk(base, st.fs) && from <= |st.walked| && dir in Since(st, from) && e in Entries(base, dir)
    requires st.walked <= j.walked && j == Judge(o, st, dir, e)
    ensures PartsTook(o, st, e).removed == multiset{} && Means(base, Since(j, from), PartsTook(o, st, e))
    decreases Left(st.main, st.alt), 0, 1
  {
    var h := e.handle;
    var a := GetAttr(st.fs, h);
    assert NamedBy(base, Since(st, from), h);
    if a.Some? && a.value.Metafile? {
      var took := Blank().(datafiles := ClaimTook(st.main, st.alt, a.value.dfiles));
      FileMeans(base, Since(st, from), st, h);
      MeansLater(base, st, j, from, took);
    } else if a.Some? && a.value.Directory? && a.value.dirdata.Some? {
      var c := ClaimAll(st.main, st.alt, a.value.dirdata.value);
      var took := Blank().(dirdata := ClaimTook(st.main, st.alt, a.value.dirdata.value));
      DirdataMeans(base, Since(st, from), st, h);
      DirectoryTook(o, st, j, c, took, dir, e);
      if c.Claim? && c.complete && In(st.main, h) {
        EnteredMeans(o, base, from, AfterClaim(st, c), h, took);
        SameSince(j, Descend(o, AfterClaim(st, c), h), from);
      } else {
        SameSince(j, st, from);
      }
    }
  }

  lemma SameSince(j: State, w: State, from: nat)
    requires j.walked == w.walked && from <= |j.walked|
    ensures Since(j, from) == Since(w, from)
  {
  }

  /** How the books on a directory begin, and how they go on when it is walked. */
  lemma DirectoryTook(o: Options, st: State, j: State, c: Claim, took: Ledger, dir: Handle, e: Dirent)
    requires Sound(st) && e.handle in st.fs && st.fs[e.handle].Directory? && st.fs[e.handle].dirdata.Some?
    requires j == Judge(o, st, dir, e) && c == ClaimAll(st.main, st.alt, st.fs[e.handle].dirdata.value)
    requires took == Blank().(dirdata := ClaimTook(st.main, st.alt, st.fs[e.handle].dirdata.value))
    ensures Sound(AfterClaim(st, c))
    ensures c.Claim? && c.complete && In(st.main, e.handle) ==>
              && Left(c.main, c.alt) < Left(st.main, st.alt)
              && j.walked == Descend(o, AfterClaim(st, c), e.handle).walked
              && PartsTook(o, st, e) == Plus(took, DescendTook(o, AfterClaim(st, c), e.handle))
    ensures !(c.Claim? && c.complete && In(st.main, e.handle)) ==> PartsTook(o, st, e) == took && j.walked == st.walked
  {
    MatchSound(st, e.handle);
  }

  lemma {:induction false} EnteredMeans(o: Options, base: Fs, from: nat, s: State, h: Handle, took: Ledger)
    requires Sound(s) && FsShrunk(base, s.fs) && from <= |s.walked| && Means(base, Since(s, from), took)
    ensures var w := Descend(o, s, h);
            && s.walked <= w.walked && DescendTook(o, s, h).removed == multiset{}
            && Means(base, Since(w, from), Plus(took, DescendTook(o, s, h)))
    decreases Left(s.main, s.alt), 3, 0
  {
    var w := Descend(o, s, h);
    DescendMeans(o, base, from, s, h);
    MeansLater(base, s, w, from, took);
    MeansPlus(base, Since(w, from), took, DescendTook(o, s, h));
  }

  /** A walk takes off the lists only what an entry of a directory it walks names, or a part of what such an entry names. */
  lemma WalkAccounts(o: Options, st: State, dir: Handle, x: Handle)
    requires Sound(st) && Listed(st, x)
    ensures var r := Descend(o, st, dir);
            && st.walked <= r.walked
            && var ws := Since(r, |st.walked|);
               Listed(r, x) || NamedBy(st.fs, ws, x) || DatafileUnder(st.fs, ws, x) || DirdataUnder(st.fs, ws, x)
  {
    DescendBalance(o, st, dir, x);
    DescendMeans(o, st.fs, |st.walked|, st, dir);
    TimesListed(st, x);
    TimesListed(Descend(o, st, dir), x);
  }
}
