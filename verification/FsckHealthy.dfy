/**
 A consistent file system is left alone: pass 1 walks all of it, changes nothing, and leaves nothing for the other passes.
 */
module FsckHealthy {
  import opened Wrappers
  import opened HandleLists
  import opened FsckModel
  import opened FsckPasses
  import opened FsckFrame
  import opened FsckLinks
  import opened FsckIntact
  import opened FsckPassOne
  import opened FsckTurns
  import opened FsckRun
  import opened FsckCycles
  import opened FsckLedger
  import opened FsckOrder
  import opened FsckReach

  // ---------- consistency ----------

  /** The entry belongs to a directory that can be reached from the root. */
  ghost predicate InTree(st: State, root: Handle, d: Handle, e: Dirent) {
    Reachable(st, root, d) && e in Entries(st.fs, d)
  }

  /** The root, or an object that an entry in the tree names. */
  ghost predicate OfTree(st: State, root: Handle, m: Handle) {
    m == root || exists d, e :: InTree(st, root, d, e) && e.handle == m
  }

  /** The handle and all its parts are listed. */
  ghost predicate Present(st: State, h: Handle) {
    h in st.fs && Listed(st, h) && forall x :: x in Parts(st.fs[h]) ==> Listed(st, x)
  }

  /** A file, a directory whose dirdata can be fetched, or a symlink; no part comes twice. */
  predicate Readable(fs: Fs, h: Handle) {
    h in fs && (fs[h].Metafile? || (fs[h].Directory? && fs[h].dirdata.Some?) || fs[h].Symlink?) && Distinct(Parts(fs[h]))
  }

  /** No handle of the tree is named by two entries, and none is part of two objects, or named and a part. */
  ghost predicate OneUse(st: State, root: Handle) {
    && (forall d, e, c, f :: InTree(st, root, d, e) && InTree(st, root, c, f) && e.handle == f.handle ==> d == c && e == f)
    && (forall m, k, x :: (&& OfTree(st, root, m) && OfTree(st, root, k) && m in st.fs && k in st.fs
                           && x in Parts(st.fs[m]) && x in Parts(st.fs[k])) ==> m == k)
    && (forall m, x :: OfTree(st, root, m) && m in st.fs && x in Parts(st.fs[m]) ==> !OfTree(st, root, x))
  }

  /** Everything in the tree can be read, is listed with all its parts, and is used once. */
  ghost predicate Consistent(st: State, root: Handle) {
    && Readable(st.fs, root) && st.fs[root].Directory?
    && (forall m :: OfTree(st, root, m) ==> Readable(st.fs, m) && Present(st, m))
    && (forall d, e :: InTree(st, root, d, e) ==> e.handle != root)
    && (forall d :: Reachable(st, root, d) ==> DistinctNames(Entries(st.fs, d)))
    && OneUse(st, root)
  }

  /** Every listed handle is of the tree, or a part of an object of the tree. */
  ghost predicate Accounted(st: State, root: Handle) {
    forall x :: Listed(st, x) ==> OfTree(st, root, x) || PartOfTree(st, root, x)
  }

  ghost predicate PartOfTree(st: State, root: Handle, x: Handle) {
    exists m :: OfTree(st, root, m) && m in st.fs && x in Parts(st.fs[m])
  }

  // ---------- what a walk of it relies on ----------

  /** Nothing happened but that lists and records changed. */
  ghost predicate Undisturbed(a: State, b: State) {
    && b.fs == a.fs && b.log == a.log && b.removals == a.removals && b.prompts == a.prompts && b.halted == a.halted
  }

  /** What directories that are not walked yet name is all listed. */
  ghost predicate Waiting(init: State, root: Handle, st: State) {
    forall c, f :: InTree(init, root, c, f) && c !in st.walked ==> Present(st, f.handle)
  }

  ghost predicate Steadfast(init: State, root: Handle, st: State) {
    && Sound(st) && Unique(st) && st.alt.None? && !st.halted && st.fs == init.fs && Distinct(st.walked)
    && (forall d :: d in st.walked ==> Reachable(init, root, d) && Taken(st, d))
    && Waiting(init, root, st)
  }

  /** The dirdata of the directory is off the list. */
  ghost predicate Taken(st: State, d: Handle) {
    d in st.fs && st.fs[d].Directory? && Parts(st.fs[d]) != [] && forall x :: x in Parts(st.fs[d]) ==> !Listed(st, x)
  }

  /** The handle and its parts are off the list, and if it is a directory it was walked. */
  ghost predicate Done(st: State, h: Handle) {
    && h in st.fs && !Listed(st, h) && (forall x :: x in Parts(st.fs[h]) ==> !Listed(st, x))
    && (st.fs[h].Directory? ==> h in st.walked)
  }

  /** What a stretch of the walk delivers. */
  ghost predicate Passes(init: State, root: Handle, st: State, r: State) {
    && Steadfast(init, root, r) && Undisturbed(st, r) && st.walked <= r.walked && Smaller(st, r)
    && forall c, f :: InTree(init, root, c, f) && c in r.walked && c !in st.walked ==> Done(r, f.handle)
  }

  /** Entries of directories that were not entered in between are still listed, but for the entry for `h`. */
  ghost predicate Spares(init: State, root: Handle, st: State, r: State, h: Handle) {
    forall c, f :: InTree(init, root, c, f) && f.handle != h && (c in st.walked || c !in r.walked) && Present(st, f.handle) ==>
      Present(r, f.handle)
  }

  lemma DoneStays(st: State, r: State, h: Handle)
    requires Done(st, h) && Smaller(st, r) && r.fs == st.fs && st.walked <= r.walked
    ensures Done(r, h)
  {
    SmallerLeft(st, r);
  }

  lemma PassesTrans(init: State, root: Handle, a: State, b: State, c: State)
    requires Passes(init, root, a, b) && Passes(init, root, b, c)
    ensures Passes(init, root, a, c)
  {
    SmallerTrans(a, b, c);
    forall d, f | InTree(init, root, d, f) && d in c.walked && d !in a.walked ensures Done(c, f.handle) {
      if d in b.walked { DoneStays(b, c, f.handle); }
    }
  }

  // ---------- what a walk may take ----------

  /** What a visit to `h` takes, the handle and its parts, is nothing another entry of the tree needs. */
  lemma NotNeeded(init: State, root: Handle, d: Handle, e: Dirent, c: Handle, f: Dirent, x: Handle)
    requires Consistent(init, root) && InTree(init, root, d, e) && InTree(init, root, c, f) && f.handle != e.handle
    requires f.handle in init.fs && (x == f.handle || x in Parts(init.fs[f.handle]))
    ensures x != e.handle && (e.handle in init.fs ==> x !in Parts(init.fs[e.handle]))
  {
    assert OfTree(init, root, e.handle) && OfTree(init, root, f.handle);
  }

  /** One of these directories names `m`, and `x` is `m` or a part of it. */
  ghost predicate Under(fs: Fs, ws: seq<Handle>, m: Handle, x: Handle) {
    NamedBy(fs, ws, m) && (x == m || (m in fs && x in Parts(fs[m])))
  }

  lemma TookUnder(fs: Fs, ws: seq<Handle>, l: Ledger, x: Handle)
    requires Means(fs, ws, l) && (x in l.named || x in l.datafiles || x in l.dirdata)
    ensures exists m :: Under(fs, ws, m, x)
  {
    if x in l.named {
      assert Under(fs, ws, x, x);
    } else if x in l.datafiles {
      var m :| NamedBy(fs, ws, m) && m in fs && fs[m].Metafile? && x in fs[m].dfiles;
      assert Under(fs, ws, m, x);
    } else {
      var m :| NamedBy(fs, ws, m) && m in fs && fs[m].Directory? && x in Parts(fs[m]);
      assert Under(fs, ws, m, x);
    }
  }

  /** A walk takes only what the directories it enters name, and parts of that. */
  lemma WalkTakes(o: Options, s: State, w: State, h: Handle, x: Handle)
    requires Sound(s) && w == Descend(o, s, h) && Listed(s, x)
    ensures s.walked <= w.walked && (Listed(w, x) || exists m :: Under(s.fs, Since(w, |s.walked|), m, x))
  {
    DescendBalance(o, s, h, x);
    DescendMeans(o, s.fs, |s.walked|, s, h);
    TimesListed(s, x);
    TimesListed(w, x);
    if !Listed(w, x) { TookUnder(s.fs, Since(w, |s.walked|), DescendTook(o, s, h), x); }
  }

  lemma NotUnder(init: State, root: Handle, ws: seq<Handle>, c: Handle, f: Dirent, m: Handle, x: Handle)
    requires Consistent(init, root) && (forall d :: d in ws ==> Reachable(init, root, d)) && InTree(init, root, c, f) && c !in ws
    requires f.handle in init.fs && (x == f.handle || x in Parts(init.fs[f.handle]))
    ensures !Under(init.fs, ws, m, x)
  {
    if NamedBy(init.fs, ws, m) {
      var d, e :| d in ws && e in Entries(init.fs, d) && e.handle == m;
      assert InTree(init, root, d, e);
      NotNeeded(init, root, d, e, c, f, x);
    }
  }

  lemma TakenUnder(o: Options, init: State, root: Handle, s: State, w: State, h: Handle, c: Handle, f: Dirent, x: Handle)
    requires Consistent(init, root) && Sound(s) && s.fs == init.fs && w == Descend(o, s, h) && Distinct(w.walked)
    requires (forall d :: d in w.walked ==> Reachable(init, root, d)) && Listed(s, x)
    requires InTree(init, root, c, f) && (c in s.walked || c !in w.walked)
    requires f.handle in init.fs && (x == f.handle || x in Parts(init.fs[f.handle]))
    ensures Listed(w, x)
  {
    WalkTakes(o, s, w, h, x);
    NewWalked(s, w);
    forall m ensures !Under(init.fs, Since(w, |s.walked|), m, x) {
      NotUnder(init, root, Since(w, |s.walked|), c, f, m, x);
    }
  }

  lemma NewWalked(s: State, w: State)
    requires s.walked <= w.walked && Distinct(w.walked)
    ensures forall d :: d in Since(w, |s.walked|) ==> d in w.walked && d !in s.walked
  {
    var n := |s.walked|;
    forall d | d in Since(w, n) ensures d in w.walked && d !in s.walked {
      var i :| 0 <= i < |Since(w, n)| && Since(w, n)[i] == d;
      assert w.walked[n + i] == d;
      forall j | 0 <= j < n ensures s.walked[j] != d { assert w.walked[j] == s.walked[j]; }
    }
  }

  lemma DescendSpares(o: Options, init: State, root: Handle, s: State, w: State, h: Handle)
    requires Consistent(init, root) && Sound(s) && s.fs == init.fs && w == Descend(o, s, h)
    requires Steadfast(init, root, w)
    ensures Spares(init, root, s, w, h)
  {
    forall c, f | InTree(init, root, c, f) && f.handle != h && (c in s.walked || c !in w.walked) && Present(s, f.handle)
      ensures Present(w, f.handle)
    {
      forall x | x == f.handle || x in Parts(init.fs[f.handle]) ensures Listed(w, x) {
        TakenUnder(o, init, root, s, w, h, c, f, x);
      }
    }
  }

  // ---------- the walk ----------

  lemma {:induction false} DescendPasses(o: Options, init: State, root: Handle, st: State, dir: Handle)
    requires Consistent(init, root) && Steadfast(init, root, st)
    requires Reachable(init, root, dir) && dir !in st.walked && Taken(st, dir)
    ensures Passes(init, root, st, Descend(o, st, dir)) && dir in Descend(o, st, dir).walked
    decreases Left(st.main, st.alt), 2, 0
  {
    var s := st.(walked := st.walked + [dir]);
    var es := Entries(st.fs, dir);
    EnterSteadfast(init, root, st, s, dir);
    EntriesWait(init, root, st, dir);
    WalkPasses(o, init, root, s, dir, es);
    AllPassed(init, root, st, s, WalkEntries(o, s, dir, es), dir);
  }

  lemma EntriesWait(init: State, root: Handle, st: State, dir: Handle)
    requires Consistent(init, root) && Steadfast(init, root, st) && Reachable(init, root, dir) && dir !in st.walked
    ensures DistinctNames(Entries(st.fs, dir))
    ensures forall e :: e in Entries(st.fs, dir) ==> InTree(init, root, dir, e) && Present(st, e.handle)
  {
    forall e | e in Entries(st.fs, dir) ensures InTree(init, root, dir, e) && Present(st, e.handle) {
      assert InTree(init, root, dir, e);
    }
  }

  /** The walk of `dir` is a stretch that enters `dir`, too. */
  lemma AllPassed(init: State, root: Handle, st: State, s: State, r: State, dir: Handle)
    requires s == st.(walked := st.walked + [dir]) && Passes(init, root, s, r) && st.fs == init.fs
    requires forall e :: e in Entries(st.fs, dir) ==> Done(r, e.handle)
    ensures Passes(init, root, st, r) && dir in r.walked
  {
    assert s.walked[|st.walked|] == dir && r.walked[|st.walked|] == dir;
    ListsKept(st.main, st.alt);
    SmallerTrans(st, s, r);
    forall c, f | InTree(init, root, c, f) && c in r.walked && c !in st.walked ensures Done(r, f.handle) {
      assert c == dir || c !in s.walked;
    }
  }

  lemma EnterSteadfast(init: State, root: Handle, st: State, s: State, dir: Handle)
    requires Steadfast(init, root, st) && Reachable(init, root, dir) && dir !in st.walked && Taken(st, dir)
    requires s == st.(walked := st.walked + [dir])
    ensures Steadfast(init, root, s) && forall h :: Listed(s, h) <==> Listed(st, h)
  {
    assert forall h :: Times(s, h) == Times(st, h);
    forall d | d in s.walked ensures Reachable(init, root, d) && Taken(s, d) {
      assert d == dir || d in st.walked;
      assert Taken(st, d);
    }
    forall c, f | InTree(init, root, c, f) && c !in s.walked ensures Present(s, f.handle) {
      assert c !in st.walked;
      assert Present(st, f.handle);
    }
  }

  lemma {:induction false} WalkPasses(o: Options, init: State, root: Handle, st: State, dir: Handle, es: seq<Dirent>)
    requires Consistent(init, root) && Steadfast(init, root, st) && dir in st.walked && DistinctNames(es)
    requires forall e :: e in es ==> InTree(init, root, dir, e) && Present(st, e.handle)
    ensures var r := WalkEntries(o, st, dir, es);
            Passes(init, root, st, r) && forall e :: e in es ==> Done(r, e.handle)
    decreases Left(st.main, st.alt), 1, |es|
  {
    if es == [] {
      ListsKept(st.main, st.alt);
    } else {
      var e := es[0];
      var s := Visit(o, st, dir, e);
      VisitPasses(o, init, root, st, s, dir, e);
      SmallerLeft(st, s);
      NextPresent(init, root, st, s, dir, es);
      WalkPasses(o, init, root, s, dir, es[1..]);
      var r := WalkEntries(o, s, dir, es[1..]);
      PassesTrans(init, root, st, s, r);
      DoneStays(s, r, e.handle);
      assert forall f :: f in es ==> f == e || f in es[1..];
    }
  }

  lemma NextPresent(init: State, root: Handle, st: State, s: State, dir: Handle, es: seq<Dirent>)
    requires Consistent(init, root) && es != [] && DistinctNames(es) && dir in st.walked
    requires forall e :: e in es ==> InTree(init, root, dir, e) && Present(st, e.handle)
    requires Spares(init, root, st, s, es[0].handle)
    ensures DistinctNames(es[1..]) && forall f :: f in es[1..] ==> InTree(init, root, dir, f) && Present(s, f.handle)
  {
    assert es[0] in es;
    forall i | 1 <= i < |es| ensures InTree(init, root, dir, es[i]) && Present(s, es[i].handle) {
      assert es[i] in es && es[i].name != es[0].name;
      assert es[i].handle != es[0].handle;
    }
  }

  lemma {:induction false} VisitPasses(o: Options, init: State, root: Handle, st: State, r: State, dir: Handle, e: Dirent)
    requires Consistent(init, root) && Steadfast(init, root, st) && dir in st.walked
    requires InTree(init, root, dir, e) && Present(st, e.handle) && r == Visit(o, st, dir, e)
    ensures Passes(init, root, st, r) && Done(r, e.handle) && Spares(init, root, st, r, e.handle)
    decreases Left(st.main, st.alt), 0, 1
  {
    assert OfTree(init, root, e.handle);
    PlainPast(o, st, dir, e);
    if st.fs[e.handle].Directory? {
      DirectoryPasses(o, init, root, st, r, dir, e);
    } else {
      PlainPasses(o, init, root, st, r, dir, e);
    }
  }

  /** A visit that takes the entry's handle and its parts, and nothing else, spares what other entries need. */
  lemma TakesSpares(init: State, root: Handle, st: State, r: State, dir: Handle, e: Dirent)
    requires Consistent(init, root) && st.fs == init.fs && r.fs == st.fs && InTree(init, root, dir, e) && e.handle in st.fs
    requires forall x :: Listed(st, x) && x != e.handle && x !in Parts(st.fs[e.handle]) ==> Listed(r, x)
    ensures Spares(init, root, st, r, e.handle)
  {
    forall c, f | InTree(init, root, c, f) && f.handle != e.handle && (c in st.walked || c !in r.walked) && Present(st, f.handle)
      ensures Present(r, f.handle)
    {
      forall x | x == f.handle || x in Parts(init.fs[f.handle]) ensures Listed(r, x) {
        NotNeeded(init, root, dir, e, c, f, x);
      }
    }
  }

  /** Lists shrank and nothing was walked. */
  lemma StillSteadfast(init: State, root: Handle, st: State, r: State, dir: Handle, e: Dirent)
    requires Consistent(init, root) && Steadfast(init, root, st) && dir in st.walked && InTree(init, root, dir, e)
    requires Smaller(st, r) && r.fs == st.fs && r.walked == st.walked && !r.halted && Spares(init, root, st, r, e.handle)
    ensures Steadfast(init, root, r)
  {
    SmallerLeft(st, r);
    UniqueShrinks(st, r);
    forall d | d in r.walked ensures Reachable(init, root, d) && Taken(r, d) { assert Taken(st, d); }
    forall c, f | InTree(init, root, c, f) && c !in r.walked ensures Present(r, f.handle) {
      assert f.handle != e.handle;
      assert Present(st, f.handle);
    }
  }

  lemma PlainPasses(o: Options, init: State, root: Handle, st: State, r: State, dir: Handle, e: Dirent)
    requires Consistent(init, root) && Steadfast(init, root, st) && dir in st.walked
    requires InTree(init, root, dir, e) && Present(st, e.handle) && r == Visit(o, st, dir, e)
    requires !st.fs[e.handle].Directory? && Readable(st.fs, e.handle) && (!r.halted ==> !Listed(r, e.handle))
    ensures Passes(init, root, st, r) && Done(r, e.handle) && Spares(init, root, st, r, e.handle)
  {
    PlainStays(o, st, r, dir, e);
    forall x | Listed(st, x) && x != e.handle && x !in Parts(st.fs[e.handle]) ensures Listed(r, x) {
      PlainTakes(o, st, r, dir, e, x);
    }
    TakesSpares(init, root, st, r, dir, e);
    StillSteadfast(init, root, st, r, dir, e);
  }

  /** A file or symlink that is all there: the visit takes its parts off the list and changes nothing. */
  lemma PlainStays(o: Options, st: State, r: State, dir: Handle, e: Dirent)
    requires Sound(st) && Unique(st) && st.alt.None? && !st.halted && Present(st, e.handle) && Readable(st.fs, e.handle)
    requires !st.fs[e.handle].Directory? && r == Visit(o, st, dir, e)
    ensures Undisturbed(st, r) && r.walked == st.walked && Smaller(st, r)
    ensures forall x :: x in Parts(st.fs[e.handle]) ==> !Listed(r, x)
  {
    var h := e.handle;
    if st.fs[h].Metafile? {
      var c := ClaimAll(st.main, st.alt, st.fs[h].dfiles);
      ClaimSingle(st, st.fs[h].dfiles);
      ProbeComplete(st.main, st.alt, st.fs[h].dfiles, 0);
      assert c.Claim? && c.complete;
      VisitFile(o, st, dir, e);
      var j := FileOutcome(o, st, c, dir, e);
      FinishShrinks(st, j, h);
      SmallerLeft(j, r);
    } else {
      VisitOther(o, st, dir, e);
    }
  }

  lemma {:induction false} DirectoryPasses(o: Options, init: State, root: Handle, st: State, r: State, dir: Handle, e: Dirent)
    requires Consistent(init, root) && Steadfast(init, root, st) && dir in st.walked
    requires InTree(init, root, dir, e) && Present(st, e.handle) && r == Visit(o, st, dir, e)
    requires Readable(st.fs, e.handle) && st.fs[e.handle].Directory? && (!r.halted ==> !Listed(r, e.handle))
    ensures Passes(init, root, st, r) && Done(r, e.handle) && Spares(init, root, st, r, e.handle)
    decreases Left(st.main, st.alt), 0, 0
  {
    var h := e.handle;
    var s := EnterPasses(init, root, st, dir, e);
    VisitDirectory(o, st, dir, e);
    var w := Descend(o, s, h);
    DescendPasses(o, init, root, s, h);
    DescendSpares(o, init, root, s, w, h);
    assert r == Finish(st, Keep(w, dir, e), h);
    LeavePasses(init, root, st, s, w, r, dir, e);
  }

  /** The directory is entered: its dirdata comes off the list. */
  lemma EnterPasses(init: State, root: Handle, st: State, dir: Handle, e: Dirent) returns (s: State)
    requires Consistent(init, root) && Steadfast(init, root, st) && dir in st.walked
    requires InTree(init, root, dir, e) && Present(st, e.handle) && Readable(st.fs, e.handle) && st.fs[e.handle].Directory?
    ensures var c := MatchDirdata(st.main, st.alt, st.fs[e.handle].dirdata);
            c.Claim? && c.complete && s == AfterClaim(st, c) && In(st.main, e.handle)
    ensures Smaller(st, s) && Undisturbed(st, s) && s.walked == st.walked
    ensures Steadfast(init, root, s) && Spares(init, root, st, s, e.handle)
    ensures Reachable(init, root, e.handle) && e.handle !in s.walked && Taken(s, e.handle)
  {
    var h := e.handle;
    var hs := st.fs[h].dirdata.value;
    var c := ClaimAll(st.main, st.alt, hs);
    ClaimSingle(st, hs);
    ProbeComplete(st.main, st.alt, hs, 0);
    s := AfterClaim(st, c);
    MatchSound(st, h);
    forall x | Listed(st, x) && x != h && x !in Parts(st.fs[h]) ensures Listed(s, x) { ClaimTakesOnly(st, hs, x); }
    TakesSpares(init, root, st, s, dir, e);
    StillSteadfast(init, root, st, s, dir, e);
    assert h !in st.walked by { assert Parts(st.fs[h])[0] in Parts(st.fs[h]); }
    EntryReachable(init, root, dir, e);
  }

  lemma EntryReachable(init: State, root: Handle, dir: Handle, e: Dirent)
    requires Consistent(init, root) && InTree(init, root, dir, e) && e.handle in init.fs && init.fs[e.handle].Directory?
    ensures Reachable(init, root, e.handle)
  {
    assert OfTree(init, root, e.handle);
    assert Names(init.fs, dir, e.handle);
    PathStep(init, root, dir, e.handle);
  }

  /** The walk of the directory is over, and its handle comes off the list. */
  lemma LeavePasses(init: State, root: Handle, st: State, s: State, w: State, r: State, dir: Handle, e: Dirent)
    requires Consistent(init, root) && Steadfast(init, root, st) && dir in st.walked && InTree(init, root, dir, e)
    requires Sound(st) && Listed(st, e.handle) && e.handle in st.fs
    requires Undisturbed(st, s) && s.walked == st.walked && Smaller(st, s) && Spares(init, root, st, s, e.handle) && Taken(s, e.handle)
    requires Passes(init, root, s, w) && Spares(init, root, s, w, e.handle) && e.handle in w.walked
    requires Smaller(st, Keep(w, dir, e)) && r == Finish(st, Keep(w, dir, e), e.handle) && Smaller(st, r)
    requires !r.halted ==> !Listed(r, e.handle)
    ensures Passes(init, root, st, r) && Done(r, e.handle) && Spares(init, root, st, r, e.handle)
  {
    var h := e.handle;
    LeaveLists(st, w, r, dir, e);
    TakesSpares(init, root, w, r, dir, e);
    StillSteadfast(init, root, w, r, dir, e);
    forall c, f | InTree(init, root, c, f) && c in r.walked && c !in st.walked ensures Done(r, f.handle) {
      assert Done(w, f.handle);
      DoneStays(w, r, f.handle);
    }
    SmallerLeft(s, w);
    SmallerLeft(w, r);
    SparesTrans(init, root, st, s, w, r, h);
  }

  lemma LeaveLists(st: State, w: State, r: State, dir: Handle, e: Dirent)
    requires Sound(st) && Listed(st, e.handle) && !w.halted
    requires Smaller(st, Keep(w, dir, e)) && r == Finish(st, Keep(w, dir, e), e.handle)
    ensures Smaller(w, r) && Undisturbed(w, r) && r.walked == w.walked
    ensures forall x :: Listed(w, x) && x != e.handle ==> Listed(r, x)
  {
    var k := Keep(w, dir, e);
    FinishShrinks(st, k, e.handle);
    forall x | Listed(w, x) && x != e.handle ensures Listed(r, x) { FinishKeeps(st, k, e.handle, x); }
  }

  lemma SparesTrans(init: State, root: Handle, st: State, s: State, w: State, r: State, h: Handle)
    requires Spares(init, root, st, s, h) && Spares(init, root, s, w, h) && Spares(init, root, w, r, h)
    requires s.walked == st.walked && r.walked == w.walked
    ensures Spares(init, root, st, r, h)
  {
    forall c, f | InTree(init, root, c, f) && f.handle != h && (c in st.walked || c !in r.walked) && Present(st, f.handle)
      ensures Present(r, f.handle)
    {
      assert Present(s, f.handle);
      assert Present(w, f.handle);
    }
  }

  // ---------- pass 1 ----------

  /** The root and its dirdata come off the list, and the walk can start. */
  lemma RootPasses(o: Options, st: State, root: Handle) returns (t: State)
    requires Start(st) && Consistent(st, root)
    ensures Steadfast(st, root, t) && Undisturbed(st, t) && Smaller(st, t) && t.walked == [] && Taken(t, root) && !Listed(t, root)
    ensures PassOne(o, st, root) == Descend(o, t, root)
  {
    assert OfTree(st, root, root) && Present(st, root);
    var s := st.(main := RemoveAt(st.main, root, Find(st.main, root).value));
    var hs := st.fs[root].dirdata.value;
    assert root !in Parts(st.fs[root]);
    RootLeaves(st, s, root);
    RootSteps(o, st, root);
    t := RootClaims(s, root);
    SmallerTrans(st, s, t);
    SmallerLeft(s, t);
    forall x | Listed(st, x) && x != root && x !in hs ensures Listed(t, x) { ClaimTakesOnly(s, hs, x); }
    RootWaiting(st, t, root);
  }

  lemma RootWaiting(st: State, t: State, root: Handle)
    requires Consistent(st, root) && t.fs == st.fs
    requires forall x :: Listed(st, x) && x != root && x !in Parts(st.fs[root]) ==> Listed(t, x)
    ensures Waiting(st, root, t)
  {
    assert OfTree(st, root, root);
    forall c, f | InTree(st, root, c, f) && c !in t.walked ensures Present(t, f.handle) {
      assert OfTree(st, root, f.handle);
      assert Present(st, f.handle) && f.handle != root;
      forall x | x == f.handle || x in Parts(st.fs[f.handle]) ensures Listed(t, x) {
        assert x != root && x !in Parts(st.fs[root]);
      }
    }
  }

  /**
   On a consistent file system pass 1 changes and logs nothing, asks nothing and does not stop; it walks every directory
   that can be reached, and takes everything the tree uses off the list.
   */
  lemma PassOneLeavesAlone(o: Options, st: State, root: Handle)
    requires Start(st) && Consistent(st, root)
    ensures var r := PassOne(o, st, root);
            && r.fs == st.fs && r.log == [] && r.removals == 0 && r.prompts == 0 && !r.halted
            && (forall d :: Reachable(st, root, d) ==> d in r.walked)
            && (forall x :: OfTree(st, root, x) || PartOfTree(st, root, x) ==> !Listed(r, x))
  {
    var t := RootPasses(o, st, root);
    assert Path(st, root, [root]) && [root][0] == root;
    DescendPasses(o, st, root, t, root);
    var r := PassOne(o, st, root);
    forall d | Reachable(st, root, d) ensures d in r.walked {
      var p :| Path(st, root, p) && p[|p| - 1] == d;
      PathDone(st, root, t, r, p, |p| - 1);
    }
    SmallerLeft(t, r);
    forall x | OfTree(st, root, x) || PartOfTree(st, root, x) ensures !Listed(r, x) {
      UsedUp(st, root, t, r, x);
    }
  }

  lemma {:induction false} PathDone(st: State, root: Handle, t: State, r: State, p: seq<Handle>, i: nat)
    requires Passes(st, root, t, r) && t.walked == [] && root in r.walked && Path(st, root, p) && i < |p|
    ensures p[i] in r.walked
    decreases i
  {
    if i > 0 {
      PathDone(st, root, t, r, p, i - 1);
      assert Names(st.fs, p[i - 1], p[i]) && Whole(st, p[i]);
      var e :| e in Entries(st.fs, p[i - 1]) && e.handle == p[i];
      PathPrefix(st, root, p, i - 1);
      assert InTree(st, root, p[i - 1], e);
      assert Done(r, e.handle);
    }
  }

  lemma PathPrefix(st: State, root: Handle, p: seq<Handle>, i: nat)
    requires Path(st, root, p) && i < |p|
    ensures Reachable(st, root, p[i])
  {
    var q := p[..i + 1];
    forall j | 0 < j < |q| ensures q[j] != root && Whole(st, q[j]) && Names(st.fs, q[j - 1], q[j]) {
      assert q[j] == p[j] && q[j - 1] == p[j - 1];
    }
    assert Path(st, root, q) && q[|q| - 1] == p[i];
  }

  lemma UsedUp(st: State, root: Handle, t: State, r: State, x: Handle)
    requires Passes(st, root, t, r) && t.walked == [] && Taken(t, root) && !Listed(t, root) && t.fs == st.fs
    requires forall d :: Reachable(st, root, d) ==> d in r.walked
    requires forall y :: Listed(r, y) ==> Listed(t, y)
    requires OfTree(st, root, x) || PartOfTree(st, root, x)
    ensures !Listed(r, x)
  {
    var m := x;
    if PartOfTree(st, root, x) { m :| OfTree(st, root, m) && m in st.fs && x in Parts(st.fs[m]); }
    if m != root {
      var d, e :| InTree(st, root, d, e) && e.handle == m;
      assert Done(r, e.handle);
    }
  }

  /**
   A run on a consistent file system in which every listed handle is used changes nothing, logs nothing and does not
   stop, whatever the options.
   */
  lemma RunLeavesAlone(o: Options, st: State, root: Handle, laf: Handle)
    requires Start(st) && Consistent(st, root) && Accounted(st, root)
    ensures var r := Run(o, st, root, laf);
            r.fs == st.fs && r.log == [] && !r.halted
  {
    var s1 := PassOne(o, st, root);
    PassOneLeavesAlone(o, st, root);
    PassOneInv(o, st, root);
    SmallerLeft(st, s1);
    NothingLeft(o, s1, laf);
  }

  /** With empty lists passes 2 to 4 do nothing. */
  lemma NothingLeft(o: Options, s1: State, laf: Handle)
    requires Sound(s1) && !s1.halted && forall x :: !Listed(s1, x)
    ensures var s2 := PassTwo(o, s1);
            && s2 == s1.(alt := Some(Fresh(s1.main)))
            && var s3 := PassThree(o, s2, laf);
               !s3.halted && s3.fs == s1.fs && s3.log == s1.log && PassFour(o, s3) == s3.(main := s3.alt.value, alt := None)
  {
    forall x ensures !In(s1.main, x) { assert !Listed(s1, x); }
    EmptyPops(s1.main);
    FreshEmpty(s1.main);
    var f := Fresh(s1.main);
    FreshEmpty(f);
    EmptyPops(f);
    EmptyPops(Fresh(f));
  }

  lemma EmptyPops(l: Lists)
    requires forall x :: !In(l, x)
    ensures PopServer(l).None?
  {
    if PopServer(l).Some? {
      var i := PopServer(l).value;
      assert l[i][0] in l[i];
      assert In(l, l[i][0]);
    }
  }

  // ---------- there are such file systems ----------

  /** The root, with one dirdata object, and one file, with one datafile, whose entry it has. */
  function OneFile(name: string): Fs {
    map[1 := Directory(Some([2]), [Dirent(name, 3)]), 2 := Dirdata, 3 := Metafile([4]), 4 := Datafile]
  }

  lemma OneFileListed(st: State)
    requires st.main == [[1, 2, 3, 4]] && st.alt.None?
    ensures Unique(st) && forall x :: Listed(st, x) <==> x in [1, 2, 3, 4]
  {
    forall x ensures Times(st, x) <= 1 {
      assert st.main[1..] == [] && Count(st.main[1..], x) == 0;
      assert multiset([1, 2, 3, 4]) == multiset{1, 2, 3, 4};
    }
    forall x ensures Listed(st, x) <==> x in [1, 2, 3, 4] { assert st.main[0] == [1, 2, 3, 4]; }
  }

  lemma OneFileReach(name: string, st: State, d: Handle)
    requires st.fs == OneFile(name)
    ensures Reachable(st, 1, d) <==> d == 1
  {
    assert Path(st, 1, [1]) && [1][|[1]| - 1] == 1;
    if Reachable(st, 1, d) {
      var p :| Path(st, 1, p) && p[|p| - 1] == d;
      assert forall h :: Names(st.fs, 1, h) ==> h == 3;
    }
  }

  lemma OneFileTree(name: string, st: State)
    requires st.fs == OneFile(name)
    ensures forall d, e :: InTree(st, 1, d, e) <==> d == 1 && e == Dirent(name, 3)
    ensures forall m :: OfTree(st, 1, m) <==> m == 1 || m == 3
  {
    forall d ensures Reachable(st, 1, d) <==> d == 1 { OneFileReach(name, st, d); }
    assert Entries(st.fs, 1) == [Dirent(name, 3)];
    assert InTree(st, 1, 1, Dirent(name, 3));
  }

  lemma OneFileUsed(name: string, st: State)
    requires st.fs == OneFile(name) && (forall x :: Listed(st, x) <==> x in [1, 2, 3, 4])
    ensures Consistent(st, 1) && Accounted(st, 1)
  {
    OneFileTree(name, st);
    assert Parts(st.fs[1]) == [2] && Parts(st.fs[3]) == [4];
    forall d | Reachable(st, 1, d) ensures DistinctNames(Entries(st.fs, d)) { OneFileReach(name, st, d); }
    assert OneUse(st, 1);
    forall x | Listed(st, x) ensures OfTree(st, 1, x) || PartOfTree(st, 1, x) {
      assert 2 in Parts(st.fs[1]) && 4 in Parts(st.fs[3]);
      assert OfTree(st, 1, 1) && OfTree(st, 1, 3);
    }
  }

  lemma OneFileStart(name: string, st: State)
    requires st == Initial(OneFile(name), st.main) && Servers(st.main, None) && Unique(st)
    requires forall x :: Listed(st, x) <==> x in [1, 2, 3, 4]
    ensures Start(st)
  {
  }

  lemma OneFileConsistent(name: string, st: State)
    requires st == Initial(OneFile(name), [[1, 2, 3, 4]])
    ensures Start(st) && Consistent(st, 1) && Accounted(st, 1)
  {
    OneFileListed(st);
    OneFileStart(name, st);
    OneFileUsed(name, st);
  }
}
