/**
 Which file owns a datafile. A file that passes verify_datafiles while there is only
 one list owns its datafiles for good. With two lists the removal from the second
 one uses the server of whatever handle was found last, so a datafile can stay
 listed; the lemmas say exactly when that happens and what holds regardless.
 */
module FsckOwners {
  import opened Wrappers
  import opened HandleLists
  import opened FsckModel
  import opened FsckFrame
  import opened FsckLinks
  import opened FsckIntact

  /** Every listed handle is under its own server, as build_handlelist checks. */
  ghost predicate Located(st: State, home: Handle -> nat) {
    && (forall i, h :: 0 <= i < |st.main| && h in st.main[i] ==> home(h) == i)
    && (st.alt.Some? ==> forall i, h :: 0 <= i < |st.alt.value| && h in st.alt.value[i] ==> home(h) == i)
  }

  lemma LocatedShrinks(st: State, r: State, home: Handle -> nat)
    requires Located(st, home) && ListsShrunk(st.main, st.alt, r.main, r.alt)
    ensures Located(r, home)
  {
    forall i, h | 0 <= i < |r.main| && h in r.main[i] ensures home(h) == i { ShrunkIn(st.main, r.main, h, i); }
    if st.alt.Some? {
      forall i, h | 0 <= i < |r.alt.value| && h in r.alt.value[i] ensures home(h) == i {
        ShrunkIn(st.alt.value, r.alt.value, h, i);
      }
    }
  }

  /**
   Before the call: every handle that is not on the first list lives on the server
   of the handle last found on the first list before it, or else of the very last one.
   */
  predicate InStep(main: Lists, hs: seq<Handle>, idx: nat, home: Handle -> nat) {
    if hs == [] then true
    else if In(main, hs[0]) then InStep(main, hs[1..], home(hs[0]), home)
    else home(hs[0]) == idx && InStep(main, hs[1..], idx, home)
  }

  ghost predicate AllGone(main: Lists, alt: Option<Lists>, hs: seq<Handle>) {
    forall x :: x in hs ==> Gone(main, alt, x)
  }

  ghost predicate LocatedIn(main: Lists, alt: Lists, home: Handle -> nat) {
    && (forall i, h :: 0 <= i < |main| && h in main[i] ==> home(h) == i)
    && (forall i, h :: 0 <= i < |alt| && h in alt[i] ==> home(h) == i)
  }

  lemma {:induction false} InStepSame(m: Lists, mNew: Lists, hs: seq<Handle>, idx: nat, home: Handle -> nat)
    requires forall x :: x in hs ==> (In(m, x) <==> In(mNew, x))
    ensures InStep(m, hs, idx, home) <==> InStep(mNew, hs, idx, home)
  {
    if hs != [] {
      assert hs[0] in hs;
      InStepSame(m, mNew, hs[1..], if In(m, hs[0]) then home(hs[0]) else idx, home);
    }
  }

  /** The second loop takes all its handles exactly when they are in step. */
  lemma {:induction false} DrainIff(main: Lists, alt: Lists, hs: seq<Handle>, idx: nat, home: Handle -> nat)
    requires Servers(main, Some(alt)) && idx < |main| && UniqueIn(main, Some(alt)) && LocatedIn(main, alt, home)
    requires Distinct(hs) && NULL_HANDLE !in hs && forall x :: x in hs ==> In(main, x) || In(alt, x)
    ensures var d := DrainAll(main, Some(alt), hs, idx);
            d.Drained? && (AllGone(d.main, d.alt, hs) <==> InStep(main, hs, idx, home))
    decreases |hs|
  {
    if hs != [] {
      var h := hs[0];
      assert h in hs;
      if In(main, h) {
        var i := Find(main, h).value;
        var m := RemoveAt(main, h, i);
        GoneFromMain(main, Some(alt), h);
        StepPre(main, alt, m, alt, hs, home);
        forall x | x in hs[1..] ensures In(m, x) <==> In(main, x) { RemoveAtIn(main, h, i, x); }
        DrainIff(m, alt, hs[1..], i, home);
        InStepSame(main, m, hs[1..], i, home);
        DrainKeepsHead(m, Some(alt), hs, i);
      } else {
        var a := RemoveAt(alt, h, idx);
        RemoveAtShrinks(alt, h, idx);
        StepPre(main, alt, main, a, hs, home);
        forall x | x in hs[1..] ensures In(a, x) <==> In(alt, x) { RemoveAtIn(alt, h, idx, x); }
        DrainIff(main, a, hs[1..], idx, home);
        DrainKeepsHead(main, Some(a), hs, idx);
        if home(h) == idx {
          var j :| 0 <= j < |alt| && h in alt[j];
          GoneFromAlt(main, alt, h, idx);
        }
      }
    }
  }

  /** What happens to the head of distinct handles afterwards: nothing. */
  lemma DrainKeepsHead(m: Lists, a: Option<Lists>, hs: seq<Handle>, idx: nat)
    requires Servers(m, a) && idx < |m| && hs != [] && Distinct(hs)
    ensures var d := DrainAll(m, a, hs[1..], idx);
            d.Drained? ==> (Gone(d.main, d.alt, hs[0]) <==> Gone(m, a, hs[0]))
  {
    DrainTakesOnly(m, a, hs[1..], idx, hs[0]);
    DrainShrinks(m, a, hs[1..], idx);
  }

  lemma StepPre(m: Lists, a: Lists, mNew: Lists, aNew: Lists, hs: seq<Handle>, home: Handle -> nat)
    requires UniqueIn(m, Some(a)) && LocatedIn(m, a, home) && hs != [] && Distinct(hs)
    requires (exists i :: 0 <= i < |m| && mNew == RemoveAt(m, hs[0], i)) || mNew == m
    requires (exists i :: 0 <= i < |a| && aNew == RemoveAt(a, hs[0], i)) || aNew == a
    ensures UniqueIn(mNew, Some(aNew)) && LocatedIn(mNew, aNew, home) && Distinct(hs[1..])
    ensures |mNew| == |m| && |aNew| == |a|
  {
    if i :| 0 <= i < |m| && mNew == RemoveAt(m, hs[0], i) { RemoveAtShrinks(m, hs[0], i); }
    if i :| 0 <= i < |a| && aNew == RemoveAt(a, hs[0], i) { RemoveAtShrinks(a, hs[0], i); }
    ShrunkPre(m, a, mNew, aNew, home);
  }

  lemma ShrunkPre(m: Lists, a: Lists, mNew: Lists, aNew: Lists, home: Handle -> nat)
    requires UniqueIn(m, Some(a)) && LocatedIn(m, a, home) && Shrunk(m, mNew) && Shrunk(a, aNew)
    ensures UniqueIn(mNew, Some(aNew)) && LocatedIn(mNew, aNew, home)
  {
    forall h ensures Count(mNew, h) + Count(aNew, h) <= 1 {
      CountShrunk(m, mNew, h);
      CountShrunk(a, aNew, h);
      assert Count(m, h) + Count(a, h) <= 1;
    }
    forall i, h | 0 <= i < |mNew| && h in mNew[i] ensures home(h) == i { ShrunkIn(m, mNew, h, i); }
    forall i, h | 0 <= i < |aNew| && h in aNew[i] ensures home(h) == i { ShrunkIn(a, aNew, h, i); }
  }

  /**
   verify_datafiles and match_dirdata with two lists, when every handle is listed:
   all handles are taken off the lists exactly when they are in step.
   */
  lemma ClaimIff(st: State, hs: seq<Handle>, home: Handle -> nat)
    requires Sound(st) && Unique(st) && Located(st, home) && st.alt.Some?
    requires hs != [] && Distinct(hs) && forall x :: x in hs ==> Listed(st, x)
    ensures var c := ClaimAll(st.main, st.alt, hs);
            && c.Claim? && c.complete
            && ((forall x :: x in hs ==> !Listed(AfterClaim(st, c), x))
                <==> InStep(st.main, hs, home(hs[|hs| - 1]), home))
  {
    var c := ClaimAll(st.main, st.alt, hs);
    ClaimGone(st, hs, home);
    GoneUnlisted(st, c, hs);
  }

  lemma ClaimGone(st: State, hs: seq<Handle>, home: Handle -> nat)
    requires Sound(st) && Unique(st) && Located(st, home) && st.alt.Some?
    requires hs != [] && Distinct(hs) && forall x :: x in hs ==> Listed(st, x)
    ensures var c := ClaimAll(st.main, st.alt, hs);
            && c.Claim? && c.complete
            && (AllGone(c.main, c.alt, hs) <==> InStep(st.main, hs, home(hs[|hs| - 1]), home))
  {
    var p := ProbeAll(st.main, st.alt, hs, 0);
    ProbeComplete(st.main, st.alt, hs, 0);
    assert UniqueIn(st.main, st.alt) by {
      forall h ensures Count(st.main, h) + Count(st.alt.value, h) <= 1 { assert Times(st, h) <= 1; }
    }
    assert hs[|hs| - 1] in hs;
    LastHome(st, hs[|hs| - 1], home);
    DrainIff(st.main, st.alt.value, hs, p.idx, home);
  }

  lemma GoneUnlisted(st: State, c: Claim, hs: seq<Handle>)
    requires c.Claim?
    ensures AllGone(c.main, c.alt, hs) <==> forall x :: x in hs ==> !Listed(AfterClaim(st, c), x)
  {
  }

  lemma LastHome(st: State, h: Handle, home: Handle -> nat)
    requires Sound(st) && Located(st, home) && Listed(st, h)
    ensures Where(st.main, st.alt, h) == Some(home(h))
  {
  }

  /** Handles of one server are always in step. */
  lemma {:induction false} SameHomeInStep(main: Lists, hs: seq<Handle>, idx: nat, home: Handle -> nat)
    requires forall x :: x in hs ==> home(x) == idx
    ensures InStep(main, hs, idx, home)
  {
    if hs != [] {
      assert hs[0] in hs;
      SameHomeInStep(main, hs[1..], idx, home);
    }
  }

  /** The second loop takes all handles of one server, even when some occur twice. */
  lemma {:induction false} DrainTogether(main: Lists, alt: Lists, hs: seq<Handle>, idx: nat, home: Handle -> nat)
    requires Servers(main, Some(alt)) && idx < |main| && UniqueIn(main, Some(alt)) && LocatedIn(main, alt, home)
    requires NULL_HANDLE !in hs && forall x :: x in hs ==> home(x) == idx
    ensures var d := DrainAll(main, Some(alt), hs, idx);
            d.Drained? && AllGone(d.main, d.alt, hs)
    decreases |hs|
  {
    if hs != [] {
      var h := hs[0];
      assert h in hs;
      if In(main, h) {
        var m := RemoveAt(main, h, idx);
        assert Find(main, h) == Some(idx);
        GoneFromMain(main, Some(alt), h);
        TogetherStep(main, alt, m, alt, h, hs, idx, home);
      } else {
        var a := RemoveAt(alt, h, idx);
        if In(alt, h) {
          var j :| 0 <= j < |alt| && h in alt[j];
          GoneFromAlt(main, alt, h, idx);
        }
        RemoveAtShrinks(alt, h, idx);
        TogetherStep(main, alt, main, a, h, hs, idx, home);
      }
    }
  }

  lemma {:induction false} TogetherStep(main: Lists, alt: Lists, m: Lists, a: Lists, h: Handle, hs: seq<Handle>, idx: nat,
                                        home: Handle -> nat)
    requires Servers(main, Some(alt)) && idx < |main| && UniqueIn(main, Some(alt)) && LocatedIn(main, alt, home)
    requires hs != [] && hs[0] == h && NULL_HANDLE !in hs && forall x :: x in hs ==> home(x) == idx
    requires (m == RemoveAt(main, h, idx) && a == alt) || (m == main && a == RemoveAt(alt, h, idx))
    requires Gone(m, Some(a), h)
    ensures var d := DrainAll(m, Some(a), hs[1..], idx);
            d.Drained? && AllGone(d.main, d.alt, hs)
    decreases |hs|, 0
  {
    RemoveAtShrinks(main, h, idx);
    RemoveAtShrinks(alt, h, idx);
    assert Shrunk(main, m) && Shrunk(alt, a);
    ShrunkPre(main, alt, m, a, home);
    DrainTogether(m, a, hs[1..], idx, home);
    DrainShrinks(m, Some(a), hs[1..], idx);
    var d := DrainAll(m, Some(a), hs[1..], idx);
    GoneShrinks(m, Some(a), d.main, d.alt, h);
  }

  // ---------- owners ----------

  ghost function DatafilesOf(base: Fs, m: Handle): seq<Handle> {
    if m in base && base[m].Metafile? then base[m].dfiles else []
  }

  ghost predicate Disjoint(a: seq<Handle>, b: seq<Handle>) {
    forall x :: x in a ==> x !in b
  }

  /** All datafiles of the file are on one server. */
  ghost predicate Together(base: Fs, m: Handle, home: Handle -> nat) {
    forall x, y :: x in DatafilesOf(base, m) && y in DatafilesOf(base, m) ==> home(x) == home(y)
  }

  /**
   The files followed are those kept in pass 1, `f`, and those of `g`, which are on one server each. Once kept, they
   have all their datafiles, off the lists. Those of `f` share none with any other kept file, those of `g` none
   with each other.
   */
  ghost predicate Owned(base: Fs, st: State, f: set<Handle>, g: set<Handle>) {
    && f <= st.kept
    && (forall m, x :: m in st.kept && m in f + g && x in DatafilesOf(base, m) ==> x in st.fs && !Listed(st, x))
    && (forall m, k :: m in st.kept && k in st.kept && m != k && (m in f || (m in g && k in f + g)) ==>
          Disjoint(DatafilesOf(base, m), DatafilesOf(base, k)))
  }

  /** What the claims rely on. With one list any claim takes all it finds; with two, those of `g` do. */
  ghost predicate OwnPre(base: Fs, st: State, f: set<Handle>, g: set<Handle>, home: Handle -> nat) {
    && Sound(st) && Unique(st) && (!st.halted ==> Backed(st)) && Located(st, home)
    && SameParts(base, st.fs) && Owned(base, st, f, g)
    && (st.alt.Some? ==> forall m :: m in g ==> Together(base, m, home))
  }

  lemma ClaimTogether(base: Fs, st: State, m: Handle, home: Handle -> nat)
    requires Sound(st) && Unique(st) && Located(st, home) && (st.alt.Some? ==> Together(base, m, home))
    ensures var c := ClaimAll(st.main, st.alt, DatafilesOf(base, m));
            c.Claim? && c.complete ==> forall x :: x in DatafilesOf(base, m) ==> !Listed(AfterClaim(st, c), x)
  {
    var hs := DatafilesOf(base, m);
    var c := ClaimAll(st.main, st.alt, hs);
    ClaimSound(st, hs);
    if st.alt.None? {
      ClaimSingle(st, hs);
    } else if c.Claim? && c.complete && hs != [] {
      ProbeComplete(st.main, st.alt, hs, 0);
      assert UniqueIn(st.main, st.alt) by {
        forall h ensures Count(st.main, h) + Count(st.alt.value, h) <= 1 { assert Times(st, h) <= 1; }
      }
      assert hs[|hs| - 1] in hs;
      LastHome(st, hs[|hs| - 1], home);
      DrainTogether(st.main, st.alt.value, hs, ProbeAll(st.main, st.alt, hs, 0).idx, home);
    }
  }

  lemma OwnedShrinks(base: Fs, st: State, r: State, f: set<Handle>, g: set<Handle>)
    requires Owned(base, st, f, g) && Smaller(st, r) && OnlyListedGone(st, r) && r.kept == st.kept
    ensures Owned(base, r, f, g)
  {
    SmallerLeft(st, r);
  }

  /** A file whose claim was complete joins the kept files. */
  lemma OwnedKept(base: Fs, st: State, r: State, h: Handle, f: set<Handle>, g: set<Handle>)
    requires Owned(base, st, f, g) && Smaller(st, r) && OnlyListedGone(st, r) && r.kept == st.kept + {h}
    requires forall x :: x in DatafilesOf(base, h) ==> Listed(st, x)
    requires h in g ==> forall x :: x in DatafilesOf(base, h) ==> x in r.fs && !Listed(r, x)
    ensures Owned(base, r, f, g)
  {
    SmallerLeft(st, r);
  }

  /** A file newly kept found its datafiles on the lists. */
  ghost predicate NewFromLists(base: Fs, st: State, r: State) {
    forall m, x :: m in r.kept - st.kept && x in DatafilesOf(base, m) ==> Listed(st, x)
  }

  ghost predicate OwnPost(base: Fs, st: State, r: State, f: set<Handle>, g: set<Handle>) {
    Owned(base, r, f, g) && NewFromLists(base, st, r)
  }

  lemma NewTrans(base: Fs, a: State, b: State, c: State)
    requires Smaller(a, b) && NewFromLists(base, a, b) && NewFromLists(base, b, c)
    ensures NewFromLists(base, a, c)
  {
    SmallerLeft(a, b);
  }

  lemma OwnPreShrinks(base: Fs, st: State, r: State, f: set<Handle>, g: set<Handle>, home: Handle -> nat)
    requires OwnPre(base, st, f, g, home) && Smaller(st, r) && (!r.halted ==> Backed(r)) && Owned(base, r, f, g)
    ensures OwnPre(base, r, f, g, home)
  {
    SmallerLeft(st, r);
    UniqueShrinks(st, r);
    LocatedShrinks(st, r, home);
  }

  lemma {:induction false} DescendOwned(o: Options, base: Fs, st: State, dir: Handle,
                                        f: set<Handle>, g: set<Handle>, home: Handle -> nat)
    requires OwnPre(base, st, f, g, home)
    ensures OwnPost(base, st, Descend(o, st, dir), f, g)
    decreases Left(st.main, st.alt), 2, 0
  {
    if !st.halted {
      var t := st.(walked := st.walked + [dir]);
      assert forall h :: Times(t, h) == Times(st, h);
      OwnedShrinks(base, st, t, f, g);
      WalkOwned(o, base, t, dir, Entries(st.fs, dir), f, g, home);
      NewTrans(base, st, t, Descend(o, st, dir));
    }
  }

  lemma {:induction false} WalkOwned(o: Options, base: Fs, st: State, dir: Handle, es: seq<Dirent>,
                                     f: set<Handle>, g: set<Handle>, home: Handle -> nat)
    requires OwnPre(base, st, f, g, home)
    ensures OwnPost(base, st, WalkEntries(o, st, dir, es), f, g)
    decreases Left(st.main, st.alt), 1, |es|
  {
    if !st.halted && es != [] {
      var t := Visit(o, st, dir, es[0]);
      VisitOwned(o, base, st, dir, es[0], f, g, home);
      VisitBacked(o, st, dir, es[0]);
      OwnPreShrinks(base, st, t, f, g, home);
      SmallerLeft(st, t);
      WalkOwned(o, base, t, dir, es[1..], f, g, home);
      NewTrans(base, st, t, WalkEntries(o, t, dir, es[1..]));
    }
  }

  lemma {:induction false} VisitOwned(o: Options, base: Fs, st: State, dir: Handle, e: Dirent,
                                      f: set<Handle>, g: set<Handle>, home: Handle -> nat)
    requires OwnPre(base, st, f, g, home) && !st.halted
    ensures OwnPost(base, st, Visit(o, st, dir, e), f, g)
    decreases Left(st.main, st.alt), 0, 1
  {
    var h := e.handle;
    var r := Visit(o, st, dir, e);
    VisitFramed(o, st.fs, st, dir, e);
    if !Listed(st, h) {
      OwnedShrinks(base, st, r, f, g);
    } else if GetAttr(st.fs, h).None? {
      VisitUnreadable(o, st, dir, e);
      OwnedShrinks(base, st, r, f, g);
    } else if st.fs[h].Metafile? {
      VisitFile(o, st, dir, e);
      FileOwned(o, base, st, r, dir, e, f, g, home);
    } else if st.fs[h].Directory? {
      VisitDirectory(o, st, dir, e);
      DirectoryOwned(o, base, st, r, dir, e, f, g, home);
    } else {
      VisitOther(o, st, dir, e);
      OwnedShrinks(base, st, r, f, g);
    }
  }

  lemma FileOwned(o: Options, base: Fs, st: State, r: State, dir: Handle, e: Dirent,
                  f: set<Handle>, g: set<Handle>, home: Handle -> nat)
    requires OwnPre(base, st, f, g, home) && !st.halted
    requires Listed(st, e.handle) && e.handle in st.fs && st.fs[e.handle].Metafile?
    requires Smaller(st, r) && OnlyListedGone(st, r)
    requires var c := ClaimAll(st.main, st.alt, st.fs[e.handle].dfiles);
             var j := FileOutcome(o, st, c, dir, e);
             Smaller(st, j) && r == Finish(st, j, e.handle)
    ensures OwnPost(base, st, r, f, g)
  {
    var h := e.handle;
    var hs := st.fs[h].dfiles;
    assert Kin(base[h], st.fs[h]);
    var c := ClaimAll(st.main, st.alt, hs);
    ClaimSound(st, hs);
    if c.Claim? && c.complete {
      assert DatafilesOf(base, h) == hs;
      var a := AfterClaim(st, c);
      if h in g { ClaimTogether(base, st, h, home); }
      FinishShrinks(st, a, h);
      SmallerLeft(a, Finish(st, a, h));
      assert r.main == Finish(st, a, h).main && r.alt == Finish(st, a, h).alt;
      OwnedKept(base, st, r, h, f, g);
    } else {
      OwnedShrinks(base, st, r, f, g);
    }
  }

  lemma {:induction false} DirectoryOwned(o: Options, base: Fs, st: State, r: State, dir: Handle, e: Dirent,
                                          f: set<Handle>, g: set<Handle>, home: Handle -> nat)
    requires OwnPre(base, st, f, g, home) && !st.halted
    requires Listed(st, e.handle) && e.handle in st.fs && st.fs[e.handle].Directory?
    requires Smaller(st, r) && OnlyListedGone(st, r)
    requires var c := MatchDirdata(st.main, st.alt, st.fs[e.handle].dirdata);
             && Smaller(st, AfterClaim(st, c)) && Sound(AfterClaim(st, c))
             && (c.Claim? && c.complete ==> Left(c.main, c.alt) < Left(st.main, st.alt))
             && var j := DirectoryOutcome(o, st, c, Descend(o, AfterClaim(st, c), e.handle), dir, e);
                Smaller(st, j) && r == Finish(st, j, e.handle)
    ensures OwnPost(base, st, r, f, g)
    decreases Left(st.main, st.alt), 0, 0
  {
    var h := e.handle;
    var c := MatchDirdata(st.main, st.alt, st.fs[h].dirdata);
    var a := AfterClaim(st, c);
    if c.Claim? && c.complete && In(st.main, h) {
      SmallerLeft(st, a);
      OwnedShrinks(base, st, a, f, g);
      OwnPreShrinks(base, st, a, f, g, home);
      DescendOwned(o, base, a, h, f, g, home);
      var t := Descend(o, a, h);
      NewTrans(base, st, a, t);
      FinishShrinks(st, Keep(t, dir, e), h);
      assert Smaller(t, r) by { assert Smaller(Keep(t, dir, e), r); }
      OwnedShrinks(base, t, r, f, g);
    } else {
      OwnedShrinks(base, st, r, f, g);
    }
  }
}
