/**
 Who points at whom after the walks: on any graph, cyclic ones included, no handle
 is left as the target of two directory entries, no directory is walked twice, and
 nothing that is still on a list is the target of an entry that was left in place.
 */
module FsckLinks {
  import opened Wrappers
  import opened HandleLists
  import opened FsckModel
  import opened FsckFrame

  /** How often a handle is listed, over both lists. */
  ghost function Times(st: State, h: Handle): nat {
    Count(st.main, h) + if st.alt.Some? then Count(st.alt.value, h) else 0
  }

  /** Every handle is listed at most once. */
  ghost predicate Unique(st: State) {
    forall h :: Times(st, h) <= 1
  }

  lemma TimesListed(st: State, h: Handle)
    ensures Times(st, h) > 0 <==> Listed(st, h)
  {
    CountIn(st.main, h);
    if st.alt.Some? { CountIn(st.alt.value, h); }
  }

  lemma UniqueShrinks(st: State, r: State)
    requires Smaller(st, r) && Unique(st)
    ensures Unique(r)
  {
    forall h ensures Times(r, h) <= 1 {
      CountShrunk(st.main, r.main, h);
      if st.alt.Some? { CountShrunk(st.alt.value, r.alt.value, h); }
      assert Times(st, h) <= 1;
    }
  }

  /** A directory that cannot be entered again: it is off the lists, or some of its dirdata is. */
  ghost predicate Shut(st: State, d: Handle) {
    d in st.fs ==>
      && st.fs[d].Directory?
      && (!Listed(st, d) || st.fs[d].dirdata.None? || exists x :: x in st.fs[d].dirdata.value && !Listed(st, x))
  }

  /** The entries that were left in place name different handles, and these are off the lists. */
  ghost predicate LinksExclusive(st: State, open: set<Handle>) {
    && (forall l :: l in st.links ==> !Listed(st, l.target) && l.target !in open)
    && (forall l, m :: l in st.links && m in st.links && l.target == m.target ==> l == m)
  }

  /** `open` directories are being walked; no other walked directory is on the first list. */
  ghost predicate WalkOnce(st: State, open: set<Handle>) {
    && (forall d :: d in open ==> Shut(st, d))
    && (forall d :: d in st.walked ==> d in open || !In(st.main, d))
    && (forall i, j :: 0 <= i < j < |st.walked| ==> st.walked[i] != st.walked[j])
  }

  /** Every entry of a walked directory was left in place on purpose, or is still to be visited. */
  ghost predicate Settled(st: State, pending: set<Link>) {
    forall d, e :: d in st.walked && e in Entries(st.fs, d) ==>
      Link(d, e.name, e.handle) in st.links + pending
  }

  ghost predicate Inv(o: Options, st: State, open: set<Handle>, pending: set<Link>) {
    && Unique(st)
    && LinksExclusive(st, open)
    && WalkOnce(st, open)
    && (o.destructive ==> Settled(st, pending))
  }

  /** Taking handles off the lists, removing objects and removing entries all keep the invariant. */
  lemma InvShrinks(o: Options, st: State, r: State, open: set<Handle>, pending: set<Link>)
    requires Inv(o, st, open, pending)
    requires Smaller(st, r) && r.links == st.links && r.walked == st.walked
    ensures Inv(o, r, open, pending)
  {
    UniqueShrinks(st, r);
    SmallerLeft(st, r);
    forall d | d in open ensures Shut(r, d) {
      assert Shut(st, d);
    }
    forall d | d in r.walked ensures d in open || !In(r.main, d) {
      if In(r.main, d) { InShrunk(st.main, r.main, d); }
    }
  }

  /** An entry that was just removed need not be visited any more. */
  lemma RemovedIsSettled(o: Options, st: State, dir: Handle, e: Dirent, open: set<Handle>, pending: set<Link>)
    requires Inv(o, st, open, pending + {Link(dir, e.name, e.handle)})
    ensures var r := RemoveDirent(o, st, dir, e.name);
            !r.halted ==> Inv(o, r, open, pending)
  {
    var r := RemoveDirent(o, st, dir, e.name);
    SmallerDirent(o, st, dir, e.name);
    InvShrinks(o, st, r, open, pending + {Link(dir, e.name, e.handle)});
    if !r.halted && o.destructive {
      assert forall x :: x in Entries(r.fs, dir) ==> x.name != e.name;
    }
  }

  lemma DiscardSettled(o: Options, st: State, s: State, dir: Handle, e: Dirent, open: set<Handle>, pending: set<Link>)
    requires Inv(o, st, open, pending + {Link(dir, e.name, e.handle)})
    requires Smaller(st, s) && s.links == st.links && s.walked == st.walked
    ensures var r := Discard(o, s, dir, e);
            !r.halted ==> Inv(o, r, open, pending)
  {
    var all := pending + {Link(dir, e.name, e.handle)};
    var t := RemoveObject(o, s, e.handle);
    InvShrinks(o, st, s, open, all);
    SmallerObject(o, s, e.handle);
    InvShrinks(o, s, t, open, all);
    RemovedIsSettled(o, t, dir, e, open, pending);
  }

  lemma FinishShrinks(st: State, s: State, h: Handle)
    requires Sound(st) && Listed(st, h) && Smaller(st, s)
    ensures Smaller(s, Finish(st, s, h))
  {
    assert Smaller(s, s);
    UnlistShrinks(s, s, h, In(st.main, h), Where(st.main, st.alt, h).value);
  }

  /** A handle found on a list is off both lists once the loop body has removed it. */
  lemma FinishGone(st: State, s: State, h: Handle)
    requires Sound(st) && Unique(st) && Listed(st, h) && Smaller(st, s) && !s.halted
    ensures Smaller(s, Finish(st, s, h)) && !Listed(Finish(st, s, h), h)
  {
    var inMain := In(st.main, h);
    var i := Where(st.main, st.alt, h).value;
    var r := Finish(st, s, h);
    assert Smaller(s, s);
    UnlistShrinks(s, s, h, inMain, i);
    assert Times(st, h) <= 1;
    CountIn(st.main, h);
    CountShrunk(st.main, s.main, h);
    if st.alt.Some? {
      CountIn(st.alt.value, h);
      CountShrunk(st.alt.value, s.alt.value, h);
    }
    if inMain {
      ListGone(st.main, s.main, h, i);
    } else {
      ListGone(st.alt.value, s.alt.value, h, i);
    }
    TimesListed(r, h);
  }

  lemma ListGone(p: Lists, q: Lists, h: Handle, i: nat)
    requires Shrunk(p, q) && Count(p, h) <= 1 && i < |p| && h in p[i]
    ensures Count(RemoveAt(q, h, i), h) == 0
  {
    CountShrunk(p, q, h);
    RemoveAtCount(q, h, i, h);
    CountIn(q, h);
    if In(q, h) {
      var j :| 0 <= j < |q| && h in q[j];
      ShrunkIn(p, q, h, j);
      OneServer(p, h, i, j);
    }
  }

  lemma RecordLink(o: Options, u: State, l: Link, open: set<Handle>, extra: set<Handle>, pending: set<Link>)
    requires Inv(o, u, open + extra, pending + {l})
    requires extra <= {l.target} && l.target !in open && !Listed(u, l.target)
    requires forall k :: k in u.links ==> k.target != l.target
    ensures Inv(o, u.(links := u.links + {l}), open, pending)
  {
    var r := u.(links := u.links + {l});
    assert forall x :: Listed(r, x) <==> Listed(u, x);
    assert Unique(r) by { assert forall x :: Times(r, x) == Times(u, x); }
    assert LinksExclusive(r, open);
    assert WalkOnce(r, open) by {
      forall d | d in open ensures Shut(r, d) { assert d in open + extra; assert Shut(u, d); }
      assert !In(u.main, l.target);
    }
    if o.destructive {
      forall d, e | d in r.walked && e in Entries(r.fs, d) ensures Link(d, e.name, e.handle) in r.links + pending {
        assert Link(d, e.name, e.handle) in u.links + (pending + {l});
      }
    }
  }

  /**
   An entry that stays, seen from before and after its visit: `st` is the state in
   which its handle was found on a list, `s` the state in which it is about to be
   recorded. A directory just walked is still among the open ones in `s`.
   */
  lemma KeepLinked(o: Options, st: State, s: State, dir: Handle, e: Dirent,
                   open: set<Handle>, extra: set<Handle>, pending: set<Link>)
    requires Sound(st) && Unique(st) && Listed(st, e.handle) && Smaller(st, s) && !s.halted
    requires Inv(o, s, open + extra, pending + {Link(dir, e.name, e.handle)})
    requires extra <= {e.handle} && e.handle !in open
    requires forall l :: l in s.links ==> l.target != e.handle
    ensures Inv(o, Finish(st, Keep(s, dir, e), e.handle), open, pending)
  {
    var l := Link(dir, e.name, e.handle);
    var u := Finish(st, s, e.handle);
    assert Finish(st, Keep(s, dir, e), e.handle) == u.(links := s.links + {l});
    FinishGone(st, s, e.handle);
    InvShrinks(o, s, u, open + extra, pending + {l});
    RecordLink(o, u, l, open, extra, pending);
  }

  // ---------- a complete claim shuts the directory ----------

  ghost predicate Gone(main: Lists, alt: Option<Lists>, x: Handle) {
    !In(main, x) && (alt.Some? ==> !In(alt.value, x))
  }

  ghost predicate UniqueIn(main: Lists, alt: Option<Lists>) {
    forall h :: Count(main, h) + (if alt.Some? then Count(alt.value, h) else 0) <= 1
  }

  lemma GoneShrinks(m: Lists, a: Option<Lists>, mNew: Lists, aNew: Option<Lists>, x: Handle)
    requires ListsShrunk(m, a, mNew, aNew) && Gone(m, a, x)
    ensures Gone(mNew, aNew, x)
  {
    if In(mNew, x) { InShrunk(m, mNew, x); }
    if a.Some? && In(aNew.value, x) { InShrunk(a.value, aNew.value, x); }
  }

  lemma GoneFromMain(main: Lists, alt: Option<Lists>, x: Handle)
    requires UniqueIn(main, alt) && In(main, x)
    ensures Gone(RemoveAt(main, x, Find(main, x).value), alt, x)
  {
    var i := Find(main, x).value;
    assert Count(main, x) + (if alt.Some? then Count(alt.value, x) else 0) <= 1;
    CountIn(main, x);
    if alt.Some? { CountIn(alt.value, x); }
    RemoveAtCount(main, x, i, x);
    CountIn(RemoveAt(main, x, i), x);
  }

  lemma GoneFromAlt(main: Lists, alt: Lists, x: Handle, i: nat)
    requires UniqueIn(main, Some(alt)) && i < |alt| && x in alt[i]
    ensures Gone(main, Some(RemoveAt(alt, x, i)), x)
  {
    assert Count(main, x) + Count(alt, x) <= 1;
    assert In(alt, x);
    CountIn(main, x);
    CountIn(alt, x);
    RemoveAtCount(alt, x, i, x);
    CountIn(RemoveAt(alt, x, i), x);
  }

  /** The second loop takes some handle off both lists. */
  lemma {:induction false} DrainFrees(main: Lists, alt: Option<Lists>, hs: seq<Handle>, idx: nat)
    requires Servers(main, alt) && idx < |main| && UniqueIn(main, alt)
    requires hs != [] && NULL_HANDLE !in hs
    requires (exists h :: h in hs && In(main, h)) || (alt.Some? && hs[|hs| - 1] in alt.value[idx])
    ensures var d := DrainAll(main, alt, hs, idx);
            d.Drained? ==> exists x :: x in hs && Gone(d.main, d.alt, x)
    decreases |hs|
  {
    var d := DrainAll(main, alt, hs, idx);
    var x := hs[0];
    if In(main, x) {
      var i := Find(main, x).value;
      GoneFromMain(main, alt, x);
      DrainShrinks(RemoveAt(main, x, i), alt, hs[1..], i);
      if d.Drained? { GoneShrinks(RemoveAt(main, x, i), alt, d.main, d.alt, x); }
    } else if alt.Some? {
      if x in alt.value[idx] {
        GoneFromAlt(main, alt.value, x, idx);
        DrainShrinks(main, Some(RemoveAt(alt.value, x, idx)), hs[1..], idx);
        if d.Drained? { GoneShrinks(main, Some(RemoveAt(alt.value, x, idx)), d.main, d.alt, x); }
      } else {
        RemoveAtShrinks(alt.value, x, idx);
        DrainFrees(main, alt, hs[1..], idx);
        if d.Drained? {
          var y :| y in hs[1..] && Gone(d.main, d.alt, y);
          assert y in hs;
        }
      }
    }
  }

  /** After a complete match_dirdata some of the directory's dirdata is off both lists. */
  lemma ClaimShuts(st: State, hs: seq<Handle>)
    requires Sound(st) && Unique(st) && hs != []
    ensures var c := ClaimAll(st.main, st.alt, hs);
            c.Claim? && c.complete ==> exists x :: x in hs && Gone(c.main, c.alt, x)
  {
    var p := ProbeAll(st.main, st.alt, hs, 0);
    ProbeComplete(st.main, st.alt, hs, 0);
    if p.missing == 0 {
      assert UniqueIn(st.main, st.alt) by {
        forall h ensures Count(st.main, h) + (if st.alt.Some? then Count(st.alt.value, h) else 0) <= 1 {
          assert Times(st, h) <= 1;
        }
      }
      assert hs[|hs| - 1] in hs;
      DrainFrees(st.main, st.alt, hs, p.idx);
    }
  }

  /** A directory that is shut fails match_dirdata, so it is not entered again. */
  lemma ShutFails(st: State, d: Handle)
    requires Sound(st) && Shut(st, d) && Listed(st, d) && d in st.fs
    ensures st.fs[d].Directory?
    ensures var c := MatchDirdata(st.main, st.alt, st.fs[d].dirdata);
            c.Claim? ==> !c.complete
  {
    if st.fs[d].dirdata.Some? {
      ProbeComplete(st.main, st.alt, st.fs[d].dirdata.value, 0);
    }
  }

  // ---------- the walk keeps the invariant ----------

  ghost function LinksOf(dir: Handle, es: seq<Dirent>): set<Link> {
    set e | e in es :: Link(dir, e.name, e.handle)
  }

  lemma LinksHead(dir: Handle, es: seq<Dirent>, pending: set<Link>)
    requires es != []
    ensures pending + LinksOf(dir, es) == pending + LinksOf(dir, es[1..]) + {Link(dir, es[0].name, es[0].handle)}
  {
  }

  lemma {:induction false} DescendInv(o: Options, st: State, dir: Handle, open: set<Handle>, pending: set<Link>)
    requires Sound(st) && Inv(o, st, open, pending)
    requires dir in open && dir !in st.walked
    ensures var r := Descend(o, st, dir);
            !r.halted ==> Inv(o, r, open, pending)
    decreases Left(st.main, st.alt), 2, 0
  {
    if !st.halted {
      var s := st.(walked := st.walked + [dir]);
      var es := Entries(st.fs, dir);
      assert Inv(o, s, open, pending + LinksOf(dir, es)) by {
        assert forall h :: Times(s, h) == Times(st, h);
        assert forall h :: Listed(s, h) <==> Listed(st, h);
        forall d | d in open ensures Shut(s, d) { assert Shut(st, d); }
      }
      WalkInv(o, s, dir, es, open, pending);
    }
  }

  lemma {:induction false} WalkInv(o: Options, st: State, dir: Handle, es: seq<Dirent>,
                                   open: set<Handle>, pending: set<Link>)
    requires Sound(st) && Inv(o, st, open, pending + LinksOf(dir, es))
    ensures var r := WalkEntries(o, st, dir, es);
            !r.halted ==> Inv(o, r, open, pending)
    decreases Left(st.main, st.alt), 1, |es|
  {
    if es == [] {
      assert pending + LinksOf(dir, es) == pending;
    } else if !st.halted {
      var rest := pending + LinksOf(dir, es[1..]);
      LinksHead(dir, es, pending);
      var s := Visit(o, st, dir, es[0]);
      VisitInv(o, st, dir, es[0], open, rest);
      SmallerLeft(st, s);
      if !s.halted { WalkInv(o, s, dir, es[1..], open, pending); }
    }
  }

  lemma {:induction false} VisitInv(o: Options, st: State, dir: Handle, e: Dirent,
                                    open: set<Handle>, pending: set<Link>)
    requires Sound(st) && Inv(o, st, open, pending + {Link(dir, e.name, e.handle)}) && !st.halted
    ensures var r := Visit(o, st, dir, e);
            !r.halted ==> Inv(o, r, open, pending)
    decreases Left(st.main, st.alt), 0, 1
  {
    var h := e.handle;
    if !Listed(st, h) {
      RemovedIsSettled(o, st, dir, e, open, pending);
    } else if GetAttr(st.fs, h).None? {
      VisitUnreadable(o, st, dir, e);
      RemovedIsSettled(o, st, dir, e, open, pending);
      FinishInv(o, st, RemoveDirent(o, st, dir, e.name), h, open, pending);
    } else if st.fs[h].Metafile? {
      VisitFile(o, st, dir, e);
      FileInv(o, st, dir, e, open, pending);
    } else if st.fs[h].Directory? {
      VisitDirectory(o, st, dir, e);
      var c := MatchDirdata(st.main, st.alt, st.fs[h].dirdata);
      var s := AfterClaim(st, c);
      if c.Claim? && c.complete && In(st.main, h) {
        EnteredInv(o, st, s, dir, e, open, pending);
      } else {
        DirectoryInv(o, st, dir, e, Descend(o, s, h), open, pending);
      }
    } else {
      VisitOther(o, st, dir, e);
      OtherInv(o, st, dir, e, open, pending);
    }
  }

  /** Taking the visited handle off its list keeps the invariant. */
  lemma FinishInv(o: Options, st: State, s: State, h: Handle, open: set<Handle>, pending: set<Link>)
    requires Sound(st) && Unique(st) && Listed(st, h) && Smaller(st, s)
    requires !s.halted ==> Inv(o, s, open, pending)
    ensures var r := Finish(st, s, h);
            !r.halted ==> Inv(o, r, open, pending)
  {
    if !s.halted {
      FinishGone(st, s, h);
      InvShrinks(o, s, Finish(st, s, h), open, pending);
    }
  }

  /** A listed handle is the target of no link, and an open one is a directory. */
  lemma NotOpen(o: Options, st: State, h: Handle, open: set<Handle>, pending: set<Link>)
    requires Inv(o, st, open, pending)
    requires Listed(st, h) && h in st.fs && !st.fs[h].Directory?
    ensures h !in open
    ensures forall l :: l in st.links ==> l.target != h
  {
    assert h in open ==> Shut(st, h);
  }

  lemma FileInv(o: Options, st: State, dir: Handle, e: Dirent, open: set<Handle>, pending: set<Link>)
    requires Sound(st) && Inv(o, st, open, pending + {Link(dir, e.name, e.handle)}) && !st.halted
    requires Listed(st, e.handle) && e.handle in st.fs && st.fs[e.handle].Metafile?
    requires var c := ClaimAll(st.main, st.alt, st.fs[e.handle].dfiles);
             Smaller(st, FileOutcome(o, st, c, dir, e))
    ensures var c := ClaimAll(st.main, st.alt, st.fs[e.handle].dfiles);
            var r := Finish(st, FileOutcome(o, st, c, dir, e), e.handle);
            !r.halted ==> Inv(o, r, open, pending)
  {
    var h := e.handle;
    var l := Link(dir, e.name, h);
    var c := ClaimAll(st.main, st.alt, st.fs[h].dfiles);
    ClaimShrinks(st.main, st.alt, st.fs[h].dfiles);
    var s := AfterClaim(st, c);
    if c.Claim? && c.complete {
      var k := s.(kept := s.kept + {h});
      InvShrinks(o, st, k, open, pending + {l});
      NotOpen(o, st, h, open, pending + {l});
      assert open + {} == open;
      KeepLinked(o, st, k, dir, e, open, {}, pending);
    } else if c.Claim? {
      DiscardSettled(o, st, s, dir, e, open, pending);
      FinishInv(o, st, Discard(o, s, dir, e), h, open, pending);
    }
  }

  lemma OtherInv(o: Options, st: State, dir: Handle, e: Dirent, open: set<Handle>, pending: set<Link>)
    requires Sound(st) && Inv(o, st, open, pending + {Link(dir, e.name, e.handle)}) && !st.halted
    requires Listed(st, e.handle) && e.handle in st.fs && !st.fs[e.handle].Directory?
    ensures Inv(o, Finish(st, Keep(st, dir, e), e.handle), open, pending)
    ensures var r := Finish(st, Discard(o, st, dir, e), e.handle);
            !r.halted ==> Inv(o, r, open, pending)
  {
    assert Smaller(st, st);
    NotOpen(o, st, e.handle, open, pending + {Link(dir, e.name, e.handle)});
    assert open + {} == open;
    KeepLinked(o, st, st, dir, e, open, {}, pending);
    DiscardSettled(o, st, st, dir, e, open, pending);
    SmallerDiscard(o, st, dir, e);
    FinishInv(o, st, Discard(o, st, dir, e), e.handle, open, pending);
  }

  /** A directory that is not walked: it is discarded, or it was walked before and is on the second list. */
  lemma DirectoryInv(o: Options, st: State, dir: Handle, e: Dirent, w: State, open: set<Handle>, pending: set<Link>)
    requires Sound(st) && Inv(o, st, open, pending + {Link(dir, e.name, e.handle)}) && !st.halted
    requires Listed(st, e.handle) && e.handle in st.fs && st.fs[e.handle].Directory?
    requires var c := MatchDirdata(st.main, st.alt, st.fs[e.handle].dirdata);
             && Smaller(st, AfterClaim(st, c)) && Smaller(st, DirectoryOutcome(o, st, c, w, dir, e))
             && !(c.Claim? && c.complete && In(st.main, e.handle))
    ensures var c := MatchDirdata(st.main, st.alt, st.fs[e.handle].dirdata);
            var r := Finish(st, DirectoryOutcome(o, st, c, w, dir, e), e.handle);
            !r.halted ==> Inv(o, r, open, pending)
  {
    var h := e.handle;
    var c := MatchDirdata(st.main, st.alt, st.fs[h].dirdata);
    var s := AfterClaim(st, c);
    if c.Claim? && c.complete {
      if h in open { ShutFails(st, h); }
      InvShrinks(o, st, s, open, pending + {Link(dir, e.name, h)});
      assert open + {} == open;
      KeepLinked(o, st, s, dir, e, open, {}, pending);
    } else if c.Claim? {
      DiscardSettled(o, st, s, dir, e, open, pending);
      FinishInv(o, st, Discard(o, s, dir, e), h, open, pending);
    }
  }

  /** The directory is walked, its entry recorded, and its handle taken off the list. */
  lemma {:induction false} EnteredInv(o: Options, st: State, s: State, dir: Handle, e: Dirent,
                                      open: set<Handle>, pending: set<Link>)
    requires Sound(st) && Inv(o, st, open, pending + {Link(dir, e.name, e.handle)}) && !st.halted
    requires e.handle in st.fs && st.fs[e.handle].Directory? && In(st.main, e.handle)
    requires var c := MatchDirdata(st.main, st.alt, st.fs[e.handle].dirdata);
             c.Claim? && c.complete && s == AfterClaim(st, c)
    requires Smaller(st, s) && Left(s.main, s.alt) < Left(st.main, st.alt) && Sound(s)
    ensures var w := Descend(o, s, e.handle);
            && Smaller(st, w)
            && var r := Finish(st, Keep(w, dir, e), e.handle);
               !r.halted ==> Inv(o, r, open, pending)
    decreases Left(st.main, st.alt), 0, 0
  {
    var h := e.handle;
    var l := Link(dir, e.name, h);
    if h in open { ShutFails(st, h); }
    InvShrinks(o, st, s, open, pending + {l});
    EnterInv(o, st, s, h, open, pending + {l});
    DescendInv(o, s, h, open + {h}, pending + {l});
    var t := Descend(o, s, h);
    SmallerTrans(st, s, t);
    if !t.halted { KeepLinked(o, st, t, dir, e, open, {h}, pending); }
  }

  /** Entering a directory whose dirdata was just claimed: it joins the open ones. */
  lemma EnterInv(o: Options, st: State, s: State, h: Handle, open: set<Handle>, pending: set<Link>)
    requires Sound(st) && Inv(o, st, open, pending)
    requires h in st.fs && st.fs[h].Directory? && In(st.main, h) && h !in open
    requires var c := MatchDirdata(st.main, st.alt, st.fs[h].dirdata);
             c.Claim? && c.complete && s == AfterClaim(st, c)
    requires Inv(o, s, open, pending)
    ensures Inv(o, s, open + {h}, pending)
    ensures h !in s.walked
  {
    ClaimShuts(st, st.fs[h].dirdata.value);
    var x :| x in st.fs[h].dirdata.value && Gone(s.main, s.alt, x);
    assert Shut(s, h);
    assert forall l :: l in st.links ==> l.target != h;
  }

  // ---------- what is listed exists ----------

  /** Every listed handle has an object. */
  ghost predicate Backed(st: State) {
    forall x :: Listed(st, x) ==> x in st.fs
  }

  /** Only the visited object may have gone, and its handle is off the lists. */
  lemma BackedFinish(st: State, j: State, h: Handle)
    requires Sound(st) && Unique(st) && Listed(st, h) && Smaller(st, j) && !j.halted
    requires forall x :: Listed(j, x) && x != h ==> x in j.fs
    ensures Backed(Finish(st, j, h))
  {
    FinishGone(st, j, h);
    SmallerLeft(j, Finish(st, j, h));
  }

  lemma {:induction false} DescendBacked(o: Options, st: State, dir: Handle)
    requires Sound(st) && Unique(st) && Backed(st)
    ensures var r := Descend(o, st, dir);
            !r.halted ==> Backed(r)
    decreases Left(st.main, st.alt), 2, 0
  {
    if !st.halted {
      var s := st.(walked := st.walked + [dir]);
      assert forall h :: Times(s, h) == Times(st, h);
      WalkBacked(o, s, dir, Entries(st.fs, dir));
    }
  }

  lemma {:induction false} WalkBacked(o: Options, st: State, dir: Handle, es: seq<Dirent>)
    requires Sound(st) && Unique(st) && Backed(st)
    ensures var r := WalkEntries(o, st, dir, es);
            !r.halted ==> Backed(r)
    decreases Left(st.main, st.alt), 1, |es|
  {
    if !st.halted && es != [] {
      var s := Visit(o, st, dir, es[0]);
      VisitBacked(o, st, dir, es[0]);
      SmallerLeft(st, s);
      UniqueShrinks(st, s);
      if !s.halted { WalkBacked(o, s, dir, es[1..]); }
    }
  }

  lemma {:induction false} VisitBacked(o: Options, st: State, dir: Handle, e: Dirent)
    requires Sound(st) && Unique(st) && Backed(st) && !st.halted
    ensures var r := Visit(o, st, dir, e);
            !r.halted ==> Backed(r)
    decreases Left(st.main, st.alt), 0, 1
  {
    var h := e.handle;
    if !Listed(st, h) {
      OneObjectGone(o, st, dir, e);
    } else if GetAttr(st.fs, h).None? {
      VisitUnreadable(o, st, dir, e);
      OneObjectGone(o, st, dir, e);
      BackedOutcome(st, RemoveDirent(o, st, dir, e.name), h);
    } else if st.fs[h].Metafile? {
      VisitFile(o, st, dir, e);
      FileBacked(o, st, ClaimAll(st.main, st.alt, st.fs[h].dfiles), dir, e);
    } else if st.fs[h].Directory? {
      VisitDirectory(o, st, dir, e);
      var c := MatchDirdata(st.main, st.alt, st.fs[h].dirdata);
      var s := AfterClaim(st, c);
      if c.Claim? && c.complete {
        UniqueShrinks(st, s);
        SmallerLeft(st, s);
        DescendBacked(o, s, h);
      }
      DirectoryBacked(o, st, c, Descend(o, s, h), dir, e);
    } else {
      VisitOther(o, st, dir, e);
      OneObjectGone(o, st, dir, e);
      BackedOutcome(st, if st.fs[h].Symlink? then Keep(st, dir, e) else Discard(o, st, dir, e), h);
    }
  }

  lemma OneObjectGone(o: Options, st: State, dir: Handle, e: Dirent)
    ensures forall x :: x in st.fs ==> x in RemoveDirent(o, st, dir, e.name).fs
    ensures forall x :: x in st.fs && x != e.handle ==> x in Discard(o, st, dir, e).fs
  {
    assert forall x :: x in st.fs && x != e.handle ==> x in RemoveObject(o, st, e.handle).fs;
  }

  lemma FileBacked(o: Options, st: State, c: Claim, dir: Handle, e: Dirent)
    requires Sound(st) && Unique(st) && Backed(st) && Listed(st, e.handle)
    requires Smaller(st, FileOutcome(o, st, c, dir, e))
    ensures var r := Finish(st, FileOutcome(o, st, c, dir, e), e.handle);
            !r.halted ==> Backed(r)
  {
    OneObjectGone(o, AfterClaim(st, c), dir, e);
    BackedOutcome(st, FileOutcome(o, st, c, dir, e), e.handle);
  }

  lemma DirectoryBacked(o: Options, st: State, c: Claim, w: State, dir: Handle, e: Dirent)
    requires Sound(st) && Unique(st) && Backed(st) && Listed(st, e.handle)
    requires Smaller(st, DirectoryOutcome(o, st, c, w, dir, e))
    requires c.Claim? && c.complete && !w.halted ==> Backed(w)
    ensures var r := Finish(st, DirectoryOutcome(o, st, c, w, dir, e), e.handle);
            !r.halted ==> Backed(r)
  {
    var j := DirectoryOutcome(o, st, c, w, dir, e);
    if c.Claim? && c.complete && In(st.main, e.handle) {
      if !j.halted { BackedFinish(st, j, e.handle); }
    } else {
      OneObjectGone(o, AfterClaim(st, c), dir, e);
      BackedOutcome(st, j, e.handle);
    }
  }

  /** A visit that removes at most the visited object. */
  lemma BackedOutcome(st: State, j: State, h: Handle)
    requires Sound(st) && Unique(st) && Backed(st) && Listed(st, h) && Smaller(st, j)
    requires forall x :: x in st.fs && x != h ==> x in j.fs
    ensures var r := Finish(st, j, h);
            !r.halted ==> Backed(r)
  {
    if !j.halted {
      SmallerLeft(st, j);
      BackedFinish(st, j, h);
    }
  }
}
