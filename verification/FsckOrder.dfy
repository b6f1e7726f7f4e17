/**
 When pass 1 loses a directory: exactly when the directories it walks contain a cycle that avoids the root.
 */
module FsckOrder {
  import opened Wrappers
  import opened HandleLists
  import opened FsckModel
  import opened FsckFrame
  import opened FsckLinks
  import opened FsckIntact
  import opened FsckPasses
  import opened FsckPassOne
  import opened FsckCycles
  import opened FsckLedger

  /** Among these directories, every entry that does not lead to the root leads to a lower rank: there is no cycle. */
  ghost predicate RankedIn(fs: Fs, root: Handle, rank: Handle -> nat, ws: seq<Handle>) {
    forall d, e :: d in ws && e in Entries(fs, d) && e.handle in ws && e.handle != root ==> rank(e.handle) < rank(d)
  }

  /** All walked directories are still there. */
  ghost predicate NoneGone(st: State) {
    forall c :: c in st.walked ==> c in st.fs
  }

  // ---------- without a cycle nothing is lost ----------

  /** The open directories are the ancestors of the one being walked. */
  ghost predicate Ancestors(rank: Handle -> nat, root: Handle, open: set<Handle>, dir: Handle) {
    dir in open && forall d :: d in open ==> d == root || rank(dir) <= rank(d)
  }

  /** What the walk below `dir` relies on; `ws` are the directories that will have been walked when pass 1 ends. */
  ghost predicate Sorted(o: Options, base: Fs, root: Handle, rank: Handle -> nat, ws: seq<Handle>,
                         st: State, dir: Handle, open: set<Handle>) {
    && Sound(st) && st.alt.None? && !st.halted && o.destructive && FsShrunk(base, st.fs) && !Listed(st, root)
    && RankedIn(base, root, rank, ws) && Ancestors(rank, root, open, dir)
  }

  lemma {:induction false} DescendStays(o: Options, base: Fs, root: Handle, rank: Handle -> nat, ws: seq<Handle>,
                                        st: State, dir: Handle, open: set<Handle>, pending: set<Link>)
    requires Sorted(o, base, root, rank, ws, st, dir, open) && Inv(o, st, open, pending)
    requires NoneGone(st) && dir !in st.walked && dir in st.fs
    requires var r := Descend(o, st, dir); !r.halted && forall d :: d in r.walked ==> d in ws
    ensures NoneGone(Descend(o, st, dir))
    decreases Left(st.main, st.alt), 2, 0
  {
    var s := st.(walked := st.walked + [dir]);
    EnterWalk(o, st, dir, open, pending);
    assert forall e :: e in Entries(st.fs, dir) ==> e in Entries(base, dir);
    WalkStays(o, base, root, rank, ws, s, dir, Entries(st.fs, dir), open, pending);
  }

  lemma {:induction false} WalkStays(o: Options, base: Fs, root: Handle, rank: Handle -> nat, ws: seq<Handle>,
                                     st: State, dir: Handle, es: seq<Dirent>, open: set<Handle>, pending: set<Link>)
    requires Sorted(o, base, root, rank, ws, st, dir, open) && Inv(o, st, open, pending + LinksOf(dir, es))
    requires NoneGone(st) && dir in st.walked && forall e :: e in es ==> e in Entries(base, dir)
    requires var r := WalkEntries(o, st, dir, es); !r.halted && forall d :: d in r.walked ==> d in ws
    ensures NoneGone(WalkEntries(o, st, dir, es))
    decreases Left(st.main, st.alt), 1, |es|
  {
    if es != [] {
      var e := es[0];
      var rest := pending + LinksOf(dir, es[1..]);
      LinksHead(dir, es, pending);
      var s := Visit(o, st, dir, e);
      assert e in es;
      SmallerLeft(st, s);
      StepWithin(o, st, s, WalkEntries(o, s, dir, es[1..]), dir, e, es[1..], ws);
      VisitInv(o, st, dir, e, open, rest);
      VisitStays(o, base, root, rank, ws, st, dir, e, open, rest);
      SortedNext(o, base, root, rank, ws, st, s, dir, open);
      WalkStays(o, base, root, rank, ws, s, dir, es[1..], open, pending);
    }
  }

  /** What is known of the first visit when the whole walk succeeds. */
  lemma StepWithin(o: Options, st: State, s: State, r: State, dir: Handle, e: Dirent, es: seq<Dirent>, ws: seq<Handle>)
    requires Sound(st) && s == Visit(o, st, dir, e) && Sound(s) && r == WalkEntries(o, s, dir, es) && !r.halted
    requires forall d :: d in r.walked ==> d in ws
    ensures !s.halted && st.walked <= s.walked && forall d :: d in s.walked ==> d in ws
  {
    VisitFramed(o, st.fs, st, dir, e);
    WalkFramed(o, s.fs, s, dir, es);
    assert s.walked <= r.walked;
  }

  lemma SortedNext(o: Options, base: Fs, root: Handle, rank: Handle -> nat, ws: seq<Handle>,
                   st: State, s: State, dir: Handle, open: set<Handle>)
    requires Sorted(o, base, root, rank, ws, st, dir, open) && Smaller(st, s) && !s.halted
    ensures Sorted(o, base, root, rank, ws, s, dir, open)
  {
    SmallerLeft(st, s);
    SmallerTrans(st.(fs := base), st, s);
  }

  lemma {:induction false} VisitStays(o: Options, base: Fs, root: Handle, rank: Handle -> nat, ws: seq<Handle>,
                                      st: State, dir: Handle, e: Dirent, open: set<Handle>, pending: set<Link>)
    requires Sorted(o, base, root, rank, ws, st, dir, open) && Inv(o, st, open, pending + {Link(dir, e.name, e.handle)})
    requires NoneGone(st) && dir in st.walked && e in Entries(base, dir)
    requires var r := Visit(o, st, dir, e); !r.halted && forall d :: d in r.walked ==> d in ws
    ensures NoneGone(Visit(o, st, dir, e))
    decreases Left(st.main, st.alt), 0, 1
  {
    var h := e.handle;
    var r := Visit(o, st, dir, e);
    VisitFramed(o, base, st, dir, e);
    if Entered(st, h) {
      VisitDirectory(o, st, dir, e);
      var s := AfterClaim(st, MatchDirdata(st.main, st.alt, st.fs[h].dirdata));
      EnteredStays(o, base, root, rank, ws, st, s, Descend(o, s, h), r, dir, e, open, pending);
    } else {
      NotEntered(o, st, dir, e);
      forall c | c in r.walked ensures c in r.fs {
        BackEdgeIff(o, st, dir, e, open, pending + {Link(dir, e.name, h)}, c);
        assert rank(dir) <= rank(h) || h !in open || h == root;
      }
    }
  }

  /** The entry's handle is a directory on the first list, with complete dirdata: it is walked. */
  ghost predicate Entered(st: State, h: Handle)
    requires Sound(st)
  {
    && In(st.main, h) && h in st.fs && st.fs[h].Directory?
    && var c := MatchDirdata(st.main, st.alt, st.fs[h].dirdata); c.Claim? && c.complete
  }

  lemma NotEntered(o: Options, st: State, dir: Handle, e: Dirent)
    requires Sound(st) && !Entered(st, e.handle)
    ensures Plain(st, Visit(o, st, dir, e), dir, e)
  {
    var h := e.handle;
    if Listed(st, h) && GetAttr(st.fs, h).Some? {
      if st.fs[h].Metafile? {
        VisitFile(o, st, dir, e);
      } else if st.fs[h].Directory? {
        DirectoryNotEntered(o, st, dir, e);
      } else {
        VisitOther(o, st, dir, e);
      }
    } else if Listed(st, h) {
      VisitUnreadable(o, st, dir, e);
    }
  }

  /** Nothing was walked, and at most this entry was left in place. */
  ghost predicate Plain(st: State, r: State, dir: Handle, e: Dirent) {
    r.walked == st.walked && r.links <= st.links + {Link(dir, e.name, e.handle)}
  }

  lemma DirectoryNotEntered(o: Options, st: State, dir: Handle, e: Dirent)
    requires Sound(st) && !Entered(st, e.handle)
    requires Listed(st, e.handle) && e.handle in st.fs && st.fs[e.handle].Directory?
    ensures Plain(st, Visit(o, st, dir, e), dir, e)
  {
    VisitDirectory(o, st, dir, e);
    var c := MatchDirdata(st.main, st.alt, st.fs[e.handle].dirdata);
    var s := AfterClaim(st, c);
    var j := if c.Claim? && c.complete then Keep(s, dir, e) else if c.Claim? then Discard(o, s, dir, e) else s;
    assert Visit(o, st, dir, e) == Finish(st, j, e.handle);
  }

  lemma {:induction false} EnteredStays(o: Options, base: Fs, root: Handle, rank: Handle -> nat, ws: seq<Handle>,
                                        st: State, s: State, w: State, r: State, dir: Handle, e: Dirent,
                                        open: set<Handle>, pending: set<Link>)
    requires Sorted(o, base, root, rank, ws, st, dir, open) && Inv(o, st, open, pending + {Link(dir, e.name, e.handle)})
    requires NoneGone(st) && dir in st.walked && e in Entries(base, dir) && Entered(st, e.handle)
    requires s == AfterClaim(st, MatchDirdata(st.main, st.alt, st.fs[e.handle].dirdata))
    requires Smaller(st, s) && Sound(s) && Left(s.main, s.alt) < Left(st.main, st.alt)
    requires w == Descend(o, s, e.handle) && Smaller(st, Keep(w, dir, e)) && r == Finish(st, Keep(w, dir, e), e.handle)
    requires !r.halted && (forall d :: d in r.walked ==> d in ws) && st.walked <= r.walked
    ensures NoneGone(r)
    decreases Left(st.main, st.alt), 0, 0
  {
    var h := e.handle;
    var l := Link(dir, e.name, h);
    EnterOpen(o, st, s, h, open, pending + {l});
    WalkedFirst(o, s, h);
    assert w.walked[|s.walked|] == h;
    assert h in w.walked && dir in w.walked;
    EnteredSorted(o, base, root, rank, ws, st, s, dir, e, open);
    DescendStays(o, base, root, rank, ws, s, h, open + {h}, pending + {l});
  }

  lemma EnteredSorted(o: Options, base: Fs, root: Handle, rank: Handle -> nat, ws: seq<Handle>,
                      st: State, s: State, dir: Handle, e: Dirent, open: set<Handle>)
    requires Sorted(o, base, root, rank, ws, st, dir, open) && e in Entries(base, dir) && dir in ws && e.handle in ws
    requires Smaller(st, s) && s.fs == st.fs && !s.halted && Listed(st, e.handle)
    ensures Sorted(o, base, root, rank, ws, s, e.handle, open + {e.handle})
  {
    SmallerLeft(st, s);
  }

  // ---------- if nothing is lost there is no cycle ----------

  /** No directory is a datafile or dirdata of another object. */
  ghost predicate Typed(fs: Fs) {
    forall m, x :: m in fs && x in Parts(fs[m]) && x in fs ==> !fs[x].Directory?
  }

  /** An entry that was visited: its handle is off the list, and if it is a directory that was walked, it is done. */
  ghost predicate Past(st: State, root: Handle, done: seq<Handle>, e: Dirent) {
    !Listed(st, e.handle) && (e.handle in st.walked && e.handle != root ==> e.handle in done)
  }

  /** The walked directories that are not open, in the order in which their walks ended. */
  ghost predicate Done(base: Fs, root: Handle, st: State, open: set<Handle>, done: seq<Handle>) {
    && (forall d :: d in st.walked ==> d in open || d in done)
    && (forall k, e :: 0 <= k < |done| && e in Entries(base, done[k]) ==> Past(st, root, done[..k], e))
  }

  /** The open directories other than the root are listed as long as they are there. */
  ghost predicate OpenListed(root: Handle, st: State, open: set<Handle>) {
    forall c :: c in open && c != root ==> Listed(st, c)
  }

  ghost predicate Ordering(o: Options, base: Fs, root: Handle, st: State, open: set<Handle>, done: seq<Handle>) {
    && Sound(st) && st.alt.None? && o.destructive && Named(base) && Typed(base)
    && Tracing(base, st, open) && Done(base, root, st, open, done) && OpenListed(root, st, open)
  }

  /** Only listed directories are entered. */
  ghost predicate NewListed(st: State, r: State, dir: Handle) {
    forall d :: d in r.walked ==> d in st.walked || d == dir || Listed(st, d)
  }

  /** What a visit that walks nothing takes besides the entry's handle: parts of its object. */
  lemma PlainParts(o: Options, st: State, e: Dirent, x: Handle)
    requires Sound(st) && st.alt.None? && !Entered(st, e.handle) && Listed(st, e.handle)
    requires e.handle in st.fs ==> x !in Parts(st.fs[e.handle])
    ensures Total(PartsTook(o, st, e), x) == 0
  {
    var a := GetAttr(st.fs, e.handle);
    if a.Some? && a.value.Metafile? {
      ClaimBalance(st, a.value.dfiles, x);
    } else if a.Some? && a.value.Directory? && a.value.dirdata.Some? {
      ClaimBalance(st, a.value.dirdata.value, x);
    }
  }

  lemma PlainTakes(o: Options, st: State, r: State, dir: Handle, e: Dirent, x: Handle)
    requires Sound(st) && st.alt.None? && !Entered(st, e.handle) && Listed(st, x) && x != e.handle
    requires e.handle in st.fs ==> x !in Parts(st.fs[e.handle])
    requires r == Visit(o, st, dir, e)
    ensures Listed(r, x)
  {
    VisitBalance(o, st, dir, e, x);
    if Listed(st, e.handle) { PlainParts(o, st, e, x); }
    TimesListed(st, x);
    TimesListed(r, x);
  }

  lemma FinishKeeps(st: State, s: State, h: Handle, x: Handle)
    requires Sound(st) && Listed(st, h) && Smaller(st, s) && x != h && Listed(s, x)
    ensures Listed(Finish(st, s, h), x)
  {
    var i := Where(st.main, st.alt, h).value;
    RemoveAtIn(s.main, h, i, x);
    if s.alt.Some? { RemoveAtIn(s.alt.value, h, i, x); }
  }

  /** After a visit the entry is past, unless it leads back to a directory being walked. */
  lemma PlainPast(o: Options, st: State, dir: Handle, e: Dirent)
    requires Sound(st) && Unique(st) && !st.halted
    ensures var r := Visit(o, st, dir, e);
            !r.halted ==> !Listed(r, e.handle)
  {
    var h := e.handle;
    if Listed(st, h) {
      var j := Judge(o, st, dir, e);
      assert Visit(o, st, dir, e) == Finish(st, j, h);
      if !j.halted { FinishGone(st, j, h); }
    } else {
      SmallerLeft(st, Visit(o, st, dir, e));
    }
  }

  /** Handles that were past stay past when nothing that was unlisted is walked. */
  lemma PastLater(root: Handle, st: State, r: State, dir: Handle, done: seq<Handle>, out: seq<Handle>, e: Dirent)
    requires Past(st, root, done, e) && Smaller(st, r) && NewListed(st, r, dir) && done <= out
    requires dir in st.walked || Listed(st, dir)
    ensures Past(r, root, out, e)
  {
    SmallerLeft(st, r);
  }

  lemma DoneLater(base: Fs, root: Handle, st: State, r: State, dir: Handle, open: set<Handle>, done: seq<Handle>)
    requires Done(base, root, st, open, done) && Smaller(st, r) && NewListed(st, r, dir)
    requires dir in st.walked || Listed(st, dir)
    requires forall d :: d in r.walked ==> d in open || d in done
    ensures Done(base, root, r, open, done)
  {
    forall k, e | 0 <= k < |done| && e in Entries(base, done[k]) ensures Past(r, root, done[..k], e) {
      assert Past(st, root, done[..k], e);
      PastLater(root, st, r, dir, done[..k], done[..k], e);
    }
  }

  lemma NoneGoneBefore(st: State, r: State)
    requires NoneGone(r) && st.walked <= r.walked && FsShrunk(st.fs, r.fs)
    ensures NoneGone(st)
  {
  }

  /** An open directory is a directory, so it is no part of anything. */
  lemma OpenNoPart(base: Fs, st: State, open: set<Handle>, c: Handle, m: Handle)
    requires Typed(base) && FsShrunk(base, st.fs) && WalkOnce(st, open) && c in open && c in st.fs && m in st.fs
    ensures c !in Parts(st.fs[m])
  {
    assert Shut(st, c);
    assert Trimmed(base[c], st.fs[c]) && Trimmed(base[m], st.fs[m]);
  }

  lemma {:induction false} DescendOrder(o: Options, base: Fs, root: Handle, st: State, dir: Handle,
                                        open: set<Handle>, pending: set<Link>, done: seq<Handle>) returns (out: seq<Handle>)
    requires Ordering(o, base, root, st, open, done) && Inv(o, st, open, pending) && !st.halted
    requires dir in open && dir !in st.walked && dir in st.fs && forall c :: c in open ==> c in st.walked || c == dir
    requires !Descend(o, st, dir).halted && NoneGone(Descend(o, st, dir))
    ensures var r := Descend(o, st, dir);
            && Ordering(o, base, root, r, open, out) && NewListed(st, r, dir) && done <= out
            && forall e :: e in Entries(base, dir) ==> Past(r, root, out, e)
    decreases Left(st.main, st.alt), 2, 0
  {
    var s := st.(walked := st.walked + [dir]);
    var es := Entries(st.fs, dir);
    EnterWalk(o, st, dir, open, pending);
    EnterMidway(o, base, root, st, s, dir, open, done);
    assert Descend(o, st, dir) == WalkEntries(o, s, dir, es);
    out := WalkOrder(o, base, root, s, dir, es, open, pending, done);
    assert forall h :: Listed(s, h) <==> Listed(st, h);
  }

  /** Everything a walk of `dir` relies on between two visits. */
  ghost predicate Midway(o: Options, base: Fs, root: Handle, st: State, dir: Handle, es: seq<Dirent>,
                         open: set<Handle>, done: seq<Handle>) {
    && Ordering(o, base, root, st, open, done) && !st.halted && dir in st.walked
    && (forall c :: c in open ==> c in st.walked)
    && AllAwait(st, dir, es)
    && (forall e :: e in es ==> e in Entries(base, dir))
    && (forall e :: e in Entries(base, dir) ==> e in es || Past(st, root, done, e))
  }

  lemma EnterOrder(o: Options, base: Fs, root: Handle, st: State, s: State, dir: Handle, open: set<Handle>, done: seq<Handle>)
    requires Ordering(o, base, root, st, open, done) && dir in open && s == st.(walked := st.walked + [dir])
    requires Tracing(base, s, open)
    ensures Ordering(o, base, root, s, open, done)
  {
    assert forall h :: Listed(s, h) <==> Listed(st, h);
    forall k, e | 0 <= k < |done| && e in Entries(base, done[k]) ensures Past(s, root, done[..k], e) {
      assert Past(st, root, done[..k], e);
    }
  }

  lemma EnterMidway(o: Options, base: Fs, root: Handle, st: State, s: State, dir: Handle, open: set<Handle>, done: seq<Handle>)
    requires Ordering(o, base, root, st, open, done) && !st.halted && dir in st.fs && s == st.(walked := st.walked + [dir])
    requires dir in open && dir !in st.walked && forall c :: c in open ==> c in st.walked || c == dir
    ensures Midway(o, base, root, s, dir, Entries(st.fs, dir), open, done)
  {
    EnterTraced(base, st, s, dir, open);
    EnterOrder(o, base, root, st, s, dir, open, done);
    assert dir in s.walked;
    assert st.fs[dir] == base[dir];
  }

  lemma {:induction false} WalkOrder(o: Options, base: Fs, root: Handle, st: State, dir: Handle, es: seq<Dirent>,
                                     open: set<Handle>, pending: set<Link>, done: seq<Handle>) returns (out: seq<Handle>)
    requires Midway(o, base, root, st, dir, es, open, done) && Inv(o, st, open, pending + LinksOf(dir, es))
    requires !WalkEntries(o, st, dir, es).halted && NoneGone(WalkEntries(o, st, dir, es))
    ensures var r := WalkEntries(o, st, dir, es);
            && Ordering(o, base, root, r, open, out) && NewListed(st, r, dir) && done <= out
            && forall e :: e in Entries(base, dir) ==> Past(r, root, out, e)
    decreases Left(st.main, st.alt), 1, |es|, 0
  {
    out := done;
    if es != [] {
      var e := es[0];
      var rest := pending + LinksOf(dir, es[1..]);
      LinksHead(dir, es, pending);
      var s := Visit(o, st, dir, e);
      assert e in es && Awaits(st, dir, e);
      SmallerLeft(st, s);
      StepOrder(o, base, st, s, WalkEntries(o, s, dir, es[1..]), dir, e, es[1..], open, rest);
      var mid := VisitOrder(o, base, root, st, dir, e, open, rest, done);
      out := RestOrder(o, base, root, st, s, dir, es, open, pending, done, mid);
    }
  }

  /** What is known of the first visit when the whole walk succeeds. */
  lemma StepOrder(o: Options, base: Fs, st: State, s: State, r: State, dir: Handle, e: Dirent, es: seq<Dirent>,
                  open: set<Handle>, pending: set<Link>)
    requires Sound(st) && Inv(o, st, open, pending + {Link(dir, e.name, e.handle)}) && st.alt.None? && !st.halted
    requires Named(base) && Tracing(base, st, open) && dir in st.walked && Awaits(st, dir, e)
    requires s == Visit(o, st, dir, e) && Sound(s) && r == WalkEntries(o, s, dir, es) && !r.halted && NoneGone(r)
    ensures !s.halted && NoneGone(s) && Inv(o, s, open, pending) && Tracks(base, st, s, dir, e, open)
  {
    VisitFramed(o, st.fs, st, dir, e);
    WalkFramed(o, s.fs, s, dir, es);
    NoneGoneBefore(s, r);
    VisitInv(o, st, dir, e, open, pending);
    VisitTraced(o, base, st, dir, e, open, open, pending);
  }

  /** From the first entry to the rest; `s` is the state after the first visit. */
  lemma {:induction false} RestOrder(o: Options, base: Fs, root: Handle, st: State, s: State, dir: Handle, es: seq<Dirent>,
                                     open: set<Handle>, pending: set<Link>, done: seq<Handle>, mid: seq<Handle>)
    returns (out: seq<Handle>)
    requires es != [] && Midway(o, base, root, st, dir, es, open, done) && Smaller(st, s) && !s.halted
    requires Tracks(base, st, s, dir, es[0], open) && Inv(o, s, open, pending + LinksOf(dir, es[1..]))
    requires Ordering(o, base, root, s, open, mid) && NewListed(st, s, dir) && done <= mid && Past(s, root, mid, es[0])
    requires !WalkEntries(o, s, dir, es[1..]).halted && NoneGone(WalkEntries(o, s, dir, es[1..]))
    ensures var r := WalkEntries(o, s, dir, es[1..]);
            && Ordering(o, base, root, r, open, out) && NewListed(st, r, dir) && done <= out
            && forall e :: e in Entries(base, dir) ==> Past(r, root, out, e)
    decreases Left(s.main, s.alt), 1, |es| - 1, 1
  {
    NextMidway(o, base, root, st, s, dir, es, open, done, mid);
    out := WalkOrder(o, base, root, s, dir, es[1..], open, pending, mid);
    SmallerLeft(st, s);
  }

  lemma NextMidway(o: Options, base: Fs, root: Handle, st: State, s: State, dir: Handle, es: seq<Dirent>,
                   open: set<Handle>, done: seq<Handle>, mid: seq<Handle>)
    requires es != [] && Midway(o, base, root, st, dir, es, open, done) && Smaller(st, s) && !s.halted
    requires Tracks(base, st, s, dir, es[0], open)
    requires Ordering(o, base, root, s, open, mid) && NewListed(st, s, dir) && done <= mid && Past(s, root, mid, es[0])
    ensures Midway(o, base, root, s, dir, es[1..], open, mid)
  {
    StillAwaits(base, st, s, dir, es, open);
    forall e | e in Entries(base, dir) ensures e in es[1..] || Past(s, root, mid, e) {
      if e !in es { PastLater(root, st, s, dir, done, mid, e); }
      assert e in es ==> e == es[0] || e in es[1..];
    }
  }

  lemma {:induction false} VisitOrder(o: Options, base: Fs, root: Handle, st: State, dir: Handle, e: Dirent,
                                      open: set<Handle>, pending: set<Link>, done: seq<Handle>) returns (out: seq<Handle>)
    requires Ordering(o, base, root, st, open, done) && Inv(o, st, open, pending + {Link(dir, e.name, e.handle)}) && !st.halted
    requires dir in st.walked && (forall c :: c in open ==> c in st.walked)
    requires !Visit(o, st, dir, e).halted && NoneGone(Visit(o, st, dir, e)) && Tracing(base, Visit(o, st, dir, e), open)
    ensures var r := Visit(o, st, dir, e);
            Ordering(o, base, root, r, open, out) && NewListed(st, r, dir) && done <= out && Past(r, root, out, e)
    decreases Left(st.main, st.alt), 0, 1
  {
    var h := e.handle;
    var r := Visit(o, st, dir, e);
    VisitFramed(o, st.fs, st, dir, e);
    SmallerLeft(st, r);
    if Entered(st, h) {
      VisitDirectory(o, st, dir, e);
      var s := AfterClaim(st, MatchDirdata(st.main, st.alt, st.fs[h].dirdata));
      var w := Descend(o, s, h);
      assert !w.halted && NoneGone(w);
      var mid := EnteredOrder(o, base, root, st, s, w, h, open, pending + {Link(dir, e.name, h)}, done);
      SmallerTrans(st, s, w);
      WalkedOrder(o, base, root, st, s, w, r, dir, e, open, mid);
      out := mid + [h];
    } else {
      out := done;
      PlainOrder(o, base, root, st, r, dir, e, open, pending + {Link(dir, e.name, h)}, done);
    }
  }

  lemma PlainOrder(o: Options, base: Fs, root: Handle, st: State, r: State, dir: Handle, e: Dirent,
                   open: set<Handle>, pending: set<Link>, done: seq<Handle>)
    requires Ordering(o, base, root, st, open, done) && Inv(o, st, open, pending) && !st.halted && !Entered(st, e.handle)
    requires dir in st.walked && (forall c :: c in open ==> c in st.walked)
    requires r == Visit(o, st, dir, e) && !r.halted && NoneGone(r) && Tracing(base, r, open) && Sound(r) && Smaller(st, r)
    ensures Ordering(o, base, root, r, open, done) && NewListed(st, r, dir) && Past(r, root, done, e)
  {
    var h := e.handle;
    NotEntered(o, st, dir, e);
    NoneGoneBefore(st, r);
    if h in open && h != root { BackEdgeIff(o, st, dir, e, open, pending, h); }
    forall c | c in open && c != root ensures Listed(r, c) {
      if h in st.fs { OpenNoPart(base, st, open, c, h); }
      PlainTakes(o, st, r, dir, e, c);
    }
    PlainPast(o, st, dir, e);
    DoneLater(base, root, st, r, dir, open, done);
  }

  /** `w` is the state after the walk of the directory that was entered. */
  lemma {:induction false} EnteredOrder(o: Options, base: Fs, root: Handle, st: State, s: State, w: State, h: Handle,
                                        open: set<Handle>, pending: set<Link>, done: seq<Handle>) returns (mid: seq<Handle>)
    requires Ordering(o, base, root, st, open, done) && Inv(o, st, open, pending) && !st.halted && Entered(st, h)
    requires forall c :: c in open ==> c in st.walked
    requires s == AfterClaim(st, MatchDirdata(st.main, st.alt, st.fs[h].dirdata))
    requires Smaller(st, s) && Sound(s) && Left(s.main, s.alt) < Left(st.main, st.alt)
    requires w == Descend(o, s, h) && !w.halted && NoneGone(w)
    ensures Ordering(o, base, root, w, open + {h}, mid) && NewListed(s, w, h) && done <= mid && h !in open
    ensures forall f :: f in Entries(base, h) ==> Past(w, root, mid, f)
    decreases Left(st.main, st.alt), 0, 0
  {
    EnterOpen(o, st, s, h, open, pending);
    EnteredStart(o, base, root, st, s, w, h, open, pending, done);
    mid := DescendOrder(o, base, root, s, h, open + {h}, pending, done);
  }

  /** A directory that is walked joins those done. */
  lemma WalkedOrder(o: Options, base: Fs, root: Handle, st: State, s: State, w: State, r: State, dir: Handle, e: Dirent,
                    open: set<Handle>, mid: seq<Handle>)
    requires Sound(st) && Unique(st) && Listed(st, e.handle) && Smaller(st, s) && s.walked == st.walked
    requires Smaller(st, w) && !w.halted && NewListed(s, w, e.handle)
    requires Ordering(o, base, root, w, open + {e.handle}, mid) && e.handle !in open
    requires forall f :: f in Entries(base, e.handle) ==> Past(w, root, mid, f)
    requires r == Finish(st, Keep(w, dir, e), e.handle) && Tracing(base, r, open) && Sound(r) && Smaller(st, r)
    ensures Ordering(o, base, root, r, open, mid + [e.handle]) && NewListed(st, r, dir) && Past(r, root, mid + [e.handle], e)
  {
    SmallerLeft(st, s);
    LeftOrdering(o, base, root, st, w, r, dir, e, open, mid);
  }

  lemma EnteredStart(o: Options, base: Fs, root: Handle, st: State, s: State, w: State, h: Handle,
                     open: set<Handle>, pending: set<Link>, done: seq<Handle>)
    requires Ordering(o, base, root, st, open, done) && Inv(o, st, open, pending) && !st.halted && Entered(st, h)
    requires forall c :: c in open ==> c in st.walked
    requires s == AfterClaim(st, MatchDirdata(st.main, st.alt, st.fs[h].dirdata)) && Sound(s) && Smaller(st, s)
    requires w == Descend(o, s, h) && NoneGone(w) && Inv(o, s, open + {h}, pending)
    ensures Ordering(o, base, root, s, open + {h}, done)
  {
    WalkedFirst(o, s, h);
    NoneGoneBefore(st, w);
    OpenTraced(base, st, s, h, open);
    EnteredOrdering(o, base, root, st, s, h, open, done);
  }

  /** The claim of a directory's dirdata leaves the open directories listed. */
  lemma EnteredOrdering(o: Options, base: Fs, root: Handle, st: State, s: State, h: Handle, open: set<Handle>, done: seq<Handle>)
    requires Ordering(o, base, root, st, open, done) && WalkOnce(st, open) && Entered(st, h) && NoneGone(st)
    requires (forall c :: c in open ==> c in st.walked) && WalkOnce(s, open + {h})
    requires s == AfterClaim(st, MatchDirdata(st.main, st.alt, st.fs[h].dirdata)) && Sound(s) && Smaller(st, s)
    requires Tracing(base, s, open + {h})
    ensures Ordering(o, base, root, s, open + {h}, done)
  {
    var hs := st.fs[h].dirdata.value;
    forall c | c in open + {h} && c != root ensures Listed(s, c) {
      OpenNoPart(base, s, open + {h}, c, h);
      ClaimTakesOnly(st, hs, c);
    }
    forall k, e | 0 <= k < |done| && e in Entries(base, done[k]) ensures Past(s, root, done[..k], e) {
      assert Past(st, root, done[..k], e);
      SmallerLeft(st, s);
    }
  }

  /** When the walk of a directory has ended it is the next one done. */
  lemma LeftOrdering(o: Options, base: Fs, root: Handle, st: State, w: State, r: State, dir: Handle, e: Dirent,
                     open: set<Handle>, mid: seq<Handle>)
    requires Sound(st) && Unique(st) && Listed(st, e.handle) && Smaller(st, w) && !w.halted
    requires Ordering(o, base, root, w, open + {e.handle}, mid) && forall f :: f in Entries(base, e.handle) ==> Past(w, root, mid, f)
    requires e.handle !in open
    requires r == Finish(st, Keep(w, dir, e), e.handle) && Tracing(base, r, open) && Sound(r) && Smaller(st, r)
    ensures Ordering(o, base, root, r, open, mid + [e.handle]) && Past(r, root, mid + [e.handle], e)
  {
    var h := e.handle;
    FinishGone(st, Keep(w, dir, e), h);
    SmallerLeft(Keep(w, dir, e), r);
    forall c | c in open && c != root ensures Listed(r, c) {
      assert c != h && Listed(w, c);
      RemoveAtIn(w.main, h, Where(st.main, st.alt, h).value, c);
    }
    DoneNext(base, root, w, r, h, open, mid);
  }

  lemma DoneNext(base: Fs, root: Handle, w: State, r: State, h: Handle, open: set<Handle>, mid: seq<Handle>)
    requires Done(base, root, w, open + {h}, mid) && forall f :: f in Entries(base, h) ==> Past(w, root, mid, f)
    requires r.walked == w.walked && forall x :: Listed(r, x) ==> Listed(w, x)
    ensures Done(base, root, r, open, mid + [h])
  {
    var out := mid + [h];
    assert out[|mid|] == h;
    assert forall d :: d in mid ==> d in out;
    forall k, f | 0 <= k < |out| && f in Entries(base, out[k]) ensures Past(r, root, out[..k], f) {
      assert out[..k] == mid[..k];
      if k < |mid| { assert Past(w, root, mid[..k], f); } else { assert mid[..k] == mid; }
    }
  }

  // ---------- pass 1 ----------

  /** The ranks of the directories in the order in which their walks ended, the root last. */
  ghost function RankOf(done: seq<Handle>, root: Handle): Handle -> nat {
    h => IndexOf(done + [root], h)
  }

  lemma DoneRanked(base: Fs, root: Handle, r: State, done: seq<Handle>)
    requires Done(base, root, r, {root}, done) && forall e :: e in Entries(base, root) ==> Past(r, root, done, e)
    ensures RankedIn(base, root, RankOf(done, root), r.walked)
  {
    forall d, e | d in r.walked && e in Entries(base, d) && e.handle in r.walked && e.handle != root
      ensures RankOf(done, root)(e.handle) < RankOf(done, root)(d)
    {
      DoneBefore(base, root, r, done, d, e);
      var all := done + [root];
      var i :| 0 <= i < IndexOf(all, d) && all[i] == e.handle;
    }
  }

  /** What an entry of a walked directory names was done before that directory. */
  lemma DoneBefore(base: Fs, root: Handle, r: State, done: seq<Handle>, d: Handle, e: Dirent)
    requires Done(base, root, r, {root}, done) && (d == root ==> Past(r, root, done, e))
    requires d in r.walked && e in Entries(base, d) && e.handle in r.walked && e.handle != root
    ensures e.handle in (done + [root])[..IndexOf(done + [root], d)]
  {
    var all := done + [root];
    var k := IndexOf(all, d);
    assert all[|done|] == root;
    if k < |done| {
      assert Past(r, root, done[..k], e);
      assert all[..k] == done[..k];
    } else {
      forall i | 0 <= i < |done| ensures done[i] != d { assert all[i] == done[i]; }
      assert all[..k] == done;
    }
  }

  /** How the walk from the root begins. */
  lemma FirstOrder(o: Options, st: State, root: Handle) returns (t: State)
    requires Sound(st) && Unique(st) && st.alt.None? && !st.halted && st.links == {} && st.walked == [] && o.destructive
    requires !PassOne(o, st, root).halted
    ensures Sound(t) && t.alt.None? && !t.halted && t.fs == st.fs && t.walked == [] && t.links == {} && !Listed(t, root)
    ensures root in st.fs && PassOne(o, st, root) == Descend(o, t, root) && Inv(o, t, {root}, {})
  {
    t := PassOneEnters(o, st, root);
    InitialInv(o, t);
    OpenInv(o, t, root, {});
  }

  /**
   Pass 1 on any graph, if it finishes: it leaves an entry without an object exactly when the directories it walked
   contain a cycle that avoids the root.
   */
  lemma CycleIff(o: Options, st: State, root: Handle)
    requires Sound(st) && Unique(st) && st.alt.None? && !st.halted && st.links == {} && st.walked == [] && o.destructive
    requires Named(st.fs) && Typed(st.fs) && !PassOne(o, st, root).halted
    ensures var r := PassOne(o, st, root);
            (exists d, e :: d in r.walked && Dangling(r.fs, d, e)) <==> !(exists rank :: RankedIn(st.fs, root, rank, r.walked))
  {
    var r := PassOne(o, st, root);
    PassOneDangling(o, st, root);
    var t := FirstOrder(o, st, root);
    if rank :| RankedIn(st.fs, root, rank, r.walked) {
      DescendStays(o, st.fs, root, rank, r.walked, t, root, {root}, {});
    } else if NoneGone(r) {
      var done := DescendOrder(o, st.fs, root, t, root, {root}, {}, []);
      DoneRanked(st.fs, root, r, done);
    }
  }
}
