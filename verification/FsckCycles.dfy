/**
 Pass 1 on any graph, cyclic ones included: which entries it leaves without an object. An entry that leads back to a
 directory being walked makes the walk remove that directory, and the entry through which it was reached stays.
 */
module FsckCycles {
  import opened Wrappers
  import opened HandleLists
  import opened FsckModel
  import opened FsckFrame
  import opened FsckLinks
  import opened FsckIntact
  import opened FsckPasses
  import opened FsckPassOne

  // ---------- one visit ----------

  /**
   A visit that walks nothing removes a walked directory exactly when its entry names a directory that is being
   walked and is still listed.
   */
  lemma BackEdgeIff(o: Options, st: State, dir: Handle, e: Dirent, open: set<Handle>, pending: set<Link>, c: Handle)
    requires Sound(st) && Inv(o, st, open, pending) && st.alt.None? && o.destructive && !st.halted
    requires c in st.walked && c in st.fs
    ensures var r := Visit(o, st, dir, e);
            !r.halted && r.walked == st.walked ==> (c !in r.fs <==> c == e.handle && c in open && Listed(st, c))
  {
    var r := Visit(o, st, dir, e);
    VisitFramed(o, st.fs, st, dir, e);
    if c == e.handle && c in open && Listed(st, c) { BackEdge(o, st, dir, e, open, pending); }
    if !r.halted && r.walked == st.walked && c != e.handle { OnlyOwnObject(o, st, dir, e, c); }
  }

  /** An entry that names a directory being walked: its dirdata is off the lists, so the object is removed. */
  lemma BackEdge(o: Options, st: State, dir: Handle, e: Dirent, open: set<Handle>, pending: set<Link>)
    requires Sound(st) && Inv(o, st, open, pending) && o.destructive && !st.halted
    requires e.handle in open && Listed(st, e.handle) && e.handle in st.fs
    ensures var r := Visit(o, st, dir, e);
            !r.halted ==> e.handle !in r.fs && r.walked == st.walked && r.links == st.links
  {
    assert Shut(st, e.handle);
    ShutFails(st, e.handle);
    VisitDirectory(o, st, dir, e);
    DiscardRemoves(o, AfterClaim(st, MatchDirdata(st.main, st.alt, st.fs[e.handle].dirdata)), dir, e);
  }

  lemma DiscardRemoves(o: Options, st: State, dir: Handle, e: Dirent)
    requires o.destructive
    ensures var r := Discard(o, st, dir, e);
            !r.halted ==> e.handle !in r.fs
  {
    var s := RemoveObject(o, st, e.handle);
    SmallerDirent(o, s, dir, e.name);
  }

  lemma OnlyOwnObject(o: Options, st: State, dir: Handle, e: Dirent, x: Handle)
    requires Sound(st) && !st.halted && x in st.fs && x != e.handle
    ensures var r := Visit(o, st, dir, e);
            r.walked == st.walked ==> x in r.fs
  {
    var h := e.handle;
    if !Listed(st, h) {
      OneObjectGone(o, st, dir, e);
    } else if GetAttr(st.fs, h).None? {
      VisitUnreadable(o, st, dir, e);
      OneObjectGone(o, st, dir, e);
    } else if st.fs[h].Metafile? {
      VisitFile(o, st, dir, e);
      OneObjectGone(o, AfterClaim(st, ClaimAll(st.main, st.alt, st.fs[h].dfiles)), dir, e);
    } else if st.fs[h].Directory? {
      VisitDirectory(o, st, dir, e);
      var c := MatchDirdata(st.main, st.alt, st.fs[h].dirdata);
      OneObjectGone(o, AfterClaim(st, c), dir, e);
      if c.Claim? && c.complete && In(st.main, h) { WalkedFirst(o, AfterClaim(st, c), h); }
    } else {
      VisitOther(o, st, dir, e);
      OneObjectGone(o, st, dir, e);
    }
  }

  /** A walk records its directory before anything else. */
  lemma WalkedFirst(o: Options, st: State, dir: Handle)
    requires Sound(st) && !st.halted
    ensures st.walked + [dir] <= Descend(o, st, dir).walked
  {
    WalkFramed(o, st.fs, st.(walked := st.walked + [dir]), dir, Entries(st.fs, dir));
  }

  // ---------- what the records say ----------

  /** The directory walked as number `k` was reached through an entry of one that was walked before. */
  ghost predicate HasParent(st: State, k: nat)
    requires k < |st.walked|
  {
    exists l :: l in st.links && l.target == st.walked[k] && l.dir in st.walked[..k]
  }

  /**
   The entries left in place belong to walked directories and are still there if their directory is; what they name
   is there too, or is a directory that was walked. Every walked directory that is not `free` has a parent.
   */
  ghost predicate Traced(st: State, free: set<Handle>) {
    && (forall l :: l in st.links ==> l.dir in st.walked)
    && (forall l :: l in st.links && l.dir in st.fs ==> Dirent(l.name, l.target) in Entries(st.fs, l.dir))
    && (forall l :: l in st.links ==> l.target in st.fs || l.target in st.walked)
    && (forall k :: 0 <= k < |st.walked| && st.walked[k] !in free ==> HasParent(st, k))
  }

  /** A walk of `dir` changes the entries of `dir` and of directories it enters, of no other directory. */
  ghost predicate Local(st: State, r: State, dir: Handle) {
    && st.walked <= r.walked && st.links <= r.links
    && (forall d :: d in r.fs && d != dir && (d in st.walked || d !in r.walked) ==> d in st.fs && r.fs[d] == st.fs[d])
    && (forall l :: l in r.links - st.links && l.dir in st.walked ==> l.dir == dir)
  }

  /** Names in a directory differ. */
  ghost predicate Named(fs: Fs) {
    forall d :: d in fs && fs[d].Directory? ==> DistinctNames(fs[d].entries)
  }

  /** The entry is still to be visited: it is there, and no entry of that name was left in place. */
  ghost predicate Awaits(st: State, dir: Handle, e: Dirent) {
    && (dir in st.fs ==> e in Entries(st.fs, dir))
    && forall l :: l in st.links && l.dir == dir ==> l.name != e.name
  }

  /** The entries are still to be visited, and have different names. */
  ghost predicate AllAwait(st: State, dir: Handle, es: seq<Dirent>) {
    DistinctNames(es) && forall e :: e in es ==> Awaits(st, dir, e)
  }

  ghost predicate Tracing(base: Fs, st: State, free: set<Handle>) {
    Traced(st, free) && Untouched(base, st)
  }

  /** What a visit must deliver. */
  ghost predicate Tracks(base: Fs, st: State, r: State, dir: Handle, e: Dirent, free: set<Handle>) {
    && Tracing(base, r, free) && Local(st, r, dir)
    && (dir in r.fs ==> OthersStay(st, r, dir, e.name))
    && (forall l :: l in r.links - st.links && l.dir == dir ==> l.name == e.name)
  }

  /** The entry goes, and perhaps its object. */
  lemma DroppedTracks(base: Fs, st: State, r: State, dir: Handle, e: Dirent, open: set<Handle>, free: set<Handle>)
    requires Tracing(base, st, free) && LinksExclusive(st, open) && dir in st.walked && Awaits(st, dir, e)
    requires Smaller(st, r) && OnlyListedGone(st, r) && r.links == st.links && r.walked == st.walked
    requires forall d :: d in r.fs && d != dir ==> r.fs[d] == st.fs[d]
    requires dir in r.fs ==> OthersStay(st, r, dir, e.name)
    ensures Tracks(base, st, r, dir, e, free)
  {
    SmallerTrans(st.(fs := base), st, r);
    forall k | 0 <= k < |r.walked| && r.walked[k] !in free ensures HasParent(r, k) { assert HasParent(st, k); }
  }

  /** The entry of something that is not walked stays. */
  lemma KeptTracks(base: Fs, st: State, r: State, dir: Handle, e: Dirent, open: set<Handle>)
    requires Tracing(base, st, open) && dir in st.walked && Awaits(st, dir, e) && e.handle in st.fs
    requires r.fs == st.fs && r.walked == st.walked && r.links == st.links + {Link(dir, e.name, e.handle)}
    ensures Tracks(base, st, r, dir, e, open)
  {
    forall k | 0 <= k < |r.walked| && r.walked[k] !in open ensures HasParent(r, k) { assert HasParent(st, k); }
  }

  /** The entry of a directory that was walked stays; `w` is the state after the walk. */
  lemma WalkedTracks(base: Fs, st: State, w: State, r: State, dir: Handle, e: Dirent, open: set<Handle>)
    requires Tracing(base, w, open + {e.handle}) && Local(st, w, e.handle) && Awaits(st, dir, e)
    requires FsShrunk(st.fs, w.fs)
    requires dir in st.walked && e.handle !in st.walked && st.walked + [e.handle] <= w.walked
    requires forall i, j :: 0 <= i < j < |w.walked| ==> w.walked[i] != w.walked[j]
    requires r.fs == w.fs && r.walked == w.walked && r.links == w.links + {Link(dir, e.name, e.handle)}
    ensures Tracks(base, st, r, dir, e, open)
  {
    var n := |st.walked|;
    assert w.walked[n] == e.handle && w.walked[..n] == st.walked;
    forall k | 0 <= k < |r.walked| && r.walked[k] !in open ensures HasParent(r, k) {
      if r.walked[k] == e.handle {
        assert k == n;
        assert Link(dir, e.name, e.handle) in r.links;
      } else {
        assert HasParent(w, k);
      }
    }
    assert dir in w.fs ==> w.fs[dir] == st.fs[dir];
  }

  lemma DiscardWorks(o: Options, st: State, dir: Handle, e: Dirent)
    ensures var r := Discard(o, st, dir, e);
            !r.halted ==>
              && (forall d :: d in r.fs && d != dir ==> d in st.fs && r.fs[d] == st.fs[d])
              && (dir in r.fs ==> OthersStay(st, r, dir, e.name))
  {
    var t := RemoveObject(o, st, e.handle);
    var r := Discard(o, st, dir, e);
    if !r.halted {
      ObjectWorks(o, st, e.handle);
      DirentWorks(o, t, dir, e.name);
      assert dir in r.fs ==> Entries(t.fs, dir) == Entries(st.fs, dir);
    }
  }

  // ---------- the walk ----------

  /** In pass 1 the free directories are the open ones; in pass 2 those popped from the list are free, too. */
  lemma {:induction false} DescendTraced(o: Options, base: Fs, st: State, dir: Handle,
                                         open: set<Handle>, free: set<Handle>, pending: set<Link>)
    requires Sound(st) && Inv(o, st, open, pending) && !st.halted
    requires Named(base) && Tracing(base, st, free) && dir in open && dir in free && dir !in st.walked
    ensures var r := Descend(o, st, dir);
            !r.halted ==> Tracing(base, r, free) && Local(st, r, dir)
    decreases Left(st.main, st.alt), 2, 0
  {
    var s := st.(walked := st.walked + [dir]);
    var es := Entries(st.fs, dir);
    EnterWalk(o, st, dir, open, pending);
    EnterTraced(base, st, s, dir, free);
    assert DistinctNames(es) by { if dir in st.fs { assert st.fs[dir] == base[dir]; } }
    WalkTraced(o, base, s, dir, es, open, free, pending);
  }

  lemma EnterTraced(base: Fs, st: State, s: State, dir: Handle, open: set<Handle>)
    requires Tracing(base, st, open) && dir in open && dir !in st.walked && s == st.(walked := st.walked + [dir])
    ensures Tracing(base, s, open) && forall e :: e in Entries(st.fs, dir) ==> Awaits(s, dir, e)
  {
    forall k | 0 <= k < |s.walked| && s.walked[k] !in open ensures HasParent(s, k) {
      assert HasParent(st, k);
      assert s.walked[..k] == st.walked[..k];
    }
  }

  lemma {:induction false} WalkTraced(o: Options, base: Fs, st: State, dir: Handle, es: seq<Dirent>,
                                      open: set<Handle>, free: set<Handle>, pending: set<Link>)
    requires Sound(st) && Inv(o, st, open, pending + LinksOf(dir, es)) && !st.halted
    requires Named(base) && Tracing(base, st, free) && dir in st.walked
    requires AllAwait(st, dir, es)
    ensures var r := WalkEntries(o, st, dir, es);
            !r.halted ==> Tracing(base, r, free) && Local(st, r, dir)
    decreases Left(st.main, st.alt), 1, |es|
  {
    if es == [] {
      assert Local(st, st, dir);
    } else {
      var e := es[0];
      var rest := pending + LinksOf(dir, es[1..]);
      LinksHead(dir, es, pending);
      var s := Visit(o, st, dir, e);
      assert e in es && Awaits(st, dir, e);
      VisitTraced(o, base, st, dir, e, open, free, rest);
      VisitInv(o, st, dir, e, open, rest);
      SmallerLeft(st, s);
      if !s.halted {
        StillAwaits(base, st, s, dir, es, free);
        WalkTraced(o, base, s, dir, es[1..], open, free, pending);
        var r := WalkEntries(o, s, dir, es[1..]);
        if !r.halted { LocalTrans(st, s, r, dir); }
      }
    }
  }

  /** After one visit the entries that remain still await theirs. */
  lemma StillAwaits(base: Fs, st: State, s: State, dir: Handle, es: seq<Dirent>, open: set<Handle>)
    requires es != [] && AllAwait(st, dir, es)
    requires Tracks(base, st, s, dir, es[0], open) && Smaller(st, s) && dir in st.walked
    ensures Tracing(base, s, open) && Local(st, s, dir) && dir in s.walked && AllAwait(s, dir, es[1..])
  {
    forall i | 1 <= i < |es| ensures Awaits(s, dir, es[i]) {
      assert es[i] in es;
      assert Awaits(st, dir, es[i]) && es[i].name != es[0].name;
    }
  }

  lemma LocalTrans(a: State, b: State, c: State, dir: Handle)
    requires Local(a, b, dir) && Local(b, c, dir)
    ensures Local(a, c, dir)
  {
  }

  lemma {:induction false} VisitTraced(o: Options, base: Fs, st: State, dir: Handle, e: Dirent,
                                       open: set<Handle>, free: set<Handle>, pending: set<Link>)
    requires Sound(st) && Inv(o, st, open, pending + {Link(dir, e.name, e.handle)}) && !st.halted
    requires Named(base) && Tracing(base, st, free) && dir in st.walked && Awaits(st, dir, e)
    ensures var r := Visit(o, st, dir, e);
            !r.halted ==> Tracks(base, st, r, dir, e, free)
    decreases Left(st.main, st.alt), 0, 2
  {
    var h := e.handle;
    var r := Visit(o, st, dir, e);
    VisitFramed(o, st.fs, st, dir, e);
    if !Listed(st, h) {
      UnlistedTracks(o, base, st, r, dir, e, open, free);
    } else if GetAttr(st.fs, h).None? {
      VisitUnreadable(o, st, dir, e);
      UnlistedTracks(o, base, st, r, dir, e, open, free);
    } else if st.fs[h].Metafile? {
      VisitFile(o, st, dir, e);
      OutcomeTracks(o, base, st, r, ClaimAll(st.main, st.alt, st.fs[h].dfiles), dir, e, open, free);
    } else if st.fs[h].Directory? {
      DirectoryTracks(o, base, st, r, dir, e, open, free, pending);
    } else {
      VisitOther(o, st, dir, e);
      OutcomeTracks(o, base, st, r, Claim(st.main, st.alt, st.fs[h].Symlink?), dir, e, open, free);
    }
  }

  lemma {:induction false} DirectoryTracks(o: Options, base: Fs, st: State, r: State, dir: Handle, e: Dirent,
                                           open: set<Handle>, free: set<Handle>, pending: set<Link>)
    requires Sound(st) && Inv(o, st, open, pending + {Link(dir, e.name, e.handle)}) && !st.halted
    requires Named(base) && Tracing(base, st, free) && dir in st.walked && Awaits(st, dir, e)
    requires Listed(st, e.handle) && e.handle in st.fs && st.fs[e.handle].Directory?
    requires r == Visit(o, st, dir, e) && OnlyListedGone(st, r)
    ensures !r.halted ==> Tracks(base, st, r, dir, e, free)
    decreases Left(st.main, st.alt), 0, 1
  {
    VisitDirectory(o, st, dir, e);
    var c := MatchDirdata(st.main, st.alt, st.fs[e.handle].dirdata);
    if c.Claim? && c.complete && In(st.main, e.handle) {
      EnteredTracks(o, base, st, AfterClaim(st, c), r, dir, e, open, free, pending);
    } else {
      OutcomeTracks(o, base, st, r, c, dir, e, open, free);
    }
  }

  lemma UnlistedTracks(o: Options, base: Fs, st: State, r: State, dir: Handle, e: Dirent,
                       open: set<Handle>, free: set<Handle>)
    requires Tracing(base, st, free) && LinksExclusive(st, open) && dir in st.walked && Awaits(st, dir, e) && !st.halted
    requires Smaller(st, r) && OnlyListedGone(st, r)
    requires var d := RemoveDirent(o, st, dir, e.name);
             r.fs == d.fs && r.links == d.links && r.walked == d.walked && r.halted == d.halted
    ensures !r.halted ==> Tracks(base, st, r, dir, e, free)
  {
    DirentWorks(o, st, dir, e.name);
    if !r.halted { DroppedTracks(base, st, r, dir, e, open, free); }
  }

  /** A visit that walks nothing: the entry stays exactly when the claim is complete. */
  lemma OutcomeTracks(o: Options, base: Fs, st: State, r: State, c: Claim, dir: Handle, e: Dirent,
                      open: set<Handle>, free: set<Handle>)
    requires Tracing(base, st, free) && LinksExclusive(st, open) && dir in st.walked && Awaits(st, dir, e) && !st.halted
    requires Smaller(st, r) && OnlyListedGone(st, r) && e.handle in st.fs
    requires var s := AfterClaim(st, c);
             var j := if c.Crash? then s else if c.complete then Keep(s, dir, e) else Discard(o, s, dir, e);
             r.fs == j.fs && r.links == j.links && r.walked == j.walked && r.halted == j.halted
    ensures !r.halted ==> Tracks(base, st, r, dir, e, free)
  {
    if c.Claim? && c.complete {
      KeptTracks(base, st, r, dir, e, free);
    } else if c.Claim? && !r.halted {
      DiscardWorks(o, AfterClaim(st, c), dir, e);
      DroppedTracks(base, st, r, dir, e, open, free);
    }
  }

  lemma {:induction false} EnteredTracks(o: Options, base: Fs, st: State, s: State, r: State, dir: Handle, e: Dirent,
                                         open: set<Handle>, free: set<Handle>, pending: set<Link>)
    requires Sound(st) && Inv(o, st, open, pending + {Link(dir, e.name, e.handle)}) && !st.halted
    requires Named(base) && Tracing(base, st, free) && dir in st.walked && Awaits(st, dir, e)
    requires In(st.main, e.handle) && e.handle in st.fs && st.fs[e.handle].Directory?
    requires var c := MatchDirdata(st.main, st.alt, st.fs[e.handle].dirdata);
             c.Claim? && c.complete && s == AfterClaim(st, c)
    requires Smaller(st, s) && Sound(s) && Left(s.main, s.alt) < Left(st.main, st.alt)
    requires Smaller(st, Keep(Descend(o, s, e.handle), dir, e)) && r == Finish(st, Keep(Descend(o, s, e.handle), dir, e), e.handle)
    ensures !r.halted ==> Tracks(base, st, r, dir, e, free)
    decreases Left(st.main, st.alt), 0, 0
  {
    var h := e.handle;
    var l := Link(dir, e.name, h);
    EnterOpen(o, st, s, h, open, pending + {l});
    OpenTraced(base, st, s, h, free);
    DescendTraced(o, base, s, h, open + {h}, free + {h}, pending + {l});
    var w := Descend(o, s, h);
    EndOpen(o, s, w, h, open + {h}, pending + {l});
    if !w.halted {
      assert Local(st, w, h);
      WalkedTracks(base, st, w, r, dir, e, free);
    }
  }

  /** A directory whose claim is complete was not open, and now is. */
  lemma EnterOpen(o: Options, st: State, s: State, h: Handle, open: set<Handle>, pending: set<Link>)
    requires Sound(st) && Inv(o, st, open, pending) && Smaller(st, s)
    requires In(st.main, h) && h in st.fs && st.fs[h].Directory?
    requires var c := MatchDirdata(st.main, st.alt, st.fs[h].dirdata);
             c.Claim? && c.complete && s == AfterClaim(st, c)
    ensures Inv(o, s, open + {h}, pending) && h !in s.walked
  {
    if h in open { ShutFails(st, h); }
    InvShrinks(o, st, s, open, pending);
    EnterInv(o, st, s, h, open, pending);
  }

  lemma EndOpen(o: Options, s: State, w: State, h: Handle, open: set<Handle>, pending: set<Link>)
    requires Sound(s) && Inv(o, s, open, pending) && h in open && h !in s.walked && !s.halted && w == Descend(o, s, h)
    ensures s.walked + [h] <= w.walked && FsShrunk(s.fs, w.fs)
    ensures !w.halted ==> forall i, j :: 0 <= i < j < |w.walked| ==> w.walked[i] != w.walked[j]
  {
    DescendInv(o, s, h, open, pending);
    WalkedFirst(o, s, h);
  }

  lemma OpenTraced(base: Fs, st: State, s: State, h: Handle, open: set<Handle>)
    requires Tracing(base, st, open) && s.fs == st.fs && s.walked == st.walked && s.links == st.links
    ensures Tracing(base, s, open + {h})
  {
    forall k | 0 <= k < |s.walked| && s.walked[k] !in open + {h} ensures HasParent(s, k) { assert HasParent(st, k); }
  }

  // ---------- pass 1 ----------

  /** The entry names an object that does not exist. */
  predicate Dangling(fs: Fs, d: Handle, e: Dirent) {
    e in Entries(fs, d) && e.handle !in fs
  }

  /** The first of the walked directories that are gone. */
  lemma {:induction false} FirstGone(st: State, k: nat) returns (j: nat)
    requires k < |st.walked| && st.walked[k] !in st.fs
    ensures j <= k && st.walked[j] !in st.fs && forall i :: 0 <= i < j ==> st.walked[i] in st.fs
    decreases k
  {
    j := k;
    if i :| 0 <= i < k && st.walked[i] !in st.fs { j := FirstGone(st, i); }
  }

  /** Only walked directories can be missing behind an entry. */
  lemma DanglingWalked(r: State, open: set<Handle>)
    requires Settled(r, {}) && Traced(r, open)
    ensures forall d, e :: d in r.walked && Dangling(r.fs, d, e) ==> e.handle in r.walked
  {
    forall d, e | d in r.walked && Dangling(r.fs, d, e) ensures e.handle in r.walked {
      assert Link(d, e.name, e.handle) in r.links + {};
    }
  }

  /** The directory was reached through an entry, which is still there unless its directory is gone too. */
  ghost predicate ParentLeft(r: State, c: Handle) {
    exists l :: l in r.links && l.target == c && l.dir in r.walked
                && (l.dir in r.fs ==> Dangling(r.fs, l.dir, Dirent(l.name, c)))
  }

  lemma GoneHaveParents(r: State, root: Handle)
    requires Traced(r, {root}) && root in r.fs
    ensures forall c :: c in r.walked && c !in r.fs ==> ParentLeft(r, c)
  {
    forall c | c in r.walked && c !in r.fs ensures ParentLeft(r, c) {
      var k :| 0 <= k < |r.walked| && r.walked[k] == c;
      assert HasParent(r, k);
    }
  }

  lemma DanglingIff(r: State, root: Handle)
    requires Traced(r, {root}) && root in r.fs
    requires forall d, e :: d in r.walked && Dangling(r.fs, d, e) ==> e.handle in r.walked
    ensures (exists d, e :: d in r.walked && Dangling(r.fs, d, e)) <==> (exists c :: c in r.walked && c !in r.fs)
  {
    if c :| c in r.walked && c !in r.fs { GoneDangles(r, root, c); }
  }

  /**
   Pass 1 on any graph, if it finishes: an entry it leaves names an object that exists or a directory it walked. Every
   walked directory that is gone was reached through an entry, which is still there unless its directory is gone too.
   So something dangles exactly when the walk removed a directory it was walking.
   */
  lemma PassOneDangling(o: Options, st: State, root: Handle)
    requires Sound(st) && Unique(st) && st.alt.None? && !st.halted && st.links == {} && st.walked == []
    requires o.destructive && Named(st.fs) && !PassOne(o, st, root).halted
    ensures var r := PassOne(o, st, root);
            && (forall d, e :: d in r.walked && Dangling(r.fs, d, e) ==> e.handle in r.walked)
            && (forall c :: c in r.walked && c !in r.fs ==> ParentLeft(r, c))
            && ((exists d, e :: d in r.walked && Dangling(r.fs, d, e)) <==> (exists c :: c in r.walked && c !in r.fs))
  {
    var r := PassOne(o, st, root);
    PassOneInv(o, st, root);
    PassOneTraced(o, st, root);
    DanglingWalked(r, {root});
    GoneHaveParents(r, root);
    DanglingIff(r, root);
  }

  lemma PassOneTraced(o: Options, st: State, root: Handle)
    requires Sound(st) && Unique(st) && st.alt.None? && !st.halted && st.links == {} && st.walked == []
    requires Named(st.fs) && !PassOne(o, st, root).halted
    ensures Tracing(st.fs, PassOne(o, st, root), {root}) && root in PassOne(o, st, root).fs
  {
    var t := PassOneEnters(o, st, root);
    InitialInv(o, t);
    OpenInv(o, t, root, {});
    DescendTraced(o, st.fs, t, root, {root}, {root}, {});
    DescendFramed(o, t.fs, t, root);
  }

  lemma GoneDangles(r: State, root: Handle, c: Handle)
    requires Traced(r, {root}) && root in r.fs && c in r.walked && c !in r.fs
    ensures exists d, e :: d in r.walked && Dangling(r.fs, d, e)
  {
    var k :| 0 <= k < |r.walked| && r.walked[k] == c;
    var j := FirstGone(r, k);
    assert HasParent(r, j);
    var l :| l in r.links && l.target == r.walked[j] && l.dir in r.walked[..j];
    assert Dangling(r.fs, l.dir, Dirent(l.name, l.target));
  }
}
