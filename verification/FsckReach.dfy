/**
 Which directories pass 1 walks: those that can be reached from the root through directories whose dirdata is all
 listed. So it can be told before the run whether pass 1 leaves an entry without an object.
 */
module FsckReach {
  import opened Wrappers
  import opened HandleLists
  import opened FsckModel
  import opened FsckFrame
  import opened FsckLinks
  import opened FsckIntact
  import opened FsckPasses
  import opened FsckPassOne
  import opened FsckCycles
  import opened FsckOrder

  // ---------- what can be reached ----------

  /** The directory `d` has an entry for `h`. */
  ghost predicate Names(fs: Fs, d: Handle, h: Handle) {
    exists e :: e in Entries(fs, d) && e.handle == h
  }

  /** A listed directory with all its dirdata listed. */
  ghost predicate Whole(st: State, h: Handle) {
    && h in st.fs && st.fs[h].Directory? && st.fs[h].dirdata.Some? && Listed(st, h)
    && forall x :: x in Parts(st.fs[h]) ==> Listed(st, x)
  }

  /** From the root, every directory has an entry for the next, and all but the root are whole. */
  ghost predicate Path(st: State, root: Handle, p: seq<Handle>) {
    && |p| > 0 && p[0] == root
    && forall i :: 0 < i < |p| ==> p[i] != root && Whole(st, p[i]) && Names(st.fs, p[i - 1], p[i])
  }

  ghost predicate Reachable(st: State, root: Handle, d: Handle) {
    exists p :: Path(st, root, p) && p[|p| - 1] == d
  }

  /** Dirdata belongs to one directory, and no entry names it. */
  ghost predicate Private(fs: Fs) {
    && (forall d, m, x :: d in fs && fs[d].Directory? && x in Parts(fs[d]) && m in fs && m != d ==> x !in Parts(fs[m]))
    && (forall d, c, x :: d in fs && fs[d].Directory? && x in Parts(fs[d]) ==> !Names(fs, c, x))
  }

  lemma PathStep(st: State, root: Handle, d: Handle, h: Handle)
    requires Reachable(st, root, d) && Names(st.fs, d, h) && Whole(st, h) && h != root
    ensures Reachable(st, root, h)
  {
    var p :| Path(st, root, p) && p[|p| - 1] == d;
    var q := p + [h];
    forall i | 0 < i < |q| ensures q[i] != root && Whole(st, q[i]) && Names(st.fs, q[i - 1], q[i]) {
      if i < |p| { assert q[i] == p[i] && q[i - 1] == p[i - 1]; }
    }
    assert Path(st, root, q) && q[|q| - 1] == h;
  }

  // ---------- the walk ----------

  /** Whole directories that were not entered yet are as they were, with all their dirdata. */
  ghost predicate Awaiting(init: State, root: Handle, st: State, open: set<Handle>) {
    forall h :: Whole(init, h) && h != root && h !in st.walked && h !in open ==>
      h in st.fs && Listed(st, h) && forall x :: x in Parts(init.fs[h]) ==> Listed(st, x)
  }

  /** A whole directory the entry names was walked. */
  ghost predicate Met(init: State, root: Handle, st: State, e: Dirent) {
    Whole(init, e.handle) && e.handle != root ==> e.handle in st.walked
  }

  /** What was entered was whole, what was left in place was named, and directories that are done named nothing else. */
  ghost predicate Honest(init: State, root: Handle, st: State, open: set<Handle>) {
    && (forall d :: d in st.walked && d != root ==> Whole(init, d))
    && (forall l :: l in st.links ==> Names(init.fs, l.dir, l.target))
    && (forall d, e :: d in st.walked && d !in open && e in Entries(init.fs, d) ==> Met(init, root, st, e))
  }

  ghost predicate Reaching(init: State, root: Handle, st: State, open: set<Handle>) {
    && Sound(st) && st.alt.None? && Named(init.fs) && Typed(init.fs) && Private(init.fs)
    && (forall h :: Listed(st, h) ==> Listed(init, h)) && !Listed(st, root)
    && Tracing(init.fs, st, open) && Awaiting(init, root, st, open) && Honest(init, root, st, open)
  }

  /** A listed directory with listed dirdata is entered, or the program stops. */
  lemma WouldEnter(o: Options, st: State, dir: Handle, e: Dirent)
    requires Sound(st) && st.alt.None? && !st.halted && !Visit(o, st, dir, e).halted
    requires e.handle in st.fs && st.fs[e.handle].Directory? && st.fs[e.handle].dirdata.Some? && Listed(st, e.handle)
    requires forall x :: x in Parts(st.fs[e.handle]) ==> Listed(st, x)
    ensures Entered(st, e.handle)
  {
    ProbeComplete(st.main, st.alt, st.fs[e.handle].dirdata.value, 0);
    if MatchDirdata(st.main, st.alt, st.fs[e.handle].dirdata).Crash? { CrashHalts(o, st, dir, e); }
  }

  lemma CrashHalts(o: Options, st: State, dir: Handle, e: Dirent)
    requires Sound(st) && e.handle in st.fs && st.fs[e.handle].Directory? && Listed(st, e.handle)
    requires MatchDirdata(st.main, st.alt, st.fs[e.handle].dirdata).Crash?
    ensures Visit(o, st, dir, e).halted
  {
    VisitDirectory(o, st, dir, e);
  }

  lemma EnteredWhole(init: State, root: Handle, st: State, open: set<Handle>, h: Handle)
    requires Reaching(init, root, st, open) && Entered(st, h)
    ensures Whole(init, h) && h != root
  {
    assert Trimmed(init.fs[h], st.fs[h]);
    ProbeComplete(st.main, st.alt, st.fs[h].dirdata.value, 0);
  }

  /** What a visit to `h` may take besides `h`: nothing that another whole directory needs. */
  lemma NotTaken(init: State, root: Handle, st: State, open: set<Handle>, dir: Handle, e: Dirent, k: Handle, x: Handle)
    requires Reaching(init, root, st, open) && e in Entries(init.fs, dir)
    requires Whole(init, k) && k != e.handle && (x == k || x in Parts(init.fs[k]))
    ensures x != e.handle && (e.handle in st.fs ==> x !in Parts(st.fs[e.handle]))
  {
    assert Names(init.fs, dir, e.handle);
    if e.handle in st.fs { assert Trimmed(init.fs[e.handle], st.fs[e.handle]); }
  }

  lemma PlainReaches(o: Options, init: State, root: Handle, st: State, r: State, dir: Handle, e: Dirent, open: set<Handle>)
    requires Reaching(init, root, st, open) && !st.halted && e in Entries(init.fs, dir) && !Entered(st, e.handle)
    requires forall c :: c in open ==> c in st.walked
    requires r == Visit(o, st, dir, e) && !r.halted && Tracing(init.fs, r, open) && Sound(r)
    ensures Reaching(init, root, r, open) && Met(init, root, r, e)
  {
    var h := e.handle;
    NotEntered(o, st, dir, e);
    SmallerLeft(st, r);
    if Whole(init, h) && h != root && h !in st.walked {
      assert Trimmed(init.fs[h], st.fs[h]);
      WouldEnter(o, st, dir, e);
    }
    forall k | Whole(init, k) && k != root && k !in r.walked && k !in open
      ensures k in r.fs && Listed(r, k) && forall x :: x in Parts(init.fs[k]) ==> Listed(r, x)
    {
      OnlyOwnObject(o, st, dir, e, k);
      forall x | x == k || x in Parts(init.fs[k]) ensures Listed(r, x) {
        NotTaken(init, root, st, open, dir, e, k, x);
        PlainTakes(o, st, r, dir, e, x);
      }
    }
    PlainHonest(init, root, st, r, dir, e, open);
  }

  lemma PlainHonest(init: State, root: Handle, st: State, r: State, dir: Handle, e: Dirent, open: set<Handle>)
    requires Honest(init, root, st, open) && e in Entries(init.fs, dir)
    requires r.walked == st.walked && r.links <= st.links + {Link(dir, e.name, e.handle)}
    ensures Honest(init, root, r, open)
  {
    assert Names(init.fs, dir, e.handle);
    forall d, f | d in r.walked && d !in open && f in Entries(init.fs, d) ensures Met(init, root, r, f) {
      assert Met(init, root, st, f);
    }
  }

  // ---------- entering a directory ----------

  /** Claiming the dirdata of the directory that is entered takes nothing another whole directory needs. */
  lemma EnterReaches(init: State, root: Handle, st: State, s: State, dir: Handle, e: Dirent, open: set<Handle>)
    requires Reaching(init, root, st, open) && Entered(st, e.handle) && e in Entries(init.fs, dir)
    requires s == AfterClaim(st, MatchDirdata(st.main, st.alt, st.fs[e.handle].dirdata)) && Sound(s) && Smaller(st, s)
    requires Tracing(init.fs, s, open + {e.handle}) && s.alt.None?
    ensures Reaching(init, root, s, open + {e.handle})
  {
    var h := e.handle;
    SmallerLeft(st, s);
    forall k | Whole(init, k) && k != root && k !in s.walked && k !in open + {h}
      ensures k in s.fs && Listed(s, k) && forall x :: x in Parts(init.fs[k]) ==> Listed(s, x)
    {
      forall x | x == k || x in Parts(init.fs[k]) ensures Listed(s, x) {
        NotTaken(init, root, st, open, dir, e, k, x);
        ClaimTakesOnly(st, st.fs[h].dirdata.value, x);
      }
    }
    forall d, f | d in s.walked && d !in open + {h} && f in Entries(init.fs, d) ensures Met(init, root, s, f) {
      assert Met(init, root, st, f);
    }
  }

  /** When its walk is over it is done; `w` is the state after the walk. */
  lemma LeaveReaches(init: State, root: Handle, st: State, w: State, r: State, dir: Handle, e: Dirent, open: set<Handle>)
    requires Sound(st) && Listed(st, e.handle) && Smaller(st, Keep(w, dir, e)) && r == Finish(st, Keep(w, dir, e), e.handle)
    requires Reaching(init, root, w, open + {e.handle}) && forall f :: f in Entries(init.fs, e.handle) ==> Met(init, root, w, f)
    requires e in Entries(init.fs, dir) && e.handle in w.walked && !w.halted
    requires Tracing(init.fs, r, open) && Sound(r) && r.alt.None?
    ensures Reaching(init, root, r, open) && Met(init, root, r, e)
  {
    var h := e.handle;
    var k := Keep(w, dir, e);
    assert forall y :: Listed(k, y) <==> Listed(w, y);
    FinishShrinks(st, k, h);
    SmallerLeft(k, r);
    forall g | Whole(init, g) && g != root && g !in r.walked && g !in open
      ensures g in r.fs && Listed(r, g) && forall x :: x in Parts(init.fs[g]) ==> Listed(r, x)
    {
      forall x | x == g || x in Parts(init.fs[g]) ensures Listed(r, x) {
        NotTaken(init, root, w, open + {h}, dir, e, g, x);
        FinishKeeps(st, k, h, x);
      }
    }
    LeaveHonest(init, root, w, r, dir, e, open);
  }

  lemma LeaveHonest(init: State, root: Handle, w: State, r: State, dir: Handle, e: Dirent, open: set<Handle>)
    requires Honest(init, root, w, open + {e.handle}) && forall f :: f in Entries(init.fs, e.handle) ==> Met(init, root, w, f)
    requires e in Entries(init.fs, dir) && r.walked == w.walked && r.links <= w.links + {Link(dir, e.name, e.handle)}
    ensures Honest(init, root, r, open)
  {
    assert Names(init.fs, dir, e.handle);
    forall d, f | d in r.walked && d !in open && f in Entries(init.fs, d) ensures Met(init, root, r, f) {
      assert Met(init, root, w, f);
    }
  }

  // ---------- the walk ----------

  lemma {:induction false} DescendReaches(o: Options, init: State, root: Handle, st: State, dir: Handle,
                                          open: set<Handle>, pending: set<Link>)
    requires Reaching(init, root, st, open) && Inv(o, st, open, pending) && !st.halted && !Descend(o, st, dir).halted
    requires dir in open && dir !in st.walked && dir in st.fs && (dir == root || Whole(init, dir))
    requires forall c :: c in open ==> c in st.walked || c == dir
    ensures var r := Descend(o, st, dir);
            Reaching(init, root, r, open) && forall e :: e in Entries(init.fs, dir) ==> Met(init, root, r, e)
    decreases Left(st.main, st.alt), 2, 0
  {
    var s := st.(walked := st.walked + [dir]);
    EnterWalk(o, st, dir, open, pending);
    StartBetween(init, root, st, s, dir, open);
    assert Descend(o, st, dir) == WalkEntries(o, s, dir, Entries(st.fs, dir));
    WalkReaches(o, init, root, s, dir, Entries(st.fs, dir), open, pending);
  }

  /** Everything a walk of `dir` relies on between two visits. */
  ghost predicate Between(init: State, root: Handle, st: State, dir: Handle, es: seq<Dirent>, open: set<Handle>) {
    && Reaching(init, root, st, open) && !st.halted && dir in st.walked && (forall c :: c in open ==> c in st.walked)
    && AllAwait(st, dir, es)
    && (forall e :: e in es ==> e in Entries(init.fs, dir))
    && (forall e :: e in Entries(init.fs, dir) ==> e in es || Met(init, root, st, e))
  }

  lemma StartBetween(init: State, root: Handle, st: State, s: State, dir: Handle, open: set<Handle>)
    requires Reaching(init, root, st, open) && !st.halted && s == st.(walked := st.walked + [dir])
    requires dir in open && dir !in st.walked && dir in st.fs && (dir == root || Whole(init, dir))
    requires forall c :: c in open ==> c in st.walked || c == dir
    ensures Between(init, root, s, dir, Entries(st.fs, dir), open)
  {
    EnterTraced(init.fs, st, s, dir, open);
    StartReaching(init, root, st, s, dir, open);
    assert dir in s.walked;
    assert st.fs[dir] == init.fs[dir];
  }

  lemma StartReaching(init: State, root: Handle, st: State, s: State, dir: Handle, open: set<Handle>)
    requires Reaching(init, root, st, open) && s == st.(walked := st.walked + [dir]) && Tracing(init.fs, s, open)
    requires dir in open && (dir == root || Whole(init, dir))
    ensures Reaching(init, root, s, open)
  {
    assert forall h :: Listed(s, h) <==> Listed(st, h);
    forall d, f | d in s.walked && d !in open && f in Entries(init.fs, d) ensures Met(init, root, s, f) {
      assert Met(init, root, st, f);
    }
  }

  lemma {:induction false} WalkReaches(o: Options, init: State, root: Handle, st: State, dir: Handle, es: seq<Dirent>,
                                       open: set<Handle>, pending: set<Link>)
    requires Between(init, root, st, dir, es, open) && Inv(o, st, open, pending + LinksOf(dir, es))
    requires !WalkEntries(o, st, dir, es).halted
    ensures var r := WalkEntries(o, st, dir, es);
            Reaching(init, root, r, open) && forall e :: e in Entries(init.fs, dir) ==> Met(init, root, r, e)
    decreases Left(st.main, st.alt), 1, |es|
  {
    if es != [] {
      var e := es[0];
      LinksHead(dir, es, pending);
      var rest := pending + LinksOf(dir, es[1..]);
      var s := Visit(o, st, dir, e);
      assert e in es && Awaits(st, dir, e);
      SmallerLeft(st, s);
      assert !s.halted;
      VisitInv(o, st, dir, e, open, rest);
      VisitTraced(o, init.fs, st, dir, e, open, open, rest);
      VisitReaches(o, init, root, st, s, dir, e, open, rest);
      NextBetween(init, root, st, s, dir, es, open);
      WalkReaches(o, init, root, s, dir, es[1..], open, pending);
    }
  }

  lemma NextBetween(init: State, root: Handle, st: State, s: State, dir: Handle, es: seq<Dirent>, open: set<Handle>)
    requires es != [] && Between(init, root, st, dir, es, open) && Smaller(st, s) && !s.halted
    requires Tracks(init.fs, st, s, dir, es[0], open) && Reaching(init, root, s, open) && Met(init, root, s, es[0])
    ensures Between(init, root, s, dir, es[1..], open)
  {
    StillAwaits(init.fs, st, s, dir, es, open);
    forall e | e in Entries(init.fs, dir) ensures e in es[1..] || Met(init, root, s, e) {
      assert e in es || Met(init, root, st, e);
      assert e in es ==> e == es[0] || e in es[1..];
    }
  }

  lemma {:induction false} VisitReaches(o: Options, init: State, root: Handle, st: State, r: State, dir: Handle, e: Dirent,
                                        open: set<Handle>, pending: set<Link>)
    requires Reaching(init, root, st, open) && Inv(o, st, open, pending + {Link(dir, e.name, e.handle)}) && !st.halted
    requires dir in st.walked && (forall c :: c in open ==> c in st.walked) && e in Entries(init.fs, dir)
    requires r == Visit(o, st, dir, e) && !r.halted && Tracing(init.fs, r, open) && Sound(r)
    ensures Reaching(init, root, r, open) && Met(init, root, r, e)
    decreases Left(st.main, st.alt), 0, 1
  {
    if Entered(st, e.handle) {
      VisitDirectory(o, st, dir, e);
      var s := AfterClaim(st, MatchDirdata(st.main, st.alt, st.fs[e.handle].dirdata));
      var w := Descend(o, s, e.handle);
      EnteredReaches(o, init, root, st, s, w, dir, e, open, pending + {Link(dir, e.name, e.handle)});
      LeaveReaches(init, root, st, w, r, dir, e, open);
    } else {
      PlainReaches(o, init, root, st, r, dir, e, open);
    }
  }

  /** `w` is the state after the walk of the directory that was entered. */
  lemma {:induction false} EnteredReaches(o: Options, init: State, root: Handle, st: State, s: State, w: State, dir: Handle,
                                          e: Dirent, open: set<Handle>, pending: set<Link>)
    requires Reaching(init, root, st, open) && Inv(o, st, open, pending) && !st.halted && Entered(st, e.handle)
    requires (forall c :: c in open ==> c in st.walked) && e in Entries(init.fs, dir)
    requires s == AfterClaim(st, MatchDirdata(st.main, st.alt, st.fs[e.handle].dirdata))
    requires Smaller(st, s) && Sound(s) && Left(s.main, s.alt) < Left(st.main, st.alt)
    requires w == Descend(o, s, e.handle) && !w.halted
    ensures Reaching(init, root, w, open + {e.handle}) && e.handle in w.walked
    ensures forall f :: f in Entries(init.fs, e.handle) ==> Met(init, root, w, f)
    decreases Left(st.main, st.alt), 0, 0
  {
    var h := e.handle;
    EnteredBegin(o, init, root, st, s, dir, e, open, pending);
    DescendReaches(o, init, root, s, h, open + {h}, pending);
    WalkedFirst(o, s, h);
    assert w.walked[|s.walked|] == h;
  }

  lemma EnteredBegin(o: Options, init: State, root: Handle, st: State, s: State, dir: Handle, e: Dirent,
                     open: set<Handle>, pending: set<Link>)
    requires Reaching(init, root, st, open) && Inv(o, st, open, pending) && Entered(st, e.handle) && e in Entries(init.fs, dir)
    requires s == AfterClaim(st, MatchDirdata(st.main, st.alt, st.fs[e.handle].dirdata)) && Smaller(st, s) && Sound(s)
    ensures Reaching(init, root, s, open + {e.handle}) && Inv(o, s, open + {e.handle}, pending)
    ensures e.handle !in s.walked && Whole(init, e.handle)
  {
    EnteredWhole(init, root, st, open, e.handle);
    EnterOpen(o, st, s, e.handle, open, pending);
    OpenTraced(init.fs, st, s, e.handle, open);
    EnterReaches(init, root, st, s, dir, e, open);
  }

  // ---------- pass 1 ----------

  lemma FirstReaching(o: Options, st: State, t: State, root: Handle)
    requires Sound(st) && Named(st.fs) && Typed(st.fs) && Private(st.fs) && st.alt.None? && Smaller(st, t) && Sound(t)
    requires t.fs == st.fs && t.walked == [] && t.links == {} && !Listed(t, root) && root in st.fs && st.fs[root].Directory?
    requires forall x :: Listed(st, x) && x != root && x !in Parts(st.fs[root]) ==> Listed(t, x)
    ensures Reaching(st, root, t, {root})
  {
    SmallerLeft(st, t);
    forall h | Whole(st, h) && h != root && h !in t.walked && h !in {root}
      ensures h in t.fs && Listed(t, h) && forall x :: x in Parts(st.fs[h]) ==> Listed(t, x)
    {
    }
  }

  /** The root and its dirdata leave the list, and nothing else. */
  lemma RootTakes(o: Options, st: State, root: Handle) returns (t: State)
    requires Sound(st) && Unique(st) && st.alt.None? && !st.halted && st.links == {} && st.walked == []
    requires !PassOne(o, st, root).halted
    ensures Smaller(st, t) && Sound(t) && t.fs == st.fs && t.walked == [] && t.links == {} && t.alt.None? && !t.halted
    ensures !Listed(t, root) && root in st.fs && st.fs[root].Directory? && PassOne(o, st, root) == Descend(o, t, root)
    ensures Inv(o, t, {root}, {})
    ensures forall x :: Listed(st, x) && x != root && x !in Parts(st.fs[root]) ==> Listed(t, x)
  {
    var s := st.(main := RemoveAt(st.main, root, Find(st.main, root).value));
    RootSteps(o, st, root);
    RootLeaves(st, s, root);
    t := RootClaims(s, root);
    SmallerTrans(st, s, t);
    SmallerLeft(s, t);
    InitialInv(o, t);
    OpenInv(o, t, root, {});
    forall x | Listed(st, x) && x != root && x !in Parts(st.fs[root]) ensures Listed(t, x) {
      ClaimTakesOnly(s, st.fs[root].dirdata.value, x);
    }
  }

  /** When pass 1 finishes it has walked exactly what can be reached. */
  lemma WalkedIff(o: Options, st: State, root: Handle, d: Handle)
    requires Sound(st) && Unique(st) && st.alt.None? && !st.halted && st.links == {} && st.walked == []
    requires Named(st.fs) && Typed(st.fs) && Private(st.fs) && !PassOne(o, st, root).halted
    ensures d in PassOne(o, st, root).walked <==> Reachable(st, root, d)
  {
    var r := PassOne(o, st, root);
    var t := RootTakes(o, st, root);
    FirstReaching(o, st, t, root);
    DescendReaches(o, st, root, t, root, {root}, {});
    WalkedFirst(o, t, root);
    assert r.walked[0] == root;
    if d in r.walked {
      var k :| 0 <= k < |r.walked| && r.walked[k] == d;
      WalkedReachable(st, root, r, k);
    }
    if Reachable(st, root, d) {
      var p :| Path(st, root, p) && p[|p| - 1] == d;
      PathWalked(st, root, r, p, |p| - 1);
    }
  }

  lemma {:induction false} WalkedReachable(st: State, root: Handle, r: State, k: nat)
    requires Honest(st, root, r, {root}) && Traced(r, {root}) && k < |r.walked|
    ensures Reachable(st, root, r.walked[k])
    decreases k
  {
    if r.walked[k] == root {
      assert Path(st, root, [root]) && [root][0] == root;
    } else {
      assert HasParent(r, k);
      var l :| l in r.links && l.target == r.walked[k] && l.dir in r.walked[..k];
      var j :| 0 <= j < k && r.walked[j] == l.dir;
      WalkedReachable(st, root, r, j);
      PathStep(st, root, l.dir, l.target);
    }
  }

  lemma {:induction false} PathWalked(st: State, root: Handle, r: State, p: seq<Handle>, i: nat)
    requires Honest(st, root, r, {root}) && (forall e :: e in Entries(st.fs, root) ==> Met(st, root, r, e)) && root in r.walked
    requires Path(st, root, p) && i < |p|
    ensures p[i] in r.walked
    decreases i
  {
    if i > 0 {
      PathWalked(st, root, r, p, i - 1);
      assert Names(st.fs, p[i - 1], p[i]);
      var e :| e in Entries(st.fs, p[i - 1]) && e.handle == p[i];
      assert Met(st, root, r, e);
    }
  }

  /** Among the directories that can be reached, every entry that does not lead to the root leads to a lower rank. */
  ghost predicate RankedReach(st: State, root: Handle, rank: Handle -> nat) {
    forall d, e :: e in Entries(st.fs, d) && e.handle != root && Reachable(st, root, d) && Reachable(st, root, e.handle) ==>
      rank(e.handle) < rank(d)
  }

  lemma RankedSame(st: State, root: Handle, rank: Handle -> nat, ws: seq<Handle>)
    requires forall d :: d in ws <==> Reachable(st, root, d)
    ensures RankedIn(st.fs, root, rank, ws) <==> RankedReach(st, root, rank)
  {
  }

  /**
   Pass 1, if it finishes, leaves an entry without an object exactly when the directories that can be reached from the
   root through whole ones contain a cycle that avoids the root.
   */
  lemma ReachIff(o: Options, st: State, root: Handle)
    requires Sound(st) && Unique(st) && st.alt.None? && !st.halted && st.links == {} && st.walked == [] && o.destructive
    requires Named(st.fs) && Typed(st.fs) && Private(st.fs) && !PassOne(o, st, root).halted
    ensures var r := PassOne(o, st, root);
            (exists d, e :: d in r.walked && Dangling(r.fs, d, e)) <==> !(exists rank :: RankedReach(st, root, rank))
  {
    var r := PassOne(o, st, root);
    CycleIff(o, st, root);
    forall d ensures d in r.walked <==> Reachable(st, root, d) { WalkedIff(o, st, root, d); }
    forall rank: Handle -> nat ensures RankedIn(st.fs, root, rank, r.walked) <==> RankedReach(st, root, rank) {
      RankedSame(st, root, rank, r.walked);
    }
  }
}
