/**
 Three small file systems on which the repair goes wrong, run from the start: why the conditions of the general results
 are there.
 */
module FsckExamples {
  import opened Wrappers
  import opened HandleLists
  import opened FsckModel
  import opened FsckPasses
  import opened FsckFrame
  import opened FsckLinks
  import opened FsckPassOne
  import opened FsckRun

  /** pvfs2-fsck -y */
  function Yes(): Options {
    Options(true, None, _ => true)
  }

  // ---------- the first list ----------

  lemma {:induction false} IndexAfter(rest: seq<Handle>, tail: seq<Handle>, h: Handle)
    requires h !in rest
    ensures IndexOf(rest + tail, h) == |rest| + IndexOf(tail, h)
    decreases |rest|
  {
    if rest == [] {
      assert rest + tail == tail;
    } else {
      assert (rest + tail)[1..] == rest[1..] + tail;
      IndexAfter(rest[1..], tail, h);
    }
  }

  /** Removing a handle from the end of a list leaves the beginning alone. */
  lemma SwapAfter(rest: seq<Handle>, tail: seq<Handle>, h: Handle)
    requires h !in rest && h in tail
    ensures SwapRemove(rest + tail, h) == rest + SwapRemove(tail, h)
  {
    IndexAfter(rest, tail, h);
    ReplaceAfter(rest, tail, IndexOf(tail, h), tail[|tail| - 1]);
  }

  lemma ReplaceAfter(rest: seq<Handle>, tail: seq<Handle>, k: nat, x: Handle)
    requires k < |tail|
    ensures (rest + tail)[|rest| + k := x][..|rest| + |tail| - 1] == rest + tail[k := x][..|tail| - 1]
    ensures (rest + tail)[|rest| + |tail| - 1] == tail[|tail| - 1]
  {
    assert (rest + tail)[|rest| + k := x] == rest + tail[k := x];
  }

  lemma FindFirst(main: Lists, h: Handle)
    requires |main| > 0 && h in main[0]
    ensures In(main, h) && Find(main, h) == Some(0)
  {
  }

  /** A directory's only dirdata handle `d` is on the first list. */
  lemma MatchFirst(main: Lists, d: Handle, rest: seq<Handle>)
    requires |main| > 0 && d in main[0] && d != NULL_HANDLE && SwapRemove(main[0], d) == rest
    ensures MatchDirdata(main, None, Some([d])) == Claim(main[0 := rest], None, true)
  {
    FindFirst(main, d);
    assert [d][1..] == [];
    assert ProbeAll(main, None, [d][1..], 0) == Probe([], 0, 0);
    assert ProbeAll(main, None, [d], 0) == Probe([d], 0, 0);
    assert RemoveAt(main, d, 0) == main[0 := rest];
    assert DrainAll(main[0 := rest], None, [d][1..], 0) == Drained(main[0 := rest], None);
    assert DrainAll(main, None, [d], 0) == Drained(main[0 := rest], None);
  }

  lemma FinishFirst(st: State, s: State, h: Handle, rest: seq<Handle>)
    requires Servers(st.main, st.alt) && st.alt.None? && h in st.main[0]
    requires |s.main| == |st.main| && s.alt.None? && !s.halted && SwapRemove(s.main[0], h) == rest
    ensures Listed(st, h) && Finish(st, s, h) == s.(main := s.main[0 := rest])
  {
    FindFirst(st.main, h);
    assert RemoveAt(s.main, h, 0) == s.main[0 := rest];
  }

  /** Visiting a directory on the first list with one dirdata handle `d` there: `w` is the state after its walk. */
  lemma VisitEnters(o: Options, st: State, s: State, dir: Handle, e: Dirent, d: Handle, w: State, final: seq<Handle>)
    requires Sound(st) && st.alt.None? && !st.halted
    requires e.handle in st.main[0] && d in st.main[0]
    requires e.handle in st.fs && st.fs[e.handle].Directory? && st.fs[e.handle].dirdata == Some([d])
    requires s == st.(main := st.main[0 := SwapRemove(st.main[0], d)]) && Sound(s) && w == Descend(o, s, e.handle)
    requires !w.halted && |w.main| == |st.main| && w.alt.None? && SwapRemove(w.main[0], e.handle) == final
    ensures Visit(o, st, dir, e) == Keep(w, dir, e).(main := w.main[0 := final])
  {
    FindFirst(st.main, e.handle);
    FindFirst(st.main, d);
    assert d != NULL_HANDLE;
    VisitDirectory(o, st, dir, e);
    MatchFirst(st.main, d, SwapRemove(st.main[0], d));
    assert AfterClaim(st, Claim(s.main, None, true)) == s;
    FinishFirst(st, Keep(w, dir, e), e.handle, final);
  }

  lemma TakenSound(st: State, h: Handle)
    requires Sound(st) && st.alt.None?
    ensures Sound(st.(main := st.main[0 := SwapRemove(st.main[0], h)]))
  {
    RemoveAtShrinks(st.main, h, 0);
    SmallerLeft(st, st.(main := RemoveAt(st.main, h, 0)));
  }

  // ---------- the root and lost+found ----------

  /**
   The root's entries are lost+found, which is empty, and `es`. The first server reported `rest` and then the root, its
   dirdata `dr`, lost+found and its dirdata `dl`.
   */
  ghost predicate Site(st: State, root: Handle, dr: Handle, laf: Handle, dl: Handle, rest: seq<Handle>, es: seq<Dirent>) {
    && Start(st)
    && st.main[0] == rest + [root, dr, laf, dl]
    && root in st.fs && st.fs[root] == Directory(Some([dr]), [Dirent("lost+found", laf)] + es)
    && laf in st.fs && st.fs[laf] == Directory(Some([dl]), [])
    && root != dr && root != laf && root != dl && dr != laf && dr != dl && laf != dl
    && root !in rest && dr !in rest && laf !in rest && dl !in rest
  }

  lemma SiteSwaps(root: Handle, dr: Handle, laf: Handle, dl: Handle, rest: seq<Handle>)
    requires root != dr && root != laf && root != dl && dr != laf && dr != dl && laf != dl
    requires root !in rest && dr !in rest && laf !in rest && dl !in rest
    ensures SwapRemove(rest + [root, dr, laf, dl], root) == rest + [dl, dr, laf]
    ensures SwapRemove(rest + [dl, dr, laf], dr) == rest + [dl, laf]
    ensures SwapRemove(rest + [dl, laf], dl) == rest + [laf]
    ensures SwapRemove(rest + [laf], laf) == rest
  {
    TailSwaps(root, dr, laf, dl);
    SwapAfter(rest, [root, dr, laf, dl], root);
    SwapAfter(rest, [dl, dr, laf], dr);
    SwapAfter(rest, [dl, laf], dl);
    SwapAfter(rest, [laf], laf);
    assert rest + [] == rest;
  }

  lemma TailSwaps(root: Handle, dr: Handle, laf: Handle, dl: Handle)
    requires root != dr && root != laf && root != dl && dr != laf && dr != dl && laf != dl
    ensures SwapRemove([root, dr, laf, dl], root) == [dl, dr, laf]
    ensures SwapRemove([dl, dr, laf], dr) == [dl, laf]
    ensures SwapRemove([dl, laf], dl) == [laf]
    ensures SwapRemove([laf], laf) == []
  {
    assert IndexOf([dl, dr, laf], dr) == 1 by { assert [dl, dr, laf][1..][0] == dr; }
  }

  /** The state in which pass 1 has visited lost+found and is about to visit `es`. */
  function Begun(st: State, root: Handle, laf: Handle, rest: seq<Handle>): State
    requires |st.main| > 0
  {
    st.(main := st.main[0 := rest], walked := [root, laf], links := {Link(root, "lost+found", laf)})
  }

  lemma EmptyWalk(o: Options, st: State, dir: Handle)
    requires Sound(st) && !st.halted && Entries(st.fs, dir) == []
    ensures Descend(o, st, dir) == st.(walked := st.walked + [dir])
  {
  }

  lemma VisitLostFound(s: State, root: Handle, laf: Handle, dl: Handle, rest: seq<Handle>)
    requires Sound(s) && s.alt.None? && !s.halted && s.main[0] == rest + [dl, laf]
    requires laf in s.fs && s.fs[laf] == Directory(Some([dl]), [])
    requires SwapRemove(rest + [dl, laf], dl) == rest + [laf] && SwapRemove(rest + [laf], laf) == rest
    ensures Visit(Yes(), s, root, Dirent("lost+found", laf)) ==
            s.(main := s.main[0 := rest], walked := s.walked + [laf], links := s.links + {Link(root, "lost+found", laf)})
  {
    var o := Yes();
    var l := rest + [dl, laf];
    assert l[|rest|] == dl && l[|rest| + 1] == laf;
    TakenSound(s, dl);
    var t := s.(main := s.main[0 := rest + [laf]]);
    EmptyWalk(o, t, laf);
    VisitEnters(o, s, t, root, Dirent("lost+found", laf), dl, t.(walked := s.walked + [laf]), rest);
  }

  /** The root and its dirdata leave the list. */
  lemma RootLeaves(st: State, root: Handle, dr: Handle, first: seq<Handle>, second: seq<Handle>)
    requires Sound(st) && st.alt.None? && !st.halted && root in st.main[0] && dr in first
    requires root in st.fs && st.fs[root].Directory? && st.fs[root].dirdata == Some([dr])
    requires SwapRemove(st.main[0], root) == first && SwapRemove(first, dr) == second
    ensures var t := st.(main := st.main[0 := second]);
            Sound(t) && PassOne(Yes(), st, root) == Descend(Yes(), t, root)
  {
    FindFirst(st.main, root);
    RootSteps(Yes(), st, root);
    var s := st.(main := st.main[0 := first]);
    assert s.main == RemoveAt(st.main, root, 0);
    FindFirst(s.main, dr);
    assert dr != NULL_HANDLE;
    MatchFirst(s.main, dr, second);
    assert s.main[0 := second] == st.main[0 := second];
  }

  /** Pass 1 up to the entries that matter. */
  lemma FirstSteps(st: State, root: Handle, dr: Handle, laf: Handle, dl: Handle, rest: seq<Handle>, es: seq<Dirent>)
    requires Site(st, root, dr, laf, dl, rest, es)
    ensures var t := Begun(st, root, laf, rest);
            Sound(t) && PassOne(Yes(), st, root) == WalkEntries(Yes(), t, root, es)
  {
    SiteSwaps(root, dr, laf, dl, rest);
    assert (rest + [root, dr, laf, dl])[|rest|] == root && (rest + [dl, dr, laf])[|rest| + 1] == dr;
    RootLeaves(st, root, dr, rest + [dl, dr, laf], rest + [dl, laf]);
    var t := st.(main := st.main[0 := rest + [dl, laf]]);
    assert t.main[0 := rest] == st.main[0 := rest];
    RootWalk(t, Begun(st, root, laf, rest), root, laf, dl, rest, es);
  }

  lemma RootWalk(t: State, r: State, root: Handle, laf: Handle, dl: Handle, rest: seq<Handle>, es: seq<Dirent>)
    requires Sound(t) && t.alt.None? && !t.halted && t.main[0] == rest + [dl, laf] && t.walked == [] && t.links == {}
    requires Entries(t.fs, root) == [Dirent("lost+found", laf)] + es && laf in t.fs && t.fs[laf] == Directory(Some([dl]), [])
    requires SwapRemove(rest + [dl, laf], dl) == rest + [laf] && SwapRemove(rest + [laf], laf) == rest
    requires r == t.(main := t.main[0 := rest], walked := [root, laf], links := {Link(root, "lost+found", laf)})
    ensures Sound(r) && Descend(Yes(), t, root) == WalkEntries(Yes(), r, root, es)
  {
    var s := t.(walked := [root]);
    assert t.walked + [root] == [root];
    var all := [Dirent("lost+found", laf)] + es;
    assert all[0] == Dirent("lost+found", laf) && all[1..] == es;
    VisitLostFound(s, root, laf, dl, rest);
    assert s.walked + [laf] == [root, laf] && s.links + {Link(root, "lost+found", laf)} == r.links;
    assert Visit(Yes(), s, root, all[0]) == r;
    SmallerLeft(s, r);
  }

  // ---------- an orphaned file with datafiles on two servers ----------

  /** What pass 1 leaves: an orphaned file `m` and its two datafiles, `a` on server 0 and `b` on server 1. */
  ghost predicate Orphan(st: State, laf: Handle, m: Handle, a: Handle, b: Handle) {
    && Sound(st) && st.alt.None? && !st.halted
    && st.main == [[a], [m, b]] && a != b && a != m && b != m
    && m in st.fs && st.fs[m] == Metafile([a, b])
    && a in st.fs && st.fs[a] == Datafile && b in st.fs && st.fs[b] == Datafile
    && laf in st.fs && st.fs[laf].Directory? && !HasEntry(st.fs, laf, "lostfile." + Decimal(m))
  }

  lemma PopFirst(p: seq<Handle>, h: Handle, q: seq<Handle>)
    ensures PopServer([p + [h], q]) == Some(0) && Top([p + [h], q], 0) == h && PopAt([p + [h], q], 0) == [p, q]
  {
    var l := [p + [h], q];
    assert l[0][..|l[0]| - 1] == p;
    assert l[0] != [];
  }

  lemma PopSecond(p: seq<Handle>, h: Handle)
    ensures PopServer([[], p + [h]]) == Some(1) && Top([[], p + [h]], 1) == h && PopAt([[], p + [h]], 1) == [[], p]
  {
    var l := [[], p + [h]];
    assert l[1][..|l[1]| - 1] == p;
    assert l[1] != [];
  }

  lemma AddTwo(p: seq<Handle>, q: seq<Handle>, h: Handle)
    ensures Add([p, q], h, 0) == [p + [h], q] && Add([p, q], h, 1) == [p, q + [h]]
  {
  }

  /** A turn of pass 2 that only puts the popped handle aside. */
  lemma AsideTurn(o: Options, st: State, i: nat, main: Lists, alt: Lists)
    requires Sound(st) && st.alt.Some? && !st.halted && PopServer(st.main) == Some(i)
    requires var a := GetAttr(st.fs, Top(st.main, i)); a.Some? && (a.value.Metafile? || a.value.Datafile?)
    requires main == PopAt(st.main, i) && alt == Add(st.alt.value, Top(st.main, i), i)
    ensures var s := st.(main := main, alt := Some(alt));
            Sound(s) && SubTrees(o, st) == SubTrees(o, s)
  {
    PopSound(st, i);
    PutAsideSound(st.(main := main), Top(st.main, i), i);
    assert SortOut(o, st.(main := main), Top(st.main, i), i) == st.(main := main, alt := Some(alt));
  }

  lemma AsideFromFirst(o: Options, st: State, p: seq<Handle>, h: Handle, q: seq<Handle>, a0: seq<Handle>, a1: seq<Handle>)
    requires Sound(st) && !st.halted && st.main == [p + [h], q] && st.alt == Some([a0, a1])
    requires h in st.fs && (st.fs[h].Metafile? || st.fs[h].Datafile?)
    ensures var s := st.(main := [p, q], alt := Some([a0 + [h], a1])); Sound(s) && SubTrees(o, st) == SubTrees(o, s)
  {
    PopFirst(p, h, q);
    AddTwo(a0, a1, h);
    AsideTurn(o, st, 0, [p, q], [a0 + [h], a1]);
  }

  lemma AsideFromSecond(o: Options, st: State, p: seq<Handle>, h: Handle, a0: seq<Handle>, a1: seq<Handle>)
    requires Sound(st) && !st.halted && st.main == [[], p + [h]] && st.alt == Some([a0, a1])
    requires h in st.fs && (st.fs[h].Metafile? || st.fs[h].Datafile?)
    ensures var s := st.(main := [[], p], alt := Some([a0, a1 + [h]])); Sound(s) && SubTrees(o, st) == SubTrees(o, s)
  {
    PopSecond(p, h);
    AddTwo(a0, a1, h);
    AsideTurn(o, st, 1, [[], p], [a0, a1 + [h]]);
  }

  lemma OrphanPassTwo(st: State, laf: Handle, m: Handle, a: Handle, b: Handle)
    requires Orphan(st, laf, m, a, b)
    ensures PassTwo(Yes(), st) == st.(main := [[], []], alt := Some([[a], [b, m]]))
  {
    var o := Yes();
    FreshEmpty(st.main);
    var s0 := st.(alt := Some([[], []]));
    assert Fresh(st.main) == [[], []];
    assert PassTwo(o, st) == SubTrees(o, s0);
    assert [a] == [] + [a] && [m, b] == [m] + [b] && [b] == [] + [b] && [m] == [] + [m] && [b, m] == [b] + [m];
    AsideFromFirst(o, s0, [], a, [m, b], [], []);
    AsideFromSecond(o, st.(main := [[], [m, b]], alt := Some([[a], []])), [m], b, [a], []);
    AsideFromSecond(o, st.(main := [[], [m]], alt := Some([[a], [b]])), [], m, [a], [b]);
    assert PopServer([[], []]).None?;
  }

  /** The second loop looks for `a` under the server of `b` and leaves it on the list. */
  lemma MissedClaim(a: Handle, b: Handle)
    requires a != b && a != NULL_HANDLE && b != NULL_HANDLE
    ensures ClaimAll([[], [b]], Some([[a], []]), [a, b]) == Claim([[], []], Some([[a], []]), true)
  {
    var main: Lists := [[], [b]];
    var alt: Lists := [[a], []];
    assert a in alt[0] && b in main[1] && b !in main[0];
    assert !In(main, a);
    assert In(main, b) && Find(main, b) == Some(1);
    assert Where(main, Some(alt), a) == Some(0) by { assert Find(alt, a) == Some(0); }
    assert [a, b][1..] == [b] && [b][1..] == [];
    assert ProbeAll(main, Some(alt), [b], 0) == Probe([b], 1, 0) by {
      assert ProbeAll(main, Some(alt), [b][1..], 1) == Probe([], 1, 0);
    }
    assert ProbeAll(main, Some(alt), [a, b], 0) == Probe([a, b], 1, 0);
    assert RemoveAt(alt, a, 1) == alt by { RemoveAtShrinks(alt, a, 1); }
    assert SwapRemove([b], b) == [];
    assert RemoveAt(main, b, 1) == [[], []];
    assert DrainAll(main, Some(alt), [b], 1) == Drained([[], []], Some(alt)) by {
      assert DrainAll([[], []], Some(alt), [b][1..], 1) == Drained([[], []], Some(alt));
    }
    assert DrainAll(main, Some(alt), [a, b], 1) == Drained([[], []], Some(alt));
  }

  lemma OrphanPassThree(st: State, laf: Handle, m: Handle, a: Handle, b: Handle)
    requires Sound(st) && st.alt == Some([[a], [b, m]]) && !st.halted
    requires a != b && a != m && b != m && a != NULL_HANDLE && b != NULL_HANDLE && m != NULL_HANDLE
    requires m in st.fs && st.fs[m] == Metafile([a, b]) && a in st.fs && st.fs[a] == Datafile
    requires laf in st.fs && st.fs[laf].Directory? && !HasEntry(st.fs, laf, "lostfile." + Decimal(m))
    ensures var s := PassThree(Yes(), st, laf);
            && !s.halted && s.alt == Some([[a], []])
            && s.fs == CreateDirent(Yes(), st, laf, "lostfile." + Decimal(m), m).0.fs
  {
    var o := Yes();
    FreshEmpty(st.alt.value);
    assert Fresh(st.alt.value) == [[], []];
    var t0 := st.(main := [[a], [b, m]], alt := Some([[], []]));
    assert PassThree(o, st, laf) == FillLoop(o, t0, laf);
    var t1 := t0.(main := [[], [b, m]], alt := Some([[a], []]));
    assert Sound(t1) && FillLoop(o, t0, laf) == FillLoop(o, t1, laf) by {
      assert [a] == [] + [a];
      PopFirst([], a, [b, m]);
      AddTwo([], [], a);
      FillAside(o, t0, laf, 0, t1.main, t1.alt.value);
    }
    OrphanSalvaged(t1, laf, m, a, b);
    var name := "lostfile." + Decimal(m);
    var t2 := CreateDirent(o, t1.(main := [[], []], kept := t1.kept + {m}), laf, name, m).0;
    assert PopServer(t2.main).None?;
  }

  /** A turn of pass 3 that only puts the popped handle aside. */
  lemma FillAside(o: Options, st: State, laf: Handle, i: nat, main: Lists, alt: Lists)
    requires Sound(st) && st.alt.Some? && !st.halted && PopServer(st.main) == Some(i)
    requires GetAttr(st.fs, Top(st.main, i)) == Some(Datafile)
    requires main == PopAt(st.main, i) && alt == Add(st.alt.value, Top(st.main, i), i)
    ensures var s := st.(main := main, alt := Some(alt));
            Sound(s) && FillLoop(o, st, laf) == FillLoop(o, s, laf)
  {
    PopSound(st, i);
    PutAsideSound(st.(main := main), Top(st.main, i), i);
    assert Salvage(o, st.(main := main), laf, Top(st.main, i), i) == st.(main := main, alt := Some(alt));
  }

  /** What becomes of a file whose claim succeeds. */
  lemma RescueResult(s: State, laf: Handle, m: Handle, c: Claim)
    requires Sound(s) && s.alt.Some? && |s.main| == 2 && m in s.fs && s.fs[m].Metafile?
    requires c == ClaimAll(s.main, s.alt, s.fs[m].dfiles) && c.Claim? && c.complete
    requires laf in s.fs && s.fs[laf].Directory? && !HasEntry(s.fs, laf, "lostfile." + Decimal(m))
    ensures Salvage(Yes(), s, laf, m, 1) ==
            CreateDirent(Yes(), s.(main := c.main, alt := c.alt, kept := s.kept + {m}), laf, "lostfile." + Decimal(m), m).0
  {
    var k := s.(main := c.main, alt := c.alt, kept := s.kept + {m});
    assert CreateDirent(Yes(), k, laf, "lostfile." + Decimal(m), m).1;
    assert Salvage(Yes(), s, laf, m, 1) == SalvageFile(Yes(), s, laf, m, s.fs[m].dfiles);
  }

  /** A turn of pass 3 that rescues the file popped from server 1. */
  lemma RescueTurn(st: State, laf: Handle, p: seq<Handle>, m: Handle, c: Claim)
    requires Sound(st) && st.main == [[], p + [m]] && st.alt.Some? && !st.halted
    requires m in st.fs && st.fs[m].Metafile? && c == ClaimAll([[], p], st.alt, st.fs[m].dfiles)
    requires c.Claim? && c.complete && c.alt.Some?
    requires laf in st.fs && st.fs[laf].Directory? && !HasEntry(st.fs, laf, "lostfile." + Decimal(m))
    ensures var t := CreateDirent(Yes(), st.(main := c.main, alt := c.alt, kept := st.kept + {m}), laf, "lostfile." + Decimal(m), m).0;
            Sound(t) && FillLoop(Yes(), st, laf) == FillLoop(Yes(), t, laf)
  {
    var s := st.(main := [[], p]);
    PopSecond(p, m);
    PopSound(st, 1);
    RescueResult(s, laf, m, c);
    FillStep(Yes(), st, s, Salvage(Yes(), s, laf, m, 1), laf, 1);
  }

  lemma OrphanSalvaged(st: State, laf: Handle, m: Handle, a: Handle, b: Handle)
    requires Sound(st) && st.main == [[], [b, m]] && st.alt == Some([[a], []]) && !st.halted
    requires a != b && a != NULL_HANDLE && b != NULL_HANDLE
    requires m in st.fs && st.fs[m] == Metafile([a, b])
    requires laf in st.fs && st.fs[laf].Directory? && !HasEntry(st.fs, laf, "lostfile." + Decimal(m))
    ensures var t := CreateDirent(Yes(), st.(main := [[], []], kept := st.kept + {m}), laf, "lostfile." + Decimal(m), m).0;
            Sound(t) && FillLoop(Yes(), st, laf) == FillLoop(Yes(), t, laf)
  {
    assert [b, m] == [b] + [m];
    MissedClaim(a, b);
    RescueTurn(st, laf, [b], m, Claim([[], []], Some([[a], []]), true));
  }

  lemma FillStep(o: Options, st: State, s: State, t: State, laf: Handle, i: nat)
    requires Sound(st) && st.alt.Some? && !st.halted && PopServer(st.main) == Some(i)
    requires s == st.(main := PopAt(st.main, i)) && Sound(s) && t == Salvage(o, s, laf, Top(st.main, i), i)
    ensures Sound(t) && FillLoop(o, st, laf) == FillLoop(o, t, laf)
  {
    PopSound(st, i);
    SalvageSound(o, s, laf, Top(st.main, i), i);
  }

  /** Pass 4 with a single datafile left. */
  lemma CullSingle(o: Options, st: State, a: Handle)
    requires Sound(st) && !st.halted && st.main == [[a], []] && GetAttr(st.fs, a) == Some(Datafile)
    ensures CullLoop(o, st) == RemoveObject(o, st.(main := [[], []]), a)
  {
    assert PopServer(st.main) == Some(0) && Top(st.main, 0) == a && PopAt(st.main, 0) == [[], []] by {
      assert [a] == [] + [a];
      PopFirst([], a, []);
    }
    var v := st.(main := [[], []]);
    PopSound(st, 0);
    var r := RemoveObject(o, v, a);
    assert CullOne(o, v, a) == r;
    assert PopServer(r.main).None?;
  }

  lemma OrphanPassFour(o: Options, st: State, a: Handle)
    requires Sound(st) && !st.halted && st.alt == Some([[a], []]) && GetAttr(st.fs, a) == Some(Datafile)
    ensures PassFour(o, st) == RemoveObject(o, st.(main := [[], []], alt := None), a)
  {
    var u := st.(main := [[a], []], alt := None);
    assert Sound(u) by { assert forall h :: Listed(u, h) ==> Listed(st, h); }
    CullSingle(o, u, a);
  }

  /**
   An orphaned file with datafiles on two servers: pass 3 gives it a name in lost+found and pass 4 removes one of its
   datafiles, so after the run the rescued file points at an object that is gone.
   */
  lemma RescuedFileLosesDatafile(st: State, root: Handle, dr: Handle, laf: Handle, dl: Handle, m: Handle, a: Handle, b: Handle)
    requires Site(st, root, dr, laf, dl, [a], []) && st.main[1..] == [[m, b]] && a != m && a != b && b != m
    requires m in st.fs && st.fs[m] == Metafile([a, b])
    requires a in st.fs && st.fs[a] == Datafile && b in st.fs && st.fs[b] == Datafile
    ensures var r := Run(Yes(), st, root, laf);
            && !r.halted
            && Dirent("lostfile." + Decimal(m), m) in Entries(r.fs, laf)
            && m in r.fs && r.fs[m] == Metafile([a, b]) && a !in r.fs
  {
    FirstSteps(st, root, dr, laf, dl, [a], []);
    var s1 := PassOne(Yes(), st, root);
    assert s1.main == [[a], [m, b]];
    OrphanLost(s1, laf, m, a, b);
  }

  lemma OrphanLost(st: State, laf: Handle, m: Handle, a: Handle, b: Handle)
    requires Orphan(st, laf, m, a, b) && laf != a
    ensures var s3 := PassThree(Yes(), PassTwo(Yes(), st), laf);
            var s4 := PassFour(Yes(), s3);
            && !PassTwo(Yes(), st).halted && !s3.halted && !s4.halted
            && Dirent("lostfile." + Decimal(m), m) in Entries(s4.fs, laf)
            && m in s4.fs && s4.fs[m] == Metafile([a, b]) && a !in s4.fs
  {
    var o := Yes();
    assert a != NULL_HANDLE && b != NULL_HANDLE && m != NULL_HANDLE by {
      assert a in st.main[0] && [m, b][0] in st.main[1] && [m, b][1] in st.main[1];
    }
    OrphanPassTwo(st, laf, m, a, b);
    var s2 := PassTwo(o, st);
    OrphanPassThree(s2, laf, m, a, b);
    var s3 := PassThree(o, s2, laf);
    OrphanPassFour(o, s3, a);
    var es := st.fs[laf].entries + [Dirent("lostfile." + Decimal(m), m)];
    assert Entries(s3.fs, laf) == es && es[|es| - 1] == Dirent("lostfile." + Decimal(m), m);
  }

  // ---------- a datafile rescued twice ----------

  lemma MissedClaimBefore(a: Handle, b: Handle, n: Handle)
    requires a != b && a != n && b != n && a != NULL_HANDLE && b != NULL_HANDLE
    ensures ClaimAll([[], [n, b]], Some([[a], []]), [a, b]) == Claim([[], [n]], Some([[a], []]), true)
  {
    var main: Lists := [[], [n, b]];
    var alt: Lists := [[a], []];
    assert a in alt[0] && b in main[1] && b !in main[0];
    assert !In(main, a);
    assert In(main, b) && Find(main, b) == Some(1);
    assert Where(main, Some(alt), a) == Some(0) by { assert Find(alt, a) == Some(0); }
    assert [a, b][1..] == [b] && [b][1..] == [];
    assert ProbeAll(main, Some(alt), [b], 0) == Probe([b], 1, 0) by {
      assert ProbeAll(main, Some(alt), [b][1..], 1) == Probe([], 1, 0);
    }
    assert ProbeAll(main, Some(alt), [a, b], 0) == Probe([a, b], 1, 0);
    assert RemoveAt(alt, a, 1) == alt by { RemoveAtShrinks(alt, a, 1); }
    RemoveLast(n, b);
    assert DrainAll(main, Some(alt), [b], 1) == Drained([[], [n]], Some(alt)) by {
      assert DrainAll([[], [n]], Some(alt), [b][1..], 1) == Drained([[], [n]], Some(alt));
    }
    assert DrainAll(main, Some(alt), [a, b], 1) == Drained([[], [n]], Some(alt));
  }

  lemma RemoveLast(n: Handle, b: Handle)
    requires n != b
    ensures RemoveAt([[], [n, b]], b, 1) == [[], [n]]
  {
    assert IndexOf([n, b], b) == 1;
    assert SwapRemove([n, b], b) == [n];
  }

  lemma PlainClaim(a: Handle)
    requires a != NULL_HANDLE
    ensures ClaimAll([[], []], Some([[a], []]), [a]) == Claim([[], []], Some([[], []]), true)
  {
    var main: Lists := [[], []];
    var alt: Lists := [[a], []];
    assert a in alt[0] && !In(main, a) && Find(alt, a) == Some(0);
    assert Where(main, Some(alt), a) == Some(0);
    assert [a][1..] == [];
    assert ProbeAll(main, Some(alt), [a], 0) == Probe([a], 0, 0) by {
      assert ProbeAll(main, Some(alt), [a][1..], 0) == Probe([], 0, 0);
    }
    assert SwapRemove([a], a) == [];
    assert RemoveAt(alt, a, 0) == [[], []];
    assert DrainAll(main, Some(alt), [a], 0) == Drained([[], []], Some([[], []])) by {
      assert DrainAll(main, Some([[], []]), [a][1..], 0) == Drained([[], []], Some([[], []]));
    }
  }

  /** In pass 3 the first claim leaves `a` on the list and the second takes it. */
  lemma BothNamed(st: State, laf: Handle, m: Handle, n: Handle, a: Handle, b: Handle)
    requires Sound(st) && !st.halted && st.main == [[], [n, b, m]] && st.alt == Some([[a], []])
    requires a != b && a != n && b != n && a != NULL_HANDLE && b != NULL_HANDLE && m != n && laf != m && laf != n
    requires m in st.fs && st.fs[m] == Metafile([a, b]) && n in st.fs && st.fs[n] == Metafile([a])
    requires laf in st.fs && st.fs[laf].Directory?
    requires !HasEntry(st.fs, laf, "lostfile." + Decimal(m)) && !HasEntry(st.fs, laf, "lostfile." + Decimal(n))
    ensures var r := FillLoop(Yes(), st, laf);
            && !r.halted && r.alt == Some([[], []]) && m in r.kept && n in r.kept
            && Dirent("lostfile." + Decimal(m), m) in Entries(r.fs, laf) && m in r.fs && r.fs[m] == Metafile([a, b])
            && Dirent("lostfile." + Decimal(n), n) in Entries(r.fs, laf) && n in r.fs && r.fs[n] == Metafile([a])
  {
    var o := Yes();
    assert [n, b, m] == [n, b] + [m] && [n] == [] + [n];
    MissedClaimBefore(a, b, n);
    RescueTurn(st, laf, [n, b], m, Claim([[], [n]], Some([[a], []]), true));
    var u := st.(main := [[], [n]], kept := st.kept + {m});
    var t := CreateDirent(o, u, laf, "lostfile." + Decimal(m), m).0;
    NewName(u, laf, m, n);
    PlainClaim(a);
    RescueTurn(t, laf, [], n, Claim([[], []], Some([[], []]), true));
    var v := t.(main := [[], []], alt := Some([[], []]), kept := t.kept + {n});
    var r := CreateDirent(o, v, laf, "lostfile." + Decimal(n), n).0;
    assert PopServer(r.main).None?;
  }

  lemma SharedPassTwo(st: State, m: Handle, n: Handle, a: Handle, b: Handle)
    requires Sound(st) && st.alt.None? && !st.halted && st.main == [[a], [m, b, n]]
    requires m in st.fs && st.fs[m].Metafile? && n in st.fs && st.fs[n].Metafile?
    requires a in st.fs && st.fs[a].Datafile? && b in st.fs && st.fs[b].Datafile?
    ensures PassTwo(Yes(), st) == st.(main := [[], []], alt := Some([[a], [n, b, m]]))
  {
    var o := Yes();
    FreshEmpty(st.main);
    var s0 := st.(alt := Some([[], []]));
    assert Fresh(st.main) == [[], []];
    assert PassTwo(o, st) == SubTrees(o, s0);
    assert [a] == [] + [a] && [m, b, n] == [m, b] + [n] && [n] == [] + [n] && [m, b] == [m] + [b] && [m] == [] + [m];
    assert [n, b] == [n] + [b] && [n, b, m] == [n, b] + [m];
    AsideFromFirst(o, s0, [], a, [m, b, n], [], []);
    AsideFromSecond(o, st.(main := [[], [m, b, n]], alt := Some([[a], []])), [m, b], n, [a], []);
    AsideFromSecond(o, st.(main := [[], [m, b]], alt := Some([[a], [n]])), [m], b, [a], [n]);
    AsideFromSecond(o, st.(main := [[], [m]], alt := Some([[a], [n, b]])), [], m, [a], [n, b]);
    assert PopServer([[], []]).None?;
  }

  lemma SharedPassThree(st: State, laf: Handle, m: Handle, n: Handle, a: Handle, b: Handle)
    requires Sound(st) && st.alt == Some([[a], [n, b, m]]) && !st.halted
    requires a != b && a != n && b != n && a != NULL_HANDLE && b != NULL_HANDLE && m != n && laf != m && laf != n
    requires m in st.fs && st.fs[m] == Metafile([a, b]) && n in st.fs && st.fs[n] == Metafile([a])
    requires a in st.fs && st.fs[a] == Datafile && laf in st.fs && st.fs[laf].Directory?
    requires !HasEntry(st.fs, laf, "lostfile." + Decimal(m)) && !HasEntry(st.fs, laf, "lostfile." + Decimal(n))
    ensures var r := PassThree(Yes(), st, laf);
            && !r.halted && r.alt == Some([[], []]) && m in r.kept && n in r.kept
            && Dirent("lostfile." + Decimal(m), m) in Entries(r.fs, laf) && m in r.fs && r.fs[m] == Metafile([a, b])
            && Dirent("lostfile." + Decimal(n), n) in Entries(r.fs, laf) && n in r.fs && r.fs[n] == Metafile([a])
  {
    var o := Yes();
    FreshEmpty(st.alt.value);
    assert Fresh(st.alt.value) == [[], []];
    var t0 := st.(main := [[a], [n, b, m]], alt := Some([[], []]));
    var t1 := t0.(main := [[], [n, b, m]], alt := Some([[a], []]));
    assert [a] == [] + [a];
    PopFirst([], a, [n, b, m]);
    AddTwo([], [], a);
    FillAside(o, t0, laf, 0, t1.main, t1.alt.value);
    BothNamed(t1, laf, m, n, a, b);
  }

  /** Pass 4 with nothing left. */
  lemma NothingToCull(o: Options, st: State)
    requires Sound(st) && !st.halted && st.alt == Some([[], []])
    ensures PassFour(o, st) == st.(main := [[], []], alt := None)
  {
    var u := st.(main := [[], []], alt := None);
    assert Sound(u);
    assert PopServer(u.main).None?;
  }

  /**
   Two orphaned files that share a datafile, one of them with datafiles on two servers: after a complete run both have a
   name in lost+found and the same datafile.
   */
  lemma SharedDatafileRescuedTwice(st: State, root: Handle, dr: Handle, laf: Handle, dl: Handle, m: Handle, n: Handle, a: Handle, b: Handle)
    requires Site(st, root, dr, laf, dl, [a], []) && st.main[1..] == [[m, b, n]]
    requires a != b && a != n && b != n && m != n && laf != m && laf != n
    requires m in st.fs && st.fs[m] == Metafile([a, b]) && n in st.fs && st.fs[n] == Metafile([a])
    requires a in st.fs && st.fs[a] == Datafile && b in st.fs && st.fs[b] == Datafile
    ensures var r := Run(Yes(), st, root, laf);
            && !r.halted && m in r.kept && n in r.kept
            && Dirent("lostfile." + Decimal(m), m) in Entries(r.fs, laf) && m in r.fs && r.fs[m] == Metafile([a, b])
            && Dirent("lostfile." + Decimal(n), n) in Entries(r.fs, laf) && n in r.fs && r.fs[n] == Metafile([a])
  {
    var o := Yes();
    FirstSteps(st, root, dr, laf, dl, [a], []);
    var s1 := PassOne(o, st, root);
    assert s1.main == [[a], [m, b, n]];
    assert a != NULL_HANDLE && b != NULL_HANDLE by {
      assert a in s1.main[0] && [m, b, n][1] in s1.main[1];
    }
    SharedPassTwo(s1, m, n, a, b);
    var s2 := PassTwo(o, s1);
    SharedPassThree(s2, laf, m, n, a, b);
    NothingToCull(o, PassThree(o, s2, laf));
  }

  /** Different numbers have different decimal forms. */
  lemma {:induction false} DecimalDiffers(m: nat, n: nat)
    requires m != n
    ensures Decimal(m) != Decimal(n)
    decreases m + n
  {
    if m >= 10 && n >= 10 {
      if m / 10 != n / 10 { DecimalDiffers(m / 10, n / 10); }
      var a, b := Decimal(m), Decimal(n);
      assert a[..|a| - 1] == Decimal(m / 10) && b[..|b| - 1] == Decimal(n / 10);
      assert a[|a| - 1] == ('0' as int + m % 10) as char && b[|b| - 1] == ('0' as int + n % 10) as char;
    } else {
      DecimalLength(m);
      DecimalLength(n);
    }
  }

  lemma DecimalLength(n: nat)
    ensures |Decimal(n)| > 0 && (|Decimal(n)| == 1 <==> n < 10)
    ensures n < 10 ==> Decimal(n)[0] == ('0' as int + n) as char
  {
    if n >= 10 { DecimalLength(n / 10); }
  }

  lemma NewName(u: State, laf: Handle, m: Handle, n: Handle)
    requires laf in u.fs && u.fs[laf].Directory? && m != n && laf != m && laf != n
    requires !HasEntry(u.fs, laf, "lostfile." + Decimal(m)) && !HasEntry(u.fs, laf, "lostfile." + Decimal(n))
    ensures var t := CreateDirent(Yes(), u, laf, "lostfile." + Decimal(m), m).0;
            && laf in t.fs && t.fs[laf].Directory? && !HasEntry(t.fs, laf, "lostfile." + Decimal(n))
            && t.fs == u.fs[laf := t.fs[laf]] && Dirent("lostfile." + Decimal(m), m) in t.fs[laf].entries
  {
    DecimalDiffers(m, n);
    var x, y := "lostfile." + Decimal(m), "lostfile." + Decimal(n);
    assert x[9..] == Decimal(m) && y[9..] == Decimal(n);
  }

  // ---------- a directory that contains its parent ----------

  /** `root` contains directory `p`, `p` contains directory `c`, and `c` contains `p` again; all on one server. */
  ghost predicate Loop(st: State, root: Handle, p: Handle, dp: Handle, c: Handle, dc: Handle) {
    && Sound(st) && st.alt.None? && !st.halted
    && p != c && p != dp && p != dc && c != dp && c != dc && dp != dc && root != p && root != c
    && root in st.fs && st.fs[root].Directory? && Dirent("p", p) in st.fs[root].entries
    && p in st.fs && st.fs[p] == Directory(Some([dp]), [Dirent("c", c)])
    && c in st.fs && st.fs[c] == Directory(Some([dc]), [Dirent("up", p)])
  }

  /** The dirdata `d` is not on the list: the claim fails and takes nothing. */
  lemma MatchMissing(s: seq<Handle>, d: Handle)
    requires d !in s
    ensures MatchDirdata([s], None, Some([d])) == Claim([s], None, false)
  {
    assert !In([s], d);
    assert [d][1..] == [];
    assert ProbeAll([s], None, [d][1..], 0) == Probe([], 0, 0);
    assert ProbeAll([s], None, [d], 0) == Probe([NULL_HANDLE], 0, 1);
    assert [NULL_HANDLE][1..] == [];
    assert DrainAll([s], None, [NULL_HANDLE][1..], 0) == Drained([s], None);
    assert DrainAll([s], None, [NULL_HANDLE], 0) == Drained([s], None);
  }

  /** A walk of a directory with one entry is one visit. */
  lemma DescendOne(o: Options, st: State, dir: Handle, e: Dirent)
    requires Sound(st) && !st.halted && Entries(st.fs, dir) == [e]
    ensures Descend(o, st, dir) == Visit(o, st.(walked := st.walked + [dir]), dir, e)
  {
    OneVisit(o, st.(walked := st.walked + [dir]), dir, e);
  }

  lemma Swaps(p: Handle, dp: Handle, c: Handle, dc: Handle)
    requires p != c && p != dp && p != dc && c != dp && c != dc && dp != dc
    ensures SwapRemove([p, dp, c, dc], dp) == [p, dc, c]
    ensures SwapRemove([p, dc, c], dc) == [p, c]
    ensures SwapRemove([p, c], p) == [c]
    ensures SwapRemove([c], c) == []
    ensures SwapRemove([], p) == []
  {
    assert IndexOf([p, dp, c, dc], dp) == 1 by { assert [p, dp, c, dc][1..][0] == dp; }
    assert IndexOf([p, dc, c], dc) == 1 by { assert [p, dc, c][1..][0] == dc; }
  }

  /** Visiting a directory on the only list whose dirdata handle `d` is not there. */
  lemma VisitFails(st: State, t: State, dir: Handle, e: Dirent, l: seq<Handle>, d: Handle, final: seq<Handle>)
    requires Sound(st) && st.alt.None? && !st.halted && st.main == [l] && e.handle in l && d !in l
    requires e.handle in st.fs && st.fs[e.handle].Directory? && st.fs[e.handle].dirdata == Some([d])
    requires t == Discard(Yes(), st, dir, e) && !t.halted && SwapRemove(l, e.handle) == final
    ensures Visit(Yes(), st, dir, e) == t.(main := [final])
  {
    FindFirst(st.main, e.handle);
    VisitDirectory(Yes(), st, dir, e);
    MatchMissing(l, d);
    assert AfterClaim(st, Claim([l], None, false)) == st;
    FinishFirst(st, t, e.handle, final);
    assert t.main[0 := final] == [final];
  }

  /** The entry that leads back up: the parent's dirdata is gone, so the parent itself is removed. */
  lemma VisitUp(st: State, root: Handle, p: Handle, dp: Handle, c: Handle, dc: Handle)
    requires Loop(st, root, p, dp, c, dc) && st.main == [[p, c]]
    ensures var r := Visit(Yes(), st, c, Dirent("up", p));
            && !r.halted && r.main == [[c]] && r.alt.None? && p !in r.fs && r.links == st.links
            && root in r.fs && r.fs[root] == st.fs[root] && c in r.fs
  {
    assert p in [p, c];
    Swaps(p, dp, c, dc);
    UpRemoved(st, root, p, dp, c, dc);
    VisitFails(st, Discard(Yes(), st, c, Dirent("up", p)), c, Dirent("up", p), [p, c], dp, [c]);
  }

  lemma UpRemoved(st: State, root: Handle, p: Handle, dp: Handle, c: Handle, dc: Handle)
    requires Loop(st, root, p, dp, c, dc)
    ensures var r := Discard(Yes(), st, c, Dirent("up", p));
            !r.halted && p !in r.fs && root in r.fs && r.fs[root] == st.fs[root] && c in r.fs
  {
    var s := RemoveObject(Yes(), st, p);
    assert s.fs == st.fs - {p};
    assert st.fs[c].entries[0] == Dirent("up", p);
    assert Dirent("up", p) in Entries(s.fs, c);
    assert HasEntry(s.fs, c, "up");
  }

  lemma LoopKept(st: State, s: State, root: Handle, p: Handle, dp: Handle, c: Handle, dc: Handle)
    requires Loop(st, root, p, dp, c, dc) && s.fs == st.fs && s.alt.None? && !s.halted && ListsShrunk(st.main, st.alt, s.main, s.alt)
    ensures Loop(s, root, p, dp, c, dc)
  {
    SmallerLeft(st, s);
  }

  lemma LoopClaims(st: State, s: State, root: Handle, p: Handle, dp: Handle, c: Handle, dc: Handle,
                   l: seq<Handle>, d: Handle)
    requires Loop(st, root, p, dp, c, dc) && st.main == [l] && s == st.(main := [SwapRemove(l, d)])
    ensures Loop(s, root, p, dp, c, dc)
  {
    RemoveAtShrinks([l], d, 0);
    assert RemoveAt([l], d, 0) == s.main;
    LoopKept(st, s, root, p, dp, c, dc);
  }

  /** Walking `c` removes `p`. */
  lemma WalkChild(st: State, root: Handle, p: Handle, dp: Handle, c: Handle, dc: Handle)
    requires Loop(st, root, p, dp, c, dc) && st.main == [[p, c]]
    ensures var r := Descend(Yes(), st, c);
            !r.halted && r.main == [[c]] && r.alt.None? && p !in r.fs && root in r.fs && r.fs[root] == st.fs[root]
  {
    var u := st.(walked := st.walked + [c]);
    ListsKept(st.main, st.alt);
    LoopKept(st, u, root, p, dp, c, dc);
    VisitUp(u, root, p, dp, c, dc);
    DescendOne(Yes(), st, c, Dirent("up", p));
  }

  /** Walking `p` walks `c`, which removes `p`. */
  lemma WalkParent(st: State, root: Handle, p: Handle, dp: Handle, c: Handle, dc: Handle)
    requires Loop(st, root, p, dp, c, dc) && st.main == [[p, dc, c]]
    ensures var r := Descend(Yes(), st, p);
            !r.halted && r.main == [[]] && r.alt.None? && p !in r.fs && root in r.fs && r.fs[root] == st.fs[root]
  {
    var o := Yes();
    var e := Dirent("c", c);
    var s := st.(walked := st.walked + [p]);
    ListsKept(st.main, st.alt);
    LoopKept(st, s, root, p, dp, c, dc);
    Swaps(p, dp, c, dc);
    var t := s.(main := [[p, c]]);
    LoopClaims(s, t, root, p, dp, c, dc, [p, dc, c], dc);
    WalkChild(t, root, p, dp, c, dc);
    var w := Descend(o, t, c);
    assert [p, dc, c][2] == c && [p, dc, c][1] == dc;
    VisitEnters(o, s, t, p, e, dc, w, []);
    DescendOne(o, st, p, e);
  }

  /** The visit to `p` walks it and keeps its entry, although it is gone by then. */
  lemma VisitLoop(st: State, root: Handle, p: Handle, dp: Handle, c: Handle, dc: Handle)
    requires Loop(st, root, p, dp, c, dc) && st.main == [[p, dp, c, dc]] && root in st.walked
    ensures var r := Visit(Yes(), st, root, Dirent("p", p));
            !r.halted && root in r.walked && Dirent("p", p) in Entries(r.fs, root) && p !in r.fs
  {
    var o := Yes();
    var e := Dirent("p", p);
    Swaps(p, dp, c, dc);
    var t := st.(main := [[p, dc, c]]);
    LoopClaims(st, t, root, p, dp, c, dc, [p, dp, c, dc], dp);
    WalkParent(t, root, p, dp, c, dc);
    var w := Descend(o, t, p);
    assert [p, dp, c, dc][0] == p && [p, dp, c, dc][1] == dp;
    VisitEnters(o, st, t, root, e, dp, w, []);
    WalkedStays(o, t, p, root);
  }

  /** Pass 1 removes a directory that its own sub-directory contains, and leaves the root's entry for it. */
  lemma CycleLeavesDanglingEntry(st: State, root: Handle, dr: Handle, laf: Handle, dl: Handle,
                                 p: Handle, dp: Handle, c: Handle, dc: Handle)
    requires Site(st, root, dr, laf, dl, [p, dp, c, dc], [Dirent("p", p)]) && |st.main| == 1
    requires p != c && p != dp && p != dc && c != dp && c != dc && dp != dc
    requires p in st.fs && st.fs[p] == Directory(Some([dp]), [Dirent("c", c)])
    requires c in st.fs && st.fs[c] == Directory(Some([dc]), [Dirent("up", p)])
    ensures var r := PassOne(Yes(), st, root);
            !r.halted && root in r.walked && Dirent("p", p) in Entries(r.fs, root) && p !in r.fs
  {
    var e := Dirent("p", p);
    var rest := [p, dp, c, dc];
    FirstSteps(st, root, dr, laf, dl, rest, [e]);
    var t := Begun(st, root, laf, rest);
    assert rest[0] == p && rest[2] == c;
    assert ([Dirent("lost+found", laf)] + [e])[1] == e;
    assert Loop(t, root, p, dp, c, dc);
    OneVisit(Yes(), t, root, e);
    assert t.main == [rest] && t.walked[0] == root;
    VisitLoop(t, root, p, dp, c, dc);
  }

  lemma OneVisit(o: Options, st: State, dir: Handle, e: Dirent)
    requires Sound(st) && !st.halted
    ensures WalkEntries(o, st, dir, [e]) == Visit(o, st, dir, e)
  {
    assert [e][1..] == [];
    var v := Visit(o, st, dir, e);
    SmallerLeft(st, v);
    assert WalkEntries(o, v, dir, [e][1..]) == v;
  }

  lemma WalkedStays(o: Options, st: State, dir: Handle, d: Handle)
    requires Sound(st) && d in st.walked
    ensures d in Descend(o, st, dir).walked
  {
    DescendFramed(o, st.fs, st, dir);
  }
}
