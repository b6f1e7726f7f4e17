/**
 pvfs2-fsck as it runs: handle lists changed in place, loops over arrays, a
 recursive walk that edits the file system while it goes, and counters. Every method
 is proved to do what the corresponding function of the model says.
 */
module FsckEngine {
  import opened Wrappers
  import opened HandleLists
  import opened HandleListArrays
  import opened FsckModel
  import Passes = FsckPasses
  import Capacity = FsckCapacity

  /** The program and the model agree: on everything while the program runs, on all but the lists once it has stopped. */
  ghost predicate Agrees(a: State, b: State) {
    if b.halted then a.(main := b.main, alt := b.alt) == b else a == b
  }

  class Fsck {
    const opts: Options
    var fs: Fs
    /** global_removals */
    var removals: nat
    var prompts: nat
    var halted: bool
    ghost var log: seq<Event>
    ghost var walked: seq<Handle>
    ghost var links: set<Link>
    ghost var kept: set<Handle>

    /** The program's state together with the contents of two lists. */
    ghost function At(main: Lists, alt: Option<Lists>): State
      reads this
    {
      State(fs, main, alt, removals, prompts, log, halted, walked, links, kept)
    }

    /** The lists a pass works on; the second one may be NULL. */
    ghost predicate Lists(hl: HandleList, alt: HandleList?)
      reads hl, hl.used, hl.lists
      reads if alt == null then {} else {alt, alt.used} + set a | a in alt.lists
    {
      && hl.Valid()
      && (alt != null ==> alt.Valid() && hl.Repr() !! alt.Repr() && |alt.lists| == |hl.lists|)
    }

    /** All objects the two lists consist of. */
    ghost function Objects(hl: HandleList, alt: HandleList?): set<object> {
      hl.Repr() + if alt == null then {} else alt.Repr()
    }

    ghost function Second(alt: HandleList?): Option<HandleLists.Lists>
      reads if alt == null then {} else {alt}
    {
      if alt == null then None else Some(alt.model)
    }

    ghost function View(hl: HandleList, alt: HandleList?): State
      reads this, hl
      reads if alt == null then {} else {alt}
    {
      At(hl.model, Second(alt))
    }

    constructor (o: Options, initial: Fs)
      ensures opts == o && At([], None) == State(initial, [], None, 0, 0, [], false, [], {}, {})
    {
      opts := o;
      fs := initial;
      removals, prompts, halted := 0, 0, false;
      log, walked, links, kept := [], [], {}, {};
    }

    /** The counter and get_user_action_to_continue; the arguments only carry the lists through the contract. */
    method Ask(ghost m: HandleLists.Lists, ghost a: Option<HandleLists.Lists>)
      modifies this
      ensures At(m, a) == Confirm(opts, old(At(m, a)))
    {
      if opts.safety.Some? {
        removals := removals + 1;
        if removals >= opts.safety.value && opts.destructive {
          var yes := opts.reply(prompts);
          prompts := prompts + 1;
          log := log + [Prompted];
          if yes {
            removals := 0;
          } else {
            halted := true;
          }
        }
      }
    }

    /** remove_directory_entry */
    method RemoveDirectoryEntry(dir: Handle, name: string, ghost m: HandleLists.Lists, ghost a: Option<HandleLists.Lists>)
      requires !halted
      modifies this
      ensures At(m, a) == RemoveDirent(opts, old(At(m, a)), dir, name)
    {
      Ask(m, a);
      if !halted && opts.destructive {
        if HasEntry(fs, dir, name) {
          fs := fs[dir := fs[dir].(entries := WithoutName(fs[dir].entries, name))];
          log := log + [DirentRemoved(dir, name)];
        } else {
          halted := true;
        }
      }
    }

    /** remove_object */
    method RemoveOneObject(h: Handle, ghost m: HandleLists.Lists, ghost a: Option<HandleLists.Lists>)
      requires !halted
      modifies this
      ensures At(m, a) == RemoveObject(opts, old(At(m, a)), h)
    {
      Ask(m, a);
      if !halted && opts.destructive {
        if h in fs {
          fs := fs - {h};
          log := log + [ObjectRemoved(h)];
        } else {
          halted := true;
        }
      }
    }

    /** Look on the first list, then on the second. */
    method FindEither(hl: HandleList, alt: HandleList?, h: Handle) returns (inMain: bool, w: Option<nat>)
      requires Lists(hl, alt) && Servers(hl.model, Second(alt))
      ensures inMain == In(hl.model, h) && w == Where(hl.model, Second(alt), h)
    {
      w := hl.FindHandle(h);
      inMain := w.Some?;
      if !inMain && alt != null {
        w := alt.FindHandle(h);
      }
    }

    /** The first loop of match_dirdata and verify_datafiles. */
    method ProbeHandles(hl: HandleList, alt: HandleList?, hs: seq<Handle>)
      returns (found: seq<Handle>, idx: nat, missing: nat)
      requires Lists(hl, alt) && Servers(hl.model, Second(alt))
      ensures Probe(found, idx, missing) == ProbeAll(hl.model, Second(alt), hs, 0)
    {
      found, idx, missing := [], 0, 0;
      ghost var m, a := hl.model, Second(alt);
      ghost var goal := ProbeAll(m, a, hs, 0);
      assert hs[0..] == hs && [] + goal.found == goal.found;
      var i := 0;
      while i < |hs|
        invariant 0 <= i <= |hs| && idx < |m|
        invariant goal == Prefixed(found, missing, ProbeAll(m, a, hs[i..], idx))
      {
        ProbeStep(m, a, hs, i, idx, found, missing);
        found, idx, missing := ProbeOne(hl, alt, hs[i], found, idx, missing);
        i := i + 1;
      }
      assert hs[i..] == [] && found + [] == found;
    }

    /** One handle: remembered with its server if it is on a list, counted as missing otherwise. */
    method ProbeOne(hl: HandleList, alt: HandleList?, h: Handle, found: seq<Handle>, idx: nat, missing: nat)
      returns (newFound: seq<Handle>, newIdx: nat, newMissing: nat)
      requires Lists(hl, alt) && Servers(hl.model, Second(alt)) && idx < |hl.model|
      ensures newIdx < |hl.model|
      ensures var w := Where(hl.model, Second(alt), h);
              if w.Some? then newFound == found + [h] && newIdx == w.value && newMissing == missing
              else newFound == found + [NULL_HANDLE] && newIdx == idx && newMissing == missing + 1
    {
      var inMain, w := FindEither(hl, alt, h);
      if w.Some? {
        newFound, newIdx, newMissing := found + [h], w.value, missing;
      } else {
        newFound, newIdx, newMissing := found + [NULL_HANDLE], idx, missing + 1;
      }
    }

    /** Take a handle off one list; the other one stays as it is. */
    method RemoveFrom(hl: HandleList, alt: HandleList?, inMain: bool, h: Handle, i: nat)
      requires Lists(hl, alt) && i < |hl.lists| && (!inMain ==> alt != null)
      modifies Objects(hl, alt)
      ensures Lists(hl, alt)
      ensures hl.model == if inMain then RemoveAt(old(hl.model), h, i) else old(hl.model)
      ensures alt != null ==> alt.model == if inMain then old(alt.model) else RemoveAt(old(alt.model), h, i)
    {
      if inMain {
        assert hl.lists[i] in hl.Repr();
        hl.RemoveHandle(h, i);
      } else {
        assert alt.lists[i] in alt.Repr();
        alt.RemoveHandle(h, i);
      }
    }

    /** The second loop of match_dirdata and verify_datafiles; `ok` unless it runs into a NULL list. */
    method DrainHandles(hl: HandleList, alt: HandleList?, hs: seq<Handle>, from: nat) returns (ok: bool)
      requires Lists(hl, alt) && Servers(hl.model, Second(alt)) && from < |hl.model|
      modifies Objects(hl, alt)
      ensures Lists(hl, alt)
      ensures var d := DrainAll(old(hl.model), old(Second(alt)), hs, from);
              ok == d.Drained? && (ok ==> hl.model == d.main && Second(alt) == d.alt)
    {
      var idx: nat := from;
      var i := 0;
      assert hs[0..] == hs;
      while i < |hs|
        invariant 0 <= i <= |hs| && Lists(hl, alt) && Servers(hl.model, Second(alt)) && idx < |hl.model|
        invariant DrainAll(old(hl.model), old(Second(alt)), hs, from) == DrainAll(hl.model, Second(alt), hs[i..], idx)
      {
        DrainStep(hl.model, Second(alt), hs, i, idx);
        ok, idx := DrainOne(hl, alt, hs[i], idx);
        if !ok {
          return;
        }
        i := i + 1;
      }
      ok := true;
    }

    /** One handle: off the list it is on, or off the second list under the server found last. */
    method DrainOne(hl: HandleList, alt: HandleList?, h: Handle, from: nat) returns (ok: bool, idx: nat)
      requires Lists(hl, alt) && Servers(hl.model, Second(alt)) && from < |hl.model|
      modifies Objects(hl, alt)
      ensures Lists(hl, alt) && Servers(hl.model, Second(alt)) && idx < |hl.model|
      ensures var m, a := old(hl.model), old(Second(alt));
              if h == NULL_HANDLE then ok && hl.model == m && Second(alt) == a && idx == from
              else if In(m, h) then
                ok && idx == Find(m, h).value && hl.model == RemoveAt(m, h, idx) && Second(alt) == a
              else if a.None? then !ok
              else ok && idx == from && hl.model == m && Second(alt) == Some(RemoveAt(a.value, h, from))
    {
      ok, idx := true, from;
      if h != NULL_HANDLE {
        var w := hl.FindHandle(h);
        if w.Some? {
          idx := w.value;
        } else if alt == null {
          return false, idx;
        }
        RemoveFrom(hl, alt, w.Some?, h, idx);
      }
    }

    /** match_dirdata and verify_datafiles on the array they fetched. */
    method ClaimHandles(hl: HandleList, alt: HandleList?, hs: seq<Handle>) returns (complete: bool)
      requires Lists(hl, alt) && Servers(hl.model, Second(alt)) && !halted && this !in Objects(hl, alt)
      modifies this`halted, Objects(hl, alt)
      ensures Lists(hl, alt)
      ensures var c := ClaimAll(old(hl.model), old(Second(alt)), hs);
              && Agrees(View(hl, alt), AfterClaim(old(View(hl, alt)), c))
              && (c.Claim? ==> complete == c.complete)
    {
      var found, idx, missing := ProbeHandles(hl, alt, hs);
      var ok := DrainHandles(hl, alt, found, idx);
      halted := !ok;
      complete := missing == 0;
    }

    /** Remove an object and then the entry that names it. */
    method DiscardEntry(dir: Handle, e: Dirent, ghost m: HandleLists.Lists, ghost a: Option<HandleLists.Lists>)
      requires !halted
      modifies this
      ensures At(m, a) == Discard(opts, old(At(m, a)), dir, e)
    {
      RemoveOneObject(e.handle, m, a);
      if !halted {
        RemoveDirectoryEntry(dir, e.name, m, a);
      }
    }

    /** descend on a file. */
    method JudgeFileEntry(hl: HandleList, alt: HandleList?, dir: Handle, e: Dirent, dfiles: seq<Handle>)
      requires Lists(hl, alt) && Servers(hl.model, Second(alt)) && !halted && this !in Objects(hl, alt)
      modifies this, Objects(hl, alt)
      ensures Lists(hl, alt)
      ensures var c := ClaimAll(old(hl.model), old(Second(alt)), dfiles);
              Agrees(View(hl, alt), FileOutcome(opts, old(View(hl, alt)), c, dir, e))
    {
      var complete := ClaimHandles(hl, alt, dfiles);
      if !halted {
        if complete {
          kept := kept + {e.handle};
          links := links + {Link(dir, e.name, e.handle)};
        } else {
          DiscardEntry(dir, e, hl.model, Second(alt));
        }
      }
    }

    /** match_dirdata */
    method MatchDirectory(hl: HandleList, alt: HandleList?, dirdata: Option<seq<Handle>>) returns (complete: bool)
      requires Lists(hl, alt) && Servers(hl.model, Second(alt)) && !halted && this !in Objects(hl, alt)
      modifies this`halted, Objects(hl, alt)
      ensures Lists(hl, alt)
      ensures var c := MatchDirdata(old(hl.model), old(Second(alt)), dirdata);
              && Agrees(View(hl, alt), AfterClaim(old(View(hl, alt)), c))
              && (c.Claim? ==> complete == c.complete)
    {
      if dirdata.None? {
        complete := false;
      } else {
        complete := ClaimHandles(hl, alt, dirdata.value);
      }
    }

    /** A directory whose dirdata is complete: walk it if it came from the first list, and keep its entry. */
    method KeepDirectory(hl: HandleList, alt: HandleList?, dir: Handle, e: Dirent, inMain: bool)
      requires Lists(hl, alt) && Sound(View(hl, alt)) && !halted && this !in Objects(hl, alt)
      modifies this, Objects(hl, alt)
      ensures Lists(hl, alt)
      ensures var st := old(View(hl, alt));
              Agrees(View(hl, alt), Keep(if inMain then Descend(opts, st, e.handle) else st, dir, e))
      decreases Left(hl.model, Second(alt)), 5
    {
      if inMain {
        DescendInto(hl, alt, e.handle);
      }
      if !halted {
        links := links + {Link(dir, e.name, e.handle)};
      }
    }

    /** descend on a directory. */
    method JudgeDirectoryEntry(hl: HandleList, alt: HandleList?, dir: Handle, e: Dirent,
                               dirdata: Option<seq<Handle>>, inMain: bool)
      requires Lists(hl, alt) && Sound(View(hl, alt)) && !halted && this !in Objects(hl, alt)
      requires dirdata.Some? ==> dirdata.value != []
      requires inMain == In(hl.model, e.handle)
      modifies this, Objects(hl, alt)
      ensures Lists(hl, alt)
      ensures Agrees(View(hl, alt), JudgeDirectory(opts, old(View(hl, alt)), dir, e, dirdata))
      decreases Left(hl.model, Second(alt)), 0
    {
      ghost var st := View(hl, alt);
      DirectorySteps(opts, st, dir, e, dirdata);
      var complete := MatchDirectory(hl, alt, dirdata);
      if !halted {
        if complete {
          KeepDirectory(hl, alt, dir, e, inMain);
        } else {
          DiscardEntry(dir, e, hl.model, Second(alt));
        }
      }
    }

    /** The switch on the object's type. */
    method JudgeEntry(hl: HandleList, alt: HandleList?, dir: Handle, e: Dirent, inMain: bool)
      requires Lists(hl, alt) && Sound(View(hl, alt)) && !halted && this !in Objects(hl, alt)
      requires inMain == In(hl.model, e.handle)
      modifies this, Objects(hl, alt)
      ensures Lists(hl, alt)
      ensures Agrees(View(hl, alt), Judge(opts, old(View(hl, alt)), dir, e))
      decreases Left(hl.model, Second(alt)), 1
    {
      var a := GetAttr(fs, e.handle);
      if a.None? {
        RemoveDirectoryEntry(dir, e.name, hl.model, Second(alt));
      } else if a.value.Metafile? {
        JudgeFileEntry(hl, alt, dir, e, a.value.dfiles);
      } else if a.value.Directory? {
        JudgeDirectoryEntry(hl, alt, dir, e, a.value.dirdata, inMain);
      } else if a.value.Symlink? {
        links := links + {Link(dir, e.name, e.handle)};
      } else {
        DiscardEntry(dir, e, hl.model, Second(alt));
      }
    }

    /** The body of descend's loop. */
    method VisitEntry(hl: HandleList, alt: HandleList?, dir: Handle, e: Dirent)
      requires Lists(hl, alt) && Sound(View(hl, alt)) && !halted && this !in Objects(hl, alt)
      modifies this, Objects(hl, alt)
      ensures Lists(hl, alt)
      ensures Agrees(View(hl, alt), Visit(opts, old(View(hl, alt)), dir, e))
      decreases Left(hl.model, Second(alt)), 2
    {
      var inMain, w := FindEither(hl, alt, e.handle);
      if w.None? {
        RemoveDirectoryEntry(dir, e.name, hl.model, Second(alt));
      } else {
        JudgeEntry(hl, alt, dir, e, inMain);
        if !halted {
          RemoveFrom(hl, alt, inMain, e.handle, w.value);
        }
      }
    }

    /** One turn of descend's loop, with what remains to be done. */
    method VisitNext(hl: HandleList, alt: HandleList?, dir: Handle, es: seq<Dirent>, i: nat)
      requires Lists(hl, alt) && Sound(View(hl, alt)) && !halted && this !in Objects(hl, alt) && i < |es|
      modifies this, Objects(hl, alt)
      ensures Lists(hl, alt)
      ensures var goal := WalkEntries(opts, old(View(hl, alt)), dir, es[i..]);
              if halted then goal.halted && Agrees(View(hl, alt), goal)
              else && Sound(View(hl, alt)) && WalkEntries(opts, View(hl, alt), dir, es[i + 1..]) == goal
                   && Left(hl.model, Second(alt)) <= old(Left(hl.model, Second(alt)))
      decreases Left(hl.model, Second(alt)), 3
    {
      WalkStep(opts, View(hl, alt), dir, es, i);
      VisitEntry(hl, alt, dir, es[i]);
    }

    /** descend */
    method DescendInto(hl: HandleList, alt: HandleList?, dir: Handle)
      requires Lists(hl, alt) && Sound(View(hl, alt)) && !halted && this !in Objects(hl, alt)
      modifies this, Objects(hl, alt)
      ensures Lists(hl, alt)
      ensures Agrees(View(hl, alt), Descend(opts, old(View(hl, alt)), dir))
      decreases Left(hl.model, Second(alt)), 4
    {
      ghost var goal := Descend(opts, View(hl, alt), dir);
      var es := Entries(fs, dir);
      walked := walked + [dir];
      var i := 0;
      assert es[0..] == es;
      while i < |es| && !halted
        invariant 0 <= i <= |es| && Lists(hl, alt)
        invariant halted ==> goal.halted && Agrees(View(hl, alt), goal)
        invariant !halted ==> Sound(View(hl, alt)) && WalkEntries(opts, View(hl, alt), dir, es[i..]) == goal
        invariant !halted ==> Left(hl.model, Second(alt)) <= old(Left(hl.model, Second(alt)))
      {
        VisitNext(hl, alt, dir, es, i);
        i := i + 1;
      }
    }

    // ---------- the four passes ----------

    /** The root is off the list: match its dirdata and walk it. */
    method EnterRoot(hl: HandleList, root: Handle, dirdata: Option<seq<Handle>>)
      requires Lists(hl, null) && Sound(View(hl, null)) && !halted && this !in Objects(hl, null)
      requires Sound(AfterClaim(View(hl, null), MatchDirdata(hl.model, None, dirdata)))
      modifies this, Objects(hl, null)
      ensures Lists(hl, null)
      ensures var s := old(View(hl, null));
              var c := MatchDirdata(s.main, None, dirdata);
              Agrees(View(hl, null),
                     if c.Crash? || !c.complete then s.(halted := true) else Descend(opts, AfterClaim(s, c), root))
    {
      var complete := MatchDirectory(hl, null, dirdata);
      if !halted {
        if complete {
          DescendInto(hl, null, root);
        } else {
          halted := true;
        }
      }
    }

    /** traverse_directory_tree */
    method TraverseDirectoryTree(hl: HandleList, root: Handle)
      requires Lists(hl, null) && Sound(View(hl, null)) && !halted && this !in Objects(hl, null)
      modifies this, Objects(hl, null)
      ensures Lists(hl, null)
      ensures Agrees(View(hl, null), Passes.PassOne(opts, old(View(hl, null)), root))
    {
      var a := GetAttr(fs, root);
      var w := hl.FindHandle(root);
      if a.None? || !a.value.Directory? || w.None? {
        halted := true;
        return;
      }
      Passes.RootSteps(opts, View(hl, null), root);
      RemoveFrom(hl, null, true, root, w.value);
      EnterRoot(hl, root, a.value.dirdata);
    }

    /** handlelist_add_handle on the second list. */
    method AddTo(hl: HandleList, alt: HandleList, h: Handle, i: nat)
      requires Lists(hl, alt) && i < |alt.lists| && |alt.model[i]| < alt.Capacity(i)
      modifies alt.Repr()
      ensures Lists(hl, alt) && hl.model == old(hl.model) && alt.model == Add(old(alt.model), h, i)
    {
      assert alt.lists[i] in alt.Repr();
      alt.AddHandle(h, i);
    }

    /** handlelist_return_handle on the first list. */
    method PopFrom(hl: HandleList, alt: HandleList?) returns (r: Option<(Handle, nat)>)
      requires Lists(hl, alt)
      modifies hl.Repr()
      ensures Lists(hl, alt) && Second(alt) == old(Second(alt))
      ensures var i := PopServer(old(hl.model));
              if i.None? then r.None? && hl.model == old(hl.model)
              else r == Some((Passes.Top(old(hl.model), i.value), i.value)) && hl.model == PopAt(old(hl.model), i.value)
    {
      r := hl.ReturnHandle();
    }

    /** A new, empty list with the sizes of another. */
    method SecondList(hl: HandleList) returns (alt: HandleList)
      requires hl.Valid()
      ensures alt.Valid() && fresh(alt.Repr()) && alt.model == Passes.Fresh(hl.model)
      ensures Twins(hl, alt)
    {
      var sizes: seq<nat> := seq(|hl.lists|, i requires 0 <= i < |hl.lists| => hl.lists[i].Length);
      alt := new HandleList(sizes);
    }

    /** Two lists made with the same sizes. */
    ghost predicate Twins(hl: HandleList, alt: HandleList) {
      |hl.lists| == |alt.lists| && forall i :: 0 <= i < |hl.lists| ==> alt.lists[i].Length == hl.lists[i].Length
    }

    ghost function Sizes(hl: HandleList): seq<nat> {
      seq(|hl.lists|, i requires 0 <= i < |hl.lists| => hl.lists[i].Length)
    }

    /** The body of find_sub_trees' loop. */
    method SortOutHandle(hl: HandleList, alt: HandleList, h: Handle, i: nat)
      requires Lists(hl, alt) && Twins(hl, alt) && Sound(View(hl, alt)) && !halted && this !in Objects(hl, alt)
      requires Capacity.HasRoom(View(hl, alt), Sizes(hl), i)
      modifies this, Objects(hl, alt)
      ensures Lists(hl, alt)
      ensures Agrees(View(hl, alt), Passes.SortOut(opts, old(View(hl, alt)), h, i))
    {
      Capacity.SortOutFits(opts, View(hl, alt), h, i, Sizes(hl));
      var a := GetAttr(fs, h);
      if a.None? || a.value.Unknown? {
        RemoveOneObject(h, hl.model, Second(alt));
      } else {
        if a.value.Directory? {
          DescendInto(hl, alt, h);
        }
        if !halted {
          AddTo(hl, alt, h, i);
        }
      }
    }

    /** find_sub_trees */
    method FindSubTrees(hl: HandleList) returns (alt: HandleList)
      requires Lists(hl, null) && Sound(View(hl, null)) && !halted && this !in Objects(hl, null)
      modifies this, Objects(hl, null)
      ensures Lists(hl, alt) && fresh(alt.Repr()) && Twins(hl, alt)
      ensures Agrees(View(hl, alt), Passes.PassTwo(opts, old(View(hl, null))))
    {
      alt := SecondList(hl);
      ghost var goal := Passes.SubTrees(opts, View(hl, alt));
      var done := false;
      while !done && !halted
        invariant Lists(hl, alt) && fresh(alt.Repr()) && Twins(hl, alt)
        invariant halted ==> goal.halted && Agrees(View(hl, alt), goal)
        invariant !halted ==> Sound(View(hl, alt)) && Capacity.Fits(View(hl, alt), Sizes(hl))
        invariant !halted ==> goal == if done then View(hl, alt) else Passes.SubTrees(opts, View(hl, alt))
        decreases if done || halted then 0 else Size(hl.model) + 1
      {
        ghost var st := View(hl, alt);
        var next := PopFrom(hl, alt);
        if next.None? {
          done := true;
        } else {
          var (h, i) := next.value;
          SubTreesStep(opts, st, Sizes(hl), i);
          SortOutHandle(hl, alt, h, i);
        }
      }
    }

    /** create_dirent */
    method CreateEntry(dir: Handle, name: string, h: Handle, ghost m: HandleLists.Lists, ghost a: Option<HandleLists.Lists>)
      returns (ok: bool)
      modifies this
      ensures (At(m, a), ok) == Passes.CreateDirent(opts, old(At(m, a)), dir, name, h)
    {
      ok := true;
      if opts.destructive {
        if dir in fs && fs[dir].Directory? && !HasEntry(fs, dir, name) {
          fs := fs[dir := fs[dir].(entries := fs[dir].entries + [Dirent(name, h)])];
          log := log + [DirentCreated(dir, name, h)];
          links := links + {Link(dir, name, h)};
        } else {
          ok := false;
        }
      }
    }

    /** fill_lost_and_found on an orphaned file. */
    method SalvageOrphanFile(hl: HandleList, alt: HandleList, laf: Handle, h: Handle, dfiles: seq<Handle>)
      requires Lists(hl, alt) && Sound(View(hl, alt)) && !halted && this !in Objects(hl, alt)
      modifies this, Objects(hl, alt)
      ensures Lists(hl, alt)
      ensures Agrees(View(hl, alt), Passes.SalvageFile(opts, old(View(hl, alt)), laf, h, dfiles))
    {
      var complete := ClaimHandles(hl, alt, dfiles);
      if !halted {
        if complete {
          kept := kept + {h};
          var ok := CreateEntry(laf, "lostfile." + Passes.Decimal(h), h, hl.model, Second(alt));
          if !ok {
            halted := true;
          }
        } else {
          RemoveOneObject(h, hl.model, Second(alt));
        }
      }
    }

    /** The end of fill_lost_and_found on a directory: name it in lost+found, or remove it. */
    method NameOrphanDirectory(laf: Handle, h: Handle, ghost m: HandleLists.Lists, ghost a: Option<HandleLists.Lists>)
      requires !halted
      modifies this
      ensures At(m, a) == Passes.NameDirectory(opts, old(At(m, a)), laf, h)
    {
      var ok := CreateEntry(laf, "lostdir." + Passes.Decimal(h), h, m, a);
      if !ok {
        RemoveOneObject(h, m, a);
      }
    }

    /** fill_lost_and_found on an orphaned directory. */
    method SalvageOrphanDirectory(hl: HandleList, alt: HandleList, laf: Handle, h: Handle, dirdata: Option<seq<Handle>>)
      requires Lists(hl, alt) && Sound(View(hl, alt)) && !halted && this !in Objects(hl, alt)
      requires dirdata.Some? ==> dirdata.value != []
      modifies this, Objects(hl, alt)
      ensures Lists(hl, alt)
      ensures Agrees(View(hl, alt), Passes.SalvageDirectory(opts, old(View(hl, alt)), laf, h, dirdata))
    {
      var complete := MatchDirectory(hl, alt, dirdata);
      if !halted {
        if !complete {
          RemoveOneObject(h, hl.model, Second(alt));
        }
        if !halted {
          NameOrphanDirectory(laf, h, hl.model, Second(alt));
        }
      }
    }

    /** The body of fill_lost_and_found's loop. */
    method SalvageHandle(hl: HandleList, alt: HandleList, laf: Handle, h: Handle, i: nat)
      requires Lists(hl, alt) && Twins(hl, alt) && Sound(View(hl, alt)) && !halted && this !in Objects(hl, alt)
      requires Capacity.HasRoom(View(hl, alt), Sizes(hl), i)
      modifies this, Objects(hl, alt)
      ensures Lists(hl, alt)
      ensures Agrees(View(hl, alt), Passes.Salvage(opts, old(View(hl, alt)), laf, h, i))
    {
      var a := GetAttr(fs, h);
      if a.None? || a.value.Datafile? || a.value.Dirdata? {
        AddTo(hl, alt, h, i);
      } else if a.value.Metafile? {
        SalvageOrphanFile(hl, alt, laf, h, a.value.dfiles);
      } else if a.value.Directory? {
        SalvageOrphanDirectory(hl, alt, laf, h, a.value.dirdata);
      }
    }

    /** fill_lost_and_found */
    method FillLostAndFound(hl: HandleList, laf: Handle) returns (alt: HandleList)
      requires Lists(hl, null) && Sound(View(hl, null)) && !halted && this !in Objects(hl, null)
      modifies this, Objects(hl, null)
      ensures Lists(hl, alt) && fresh(alt.Repr())
      ensures var st := old(View(hl, null));
              Agrees(View(hl, alt), Passes.FillLoop(opts, st.(alt := Some(Passes.Fresh(st.main))), laf))
    {
      alt := SecondList(hl);
      ghost var goal := Passes.FillLoop(opts, View(hl, alt), laf);
      var done := false;
      while !done && !halted
        invariant Lists(hl, alt) && fresh(alt.Repr()) && Twins(hl, alt)
        invariant halted ==> goal.halted && Agrees(View(hl, alt), goal)
        invariant !halted ==> Sound(View(hl, alt)) && Capacity.Fits(View(hl, alt), Sizes(hl))
        invariant !halted ==> goal == if done then View(hl, alt) else Passes.FillLoop(opts, View(hl, alt), laf)
        decreases if done || halted then 0 else Size(hl.model) + 1
      {
        ghost var st := View(hl, alt);
        var next := PopFrom(hl, alt);
        if next.None? {
          done := true;
        } else {
          var (h, i) := next.value;
          FillStep(opts, st, laf, Sizes(hl), i);
          SalvageHandle(hl, alt, laf, h, i);
        }
      }
    }

    /** The body of cull_leftovers' loop, with its two asserts. */
    method CullHandle(h: Handle, ghost m: HandleLists.Lists, ghost a: Option<HandleLists.Lists>)
      requires !halted
      modifies this
      ensures At(m, a) == Passes.CullOne(opts, old(At(m, a)), h)
    {
      var attr := GetAttr(fs, h);
      if attr.Some? && (attr.value.Metafile? || attr.value.Directory?) {
        halted := true;
      } else {
        RemoveOneObject(h, m, a);
      }
    }

    /** cull_leftovers */
    method CullLeftovers(hl: HandleList)
      requires Lists(hl, null) && Sound(View(hl, null)) && !halted && this !in Objects(hl, null)
      modifies this, Objects(hl, null)
      ensures Lists(hl, null)
      ensures Agrees(View(hl, null), Passes.CullLoop(opts, old(View(hl, null))))
    {
      ghost var goal := Passes.CullLoop(opts, View(hl, null));
      var done := false;
      while !done && !halted
        invariant Lists(hl, null)
        invariant halted ==> goal.halted && Agrees(View(hl, null), goal)
        invariant !halted ==> Sound(View(hl, null))
        invariant !halted ==> goal == if done then View(hl, null) else Passes.CullLoop(opts, View(hl, null))
        decreases if done || halted then 0 else Size(hl.model) + 1
      {
        ghost var st := View(hl, null);
        var next := PopFrom(hl, null);
        if next.None? {
          done := true;
        } else {
          var (h, i) := next.value;
          CullStep(opts, st, i);
          CullHandle(h, hl.model, None);
        }
      }
    }

    /** main, after the lists are built: file system, log, counters and outcome are those of the model's run. */
    method Run(hl: HandleList, root: Handle, laf: Handle)
      requires Lists(hl, null) && Sound(View(hl, null)) && !halted && this !in Objects(hl, null)
      modifies this, Objects(hl, null)
      ensures At([], None) == Passes.Run(opts, old(View(hl, null)), root, laf).(main := [], alt := None)
    {
      TraverseDirectoryTree(hl, root);
      if halted { return; }
      var notree := FindSubTrees(hl);
      if halted { return; }
      var unreferenced := FillLostAndFound(notree, laf);
      if halted { return; }
      CullLeftovers(unreferenced);
    }
  }

  /** What the first loop has found so far, put in front of what it will find. */
  function Prefixed(found: seq<Handle>, missing: nat, p: Probe): Probe {
    Probe(found + p.found, p.idx, missing + p.missing)
  }

  lemma ProbeStep(m: HandleLists.Lists, a: Option<HandleLists.Lists>, hs: seq<Handle>, i: nat, idx: nat,
                  found: seq<Handle>, missing: nat)
    requires Servers(m, a) && idx < |m| && i < |hs|
    ensures var w := Where(m, a, hs[i]);
            Prefixed(found, missing, ProbeAll(m, a, hs[i..], idx)) ==
            if w.Some? then Prefixed(found + [hs[i]], missing, ProbeAll(m, a, hs[i + 1..], w.value))
            else Prefixed(found + [NULL_HANDLE], missing + 1, ProbeAll(m, a, hs[i + 1..], idx))
  {
    assert hs[i..][1..] == hs[i + 1..];
  }

  lemma DrainStep(m: HandleLists.Lists, a: Option<HandleLists.Lists>, hs: seq<Handle>, i: nat, idx: nat)
    requires Servers(m, a) && idx < |m| && i < |hs|
    ensures DrainAll(m, a, hs[i..], idx) ==
            if hs[i] == NULL_HANDLE then DrainAll(m, a, hs[i + 1..], idx)
            else if In(m, hs[i]) then DrainAll(RemoveAt(m, hs[i], Find(m, hs[i]).value), a, hs[i + 1..], Find(m, hs[i]).value)
            else if a.None? then NullList
            else DrainAll(m, Some(RemoveAt(a.value, hs[i], idx)), hs[i + 1..], idx)
  {
    assert hs[i..][1..] == hs[i + 1..];
  }

  lemma WalkStep(o: Options, st: State, dir: Handle, es: seq<Dirent>, i: nat)
    requires Sound(st) && !st.halted && i < |es|
    ensures var s := Visit(o, st, dir, es[i]);
            && Sound(s) && Left(s.main, s.alt) <= Left(st.main, st.alt)
            && WalkEntries(o, st, dir, es[i..]) == WalkEntries(o, s, dir, es[i + 1..])
            && (s.halted ==> WalkEntries(o, s, dir, es[i + 1..]) == s)
  {
    assert es[i..][1..] == es[i + 1..];
    SmallerLeft(st, Visit(o, st, dir, es[i]));
  }

  lemma DirectorySteps(o: Options, st: State, dir: Handle, e: Dirent, dirdata: Option<seq<Handle>>)
    requires Sound(st) && !st.halted && (dirdata.Some? ==> dirdata.value != [])
    ensures var c := MatchDirdata(st.main, st.alt, dirdata);
            var s := AfterClaim(st, c);
            && Sound(s)
            && (c.Claim? && c.complete ==> Left(s.main, s.alt) < Left(st.main, st.alt))
            && JudgeDirectory(o, st, dir, e, dirdata) ==
               if c.Crash? then s
               else if !c.complete then Discard(o, s, dir, e)
               else Keep(if In(st.main, e.handle) then Descend(o, s, e.handle) else s, dir, e)
  {
    MatchShrinks(st.main, st.alt, dirdata);
    SmallerLeft(st, AfterClaim(st, MatchDirdata(st.main, st.alt, dirdata)));
  }

  lemma SubTreesStep(o: Options, st: State, size: seq<nat>, i: nat)
    requires Sound(st) && !st.halted && Capacity.Fits(st, size) && PopServer(st.main) == Some(i)
    ensures var s := st.(main := PopAt(st.main, i));
            && Sound(s) && Capacity.HasRoom(s, size, i)
            && var t := Passes.SortOut(o, s, Passes.Top(st.main, i), i);
               && Sound(t) && Capacity.Fits(t, size) && Size(t.main) < Size(st.main)
               && Passes.SubTrees(o, st) == Passes.SubTrees(o, t)
               && (t.halted ==> Passes.SubTrees(o, t) == t)
  {
    var s := st.(main := PopAt(st.main, i));
    var h := Passes.Top(st.main, i);
    Passes.PopSound(st, i);
    Capacity.PopMakesRoom(st, size, i);
    Passes.SortOutSound(o, s, h, i);
    Capacity.SortOutFits(o, s, h, i, size);
    SizeShrunk(s.main, Passes.SortOut(o, s, h, i).main);
  }

  lemma FillStep(o: Options, st: State, laf: Handle, size: seq<nat>, i: nat)
    requires Sound(st) && !st.halted && Capacity.Fits(st, size) && PopServer(st.main) == Some(i)
    ensures var s := st.(main := PopAt(st.main, i));
            && Sound(s) && Capacity.HasRoom(s, size, i)
            && var t := Passes.Salvage(o, s, laf, Passes.Top(st.main, i), i);
               && Sound(t) && Capacity.Fits(t, size) && Size(t.main) < Size(st.main)
               && Passes.FillLoop(o, st, laf) == Passes.FillLoop(o, t, laf)
               && (t.halted ==> Passes.FillLoop(o, t, laf) == t)
  {
    var s := st.(main := PopAt(st.main, i));
    var h := Passes.Top(st.main, i);
    Passes.PopSound(st, i);
    Capacity.PopMakesRoom(st, size, i);
    Passes.SalvageSound(o, s, laf, h, i);
    Capacity.SalvageFits(o, s, laf, h, i, size);
    SizeShrunk(s.main, Passes.Salvage(o, s, laf, h, i).main);
  }

  lemma CullStep(o: Options, st: State, i: nat)
    requires Sound(st) && !st.halted && PopServer(st.main) == Some(i)
    ensures var s := st.(main := PopAt(st.main, i));
            var t := Passes.CullOne(o, s, Passes.Top(st.main, i));
            && Sound(t) && Size(t.main) < Size(st.main)
            && Passes.CullLoop(o, st) == Passes.CullLoop(o, t)
            && (t.halted ==> Passes.CullLoop(o, t) == t)
  {
    var s := st.(main := PopAt(st.main, i));
    Passes.PopSound(st, i);
    ListsKept(s.main, s.alt);
    SmallerLeft(s, Passes.CullOne(o, s, Passes.Top(st.main, i)));
  }
}
