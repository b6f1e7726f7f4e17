/**
 What pvfs2-fsck does to a file system, as functions on values: the repair
 decisions of the four passes, the lists of unaccounted handles they consume, and
 the ways a run can stop early.
 */
module FsckModel {
  import opened Wrappers
  import opened HandleLists

  // ---------- the file system ----------

  datatype Dirent = Dirent(name: string, handle: Handle)

  /**
   An object as PVFS_sys_getattr and the PVFS_mgmt_* calls show it. `Unreadable`
   objects exist but getattr fails on them; a directory whose dirdata array cannot
   be fetched has `dirdata == None`; `Unknown` is any other object type.
   */
  datatype Obj =
    | Metafile(dfiles: seq<Handle>)
    | Directory(dirdata: Option<seq<Handle>>, entries: seq<Dirent>)
    | Datafile
    | Dirdata
    | Symlink
    | Unknown
    | Unreadable

  type Fs = map<Handle, Obj>

  /** PVFS_sys_getattr */
  function GetAttr(fs: Fs, h: Handle): Option<Obj> {
    if h in fs && !fs[h].Unreadable? then Some(fs[h]) else None
  }

  /** PVFS_sys_readdir, all pages together; nothing when the directory cannot be read. */
  function Entries(fs: Fs, dir: Handle): seq<Dirent> {
    if dir in fs && fs[dir].Directory? then fs[dir].entries else []
  }

  predicate HasEntry(fs: Fs, dir: Handle, name: string) {
    exists e :: e in Entries(fs, dir) && e.name == name
  }

  function WithoutName(es: seq<Dirent>, name: string): (r: seq<Dirent>)
    ensures forall e :: e in r <==> e in es && e.name != name
  {
    if es == [] then []
    else if es[0].name == name then WithoutName(es[1..], name)
    else [es[0]] + WithoutName(es[1..], name)
  }

  // ---------- the state of a run ----------

  /** The command line: -a/-p/-y, -s N, and the answers given at the prompts. */
  datatype Options = Options(destructive: bool, safety: Option<nat>, reply: nat -> bool)

  datatype Event =
    | Prompted
    | DirentRemoved(dir: Handle, name: string)
    | ObjectRemoved(obj: Handle)
    | DirentCreated(dir: Handle, name: string, target: Handle)

  /** A directory entry a pass looked at and left in place. */
  datatype Link = Link(dir: Handle, name: string, target: Handle)

  /**
   `main` and `alt` are the two handle lists a pass works on (`alt` is NULL in
   pass 1), `removals` is global_removals. `halted` is set when the program stops: a
   failing assert, a NULL list, or the answer N. `log`, `walked`, `links` and `kept`
   record what was done: the changes and prompts in order, the directories walked,
   the entries left in place, and the files found to have all their datafiles.
   */
  datatype State = State(
    fs: Fs,
    main: Lists,
    alt: Option<Lists>,
    removals: nat,
    prompts: nat,
    log: seq<Event>,
    halted: bool,
    walked: seq<Handle>,
    links: set<Link>,
    kept: set<Handle>
  )

  /** Whether a handle is on one of the two lists. */
  predicate Listed(st: State, h: Handle) {
    In(st.main, h) || (st.alt.Some? && In(st.alt.value, h))
  }

  // ---------- changes to the file system ----------

  /** The counting and the prompt in front of every removal. */
  function Confirm(o: Options, st: State): (r: State)
    ensures r.(removals := st.removals, prompts := st.prompts, log := st.log, halted := st.halted) == st
  {
    if o.safety.None? then st
    else if st.removals + 1 < o.safety.value || !o.destructive then
      st.(removals := st.removals + 1)
    else if o.reply(st.prompts) then
      st.(removals := 0, prompts := st.prompts + 1, log := st.log + [Prompted])
    else
      st.(removals := st.removals + 1, prompts := st.prompts + 1, log := st.log + [Prompted], halted := true)
  }

  /** remove_directory_entry */
  function RemoveDirent(o: Options, st: State, dir: Handle, name: string): (r: State)
    ensures r.main == st.main && r.alt == st.alt
    ensures r.walked == st.walked && r.links == st.links && r.kept == st.kept
  {
    if st.halted then st else
    var s := Confirm(o, st);
    if s.halted || !o.destructive then s
    else if HasEntry(s.fs, dir, name) then
      s.(fs := s.fs[dir := s.fs[dir].(entries := WithoutName(s.fs[dir].entries, name))],
         log := s.log + [DirentRemoved(dir, name)])
    else s.(halted := true)
  }

  /** remove_object */
  function RemoveObject(o: Options, st: State, h: Handle): (r: State)
    ensures r.main == st.main && r.alt == st.alt
    ensures r.walked == st.walked && r.links == st.links && r.kept == st.kept
  {
    if st.halted then st else
    var s := Confirm(o, st);
    if s.halted || !o.destructive then s
    else if h in s.fs then s.(fs := s.fs - {h}, log := s.log + [ObjectRemoved(h)])
    else s.(halted := true)
  }

  // ---------- match_dirdata and verify_datafiles ----------

  /** There is a server, and both lists have the same servers. */
  predicate Servers(main: Lists, alt: Option<Lists>) {
    0 < |main| && (alt.Some? ==> |alt.value| == |main|)
  }

  /** The server a handle is found on, looking in the first list and then in the second. */
  function Where(main: Lists, alt: Option<Lists>, h: Handle): (r: Option<nat>)
    requires Servers(main, alt)
    ensures r.Some? ==> r.value < |main|
    ensures r.Some? <==> In(main, h) || (alt.Some? && In(alt.value, h))
  {
    if In(main, h) then Find(main, h)
    else if alt.Some? then Find(alt.value, h)
    else None
  }

  datatype Probe = Probe(found: seq<Handle>, idx: nat, missing: nat)

  /**
   The first loop of match_dirdata and verify_datafiles: missing handles are
   replaced by the null handle, and `idx` ends up as the server of the last handle
   found.
   */
  function ProbeAll(main: Lists, alt: Option<Lists>, hs: seq<Handle>, idx: nat): (p: Probe)
    requires Servers(main, alt) && idx < |main|
    ensures p.idx < |main| && |p.found| == |hs|
  {
    if hs == [] then Probe([], idx, 0)
    else
      var w := Where(main, alt, hs[0]);
      if w.Some? then
        var p := ProbeAll(main, alt, hs[1..], w.value);
        p.(found := [hs[0]] + p.found)
      else
        var p := ProbeAll(main, alt, hs[1..], idx);
        Probe([NULL_HANDLE] + p.found, p.idx, p.missing + 1)
  }

  datatype Drained = NullList | Drained(main: Lists, alt: Option<Lists>)

  /**
   The second loop: every handle found is removed from the first list or else from
   the second. The removal from the second list uses `idx`, which is the server of
   whatever handle was looked up successfully last.
   */
  function DrainAll(main: Lists, alt: Option<Lists>, hs: seq<Handle>, idx: nat): Drained
    requires Servers(main, alt) && idx < |main|
    decreases |hs|
  {
    if hs == [] then Drained(main, alt)
    else if hs[0] == NULL_HANDLE then DrainAll(main, alt, hs[1..], idx)
    else if In(main, hs[0]) then
      var i := Find(main, hs[0]).value;
      DrainAll(RemoveAt(main, hs[0], i), alt, hs[1..], i)
    else if alt.None? then NullList
    else DrainAll(main, Some(RemoveAt(alt.value, hs[0], idx)), hs[1..], idx)
  }

  /** The two loops together; `complete` when no handle was missing. */
  datatype Claim = Crash | Claim(main: Lists, alt: Option<Lists>, complete: bool)

  function ClaimAll(main: Lists, alt: Option<Lists>, hs: seq<Handle>): Claim
    requires Servers(main, alt)
  {
    var p := ProbeAll(main, alt, hs, 0);
    match DrainAll(main, alt, p.found, p.idx)
    case NullList => Crash
    case Drained(m, a) => Claim(m, a, p.missing == 0)
  }

  // ---------- what keeps the walk going ----------

  /** How many handles are still unaccounted for, over both lists. */
  ghost function Left(main: Lists, alt: Option<Lists>): nat {
    Size(main) + if alt.Some? then Size(alt.value) else 0
  }

  /** No handle joins a list or moves to another server. */
  ghost predicate ListsShrunk(m: Lists, a: Option<Lists>, mNew: Lists, aNew: Option<Lists>) {
    && Shrunk(m, mNew)
    && a.Some? == aNew.Some?
    && (a.Some? ==> Shrunk(a.value, aNew.value))
  }

  /** A directory may lose entries; nothing else about an object changes. */
  predicate Trimmed(a: Obj, b: Obj) {
    if a.Directory? then
      b.Directory? && b.dirdata == a.dirdata && forall e :: e in b.entries ==> e in a.entries
    else a == b
  }

  /** Objects may go and directories may lose entries; nothing is added or rewritten. */
  ghost predicate FsShrunk(f: Fs, g: Fs) {
    forall h :: h in g ==> h in f && Trimmed(f[h], g[h])
  }

  /** What an object is made of stays; entries may come and go. */
  predicate Kin(a: Obj, b: Obj) {
    if a.Directory? then b.Directory? && b.dirdata == a.dirdata else a == b
  }

  /** Objects may go and directories may change their entries; nothing else changes. */
  ghost predicate SameParts(f: Fs, g: Fs) {
    forall h :: h in g ==> h in f && Kin(f[h], g[h])
  }

  /** A real directory has dirdata, and the null handle is never listed. */
  ghost predicate Sound(st: State) {
    && Servers(st.main, st.alt)
    && !Listed(st, NULL_HANDLE)
    && forall h :: h in st.fs && st.fs[h].Directory? && st.fs[h].dirdata.Some? ==> st.fs[h].dirdata.value != []
  }

  ghost predicate Smaller(st: State, r: State) {
    ListsShrunk(st.main, st.alt, r.main, r.alt) && FsShrunk(st.fs, r.fs)
  }

  lemma InShrunk(p: Lists, q: Lists, h: Handle)
    requires Shrunk(p, q) && In(q, h)
    ensures In(p, h)
  {
    var i :| 0 <= i < |q| && h in q[i];
    ShrunkIn(p, q, h, i);
  }

  lemma SmallerLeft(st: State, r: State)
    requires Smaller(st, r)
    ensures Left(r.main, r.alt) <= Left(st.main, st.alt)
    ensures forall h :: Listed(r, h) ==> Listed(st, h)
    ensures Sound(st) ==> Sound(r)
  {
    SizeShrunk(st.main, r.main);
    if st.alt.Some? { SizeShrunk(st.alt.value, r.alt.value); }
    forall h | Listed(r, h) ensures Listed(st, h) {
      if In(r.main, h) { InShrunk(st.main, r.main, h); } else { InShrunk(st.alt.value, r.alt.value, h); }
    }
  }

  lemma SmallerTrans(a: State, b: State, c: State)
    requires Smaller(a, b) && Smaller(b, c)
    ensures Smaller(a, c)
  {
    ShrunkTrans(a.main, b.main, c.main);
    if a.alt.Some? { ShrunkTrans(a.alt.value, b.alt.value, c.alt.value); }
    forall h | h in c.fs ensures h in a.fs && Trimmed(a.fs[h], c.fs[h]) {
      assert h in b.fs && Trimmed(b.fs[h], c.fs[h]);
    }
  }

  lemma ListsKept(m: Lists, a: Option<Lists>)
    ensures ListsShrunk(m, a, m, a)
  {
  }

  lemma SmallerDirent(o: Options, st: State, dir: Handle, name: string)
    ensures Smaller(st, RemoveDirent(o, st, dir, name))
  {
    var r := RemoveDirent(o, st, dir, name);
    ListsKept(st.main, st.alt);
    assert r.main == st.main && r.alt == st.alt;
    assert FsShrunk(st.fs, r.fs);
  }

  lemma SmallerObject(o: Options, st: State, h: Handle)
    ensures Smaller(st, RemoveObject(o, st, h))
  {
    var r := RemoveObject(o, st, h);
    ListsKept(st.main, st.alt);
    assert r.main == st.main && r.alt == st.alt;
    assert FsShrunk(st.fs, r.fs);
  }

  lemma {:induction false} DrainShrinks(main: Lists, alt: Option<Lists>, hs: seq<Handle>, idx: nat)
    requires Servers(main, alt) && idx < |main|
    ensures var d := DrainAll(main, alt, hs, idx);
            d.Drained? ==> ListsShrunk(main, alt, d.main, d.alt)
    decreases |hs|
  {
    if hs != [] {
      if hs[0] == NULL_HANDLE {
        DrainShrinks(main, alt, hs[1..], idx);
      } else if In(main, hs[0]) {
        var i := Find(main, hs[0]).value;
        var m := RemoveAt(main, hs[0], i);
        RemoveAtShrinks(main, hs[0], i);
        DrainShrinks(m, alt, hs[1..], i);
        var d := DrainAll(m, alt, hs[1..], i);
        if d.Drained? { ShrunkTrans(main, m, d.main); }
      } else if alt.Some? {
        var a := RemoveAt(alt.value, hs[0], idx);
        RemoveAtShrinks(alt.value, hs[0], idx);
        DrainShrinks(main, Some(a), hs[1..], idx);
        var d := DrainAll(main, Some(a), hs[1..], idx);
        if d.Drained? { ShrunkTrans(alt.value, a, d.alt.value); }
      }
    }
  }

  /** What the first loop knows when nothing is missing. */
  lemma {:induction false} ProbeComplete(main: Lists, alt: Option<Lists>, hs: seq<Handle>, idx: nat)
    requires Servers(main, alt) && idx < |main|
    ensures var p := ProbeAll(main, alt, hs, idx);
            && (p.missing == 0 <==> forall h :: h in hs ==> Where(main, alt, h).Some?)
            && (p.missing == 0 ==> p.found == hs)
            && (p.missing == 0 && hs != [] ==> Some(p.idx) == Where(main, alt, hs[|hs| - 1]))
  {
    if hs != [] {
      var w := Where(main, alt, hs[0]);
      ProbeComplete(main, alt, hs[1..], if w.Some? then w.value else idx);
    }
  }

  /** The second loop removes something if a handle is in the first list, or the last one is where `idx` says. */
  lemma {:induction false} DrainTakes(main: Lists, alt: Option<Lists>, hs: seq<Handle>, idx: nat)
    requires Servers(main, alt) && idx < |main|
    requires hs != [] && NULL_HANDLE !in hs
    requires (exists h :: h in hs && In(main, h)) || (alt.Some? && hs[|hs| - 1] in alt.value[idx])
    ensures var d := DrainAll(main, alt, hs, idx);
            d.Drained? ==> Left(d.main, d.alt) < Left(main, alt)
    decreases |hs|
  {
    if In(main, hs[0]) {
      var i := Find(main, hs[0]).value;
      var m := RemoveAt(main, hs[0], i);
      RemoveAtShrinks(main, hs[0], i);
      DrainShrinks(m, alt, hs[1..], i);
      LeftShrinks(m, alt, DrainAll(m, alt, hs[1..], i));
    } else if alt.Some? {
      var a := RemoveAt(alt.value, hs[0], idx);
      RemoveAtShrinks(alt.value, hs[0], idx);
      if hs[0] in alt.value[idx] {
        DrainShrinks(main, Some(a), hs[1..], idx);
        LeftShrinks(main, Some(a), DrainAll(main, Some(a), hs[1..], idx));
      } else {
        assert a == alt.value;
        DrainTakes(main, alt, hs[1..], idx);
      }
    }
  }

  lemma LeftShrinks(m: Lists, a: Option<Lists>, d: Drained)
    requires d.Drained? ==> ListsShrunk(m, a, d.main, d.alt)
    ensures d.Drained? ==> Left(d.main, d.alt) <= Left(m, a)
  {
    if d.Drained? {
      SizeShrunk(m, d.main);
      if a.Some? { SizeShrunk(a.value, d.alt.value); }
    }
  }

  /** A claim never adds handles, and a complete claim of a non-empty array takes at least one away. */
  lemma ClaimShrinks(main: Lists, alt: Option<Lists>, hs: seq<Handle>)
    requires Servers(main, alt)
    requires !In(main, NULL_HANDLE) && (alt.Some? ==> !In(alt.value, NULL_HANDLE))
    ensures var c := ClaimAll(main, alt, hs);
            c.Claim? ==> ListsShrunk(main, alt, c.main, c.alt)
                         && (c.complete && hs != [] ==> Left(c.main, c.alt) < Left(main, alt))
  {
    var p := ProbeAll(main, alt, hs, 0);
    DrainShrinks(main, alt, p.found, p.idx);
    ProbeComplete(main, alt, hs, 0);
    if p.missing == 0 && hs != [] {
      var last := hs[|hs| - 1];
      assert last in hs;
      DrainTakes(main, alt, hs, p.idx);
    }
  }

  // ---------- the walk ----------

  /** match_dirdata; it fails at once when the dirdata array cannot be fetched. */
  function MatchDirdata(main: Lists, alt: Option<Lists>, dirdata: Option<seq<Handle>>): Claim
    requires Servers(main, alt)
  {
    if dirdata.None? then Claim(main, alt, false) else ClaimAll(main, alt, dirdata.value)
  }

  lemma MatchShrinks(main: Lists, alt: Option<Lists>, dirdata: Option<seq<Handle>>)
    requires Servers(main, alt)
    requires !In(main, NULL_HANDLE) && (alt.Some? ==> !In(alt.value, NULL_HANDLE))
    requires dirdata.Some? ==> dirdata.value != []
    ensures var c := MatchDirdata(main, alt, dirdata);
            c.Claim? ==> ListsShrunk(main, alt, c.main, c.alt)
                         && (c.complete ==> Left(c.main, c.alt) < Left(main, alt))
  {
    if dirdata.Some? { ClaimShrinks(main, alt, dirdata.value); }
  }

  /** The state after the two loops; a NULL list stops the program. */
  function AfterClaim(st: State, c: Claim): State {
    if c.Crash? then st.(halted := true) else st.(main := c.main, alt := c.alt)
  }

  /** An entry that cannot be saved: its object goes, then the entry itself. */
  function Discard(o: Options, st: State, dir: Handle, e: Dirent): (r: State)
    ensures r.main == st.main && r.alt == st.alt
    ensures r.walked == st.walked && r.links == st.links && r.kept == st.kept
  {
    RemoveDirent(o, RemoveObject(o, st, e.handle), dir, e.name)
  }

  /** An entry that stays. */
  function Keep(st: State, dir: Handle, e: Dirent): (r: State)
    ensures r == st.(links := r.links)
  {
    if st.halted then st else st.(links := st.links + {Link(dir, e.name, e.handle)})
  }

  /** The end of the loop body: the entry's handle leaves the list it was found on. */
  function Unlist(st: State, h: Handle, inMain: bool, i: nat): (r: State)
    requires i < |st.main| && (!inMain ==> st.alt.Some? && i < |st.alt.value|)
    ensures r == st.(main := r.main, alt := r.alt)
  {
    if st.halted then st
    else if inMain then st.(main := RemoveAt(st.main, h, i))
    else st.(alt := Some(RemoveAt(st.alt.value, h, i)))
  }

  /** What becomes of a file, given the outcome `c` of verify_datafiles: it stays exactly when no datafile was missing. */
  function FileOutcome(o: Options, st: State, c: Claim, dir: Handle, e: Dirent): State {
    var s := AfterClaim(st, c);
    if c.Crash? then s
    else if c.complete then Keep(s.(kept := s.kept + {e.handle}), dir, e)
    else Discard(o, s, dir, e)
  }

  /** What becomes of a directory: `c` is the outcome of match_dirdata and `w` the state after the walk, if it is walked. */
  function DirectoryOutcome(o: Options, st: State, c: Claim, w: State, dir: Handle, e: Dirent): State {
    var s := AfterClaim(st, c);
    if c.Crash? then s
    else if !c.complete then Discard(o, s, dir, e)
    else if In(st.main, e.handle) then Keep(w, dir, e)
    else Keep(s, dir, e)
  }

  lemma SmallerDiscard(o: Options, st: State, dir: Handle, e: Dirent)
    ensures Smaller(st, Discard(o, st, dir, e))
  {
    var s := RemoveObject(o, st, e.handle);
    SmallerObject(o, st, e.handle);
    SmallerDirent(o, s, dir, e.name);
    SmallerTrans(st, s, RemoveDirent(o, s, dir, e.name));
  }

  lemma UnlistShrinks(st: State, s: State, h: Handle, inMain: bool, i: nat)
    requires Smaller(st, s)
    requires i < |s.main| && (!inMain ==> s.alt.Some? && i < |s.alt.value|)
    ensures Smaller(st, Unlist(s, h, inMain, i))
  {
    RemoveAtShrinks(s.main, h, i);
    if !inMain { RemoveAtShrinks(s.alt.value, h, i); }
    SmallerTrans(st, s, Unlist(s, h, inMain, i));
  }

  /** descend: visit the entries of a directory, as they were when the walk reached it. */
  function Descend(o: Options, st: State, dir: Handle): (r: State)
    requires Sound(st)
    ensures Smaller(st, r)
    decreases Left(st.main, st.alt), 2, 0
  {
    if st.halted then st
    else WalkEntries(o, st.(walked := st.walked + [dir]), dir, Entries(st.fs, dir))
  }

  function WalkEntries(o: Options, st: State, dir: Handle, es: seq<Dirent>): (r: State)
    requires Sound(st)
    ensures Smaller(st, r)
    decreases Left(st.main, st.alt), 1, |es|
  {
    if st.halted || es == [] then st
    else
      var s := Visit(o, st, dir, es[0]);
      SmallerLeft(st, s);
      var r := WalkEntries(o, s, dir, es[1..]);
      SmallerTrans(st, s, r);
      r
  }

  /** The body of descend's loop. */
  function Visit(o: Options, st: State, dir: Handle, e: Dirent): (r: State)
    requires Sound(st)
    ensures Smaller(st, r)
    decreases Left(st.main, st.alt), 0, 2
  {
    var h := e.handle;
    var w := Where(st.main, st.alt, h);
    if w.None? then
      SmallerDirent(o, st, dir, e.name);
      RemoveDirent(o, st, dir, e.name)
    else
      var s := Judge(o, st, dir, e);
      UnlistShrinks(st, s, h, In(st.main, h), w.value);
      Unlist(s, h, In(st.main, h), w.value)
  }

  /** The switch on the object's type for an entry whose handle is on a list. */
  function Judge(o: Options, st: State, dir: Handle, e: Dirent): (r: State)
    requires Sound(st)
    ensures Smaller(st, r)
    decreases Left(st.main, st.alt), 0, 1
  {
    SmallerDirent(o, st, dir, e.name);
    SmallerDiscard(o, st, dir, e);
    var a := GetAttr(st.fs, e.handle);
    if a.None? then RemoveDirent(o, st, dir, e.name)
    else if a.value.Metafile? then JudgeFile(o, st, dir, e, a.value.dfiles)
    else if a.value.Directory? then JudgeDirectory(o, st, dir, e, a.value.dirdata)
    else if a.value.Symlink? then Keep(st, dir, e)
    else Discard(o, st, dir, e)
  }

  /** A file: verify_datafiles decides. */
  function JudgeFile(o: Options, st: State, dir: Handle, e: Dirent, dfiles: seq<Handle>): (r: State)
    requires Sound(st)
    ensures Smaller(st, r)
  {
    var c := ClaimAll(st.main, st.alt, dfiles);
    ClaimShrinks(st.main, st.alt, dfiles);
    var s := AfterClaim(st, c);
    SmallerDiscard(o, s, dir, e);
    SmallerTrans(st, s, Discard(o, s, dir, e));
    FileOutcome(o, st, c, dir, e)
  }

  /** A directory: match_dirdata decides, and it is walked when it came from the first list. */
  function JudgeDirectory(o: Options, st: State, dir: Handle, e: Dirent, dirdata: Option<seq<Handle>>): (r: State)
    requires Sound(st) && (dirdata.Some? ==> dirdata.value != [])
    ensures Smaller(st, r)
    decreases Left(st.main, st.alt), 0, 0
  {
    var c := MatchDirdata(st.main, st.alt, dirdata);
    MatchShrinks(st.main, st.alt, dirdata);
    var s := AfterClaim(st, c);
    SmallerLeft(st, s);
    SmallerDiscard(o, s, dir, e);
    SmallerTrans(st, s, Discard(o, s, dir, e));
    var w := if c.Claim? && c.complete && In(st.main, e.handle) then Descend(o, s, e.handle) else s;
    SmallerTrans(st, s, w);
    DirectoryOutcome(o, st, c, w, dir, e)
  }

  // ---------- how a visit unfolds ----------

  /** The end of a visit: the handle found in `st` leaves its list in `s`. */
  function Finish(st: State, s: State, h: Handle): (r: State)
    requires Servers(st.main, st.alt) && Listed(st, h)
    requires |s.main| == |st.main| && s.alt.Some? == st.alt.Some? && (s.alt.Some? ==> |s.alt.value| == |s.main|)
    ensures r == s.(main := r.main, alt := r.alt)
  {
    Unlist(s, h, In(st.main, h), Where(st.main, st.alt, h).value)
  }

  lemma VisitFile(o: Options, st: State, dir: Handle, e: Dirent)
    requires Sound(st) && Listed(st, e.handle) && e.handle in st.fs && st.fs[e.handle].Metafile?
    ensures var c := ClaimAll(st.main, st.alt, st.fs[e.handle].dfiles);
            var j := FileOutcome(o, st, c, dir, e);
            Smaller(st, j) && Visit(o, st, dir, e) == Finish(st, j, e.handle)
  {
    var j := Judge(o, st, dir, e);
    assert j == JudgeFile(o, st, dir, e, st.fs[e.handle].dfiles);
  }

  lemma MatchSound(st: State, h: Handle)
    requires Sound(st) && h in st.fs && st.fs[h].Directory?
    ensures var c := MatchDirdata(st.main, st.alt, st.fs[h].dirdata);
            && Smaller(st, AfterClaim(st, c)) && Sound(AfterClaim(st, c))
            && (c.Claim? && c.complete ==> Left(c.main, c.alt) < Left(st.main, st.alt))
  {
    MatchShrinks(st.main, st.alt, st.fs[h].dirdata);
    SmallerLeft(st, AfterClaim(st, MatchDirdata(st.main, st.alt, st.fs[h].dirdata)));
  }

  lemma VisitDirectory(o: Options, st: State, dir: Handle, e: Dirent)
    requires Sound(st) && Listed(st, e.handle) && e.handle in st.fs && st.fs[e.handle].Directory?
    ensures var c := MatchDirdata(st.main, st.alt, st.fs[e.handle].dirdata);
            && Smaller(st, AfterClaim(st, c)) && Sound(AfterClaim(st, c))
            && (c.Claim? && c.complete ==> Left(c.main, c.alt) < Left(st.main, st.alt))
            && var j := DirectoryOutcome(o, st, c, Descend(o, AfterClaim(st, c), e.handle), dir, e);
               Smaller(st, j) && Visit(o, st, dir, e) == Finish(st, j, e.handle)
  {
    MatchSound(st, e.handle);
    var c := MatchDirdata(st.main, st.alt, st.fs[e.handle].dirdata);
    var j := DirectoryOutcome(o, st, c, Descend(o, AfterClaim(st, c), e.handle), dir, e);
    assert Judge(o, st, dir, e) == JudgeDirectory(o, st, dir, e, st.fs[e.handle].dirdata);
    assert j == JudgeDirectory(o, st, dir, e, st.fs[e.handle].dirdata);
  }

  lemma VisitOther(o: Options, st: State, dir: Handle, e: Dirent)
    requires Sound(st) && Listed(st, e.handle) && e.handle in st.fs
    requires !st.fs[e.handle].Metafile? && !st.fs[e.handle].Directory? && !st.fs[e.handle].Unreadable?
    ensures var j := if st.fs[e.handle].Symlink? then Keep(st, dir, e) else Discard(o, st, dir, e);
            Smaller(st, j) && Visit(o, st, dir, e) == Finish(st, j, e.handle)
  {
    var j := Judge(o, st, dir, e);
    assert j == if st.fs[e.handle].Symlink? then Keep(st, dir, e) else Discard(o, st, dir, e);
  }

  lemma VisitUnreadable(o: Options, st: State, dir: Handle, e: Dirent)
    requires Sound(st) && Listed(st, e.handle) && GetAttr(st.fs, e.handle).None?
    ensures var j := RemoveDirent(o, st, dir, e.name);
            Smaller(st, j) && Visit(o, st, dir, e) == Finish(st, j, e.handle)
  {
    var j := Judge(o, st, dir, e);
    assert j == RemoveDirent(o, st, dir, e.name);
  }
}
