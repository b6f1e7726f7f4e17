/**
 The four passes of pvfs2-fsck and the whole run, as functions on values.
 */
module FsckPasses {
  import opened Wrappers
  import opened HandleLists
  import opened FsckModel

  /** A new, empty handle list with the servers of an old one. */
  function Fresh(l: Lists): Lists {
    seq(|l|, _ => [])
  }

  /** A handle popped from the first list is put aside in the second, under the same server. */
  function PutAside(st: State, h: Handle, i: nat): State
    requires st.alt.Some? && i < |st.alt.value|
  {
    if st.halted then st else st.(alt := Some(Add(st.alt.value, h, i)))
  }

  /** traverse_directory_tree */
  function PassOne(o: Options, st: State, root: Handle): (r: State)
    requires Sound(st) && st.alt.None?
    ensures Sound(r) && r.alt.None?
  {
    if st.halted then st
    else if GetAttr(st.fs, root).None? || !st.fs[root].Directory? || !In(st.main, root) then
      st.(halted := true)
    else
      var i := Find(st.main, root).value;
      var s := st.(main := RemoveAt(st.main, root, i));
      RemoveAtShrinks(st.main, root, i);
      SmallerLeft(st, s);
      var c := MatchDirdata(s.main, s.alt, st.fs[root].dirdata);
      MatchShrinks(s.main, s.alt, st.fs[root].dirdata);
      if c.Crash? || !c.complete then s.(halted := true)
      else
        var t := s.(main := c.main, alt := c.alt);
        SmallerLeft(s, t);
        var r := Descend(o, t, root);
        SmallerLeft(t, r);
        r
  }

  /** Pass 1 from a listed root: it leaves the list and gives up its dirdata, then the walk starts. */
  lemma RootSteps(o: Options, st: State, root: Handle)
    requires Sound(st) && st.alt.None? && !st.halted
    requires root in st.fs && st.fs[root].Directory? && In(st.main, root)
    ensures var s := st.(main := RemoveAt(st.main, root, Find(st.main, root).value));
            && Sound(s)
            && var c := MatchDirdata(s.main, s.alt, st.fs[root].dirdata);
               var t := AfterClaim(s, c);
               && Sound(t)
               && PassOne(o, st, root) == if c.Crash? || !c.complete then s.(halted := true) else Descend(o, t, root)
  {
    var s := st.(main := RemoveAt(st.main, root, Find(st.main, root).value));
    RemoveAtShrinks(st.main, root, Find(st.main, root).value);
    SmallerLeft(st, s);
    MatchSound(s, root);
  }

  /** One turn of find_sub_trees: the popped handle `h` of server `i` is already off the list. */
  function SortOut(o: Options, st: State, h: Handle, i: nat): (r: State)
    requires Sound(st) && st.alt.Some? && i < |st.main|
    ensures Shrunk(st.main, r.main) && r.alt.Some? && |r.alt.value| == |r.main|
    ensures FsShrunk(st.fs, r.fs)
  {
    SmallerObject(o, st, h);
    var a := GetAttr(st.fs, h);
    if a.None? || a.value.Unknown? then RemoveObject(o, st, h)
    else if a.value.Directory? then PutAside(Descend(o, st, h), h, i)
    else PutAside(st, h, i)
  }

  /** The loop of find_sub_trees. */
  function SubTrees(o: Options, st: State): (r: State)
    requires Sound(st) && st.alt.Some?
    ensures r.alt.Some? && Sound(r)
    decreases Size(st.main)
  {
    var i := PopServer(st.main);
    if st.halted || i.None? then st
    else
      var h := Top(st.main, i.value);
      var s := st.(main := PopAt(st.main, i.value));
      PopSound(st, i.value);
      var t := SortOut(o, s, h, i.value);
      SizeShrunk(s.main, t.main);
      SortOutSound(o, s, h, i.value);
      SubTrees(o, t)
  }

  /** find_sub_trees */
  function PassTwo(o: Options, st: State): (r: State)
    requires Sound(st)
    ensures Sound(r) && r.alt.Some?
  {
    FreshEmpty(st.main);
    SubTrees(o, st.(alt := Some(Fresh(st.main))))
  }

  function Top(l: Lists, i: nat): Handle
    requires i < |l| && l[i] != []
  {
    l[i][|l[i]| - 1]
  }

  lemma FreshEmpty(l: Lists)
    ensures forall h :: !In(Fresh(l), h)
  {
  }

  lemma PopSound(st: State, i: nat)
    requires Sound(st) && i < |st.main| && st.main[i] != []
    ensures var s := st.(main := PopAt(st.main, i));
            Smaller(st, s) && Sound(s) && Size(s.main) < Size(st.main)
    ensures Top(st.main, i) != NULL_HANDLE && In(st.main, Top(st.main, i))
  {
    PopShrinks(st.main, i);
    SmallerLeft(st, st.(main := PopAt(st.main, i)));
    assert Top(st.main, i) in st.main[i];
  }

  lemma AddIn(l: Lists, h: Handle, i: nat, x: Handle)
    requires i < |l|
    ensures In(Add(l, h, i), x) <==> In(l, x) || x == h
  {
    var r := Add(l, h, i);
    if In(l, x) { var j :| 0 <= j < |l| && x in l[j]; assert x in r[j]; }
    if x == h { assert x in r[i]; }
    if In(r, x) { var j :| 0 <= j < |r| && x in r[j]; assert x in l[j] || x == h; }
  }

  lemma PutAsideSound(st: State, h: Handle, i: nat)
    requires Sound(st) && st.alt.Some? && i < |st.alt.value| && h != NULL_HANDLE
    ensures Sound(PutAside(st, h, i))
  {
    AddIn(st.alt.value, h, i, NULL_HANDLE);
  }

  lemma SortOutSound(o: Options, st: State, h: Handle, i: nat)
    requires Sound(st) && st.alt.Some? && i < |st.main| && h != NULL_HANDLE
    ensures Sound(SortOut(o, st, h, i))
  {
    SmallerObject(o, st, h);
    SmallerLeft(st, RemoveObject(o, st, h));
    PutAsideSound(st, h, i);
    var a := GetAttr(st.fs, h);
    if a.Some? && a.value.Directory? {
      var t := Descend(o, st, h);
      SmallerLeft(st, t);
      PutAsideSound(t, h, i);
    }
  }

  // ---------- pass 3 ----------

  function Decimal(n: nat): string {
    if n < 10 then [('0' as int + n) as char] else Decimal(n / 10) + [('0' as int + n % 10) as char]
  }

  /** create_dirent; the second result tells whether it succeeded. */
  function CreateDirent(o: Options, st: State, dir: Handle, name: string, h: Handle): (r: (State, bool))
    ensures r.0.main == st.main && r.0.alt == st.alt && r.0.halted == st.halted
  {
    if !o.destructive then (st, true)
    else if dir in st.fs && st.fs[dir].Directory? && !HasEntry(st.fs, dir, name) then
      (st.(fs := st.fs[dir := st.fs[dir].(entries := st.fs[dir].entries + [Dirent(name, h)])],
           log := st.log + [DirentCreated(dir, name, h)],
           links := st.links + {Link(dir, name, h)}), true)
    else (st, false)
  }

  /** fill_lost_and_found on an orphaned file. */
  function SalvageFile(o: Options, st: State, laf: Handle, h: Handle, dfiles: seq<Handle>): (r: State)
    requires Sound(st)
    ensures ListsShrunk(st.main, st.alt, r.main, r.alt)
  {
    var c := ClaimAll(st.main, st.alt, dfiles);
    ClaimShrinks(st.main, st.alt, dfiles);
    if c.Crash? then st.(halted := true)
    else
      var s := st.(main := c.main, alt := c.alt);
      if !c.complete then RemoveObject(o, s, h)
      else
        var (t, ok) := CreateDirent(o, s.(kept := s.kept + {h}), laf, "lostfile." + Decimal(h), h);
        if ok then t else t.(halted := true)
  }

  /** fill_lost_and_found on an orphaned directory: the entry is made even when the object was just removed. */
  function SalvageDirectory(o: Options, st: State, laf: Handle, h: Handle, dirdata: Option<seq<Handle>>): (r: State)
    requires Sound(st) && (dirdata.Some? ==> dirdata.value != [])
    ensures ListsShrunk(st.main, st.alt, r.main, r.alt)
  {
    var c := MatchDirdata(st.main, st.alt, dirdata);
    MatchShrinks(st.main, st.alt, dirdata);
    if c.Crash? then st.(halted := true)
    else
      var s := st.(main := c.main, alt := c.alt);
      var u := if c.complete then s else RemoveObject(o, s, h);
      if u.halted then u else NameDirectory(o, u, laf, h)
  }

  /** An orphaned directory gets a name in lost+found, or goes. */
  function NameDirectory(o: Options, st: State, laf: Handle, h: Handle): (r: State)
    ensures r.main == st.main && r.alt == st.alt
  {
    var (t, ok) := CreateDirent(o, st, laf, "lostdir." + Decimal(h), h);
    if ok then t else RemoveObject(o, t, h)
  }

  /** One turn of fill_lost_and_found. */
  function Salvage(o: Options, st: State, laf: Handle, h: Handle, i: nat): (r: State)
    requires Sound(st) && st.alt.Some? && i < |st.main|
    ensures Shrunk(st.main, r.main) && r.alt.Some? && |r.alt.value| == |r.main|
  {
    var a := GetAttr(st.fs, h);
    if a.None? || a.value.Datafile? || a.value.Dirdata? then PutAside(st, h, i)
    else if a.value.Metafile? then SalvageFile(o, st, laf, h, a.value.dfiles)
    else if a.value.Directory? then SalvageDirectory(o, st, laf, h, a.value.dirdata)
    else st
  }

  lemma CreateParts(o: Options, st: State, dir: Handle, name: string, h: Handle)
    ensures SameParts(st.fs, CreateDirent(o, st, dir, name, h).0.fs)
  {
  }

  lemma RemoveParts(o: Options, st: State, h: Handle)
    ensures SameParts(st.fs, RemoveObject(o, st, h).fs)
  {
  }

  lemma SalvageParts(o: Options, st: State, laf: Handle, h: Handle, i: nat)
    requires Sound(st) && st.alt.Some? && i < |st.main|
    ensures SameParts(st.fs, Salvage(o, st, laf, h, i).fs)
  {
    var b := GetAttr(st.fs, h);
    if b.Some? && b.value.Metafile? {
      var s := AfterClaim(st, ClaimAll(st.main, st.alt, b.value.dfiles));
      RemoveParts(o, s, h);
      CreateParts(o, s.(kept := s.kept + {h}), laf, "lostfile." + Decimal(h), h);
    } else if b.Some? && b.value.Directory? {
      var c := MatchDirdata(st.main, st.alt, b.value.dirdata);
      var s := AfterClaim(st, c);
      RemoveParts(o, s, h);
      var u := if c.Claim? && c.complete then s else RemoveObject(o, s, h);
      CreateParts(o, u, laf, "lostdir." + Decimal(h), h);
      RemoveParts(o, CreateDirent(o, u, laf, "lostdir." + Decimal(h), h).0, h);
    }
  }

  lemma SalvageSound(o: Options, st: State, laf: Handle, h: Handle, i: nat)
    requires Sound(st) && st.alt.Some? && i < |st.main| && h != NULL_HANDLE
    ensures Sound(Salvage(o, st, laf, h, i))
  {
    var r := Salvage(o, st, laf, h, i);
    SalvageParts(o, st, laf, h, i);
    PutAsideSound(st, h, i);
    if ListsShrunk(st.main, st.alt, r.main, r.alt) {
      SmallerLeft(st, st.(main := r.main, alt := r.alt));
    }
  }

  /** The loop of fill_lost_and_found. */
  function FillLoop(o: Options, st: State, laf: Handle): (r: State)
    requires Sound(st) && st.alt.Some?
    ensures r.alt.Some? && Sound(r)
    decreases Size(st.main)
  {
    var i := PopServer(st.main);
    if st.halted || i.None? then st
    else
      var h := Top(st.main, i.value);
      var s := st.(main := PopAt(st.main, i.value));
      PopSound(st, i.value);
      var t := Salvage(o, s, laf, h, i.value);
      SizeShrunk(s.main, t.main);
      SalvageSound(o, s, laf, h, i.value);
      FillLoop(o, t, laf)
  }

  /** fill_lost_and_found: what pass 2 put aside is now the first list. */
  function PassThree(o: Options, st: State, laf: Handle): (r: State)
    requires Sound(st) && st.alt.Some?
    ensures Sound(r) && r.alt.Some?
  {
    FreshEmpty(st.alt.value);
    FillLoop(o, st.(main := st.alt.value, alt := Some(Fresh(st.alt.value))), laf)
  }

  // ---------- pass 4 ----------

  /** One turn of cull_leftovers, with its two asserts. */
  function CullOne(o: Options, st: State, h: Handle): (r: State)
    ensures r.main == st.main && r.alt == st.alt && FsShrunk(st.fs, r.fs)
  {
    SmallerObject(o, st, h);
    var a := GetAttr(st.fs, h);
    if a.Some? && (a.value.Metafile? || a.value.Directory?) then st.(halted := true)
    else RemoveObject(o, st, h)
  }

  function CullLoop(o: Options, st: State): (r: State)
    requires Sound(st)
    decreases Size(st.main)
  {
    var i := PopServer(st.main);
    if st.halted || i.None? then st
    else
      var h := Top(st.main, i.value);
      var s := st.(main := PopAt(st.main, i.value));
      PopSound(st, i.value);
      var t := CullOne(o, s, h);
      ListsKept(s.main, s.alt);
      SmallerLeft(s, t);
      CullLoop(o, t)
  }

  /** cull_leftovers */
  function PassFour(o: Options, st: State): State
    requires Sound(st) && st.alt.Some?
  {
    CullLoop(o, st.(main := st.alt.value, alt := None))
  }

  /** main, after the lists are built: each pass runs unless an earlier one stopped the program. */
  function Run(o: Options, st: State, root: Handle, laf: Handle): State
    requires Sound(st) && st.alt.None?
  {
    var s1 := PassOne(o, st, root);
    if s1.halted then s1 else
    var s2 := PassTwo(o, s1);
    if s2.halted then s2 else
    var s3 := PassThree(o, s2, laf);
    if s3.halted then s3 else
    PassFour(o, s3)
  }
}
