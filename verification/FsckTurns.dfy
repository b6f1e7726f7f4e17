/**
 The turns of passes 2, 3 and 4, and what each pass as a whole keeps.
 */
module FsckTurns {
  import opened Wrappers
  import opened HandleLists
  import opened FsckModel
  import opened FsckPasses
  import opened FsckFrame
  import opened FsckLinks
  import opened FsckIntact
  import opened FsckPassOne

  // ---------- what a pass may do ----------

  /** An object that is on no list stays, off the lists and made of the same parts; the rest is as for a walk. */
  ghost predicate Respects(o: Options, st: State, r: State) {
    && (forall x :: x in st.fs && !Listed(st, x) ==> x in r.fs && !Listed(r, x))
    && SameParts(st.fs, r.fs)
    && (!o.destructive ==> r.fs == st.fs)
    && (Paced(o, st) ==> Paced(o, r))
    && st.kept <= r.kept && st.links <= r.links
  }

  lemma RespectsTrans(o: Options, a: State, b: State, c: State)
    requires Respects(o, a, b) && Respects(o, b, c)
    ensures Respects(o, a, c)
  {
  }

  lemma SmallerRespects(o: Options, st: State, r: State)
    requires Smaller(st, r) && OnlyListedGone(st, r) && (!o.destructive ==> r.fs == st.fs)
    requires Paced(o, st) ==> Paced(o, r)
    requires st.kept <= r.kept && st.links <= r.links
    ensures Respects(o, st, r)
  {
    SmallerLeft(st, r);
  }

  /** The popped handle was listed before and is not any more. */
  lemma PopGone(st: State, i: nat)
    requires Sound(st) && Unique(st) && i < |st.main| && st.main[i] != []
    ensures var s := st.(main := PopAt(st.main, i));
            && Smaller(st, s) && Sound(s) && Unique(s) && Size(s.main) < Size(st.main)
            && Listed(st, Top(st.main, i)) && !Listed(s, Top(st.main, i)) && Top(st.main, i) != NULL_HANDLE
            && (forall x :: x != Top(st.main, i) ==> (Listed(s, x) <==> Listed(st, x)))
  {
    var s := st.(main := PopAt(st.main, i));
    var h := Top(st.main, i);
    PopSound(st, i);
    UniqueShrinks(st, s);
    assert Times(st, h) <= 1;
    CountIn(st.main, h);
    PopCount(st.main, i, h);
    TimesListed(s, h);
    forall x | x != h ensures Listed(s, x) <==> Listed(st, x) {
      PopCount(st.main, i, x);
      TimesListed(s, x);
      TimesListed(st, x);
    }
  }

  lemma AsideListed(st: State, h: Handle, i: nat, x: Handle)
    requires st.alt.Some? && i < |st.alt.value| && !st.halted
    ensures Listed(PutAside(st, h, i), x) <==> Listed(st, x) || x == h
  {
    AddIn(st.alt.value, h, i, x);
  }

  lemma AsideUnique(st: State, h: Handle, i: nat)
    requires Unique(st) && st.alt.Some? && i < |st.alt.value| && !Listed(st, h)
    ensures Unique(PutAside(st, h, i))
  {
    if !st.halted {
      forall x ensures Times(PutAside(st, h, i), x) <= 1 {
        AddCount(st.alt.value, h, i, x);
        TimesListed(st, h);
        assert Times(st, x) <= 1;
      }
    }
  }

  /** Putting a popped handle aside: seen from before the pop, nothing joined the lists. */
  lemma AsideRespects(o: Options, st: State, s: State, h: Handle, i: nat)
    requires Listed(st, h) && s.alt.Some? && i < |s.alt.value| && Respects(o, st, s)
    ensures Respects(o, st, PutAside(s, h, i))
  {
    if !s.halted {
      forall x ensures Listed(PutAside(s, h, i), x) <==> Listed(s, x) || x == h { AsideListed(s, h, i, x); }
    }
  }

  lemma RemoveRespects(o: Options, st: State, s: State, h: Handle)
    requires Listed(st, h) && Respects(o, st, s)
    ensures Respects(o, st, RemoveObject(o, s, h))
  {
    if Paced(o, s) { ObjectPaced(o, s, h); }
    RemoveParts(o, s, h);
    assert forall x :: Listed(RemoveObject(o, s, h), x) <==> Listed(s, x);
  }

  lemma PopRespects(o: Options, st: State, i: nat)
    requires Sound(st) && Unique(st) && i < |st.main| && st.main[i] != []
    ensures Respects(o, st, st.(main := PopAt(st.main, i)))
  {
    PopGone(st, i);
    SmallerRespects(o, st, st.(main := PopAt(st.main, i)));
  }

  // ---------- pass 2 ----------

  lemma SortOutRespects(o: Options, st: State, i: nat)
    requires Sound(st) && Unique(st) && st.alt.Some? && i < |st.main| && st.main[i] != []
    ensures Respects(o, st, SortOut(o, st.(main := PopAt(st.main, i)), Top(st.main, i), i))
  {
    var h := Top(st.main, i);
    var s := st.(main := PopAt(st.main, i));
    PopGone(st, i);
    PopRespects(o, st, i);
    var b := GetAttr(s.fs, h);
    if b.Some? && b.value.Directory? {
      DescendRespects(o, s, h);
      RespectsTrans(o, st, s, Descend(o, s, h));
      AsideRespects(o, st, Descend(o, s, h), h, i);
    } else if b.None? || b.value.Unknown? {
      RemoveRespects(o, st, s, h);
    } else {
      AsideRespects(o, st, s, h, i);
    }
  }

  lemma DescendRespects(o: Options, st: State, dir: Handle)
    requires Sound(st)
    ensures Respects(o, st, Descend(o, st, dir))
  {
    DescendFramed(o, st.fs, st, dir);
    SmallerRespects(o, st, Descend(o, st, dir));
  }

  lemma {:induction false} SubTreesRespects(o: Options, st: State)
    requires Sound(st) && Unique(st) && st.alt.Some?
    ensures Respects(o, st, SubTrees(o, st)) && Unique(SubTrees(o, st))
    decreases Size(st.main)
  {
    var i := PopServer(st.main);
    if !st.halted && i.Some? {
      var s := st.(main := PopAt(st.main, i.value));
      var h := Top(st.main, i.value);
      var t := SortOut(o, s, h, i.value);
      PopGone(st, i.value);
      SortOutRespects(o, st, i.value);
      SortOutUnique(o, s, h, i.value);
      SortOutSound(o, s, h, i.value);
      SizeShrunk(s.main, t.main);
      SubTreesRespects(o, t);
      RespectsTrans(o, st, t, SubTrees(o, t));
    }
  }

  lemma SortOutUnique(o: Options, st: State, h: Handle, i: nat)
    requires Sound(st) && Unique(st) && st.alt.Some? && i < |st.main| && !Listed(st, h)
    ensures Unique(SortOut(o, st, h, i))
  {
    SmallerObject(o, st, h);
    UniqueShrinks(st, RemoveObject(o, st, h));
    AsideUnique(st, h, i);
    var b := GetAttr(st.fs, h);
    if b.Some? && b.value.Directory? {
      var t := Descend(o, st, h);
      UniqueShrinks(st, t);
      SmallerLeft(st, t);
      AsideUnique(t, h, i);
    }
  }

  /** One turn of pass 2 keeps the invariant of the walks. */
  lemma SortOutInv(o: Options, st: State, h: Handle, i: nat)
    requires Sound(st) && st.alt.Some? && i < |st.main| && !st.halted
    requires Inv(o, st, {}, {}) && !Listed(st, h) && h !in st.walked && forall l :: l in st.links ==> l.target != h
    ensures var r := SortOut(o, st, h, i);
            !r.halted ==> Inv(o, r, {}, {})
  {
    var b := GetAttr(st.fs, h);
    if b.Some? && b.value.Directory? {
      var t := Descend(o, st, h);
      OpenInv(o, st, h, {});
      DescendInv(o, st, h, {h}, {});
      SmallerLeft(st, t);
      if !t.halted {
        CloseInv(o, t, h, {});
        AsideInv(o, t, h, i);
      }
    } else if b.None? || b.value.Unknown? {
      SmallerObject(o, st, h);
      InvShrinks(o, st, RemoveObject(o, st, h), {}, {});
    } else {
      AsideInv(o, st, h, i);
    }
  }

  lemma AsideInv(o: Options, st: State, h: Handle, i: nat)
    requires Sound(st) && st.alt.Some? && i < |st.main| && !st.halted
    requires Inv(o, st, {}, {}) && !Listed(st, h) && forall l :: l in st.links ==> l.target != h
    ensures Inv(o, PutAside(st, h, i), {}, {})
  {
    var r := PutAside(st, h, i);
    AsideUnique(st, h, i);
    forall x ensures Listed(r, x) <==> Listed(st, x) || x == h { AsideListed(st, h, i, x); }
  }

  lemma {:induction false} SubTreesInv(o: Options, st: State)
    requires Sound(st) && st.alt.Some? && (!st.halted ==> Inv(o, st, {}, {}))
    ensures var r := SubTrees(o, st);
            !r.halted ==> Inv(o, r, {}, {}) && forall h :: !In(r.main, h)
    decreases Size(st.main)
  {
    var i := PopServer(st.main);
    if !st.halted && i.Some? {
      var s := st.(main := PopAt(st.main, i.value));
      var h := Top(st.main, i.value);
      var t := SortOut(o, s, h, i.value);
      PopGone(st, i.value);
      PopSound(st, i.value);
      InvShrinks(o, st, s, {}, {});
      assert h !in st.walked;
      SortOutInv(o, s, h, i.value);
      SortOutSound(o, s, h, i.value);
      SizeShrunk(s.main, t.main);
      SubTreesInv(o, t);
    }
  }

  /** Pass 2 leaves only handles that have objects on the lists. */
  lemma SortOutBacked(o: Options, st: State, i: nat)
    requires Sound(st) && Unique(st) && Backed(st) && st.alt.Some? && i < |st.main| && st.main[i] != []
    ensures var r := SortOut(o, st.(main := PopAt(st.main, i)), Top(st.main, i), i);
            !r.halted ==> Backed(r)
  {
    var h := Top(st.main, i);
    var s := st.(main := PopAt(st.main, i));
    PopGone(st, i);
    assert Backed(s);
    var b := GetAttr(s.fs, h);
    if b.Some? && b.value.Directory? {
      WalkedBacked(o, s, h);
      AsideBacked(Descend(o, s, h), h, i);
    } else if b.None? || b.value.Unknown? {
      RemoveBacked(o, s, h);
    } else {
      AsideBacked(s, h, i);
    }
  }

  lemma WalkedBacked(o: Options, st: State, h: Handle)
    requires Sound(st) && Unique(st) && Backed(st) && h in st.fs && !Listed(st, h)
    ensures var t := Descend(o, st, h);
            h in t.fs && (!t.halted ==> Backed(t))
  {
    DescendBacked(o, st, h);
    DescendRespects(o, st, h);
  }

  lemma AsideBacked(st: State, h: Handle, i: nat)
    requires st.alt.Some? && i < |st.alt.value| && h in st.fs && (!st.halted ==> Backed(st))
    ensures !st.halted ==> Backed(PutAside(st, h, i))
  {
    if !st.halted {
      forall x ensures Listed(PutAside(st, h, i), x) <==> Listed(st, x) || x == h { AsideListed(st, h, i, x); }
    }
  }

  lemma RemoveBacked(o: Options, st: State, h: Handle)
    requires Backed(st) && !Listed(st, h)
    ensures Backed(RemoveObject(o, st, h))
  {
    assert forall x :: Listed(RemoveObject(o, st, h), x) <==> Listed(st, x);
  }

  lemma {:induction false} SubTreesBacked(o: Options, st: State)
    requires Sound(st) && Unique(st) && st.alt.Some? && (!st.halted ==> Backed(st))
    ensures var r := SubTrees(o, st);
            !r.halted ==> Backed(r)
    decreases Size(st.main)
  {
    var i := PopServer(st.main);
    if !st.halted && i.Some? {
      var s := st.(main := PopAt(st.main, i.value));
      var h := Top(st.main, i.value);
      var t := SortOut(o, s, h, i.value);
      PopGone(st, i.value);
      SortOutBacked(o, st, i.value);
      SortOutUnique(o, s, h, i.value);
      SortOutSound(o, s, h, i.value);
      SizeShrunk(s.main, t.main);
      SubTreesBacked(o, t);
    }
  }

  // ---------- between the passes ----------

  lemma {:induction false} FreshCount(l: Lists, h: Handle)
    ensures Count(Fresh(l), h) == 0
    decreases |l|
  {
    FreshEmpty(l);
    CountIn(Fresh(l), h);
  }

  /** The second list becomes the first one, and the new second list is empty or absent. */
  function NextPass(st: State, alt: Option<Lists>): State
    requires st.alt.Some?
  {
    st.(main := st.alt.value, alt := alt)
  }

  lemma NextPassListed(st: State, alt: Option<Lists>)
    requires Sound(st) && Unique(st) && st.alt.Some? && alt in {None, Some(Fresh(st.alt.value))}
    ensures var s := NextPass(st, alt);
            && Sound(s) && Unique(s)
            && (forall h :: Listed(s, h) <==> In(st.alt.value, h))
            && (forall h :: Listed(s, h) ==> Listed(st, h))
  {
    var s := NextPass(st, alt);
    FreshEmpty(st.alt.value);
    forall h ensures Times(s, h) <= 1 {
      FreshCount(st.alt.value, h);
      assert Times(st, h) <= 1;
    }
  }

  lemma NextPassRespects(o: Options, st: State, alt: Option<Lists>)
    requires Sound(st) && Unique(st) && st.alt.Some? && alt in {None, Some(Fresh(st.alt.value))}
    ensures Respects(o, st, NextPass(st, alt))
  {
    NextPassListed(st, alt);
  }

  // ---------- pass 3 ----------

  /** The part of the invariant that the later passes keep. */
  ghost predicate Refs(o: Options, st: State) {
    LinksExclusive(st, {}) && (o.destructive ==> Settled(st, {}))
  }

  lemma RefsShrinks(o: Options, st: State, r: State)
    requires Refs(o, st) && r.links == st.links && r.walked == st.walked
    requires forall x :: Listed(r, x) ==> Listed(st, x)
    requires FsShrunk(st.fs, r.fs)
    ensures Refs(o, r)
  {
  }

  lemma RefsCreate(o: Options, st: State, dir: Handle, name: string, h: Handle)
    requires Refs(o, st) && !Listed(st, h) && forall l :: l in st.links ==> l.target != h
    ensures Refs(o, CreateDirent(o, st, dir, name, h).0)
  {
    var r := CreateDirent(o, st, dir, name, h).0;
    assert forall x :: Listed(r, x) <==> Listed(st, x);
    if o.destructive {
      forall d, e | d in r.walked && e in Entries(r.fs, d) ensures Link(d, e.name, e.handle) in r.links {
        assert e in Entries(st.fs, d) || (r != st && d == dir && e == Dirent(name, h));
        if e in Entries(st.fs, d) { assert Link(d, e.name, e.handle) in st.links + {}; }
      }
    }
  }

  lemma AsideRefs(o: Options, st: State, h: Handle, i: nat)
    requires Refs(o, st) && st.alt.Some? && i < |st.alt.value| && forall l :: l in st.links ==> l.target != h
    ensures Refs(o, PutAside(st, h, i))
  {
    if !st.halted {
      forall x ensures Listed(PutAside(st, h, i), x) <==> Listed(st, x) || x == h { AsideListed(st, h, i, x); }
    }
  }

  lemma RemoveRefs(o: Options, st: State, h: Handle)
    requires Refs(o, st)
    ensures Refs(o, RemoveObject(o, st, h))
  {
    SmallerObject(o, st, h);
    assert forall x :: Listed(RemoveObject(o, st, h), x) <==> Listed(st, x);
    RefsShrinks(o, st, RemoveObject(o, st, h));
  }

  lemma ClaimRefs(o: Options, st: State, c: Claim)
    requires Refs(o, st) && (c.Claim? ==> ListsShrunk(st.main, st.alt, c.main, c.alt))
    ensures Refs(o, AfterClaim(st, c))
    ensures forall x :: Listed(AfterClaim(st, c), x) ==> Listed(st, x)
  {
    var r := AfterClaim(st, c);
    ListsKept(st.main, st.alt);
    SmallerLeft(st, r);
    RefsShrinks(o, st, r);
  }

  /** One turn of pass 3: an orphan is linked once, and only if nothing else names it. */
  lemma SalvageRefs(o: Options, st: State, laf: Handle, h: Handle, i: nat)
    requires Sound(st) && st.alt.Some? && i < |st.main|
    requires Refs(o, st) && !Listed(st, h) && forall l :: l in st.links ==> l.target != h
    ensures Refs(o, Salvage(o, st, laf, h, i))
  {
    AsideRefs(o, st, h, i);
    var b := GetAttr(st.fs, h);
    if b.Some? && b.value.Metafile? {
      SalvageFileRefs(o, st, laf, h, b.value.dfiles);
    } else if b.Some? && b.value.Directory? {
      SalvageDirectoryRefs(o, st, laf, h, b.value.dirdata);
    }
  }

  lemma SalvageFileRefs(o: Options, st: State, laf: Handle, h: Handle, dfiles: seq<Handle>)
    requires Sound(st) && Refs(o, st) && !Listed(st, h) && forall l :: l in st.links ==> l.target != h
    ensures Refs(o, SalvageFile(o, st, laf, h, dfiles))
  {
    var c := ClaimAll(st.main, st.alt, dfiles);
    var s := AfterClaim(st, c);
    ClaimShrinks(st.main, st.alt, dfiles);
    ClaimRefs(o, st, c);
    if c.Claim? {
      if c.complete {
        NamedRefs(o, s, laf, "lostfile." + Decimal(h), h);
      } else {
        RemoveRefs(o, s, h);
      }
    }
  }

  lemma NamedRefs(o: Options, s: State, laf: Handle, name: string, h: Handle)
    requires Refs(o, s) && !Listed(s, h) && forall l :: l in s.links ==> l.target != h
    ensures var t := CreateDirent(o, s.(kept := s.kept + {h}), laf, name, h).0;
            Refs(o, t) && Refs(o, t.(halted := true))
  {
    var k := s.(kept := s.kept + {h});
    assert forall x :: Listed(k, x) <==> Listed(s, x);
    RefsCreate(o, k, laf, name, h);
    var t := CreateDirent(o, k, laf, name, h).0;
    assert forall x :: Listed(t.(halted := true), x) <==> Listed(t, x);
  }

  lemma SalvageDirectoryRefs(o: Options, st: State, laf: Handle, h: Handle, dirdata: Option<seq<Handle>>)
    requires Sound(st) && Refs(o, st) && !Listed(st, h) && forall l :: l in st.links ==> l.target != h
    requires dirdata.Some? ==> dirdata.value != []
    ensures Refs(o, SalvageDirectory(o, st, laf, h, dirdata))
  {
    var c := MatchDirdata(st.main, st.alt, dirdata);
    var s := AfterClaim(st, c);
    MatchShrinks(st.main, st.alt, dirdata);
    ClaimRefs(o, st, c);
    RemoveRefs(o, s, h);
    var u := if c.Claim? && c.complete then s else RemoveObject(o, s, h);
    RefsCreate(o, u, laf, "lostdir." + Decimal(h), h);
    RemoveRefs(o, CreateDirent(o, u, laf, "lostdir." + Decimal(h), h).0, h);
  }

  lemma CreateRespects(o: Options, st: State, s: State, dir: Handle, name: string, h: Handle)
    requires Respects(o, st, s) && !s.halted
    ensures Respects(o, st, CreateDirent(o, s, dir, name, h).0)
  {
    var r := CreateDirent(o, s, dir, name, h).0;
    CreateParts(o, s, dir, name, h);
    assert forall x :: Listed(r, x) <==> Listed(s, x);
    assert forall x :: x in s.fs ==> x in r.fs;
    if Paced(o, s) && r.log != s.log { CreatePaced(o, s, r, DirentCreated(dir, name, h)); }
  }

  lemma HaltRespects(o: Options, st: State, s: State)
    requires Respects(o, st, s)
    ensures Respects(o, st, s.(halted := true))
  {
    assert forall x :: Listed(s.(halted := true), x) <==> Listed(s, x);
  }

  lemma ClaimRespects(o: Options, st: State, s: State, c: Claim)
    requires Respects(o, st, s) && (c.Claim? ==> ListsShrunk(s.main, s.alt, c.main, c.alt))
    ensures Respects(o, st, AfterClaim(s, c))
  {
    ListsKept(s.main, s.alt);
    SmallerLeft(s, AfterClaim(s, c));
  }

  lemma SalvageFileRespects(o: Options, st: State, s: State, laf: Handle, h: Handle, dfiles: seq<Handle>)
    requires Sound(s) && Listed(st, h) && Respects(o, st, s) && !s.halted
    ensures Respects(o, st, SalvageFile(o, s, laf, h, dfiles))
  {
    var c := ClaimAll(s.main, s.alt, dfiles);
    var a := AfterClaim(s, c);
    ClaimShrinks(s.main, s.alt, dfiles);
    ClaimRespects(o, st, s, c);
    RemoveRespects(o, st, a, h);
    if c.Claim? && c.complete { NamedRespects(o, st, a, laf, "lostfile." + Decimal(h), h); }
  }

  lemma NamedRespects(o: Options, st: State, a: State, laf: Handle, name: string, h: Handle)
    requires Respects(o, st, a) && !a.halted
    ensures var t := CreateDirent(o, a.(kept := a.kept + {h}), laf, name, h).0;
            Respects(o, st, t) && Respects(o, st, t.(halted := true))
  {
    var k := a.(kept := a.kept + {h});
    assert forall x :: Listed(k, x) <==> Listed(a, x);
    CreateRespects(o, st, k, laf, name, h);
    HaltRespects(o, st, CreateDirent(o, k, laf, name, h).0);
  }

  lemma SalvageDirectoryRespects(o: Options, st: State, s: State, laf: Handle, h: Handle, dirdata: Option<seq<Handle>>)
    requires Sound(s) && Listed(st, h) && Respects(o, st, s) && !s.halted
    requires dirdata.Some? ==> dirdata.value != []
    ensures Respects(o, st, SalvageDirectory(o, s, laf, h, dirdata))
  {
    var c := MatchDirdata(s.main, s.alt, dirdata);
    var a := AfterClaim(s, c);
    MatchShrinks(s.main, s.alt, dirdata);
    ClaimRespects(o, st, s, c);
    RemoveRespects(o, st, a, h);
    var u := if c.Claim? && c.complete then a else RemoveObject(o, a, h);
    if !u.halted {
      CreateRespects(o, st, u, laf, "lostdir." + Decimal(h), h);
      RemoveRespects(o, st, CreateDirent(o, u, laf, "lostdir." + Decimal(h), h).0, h);
    }
  }

  lemma SalvageRespects(o: Options, st: State, laf: Handle, i: nat)
    requires Sound(st) && Unique(st) && st.alt.Some? && i < |st.main| && st.main[i] != [] && !st.halted
    ensures Respects(o, st, Salvage(o, st.(main := PopAt(st.main, i)), laf, Top(st.main, i), i))
  {
    var h := Top(st.main, i);
    var s := st.(main := PopAt(st.main, i));
    PopGone(st, i);
    PopRespects(o, st, i);
    var b := GetAttr(s.fs, h);
    if b.Some? && b.value.Metafile? {
      SalvageFileRespects(o, st, s, laf, h, b.value.dfiles);
    } else if b.Some? && b.value.Directory? {
      SalvageDirectoryRespects(o, st, s, laf, h, b.value.dirdata);
    } else {
      AsideRespects(o, st, s, h, i);
    }
  }

  lemma SalvageUnique(o: Options, st: State, laf: Handle, h: Handle, i: nat)
    requires Sound(st) && Unique(st) && st.alt.Some? && i < |st.main| && !Listed(st, h)
    ensures Unique(Salvage(o, st, laf, h, i))
  {
    AsideUnique(st, h, i);
    var r := Salvage(o, st, laf, h, i);
    if ListsShrunk(st.main, st.alt, r.main, r.alt) {
      UniqueShrinks(st, st.(main := r.main, alt := r.alt));
      assert forall x :: Times(r, x) == Times(st.(main := r.main, alt := r.alt), x);
    }
  }

  /** What pass 3 puts aside is no file and no directory. */
  ghost predicate Leftovers(st: State) {
    st.alt.Some? && forall x :: In(st.alt.value, x) ==> NoFile(st.fs, x)
  }

  predicate NoFile(fs: Fs, x: Handle) {
    x in fs ==> !fs[x].Metafile? && !fs[x].Directory?
  }

  lemma SalvageLeftovers(o: Options, st: State, laf: Handle, h: Handle, i: nat)
    requires Sound(st) && Leftovers(st) && i < |st.main|
    ensures Leftovers(Salvage(o, st, laf, h, i))
  {
    var r := Salvage(o, st, laf, h, i);
    SalvageParts(o, st, laf, h, i);
    var b := GetAttr(st.fs, h);
    forall x | In(r.alt.value, x) ensures NoFile(r.fs, x) {
      if b.None? || b.value.Datafile? || b.value.Dirdata? {
        if !st.halted { AddIn(st.alt.value, h, i, x); }
      } else {
        InShrunk(st.alt.value, r.alt.value, x);
      }
    }
  }

  lemma SalvageBacked(o: Options, st: State, laf: Handle, i: nat)
    requires Sound(st) && Unique(st) && Backed(st) && st.alt.Some? && i < |st.main| && st.main[i] != [] && !st.halted
    ensures Backed(Salvage(o, st.(main := PopAt(st.main, i)), laf, Top(st.main, i), i))
  {
    var h := Top(st.main, i);
    var s := st.(main := PopAt(st.main, i));
    PopGone(st, i);
    var r := Salvage(o, s, laf, h, i);
    var b := GetAttr(s.fs, h);
    AsideBacked(s, h, i);
    if b.Some? && (b.value.Metafile? || b.value.Directory?) {
      assert ListsShrunk(s.main, s.alt, r.main, r.alt);
      SmallerLeft(s, s.(main := r.main, alt := r.alt));
      SalvageKeys(o, s, laf, h, i);
    }
  }

  /** A turn of pass 3 removes no object but the popped one. */
  lemma SalvageKeys(o: Options, st: State, laf: Handle, h: Handle, i: nat)
    requires Sound(st) && st.alt.Some? && i < |st.main|
    ensures forall x :: x in st.fs && x != h ==> x in Salvage(o, st, laf, h, i).fs
  {
    var b := GetAttr(st.fs, h);
    if b.Some? && b.value.Metafile? {
      assert forall x :: x in st.fs && x != h ==> x in SalvageFile(o, st, laf, h, b.value.dfiles).fs;
    } else if b.Some? && b.value.Directory? {
      assert forall x :: x in st.fs && x != h ==> x in SalvageDirectory(o, st, laf, h, b.value.dirdata).fs;
    }
  }

  /** All that pass 3 keeps from turn to turn. */
  ghost predicate Third(o: Options, st: State) {
    Sound(st) && Unique(st) && Leftovers(st) && Backed(st) && Refs(o, st)
  }

  lemma FillTurn(o: Options, st: State, laf: Handle, i: nat)
    requires Third(o, st) && !st.halted && i < |st.main| && st.main[i] != []
    ensures var s := st.(main := PopAt(st.main, i));
            && Sound(s)
            && var t := Salvage(o, s, laf, Top(st.main, i), i);
               Third(o, t) && Respects(o, st, t) && Size(t.main) < Size(st.main)
  {
    var h := Top(st.main, i);
    var s := st.(main := PopAt(st.main, i));
    PopGone(st, i);
    RefsShrinks(o, st, s);
    assert forall l :: l in st.links ==> l.target != h;
    SalvageSound(o, s, laf, h, i);
    SalvageUnique(o, s, laf, h, i);
    SalvageLeftovers(o, s, laf, h, i);
    SalvageBacked(o, st, laf, i);
    SalvageRefs(o, s, laf, h, i);
    SalvageRespects(o, st, laf, i);
    SizeShrunk(s.main, Salvage(o, s, laf, h, i).main);
  }

  lemma {:induction false} FillKeeps(o: Options, st: State, laf: Handle)
    requires Third(o, st)
    ensures var r := FillLoop(o, st, laf);
            Third(o, r) && Respects(o, st, r) && (!r.halted ==> forall h :: !In(r.main, h))
    decreases Size(st.main)
  {
    var i := PopServer(st.main);
    if !st.halted && i.Some? {
      FillTurn(o, st, laf, i.value);
      var t := Salvage(o, st.(main := PopAt(st.main, i.value)), laf, Top(st.main, i.value), i.value);
      FillKeeps(o, t, laf);
      RespectsTrans(o, st, t, FillLoop(o, t, laf));
    }
  }

  // ---------- pass 4 ----------

  /** What pass 4 relies on: everything listed exists and is no file and no directory. */
  ghost predicate Fourth(st: State) {
    Sound(st) && Unique(st) && Backed(st) && forall x :: Listed(st, x) ==> NoFile(st.fs, x)
  }

  /**
   Pass 4 removes exactly what is left on the list, objects that are no file and no
   directory, so its asserts cannot fail and it stops early only when told to.
   */
  lemma {:induction false} CullKeeps(o: Options, st: State)
    requires Fourth(st)
    ensures var r := CullLoop(o, st);
            && Respects(o, st, r) && r.links == st.links && r.walked == st.walked && r.kept == st.kept && FsShrunk(st.fs, r.fs)
            && (Obliging(o) && !st.halted ==> !r.halted)
            && (!r.halted && o.destructive ==> forall x :: x in r.fs <==> x in st.fs && !In(st.main, x))
            && (forall x :: Listed(r, x) ==> Listed(st, x)) && (!r.halted ==> forall h :: !In(r.main, h))
    decreases Size(st.main)
  {
    var i := PopServer(st.main);
    if !st.halted && i.Some? {
      var h := Top(st.main, i.value);
      var s := st.(main := PopAt(st.main, i.value));
      var t := CullOne(o, s, h);
      CullTurn(o, st, i.value);
      CullKeeps(o, t);
      RespectsTrans(o, st, t, CullLoop(o, t));
      SmallerTrans(s.(main := [], alt := None), t.(main := [], alt := None), CullLoop(o, t).(main := [], alt := None));
    }
  }

  lemma CullTurn(o: Options, st: State, i: nat)
    requires Fourth(st) && i < |st.main| && st.main[i] != [] && !st.halted
    ensures var h := Top(st.main, i);
            var t := CullOne(o, st.(main := PopAt(st.main, i)), h);
            && Fourth(t) && Respects(o, st, t) && FsShrunk(st.fs, t.fs)
            && t.links == st.links && t.walked == st.walked && t.kept == st.kept
            && (Obliging(o) ==> !t.halted) && Size(t.main) < Size(st.main)
            && (!t.halted && o.destructive ==> t.fs == st.fs - {h})
            && (forall x :: Listed(t, x) <==> Listed(st, x) && x != h)
            && t.main == PopAt(st.main, i)
            && (forall x :: In(st.main, x) <==> In(t.main, x) || x == h)
  {
    var h := Top(st.main, i);
    var s := st.(main := PopAt(st.main, i));
    PopGone(st, i);
    PopRespects(o, st, i);
    RemoveRespects(o, st, s, h);
    RemoveBacked(o, s, h);
    SmallerObject(o, s, h);
    var t := RemoveObject(o, s, h);
    SmallerLeft(s, t);
    UniqueShrinks(s, t);
    PopIn(st.main, i);
    assert forall x :: Listed(t, x) <==> Listed(s, x);
  }

  lemma PopIn(l: Lists, i: nat)
    requires i < |l| && l[i] != []
    ensures forall x :: In(l, x) <==> In(PopAt(l, i), x) || x == Top(l, i)
  {
    forall x ensures In(l, x) <==> In(PopAt(l, i), x) || x == Top(l, i) {
      PopCount(l, i, x);
      CountIn(l, x);
      CountIn(PopAt(l, i), x);
      CountIn(l, Top(l, i));
      assert Top(l, i) in l[i];
    }
  }
}
