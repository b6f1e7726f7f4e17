/**
 When a file that pass 3 names in lost+found has all its datafiles after pass 4: exactly when its datafiles are in step
 at the moment of the claim.
 */
module FsckRescue {
  import opened Wrappers
  import opened HandleLists
  import opened FsckModel
  import opened FsckPasses
  import opened FsckFrame
  import opened FsckLinks
  import opened FsckIntact
  import opened FsckOwners
  import opened FsckTurns

  /** A datafile that no listed object has as a part. */
  ghost predicate Unclaimed(st: State, x: Handle) {
    && Listed(st, x) && x in st.fs && st.fs[x].Datafile?
    && forall k :: Listed(st, k) && k in st.fs ==> x !in Parts(st.fs[k])
  }

  lemma UnclaimedTurn(o: Options, st: State, laf: Handle, i: nat, x: Handle)
    requires Sound(st) && Unique(st) && st.alt.Some? && i < |st.main| && st.main[i] != [] && !st.halted && Unclaimed(st, x)
    ensures var s := st.(main := PopAt(st.main, i));
            && Sound(s)
            && var t := Salvage(o, s, laf, Top(st.main, i), i);
               !t.halted ==> Unclaimed(t, x)
  {
    var h := Top(st.main, i);
    var s := st.(main := PopAt(st.main, i));
    PopGone(st, i);
    var t := Salvage(o, s, laf, h, i);
    SalvageParts(o, s, laf, h, i);
    SalvageKeys(o, s, laf, h, i);
    TurnListed(o, st, laf, i, x);
    if !t.halted {
      assert Kin(st.fs[x], t.fs[x]);
      forall k | Listed(t, k) && k in t.fs ensures x !in Parts(t.fs[k]) {
        assert Kin(st.fs[k], t.fs[k]);
      }
    }
  }

  /** A turn of pass 3 puts nothing new on the lists, and leaves alone what is not a part of the popped object. */
  lemma TurnListed(o: Options, st: State, laf: Handle, i: nat, x: Handle)
    requires Sound(st) && Unique(st) && st.alt.Some? && i < |st.main| && st.main[i] != [] && !st.halted && Unclaimed(st, x)
    ensures var s := st.(main := PopAt(st.main, i));
            && Sound(s)
            && var t := Salvage(o, s, laf, Top(st.main, i), i);
               !t.halted ==> Listed(t, x) && x in t.fs && forall k :: Listed(t, k) ==> Listed(st, k)
  {
    var h := Top(st.main, i);
    var s := st.(main := PopAt(st.main, i));
    PopGone(st, i);
    var t := Salvage(o, s, laf, h, i);
    SalvageKeys(o, s, laf, h, i);
    var b := GetAttr(s.fs, h);
    if b.Some? && (b.value.Metafile? || b.value.Directory?) {
      SmallerLeft(s, s.(main := t.main, alt := t.alt));
      ClaimTakesOnly(s, Parts(s.fs[h]), x);
    } else if b.None? || b.value.Datafile? || b.value.Dirdata? {
      forall k ensures Listed(t, k) <==> Listed(s, k) || k == h { AsideListed(s, h, i, k); }
    }
  }

  lemma {:induction false} UnclaimedStays(o: Options, st: State, laf: Handle, x: Handle)
    requires Third(o, st) && (!st.halted ==> Unclaimed(st, x))
    ensures var r := FillLoop(o, st, laf);
            !r.halted ==> Listed(r, x)
    decreases Size(st.main)
  {
    var i := PopServer(st.main);
    if !st.halted && i.Some? {
      FillTurn(o, st, laf, i.value);
      UnclaimedTurn(o, st, laf, i.value, x);
      UnclaimedStays(o, Salvage(o, st.(main := PopAt(st.main, i.value)), laf, Top(st.main, i.value), i.value), laf, x);
    }
  }

  /** What pass 4 does with an object, seen from a turn of pass 3: it goes exactly when its handle is still listed. */
  lemma RestOfRun(o: Options, st: State, laf: Handle, x: Handle)
    requires Third(o, st) && o.destructive && x in st.fs
    requires !PassFour(o, FillLoop(o, st, laf)).halted
    ensures !Listed(st, x) ==> x in PassFour(o, FillLoop(o, st, laf)).fs
    ensures Unclaimed(st, x) ==> x !in PassFour(o, FillLoop(o, st, laf)).fs
  {
    var r := FillLoop(o, st, laf);
    FillKeeps(o, st, laf);
    NextPassListed(r, None);
    CullKeeps(o, NextPass(r, None));
    if Unclaimed(st, x) { UnclaimedStays(o, st, laf, x); }
  }

  /** The file popped in this turn has all its datafiles on the lists and shares none with another object. */
  ghost predicate Rescuable(st: State, i: nat)
    requires i < |st.main| && st.main[i] != []
  {
    var m := Top(st.main, i);
    && m in st.fs && st.fs[m].Metafile?
    && var hs := st.fs[m].dfiles;
       && hs != [] && Distinct(hs)
       && (forall x :: x in hs ==> Listed(st.(main := PopAt(st.main, i)), x) && x in st.fs && st.fs[x].Datafile?)
       && (forall k, x :: k in st.fs && k != m && x in hs ==> x !in Parts(st.fs[k]))
  }

  /** Naming a file whose claim is complete removes nothing, and takes only what the claim takes off the lists. */
  lemma NamedFile(o: Options, s: State, laf: Handle, m: Handle, i: nat, c: Claim)
    requires Sound(s) && s.alt.Some? && i < |s.main| && m in s.fs && s.fs[m].Metafile?
    requires c == ClaimAll(s.main, s.alt, s.fs[m].dfiles) && c.Claim? && c.complete
    ensures var t := Salvage(o, s, laf, m, i);
            (forall x :: x in s.fs ==> x in t.fs) && forall x :: Listed(t, x) <==> Listed(AfterClaim(s, c), x)
  {
    var t := Salvage(o, s, laf, m, i);
    assert t == SalvageFile(o, s, laf, m, s.fs[m].dfiles);
    assert t.main == c.main && t.alt == c.alt;
  }

  /** The turn that names the file takes all its datafiles off the lists exactly when they are in step. */
  lemma RescueTurn(s: State, t: State, m: Handle, hs: seq<Handle>, home: Handle -> nat)
    requires Sound(s) && Unique(s) && Located(s, home) && s.alt.Some? && !Listed(s, m)
    requires hs != [] && Distinct(hs) && forall x :: x in hs ==> Listed(s, x)
    requires forall x :: Listed(t, x) <==> Listed(AfterClaim(s, ClaimAll(s.main, s.alt, hs)), x)
    ensures !Listed(t, m)
    ensures (forall x :: x in hs ==> !Listed(t, x)) <==> InStep(s.main, hs, home(hs[|hs| - 1]), home)
  {
    var c := ClaimAll(s.main, s.alt, hs);
    ClaimIff(s, hs, home);
    ClaimSound(s, hs);
    SmallerLeft(s, AfterClaim(s, c));
  }

  /** A datafile that the claim left behind is claimed by nothing else. */
  lemma LeftUnclaimed(st: State, t: State, i: nat, x: Handle)
    requires i < |st.main| && st.main[i] != [] && Rescuable(st, i) && x in st.fs[Top(st.main, i)].dfiles
    requires SameParts(st.fs, t.fs) && x in t.fs && Listed(t, x) && !Listed(t, Top(st.main, i))
    ensures Unclaimed(t, x)
  {
    assert Kin(st.fs[x], t.fs[x]);
    forall k | Listed(t, k) && k in t.fs ensures x !in Parts(t.fs[k]) {
      assert Kin(st.fs[k], t.fs[k]);
    }
  }

  /** From the turn that names a file to the end: its datafile is there exactly when the claim took it off the lists. */
  lemma DatafileIff(o: Options, st: State, t: State, laf: Handle, i: nat, x: Handle)
    requires Third(o, t) && o.destructive && !PassFour(o, FillLoop(o, t, laf)).halted
    requires i < |st.main| && st.main[i] != [] && Rescuable(st, i) && x in st.fs[Top(st.main, i)].dfiles
    requires SameParts(st.fs, t.fs) && x in t.fs && !Listed(t, Top(st.main, i))
    ensures x in PassFour(o, FillLoop(o, t, laf)).fs <==> !Listed(t, x)
  {
    RestOfRun(o, t, laf, x);
    if Listed(t, x) { LeftUnclaimed(st, t, i, x); }
  }

  /**
   A file rescued in pass 3 still has all its datafiles when the run is over exactly when they are in step at its
   claim: every datafile that is not on the first list is on the server of the one found last before it. The others
   stay on the list and pass 4 removes them.
   */
  lemma RescueIff(o: Options, st: State, laf: Handle, i: nat, home: Handle -> nat)
    requires Third(o, st) && Located(st, home) && o.destructive && !st.halted
    requires PopServer(st.main) == Some(i) && Rescuable(st, i) && !PassFour(o, FillLoop(o, st, laf)).halted
    ensures var hs := st.fs[Top(st.main, i)].dfiles;
            (forall x :: x in hs ==> x in PassFour(o, FillLoop(o, st, laf)).fs)
            <==> InStep(PopAt(st.main, i), hs, home(hs[|hs| - 1]), home)
  {
    var m := Top(st.main, i);
    var hs := st.fs[m].dfiles;
    var s := st.(main := PopAt(st.main, i));
    PopGone(st, i);
    FillTurn(o, st, laf, i);
    var t := Salvage(o, s, laf, m, i);
    RescueStart(o, st, s, t, laf, i, home);
    var r := FillLoop(o, t, laf);
    assert FillLoop(o, st, laf) == r;
    RescueEnd(o, st, t, laf, i);
  }

  lemma RescueEnd(o: Options, st: State, t: State, laf: Handle, i: nat)
    requires Third(o, t) && o.destructive && !PassFour(o, FillLoop(o, t, laf)).halted
    requires i < |st.main| && st.main[i] != [] && Rescuable(st, i)
    requires SameParts(st.fs, t.fs) && (forall x :: x in st.fs ==> x in t.fs) && !Listed(t, Top(st.main, i))
    ensures forall x :: x in st.fs[Top(st.main, i)].dfiles ==>
              (x in PassFour(o, FillLoop(o, t, laf)).fs <==> !Listed(t, x))
  {
    forall x | x in st.fs[Top(st.main, i)].dfiles ensures x in PassFour(o, FillLoop(o, t, laf)).fs <==> !Listed(t, x) {
      DatafileIff(o, st, t, laf, i, x);
    }
  }

  lemma RescueStart(o: Options, st: State, s: State, t: State, laf: Handle, i: nat, home: Handle -> nat)
    requires Located(st, home) && st.alt.Some? && i < |st.main| && st.main[i] != [] && Rescuable(st, i)
    requires s == st.(main := PopAt(st.main, i)) && Sound(s) && Unique(s) && Smaller(st, s) && !Listed(s, Top(st.main, i))
    requires t == Salvage(o, s, laf, Top(st.main, i), i)
    ensures SameParts(st.fs, t.fs) && (forall x :: x in st.fs ==> x in t.fs) && !Listed(t, Top(st.main, i))
    ensures var hs := st.fs[Top(st.main, i)].dfiles;
            (forall x :: x in hs ==> !Listed(t, x)) <==> InStep(s.main, hs, home(hs[|hs| - 1]), home)
  {
    var m := Top(st.main, i);
    var hs := st.fs[m].dfiles;
    LocatedShrinks(st, s, home);
    ClaimIff(s, hs, home);
    NamedFile(o, s, laf, m, i, ClaimAll(s.main, s.alt, hs));
    RescueTurn(s, t, m, hs, home);
    SalvageParts(o, s, laf, m, i);
  }
}
