/**
 What every walk leaves alone, on any graph: which objects it may remove, what it
 does without -y, and how it paces removals.
 */
module FsckFrame {
  import opened Wrappers
  import opened HandleLists
  import opened FsckModel

  // ---------- pacing ----------

  predicate IsRemoval(e: Event) {
    e.DirentRemoved? || e.ObjectRemoved?
  }

  /** How many dirents and objects a stretch of the log removes. */
  ghost function Removals(log: seq<Event>): nat {
    if log == [] then 0
    else Removals(log[..|log| - 1]) + if IsRemoval(log[|log| - 1]) then 1 else 0
  }

  /** How many removals follow the last prompt. */
  ghost function SincePrompt(log: seq<Event>): nat {
    if log == [] || log[|log| - 1].Prompted? then 0
    else SincePrompt(log[..|log| - 1]) + if IsRemoval(log[|log| - 1]) then 1 else 0
  }

  /** The most removals -s N allows in a row; N = 0 acts like N = 1. */
  function Allowance(n: nat): nat {
    if n == 0 then 1 else n
  }

  ghost predicate PacedLog(log: seq<Event>, n: nat) {
    forall k :: 0 <= k <= |log| ==> SincePrompt(log[..k]) <= Allowance(n)
  }

  ghost function Prompts(log: seq<Event>): nat {
    if log == [] then 0
    else Prompts(log[..|log| - 1]) + if log[|log| - 1].Prompted? then 1 else 0
  }

  /**
   How many removals there are between two prompts. The first removal after a prompt is the one that was
   asked about, and it is not counted again; the first prompt stands in front of removal number max(1, N).
   */
  ghost function Quota(log: seq<Event>, n: nat): nat {
    if Prompts(log) == 0 then Allowance(n) - 1 else Allowance(n)
  }

  /** A prompt is made when the quota is used up, and a removal only while it is not. */
  ghost predicate Due(log: seq<Event>, n: nat) {
    forall k :: 0 <= k < |log| ==>
      && (log[k].Prompted? ==> SincePrompt(log[..k]) == Quota(log[..k], n))
      && (IsRemoval(log[k]) ==> SincePrompt(log[..k]) < Quota(log[..k], n))
  }

  predicate EndsWithPrompt(log: seq<Event>) {
    log != [] && log[|log| - 1].Prompted?
  }

  /** Prompts are made with -y and -s only; an N ends the run there and then. */
  ghost predicate Obeyed(o: Options, st: State) {
    && st.prompts == Prompts(st.log)
    && (!o.destructive || o.safety.None? ==> st.prompts == 0)
    && (forall k :: 0 <= k < st.prompts && !o.reply(k) ==> k == st.prompts - 1 && st.halted && EndsWithPrompt(st.log))
  }

  /** Every prompt is made when it is due, the counter says how far along the run is, and answers are obeyed. */
  ghost predicate Paced(o: Options, st: State) {
    && Obeyed(o, st)
    && (o.destructive && o.safety.Some? ==>
          && Due(st.log, o.safety.value)
          && (!st.halted ==> st.removals < Allowance(o.safety.value)
                             && SincePrompt(st.log) == st.removals + if st.prompts > 0 then 1 else 0))
  }

  lemma Snoc(log: seq<Event>, e: Event)
    ensures SincePrompt(log + [e]) == if e.Prompted? then 0 else SincePrompt(log) + if IsRemoval(e) then 1 else 0
    ensures Prompts(log + [e]) == Prompts(log) + if e.Prompted? then 1 else 0
  {
    var t := log + [e];
    assert t[..|log|] == log;
  }

  lemma {:induction false} PromptsGrow(log: seq<Event>, k: nat)
    requires k <= |log|
    ensures Prompts(log[..k]) <= Prompts(log)
    decreases |log|
  {
    if k < |log| {
      PromptsGrow(log[..|log| - 1], k);
      assert log[..|log| - 1][..k] == log[..k];
    } else {
      assert log[..k] == log;
    }
  }

  lemma PromptsEnd(log: seq<Event>, k: nat)
    requires k < |log| && EndsWithPrompt(log)
    ensures Prompts(log[..k]) < Prompts(log)
  {
    PromptsGrow(log[..|log| - 1], k);
    assert log[..|log| - 1][..k] == log[..k];
  }

  lemma DueSnoc(log: seq<Event>, e: Event, n: nat)
    requires Due(log, n)
    requires e.Prompted? ==> SincePrompt(log) == Quota(log, n)
    requires IsRemoval(e) ==> SincePrompt(log) < Quota(log, n)
    ensures Due(log + [e], n)
  {
    var t := log + [e];
    forall k | 0 <= k < |t|
      ensures t[k].Prompted? ==> SincePrompt(t[..k]) == Quota(t[..k], n)
      ensures IsRemoval(t[k]) ==> SincePrompt(t[..k]) < Quota(t[..k], n)
    {
      assert t[..k] == log[..k];
      if k == |log| { assert log[..k] == log; }
    }
  }

  lemma {:induction false} DueWithin(log: seq<Event>, n: nat, k: nat)
    requires Due(log, n) && k <= |log|
    ensures SincePrompt(log[..k]) <= Quota(log[..k], n)
  {
    if k > 0 {
      DueWithin(log, n, k - 1);
      assert log[..k] == log[..k - 1] + [log[k - 1]];
      Snoc(log[..k - 1], log[k - 1]);
    }
  }

  lemma DuePaces(log: seq<Event>, n: nat)
    requires Due(log, n)
    ensures PacedLog(log, n)
  {
    forall k | 0 <= k <= |log| ensures SincePrompt(log[..k]) <= Allowance(n) { DueWithin(log, n, k); }
  }

  /** Between the prompt and the removal it was made for. */
  ghost predicate Ready(o: Options, s: State)
    requires o.safety.Some?
  {
    && s.removals < Allowance(o.safety.value)
    && SincePrompt(s.log) + 1 == s.removals + if s.prompts > 0 then 1 else 0
  }

  lemma ConfirmPaces(o: Options, st: State)
    requires Paced(o, st) && !st.halted
    ensures var s := Confirm(o, st);
            && Obeyed(o, s)
            && (o.destructive && o.safety.Some? ==> Due(s.log, o.safety.value) && (!s.halted ==> Ready(o, s)))
  {
    var s := Confirm(o, st);
    if s.prompts != st.prompts {
      Snoc(st.log, Prompted);
      DueSnoc(st.log, Prompted, o.safety.value);
    }
  }

  /** A removal that follows. */
  lemma RemovalPaced(o: Options, s: State, r: State, e: Event)
    requires o.destructive && IsRemoval(e) && Obeyed(o, s) && !s.halted && !r.halted
    requires o.safety.Some? ==> Due(s.log, o.safety.value) && Ready(o, s)
    requires r.log == s.log + [e] && r.removals == s.removals && r.prompts == s.prompts
    ensures Paced(o, r)
  {
    Snoc(s.log, e);
    if o.safety.Some? { DueSnoc(s.log, e, o.safety.value); }
  }

  /** An entry made is no removal. */
  lemma CreatePaced(o: Options, s: State, r: State, e: Event)
    requires Paced(o, s) && !s.halted && !r.halted && e.DirentCreated?
    requires r.log == s.log + [e] && r.removals == s.removals && r.prompts == s.prompts
    ensures Paced(o, r)
  {
    Snoc(s.log, e);
    if o.destructive && o.safety.Some? { DueSnoc(s.log, e, o.safety.value); }
  }

  lemma DirentPaced(o: Options, st: State, dir: Handle, name: string)
    requires Paced(o, st)
    ensures Paced(o, RemoveDirent(o, st, dir, name))
  {
    if !st.halted {
      ConfirmPaces(o, st);
      var s, r := Confirm(o, st), RemoveDirent(o, st, dir, name);
      if o.destructive && !r.halted { RemovalPaced(o, s, r, DirentRemoved(dir, name)); }
    }
  }

  lemma ObjectPaced(o: Options, st: State, h: Handle)
    requires Paced(o, st)
    ensures Paced(o, RemoveObject(o, st, h))
  {
    if !st.halted {
      ConfirmPaces(o, st);
      var s, r := Confirm(o, st), RemoveObject(o, st, h);
      if o.destructive && !r.halted { RemovalPaced(o, s, r, ObjectRemoved(h)); }
    }
  }

  /** What is promised of the event number `k` of a run that ended in `r`. */
  ghost predicate PromptedWell(o: Options, r: State, k: nat)
    requires k < |r.log|
  {
    var before := r.log[..k];
    var counted := SincePrompt(before) + if Prompts(before) == 0 then 1 else 0;
    && (r.log[k].Prompted? ==> o.destructive && o.safety.Some? && counted == Allowance(o.safety.value))
    && (IsRemoval(r.log[k]) && o.destructive && o.safety.Some? ==> counted < Allowance(o.safety.value))
    && (r.log[k].Prompted? && !o.reply(Prompts(before)) ==> r.halted && k == |r.log| - 1)
  }

  lemma PacedPrompts(o: Options, r: State, k: nat)
    requires Paced(o, r) && k < |r.log|
    ensures PromptedWell(o, r, k)
  {
    assert r.log[..k + 1] == r.log[..k] + [r.log[k]];
    Snoc(r.log[..k], r.log[k]);
    PromptsGrow(r.log, k + 1);
    if k < |r.log| - 1 && EndsWithPrompt(r.log) { PromptsEnd(r.log, k + 1); }
  }

  lemma WindowStep(log: seq<Event>, i: nat, j: nat)
    requires i < j <= |log|
    ensures var w := log[i..j]; w[..|w| - 1] == log[i..j - 1] && w[|w| - 1] == log[j - 1]
    ensures log[..j][..j - 1] == log[..j - 1]
  {
  }

  /** Between two prompts, or before the first, or after the last, at most max(1, N) removals happen. */
  lemma {:induction false} WindowBound(log: seq<Event>, n: nat, i: nat, j: nat)
    requires PacedLog(log, n)
    requires i <= j <= |log|
    requires forall k :: i <= k < j ==> !log[k].Prompted?
    ensures Removals(log[i..j]) <= SincePrompt(log[..j]) <= Allowance(n)
    decreases j
  {
    if i < j {
      WindowBound(log, n, i, j - 1);
      WindowStep(log, i, j);
    }
  }

  // ---------- the frame of a walk ----------

  /** The handles an object is made of: its datafiles or its dirdata. */
  function Parts(b: Obj): seq<Handle> {
    if b.Metafile? then b.dfiles
    else if b.Directory? && b.dirdata.Some? then b.dirdata.value
    else []
  }

  /** An object that was on no list is still there. */
  ghost predicate OnlyListedGone(st: State, r: State) {
    forall x :: x in st.fs && !Listed(st, x) ==> x in r.fs
  }

  /** What holds between the states before and after any stretch of a walk of `base`. */
  ghost predicate Framed(o: Options, base: Fs, st: State, r: State) {
    && OnlyListedGone(st, r)
    && (!o.destructive ==> r.fs == st.fs)
    && (Paced(o, st) ==> Paced(o, r))
    && st.kept <= r.kept && st.links <= r.links && st.walked <= r.walked
    && NewFilesKept(base, st, r)
  }

  /** A file whose entry was left in place had all its datafiles. */
  ghost predicate NewFilesKept(base: Fs, st: State, r: State) {
    forall l :: l in r.links - st.links && l.target in base && base[l.target].Metafile? ==> l.target in r.kept
  }

  lemma FramedTrans(o: Options, base: Fs, a: State, b: State, c: State)
    requires Smaller(a, b) && Framed(o, base, a, b) && Framed(o, base, b, c)
    ensures Framed(o, base, a, c)
  {
    SmallerLeft(a, b);
  }

  lemma RemoveAtIn(l: Lists, h: Handle, i: nat, x: Handle)
    requires i < |l| && x != h
    ensures In(RemoveAt(l, h, i), x) <==> In(l, x)
  {
    RemoveAtCount(l, h, i, x);
    CountIn(l, x);
    CountIn(RemoveAt(l, h, i), x);
  }

  /** The second loop takes nothing but the handles it is given. */
  lemma {:induction false} DrainTakesOnly(main: Lists, alt: Option<Lists>, hs: seq<Handle>, idx: nat, x: Handle)
    requires Servers(main, alt) && idx < |main|
    requires x !in hs
    ensures var d := DrainAll(main, alt, hs, idx);
            d.Drained? ==> (In(d.main, x) <==> In(main, x))
                           && (alt.Some? ==> d.alt.Some? && (In(d.alt.value, x) <==> In(alt.value, x)))
    decreases |hs|
  {
    if hs != [] {
      if hs[0] == NULL_HANDLE {
        DrainTakesOnly(main, alt, hs[1..], idx, x);
      } else if In(main, hs[0]) {
        var i := Find(main, hs[0]).value;
        RemoveAtIn(main, hs[0], i, x);
        DrainTakesOnly(RemoveAt(main, hs[0], i), alt, hs[1..], i, x);
      } else if alt.Some? {
        RemoveAtIn(alt.value, hs[0], idx, x);
        DrainTakesOnly(main, Some(RemoveAt(alt.value, hs[0], idx)), hs[1..], idx, x);
      }
    }
  }

  lemma {:induction false} ProbeFinds(main: Lists, alt: Option<Lists>, hs: seq<Handle>, idx: nat, x: Handle)
    requires Servers(main, alt) && idx < |main|
    ensures x in ProbeAll(main, alt, hs, idx).found ==> x in hs || x == NULL_HANDLE
  {
    if hs != [] {
      var w := Where(main, alt, hs[0]);
      ProbeFinds(main, alt, hs[1..], if w.Some? then w.value else idx, x);
    }
  }

  /** With a second list the second loop cannot fail. */
  lemma {:induction false} DrainSome(main: Lists, alt: Lists, hs: seq<Handle>, idx: nat)
    requires Servers(main, Some(alt)) && idx < |main|
    ensures DrainAll(main, Some(alt), hs, idx).Drained?
    decreases |hs|
  {
    if hs != [] {
      if hs[0] == NULL_HANDLE {
        DrainSome(main, alt, hs[1..], idx);
      } else if In(main, hs[0]) {
        var i := Find(main, hs[0]).value;
        DrainSome(RemoveAt(main, hs[0], i), alt, hs[1..], i);
      } else {
        DrainSome(main, RemoveAt(alt, hs[0], idx), hs[1..], idx);
      }
    }
  }

  /** A claim takes nothing but the handles it was asked for. */
  lemma ClaimTakesOnly(st: State, hs: seq<Handle>, x: Handle)
    requires Sound(st) && x !in hs
    ensures var c := ClaimAll(st.main, st.alt, hs);
            c.Claim? ==> (Listed(st.(main := c.main, alt := c.alt), x) <==> Listed(st, x))
  {
    var p := ProbeAll(st.main, st.alt, hs, 0);
    var c := ClaimAll(st.main, st.alt, hs);
    ClaimShrinks(st.main, st.alt, hs);
    ProbeFinds(st.main, st.alt, hs, 0, x);
    if x == NULL_HANDLE {
      if c.Claim? { SmallerLeft(st, st.(main := c.main, alt := c.alt)); }
    } else {
      DrainTakesOnly(st.main, st.alt, p.found, p.idx, x);
    }
  }

  lemma ClaimFramed(o: Options, base: Fs, st: State, c: Claim)
    requires c.Claim? ==> ListsShrunk(st.main, st.alt, c.main, c.alt)
    ensures Framed(o, base, st, AfterClaim(st, c))
  {
  }

  lemma UnlistFramed(o: Options, base: Fs, st: State, h: Handle, inMain: bool, i: nat)
    requires i < |st.main| && (!inMain ==> st.alt.Some? && i < |st.alt.value|)
    ensures Framed(o, base, st, Unlist(st, h, inMain, i))
  {
  }

  lemma DirentFramed(o: Options, base: Fs, st: State, dir: Handle, name: string)
    ensures Framed(o, base, st, RemoveDirent(o, st, dir, name))
  {
    if Paced(o, st) { DirentPaced(o, st, dir, name); }
  }

  /** Removing an object that is on a list is within the frame. */
  lemma DiscardFramed(o: Options, base: Fs, st: State, s: State, dir: Handle, e: Dirent)
    requires Framed(o, base, st, s) && Smaller(st, s) && Listed(st, e.handle)
    ensures Framed(o, base, st, Discard(o, s, dir, e))
  {
    var t := RemoveObject(o, s, e.handle);
    if Paced(o, s) { ObjectPaced(o, s, e.handle); }
    assert Framed(o, base, st, t);
    SmallerObject(o, s, e.handle);
    SmallerTrans(st, s, t);
    DirentFramed(o, base, t, dir, e.name);
    FramedTrans(o, base, st, t, RemoveDirent(o, t, dir, e.name));
  }

  // ---------- the walk keeps the frame ----------

  lemma {:induction false} DescendFramed(o: Options, base: Fs, st: State, dir: Handle)
    requires Sound(st) && FsShrunk(base, st.fs)
    ensures Framed(o, base, st, Descend(o, st, dir))
    decreases Left(st.main, st.alt), 2, 0
  {
    if !st.halted {
      var s := st.(walked := st.walked + [dir]);
      WalkFramed(o, base, s, dir, Entries(st.fs, dir));
      assert Framed(o, base, st, s);
      FramedTrans(o, base, st, s, Descend(o, st, dir));
    }
  }

  lemma {:induction false} WalkFramed(o: Options, base: Fs, st: State, dir: Handle, es: seq<Dirent>)
    requires Sound(st) && FsShrunk(base, st.fs)
    ensures Framed(o, base, st, WalkEntries(o, st, dir, es))
    decreases Left(st.main, st.alt), 1, |es|
  {
    if !st.halted && es != [] {
      var s := Visit(o, st, dir, es[0]);
      VisitFramed(o, base, st, dir, es[0]);
      SmallerLeft(st, s);
      SmallerTrans(st.(fs := base), st, s);
      WalkFramed(o, base, s, dir, es[1..]);
      FramedTrans(o, base, st, s, WalkEntries(o, s, dir, es[1..]));
    }
  }

  lemma {:induction false} VisitFramed(o: Options, base: Fs, st: State, dir: Handle, e: Dirent)
    requires Sound(st) && FsShrunk(base, st.fs)
    ensures Framed(o, base, st, Visit(o, st, dir, e))
    decreases Left(st.main, st.alt), 0, 2
  {
    var w := Where(st.main, st.alt, e.handle);
    if w.None? {
      DirentFramed(o, base, st, dir, e.name);
    } else {
      var inMain := In(st.main, e.handle);
      var s := Judge(o, st, dir, e);
      JudgeFramed(o, base, st, dir, e);
      UnlistFramed(o, base, s, e.handle, inMain, w.value);
      FramedTrans(o, base, st, s, Unlist(s, e.handle, inMain, w.value));
    }
  }

  lemma {:induction false} JudgeFramed(o: Options, base: Fs, st: State, dir: Handle, e: Dirent)
    requires Sound(st) && FsShrunk(base, st.fs)
    requires Listed(st, e.handle)
    ensures Framed(o, base, st, Judge(o, st, dir, e))
    decreases Left(st.main, st.alt), 0, 1
  {
    var a := GetAttr(st.fs, e.handle);
    if a.None? {
      DirentFramed(o, base, st, dir, e.name);
    } else if a.value.Metafile? {
      JudgeFileFramed(o, base, st, dir, e);
    } else if a.value.Directory? {
      JudgeDirectoryFramed(o, base, st, dir, e);
    } else if a.value.Symlink? {
      assert Trimmed(base[e.handle], st.fs[e.handle]);
      KeepFramed(o, base, st, st, dir, e);
    } else {
      DiscardFramed(o, base, st, st, dir, e);
    }
  }

  lemma JudgeFileFramed(o: Options, base: Fs, st: State, dir: Handle, e: Dirent)
    requires Sound(st) && FsShrunk(base, st.fs)
    requires Listed(st, e.handle) && e.handle in st.fs && st.fs[e.handle].Metafile?
    ensures Framed(o, base, st, JudgeFile(o, st, dir, e, st.fs[e.handle].dfiles))
  {
    var c := ClaimAll(st.main, st.alt, st.fs[e.handle].dfiles);
    ClaimShrinks(st.main, st.alt, st.fs[e.handle].dfiles);
    ClaimFramed(o, base, st, c);
    var s := AfterClaim(st, c);
    DiscardFramed(o, base, st, s, dir, e);
    if c.Claim? && c.complete { KeepFramed(o, base, st, s.(kept := s.kept + {e.handle}), dir, e); }
  }

  lemma {:induction false} JudgeDirectoryFramed(o: Options, base: Fs, st: State, dir: Handle, e: Dirent)
    requires Sound(st) && FsShrunk(base, st.fs)
    requires Listed(st, e.handle) && e.handle in st.fs && st.fs[e.handle].Directory?
    ensures Framed(o, base, st, JudgeDirectory(o, st, dir, e, st.fs[e.handle].dirdata))
    decreases Left(st.main, st.alt), 0, 0
  {
    var dirdata := st.fs[e.handle].dirdata;
    var c := MatchDirdata(st.main, st.alt, dirdata);
    var s := AfterClaim(st, c);
    MatchShrinks(st.main, st.alt, dirdata);
    ClaimFramed(o, base, st, c);
    SmallerLeft(st, s);
    DiscardFramed(o, base, st, s, dir, e);
    assert Trimmed(base[e.handle], st.fs[e.handle]);
    if c.Claim? && c.complete && In(st.main, e.handle) {
      DescendFramed(o, base, s, e.handle);
      FramedTrans(o, base, st, s, Descend(o, s, e.handle));
      KeepFramed(o, base, st, Descend(o, s, e.handle), dir, e);
    } else if c.Claim? && c.complete {
      KeepFramed(o, base, st, s, dir, e);
    }
  }

  lemma KeepFramed(o: Options, base: Fs, st: State, s: State, dir: Handle, e: Dirent)
    requires Framed(o, base, st, s)
    requires e.handle in base && base[e.handle].Metafile? ==> e.handle in s.kept
    ensures Framed(o, base, st, Keep(s, dir, e))
  {
  }
}
