/**
 The second list of passes 2 and 3 is as large as the first: it never overflows.
 */
module FsckCapacity {
  import opened Wrappers
  import opened HandleLists
  import opened FsckModel
  import opened FsckPasses

  /** Together the two lists fit into what each server declared. */
  ghost predicate Fits(st: State, size: seq<nat>) {
    && st.alt.Some? && |size| == |st.main| == |st.alt.value|
    && forall i :: 0 <= i < |size| ==> |st.main[i]| + |st.alt.value[i]| <= size[i]
  }

  lemma ShrunkLengths(p: Lists, q: Lists)
    requires Shrunk(p, q)
    ensures forall i :: 0 <= i < |p| ==> |q[i]| <= |p[i]|
  {
    forall i | 0 <= i < |p| ensures |q[i]| <= |p[i]| {
      assert multiset(q[i]) + (multiset(p[i]) - multiset(q[i])) == multiset(p[i]);
    }
  }

  /** Room for the handle just popped: what is taken off the first list fits on the second. */
  ghost predicate HasRoom(st: State, size: seq<nat>, i: nat) {
    Fits(st, size) && i < |size| && |st.main[i]| + |st.alt.value[i]| < size[i]
  }

  lemma PopMakesRoom(st: State, size: seq<nat>, i: nat)
    requires Fits(st, size) && i < |st.main| && st.main[i] != []
    ensures HasRoom(st.(main := PopAt(st.main, i)), size, i)
  {
  }

  lemma RoomShrinks(st: State, r: State, size: seq<nat>, i: nat)
    requires HasRoom(st, size, i) && ListsShrunk(st.main, st.alt, r.main, r.alt)
    ensures HasRoom(r, size, i)
  {
    ShrunkLengths(st.main, r.main);
    ShrunkLengths(st.alt.value, r.alt.value);
  }

  /** A turn of pass 2 finds room for the handle it puts aside, and leaves the lists within bounds. */
  lemma SortOutFits(o: Options, st: State, h: Handle, i: nat, size: seq<nat>)
    requires Sound(st) && HasRoom(st, size, i)
    ensures HasRoom(Descend(o, st, h), size, i)
    ensures Fits(SortOut(o, st, h, i), size)
  {
    RoomShrinks(st, Descend(o, st, h), size, i);
  }

  lemma SalvageFits(o: Options, st: State, laf: Handle, h: Handle, i: nat, size: seq<nat>)
    requires Sound(st) && HasRoom(st, size, i)
    ensures Fits(Salvage(o, st, laf, h, i), size)
  {
    var r := Salvage(o, st, laf, h, i);
    if ListsShrunk(st.main, st.alt, r.main, r.alt) {
      ShrunkLengths(st.main, r.main);
      ShrunkLengths(st.alt.value, r.alt.value);
    }
  }
}
