/**
 The values behind `struct handlelist` of pvfs2-fsck: for every server, the
 handles that server reported and that no pass has accounted for yet.

 The functions say what each handlelist operation does to the lists, order
 included, because pass 2 and pass 3 pop from the end and removal moves the last
 handle into the hole. The lemmas relate them to the multiset of listed handles.
 */
module HandleLists {
  import opened Wrappers

  type Handle = nat

  /** PVFS_HANDLE_NULL */
  const NULL_HANDLE: Handle := 0

  /** One list of handles for each server. */
  type Lists = seq<seq<Handle>>

  predicate In(l: Lists, h: Handle) {
    exists i :: 0 <= i < |l| && h in l[i]
  }

  /** handlelist_find_handle: the first server whose list holds the handle. */
  function Find(l: Lists, h: Handle): (r: Option<nat>)
    ensures r.Some? <==> In(l, h)
    ensures r.Some? ==> r.value < |l| && h in l[r.value]
    ensures r.Some? ==> forall j :: 0 <= j < r.value ==> h !in l[j]
  {
    FindFrom(l, h, 0)
  }

  function FindFrom(l: Lists, h: Handle, i: nat): (r: Option<nat>)
    requires i <= |l|
    requires forall j :: 0 <= j < i ==> h !in l[j]
    ensures r.Some? <==> In(l, h)
    ensures r.Some? ==> r.value < |l| && h in l[r.value]
    ensures r.Some? ==> forall j :: 0 <= j < r.value ==> h !in l[j]
    decreases |l| - i
  {
    if i == |l| then None
    else if h in l[i] then Some(i)
    else FindFrom(l, h, i + 1)
  }

  /** The position of the first occurrence, or the length when there is none. */
  function IndexOf(s: seq<Handle>, h: Handle): (k: nat)
    ensures k <= |s|
    ensures k < |s| ==> s[k] == h
    ensures k == |s| <==> h !in s
    ensures forall j :: 0 <= j < k ==> s[j] != h
  {
    if s == [] then 0 else if s[0] == h then 0 else 1 + IndexOf(s[1..], h)
  }

  /** Removal by moving the last handle into the hole and shortening the list. */
  function SwapRemove(s: seq<Handle>, h: Handle): seq<Handle> {
    var k := IndexOf(s, h);
    if k == |s| then s else s[k := s[|s| - 1]][..|s| - 1]
  }

  /** handlelist_remove_handle: removal from the list of one given server. */
  function RemoveAt(l: Lists, h: Handle, i: nat): (r: Lists)
    requires i < |l|
  {
    l[i := SwapRemove(l[i], h)]
  }

  /** handlelist_add_handle: a handle goes to the end of a server's list. */
  function Add(l: Lists, h: Handle, i: nat): Lists
    requires i < |l|
  {
    l[i := l[i] + [h]]
  }

  /** The server handlelist_return_handle pops from: the first non-empty one. */
  function PopServer(l: Lists): (r: Option<nat>)
    ensures r.None? <==> forall i :: 0 <= i < |l| ==> l[i] == []
    ensures r.Some? ==> r.value < |l| && l[r.value] != []
    ensures r.Some? ==> forall j :: 0 <= j < r.value ==> l[j] == []
  {
    PopServerFrom(l, 0)
  }

  function PopServerFrom(l: Lists, i: nat): (r: Option<nat>)
    requires i <= |l|
    requires forall j :: 0 <= j < i ==> l[j] == []
    ensures r.None? <==> forall i :: 0 <= i < |l| ==> l[i] == []
    ensures r.Some? ==> r.value < |l| && l[r.value] != []
    ensures r.Some? ==> forall j :: 0 <= j < r.value ==> l[j] == []
    decreases |l| - i
  {
    if i == |l| then None
    else if l[i] != [] then Some(i)
    else PopServerFrom(l, i + 1)
  }

  /** handlelist_return_handle's removal of the last handle of server `i`. */
  function PopAt(l: Lists, i: nat): Lists
    requires i < |l| && l[i] != []
  {
    l[i := l[i][..|l[i]| - 1]]
  }

  // ---------- how often, and how many ----------

  /** How often a handle is listed, over all servers. */
  ghost function Count(l: Lists, h: Handle): nat {
    if l == [] then 0 else multiset(l[0])[h] + Count(l[1..], h)
  }

  /** How many handles are listed, over all servers (the sum of used_array). */
  ghost function Size(l: Lists): nat {
    if l == [] then 0 else |l[0]| + Size(l[1..])
  }

  /** `q` has the same servers as `p`, each with at most the handles it has in `p`. */
  ghost predicate Shrunk(p: Lists, q: Lists) {
    |p| == |q| && forall i :: 0 <= i < |p| ==> multiset(q[i]) <= multiset(p[i])
  }

  lemma {:induction false} CountIn(l: Lists, h: Handle)
    ensures Count(l, h) > 0 <==> In(l, h)
  {
    if l != [] {
      CountIn(l[1..], h);
      assert h in l[0] <==> multiset(l[0])[h] > 0;
      if In(l, h) {
        var i :| 0 <= i < |l| && h in l[i];
        if i > 0 { assert h in l[1..][i - 1]; }
      }
      if In(l[1..], h) {
        var i :| 0 <= i < |l[1..]| && h in l[1..][i];
        assert h in l[i + 1];
      }
    }
  }

  lemma {:induction false} CountUpdate(l: Lists, i: nat, s: seq<Handle>, h: Handle)
    requires i < |l|
    ensures Count(l[i := s], h) == Count(l, h) - multiset(l[i])[h] + multiset(s)[h]
  {
    if i == 0 {
      assert l[0 := s][1..] == l[1..];
    } else {
      CountUpdate(l[1..], i - 1, s, h);
      assert l[i := s][1..] == l[1..][i - 1 := s];
    }
  }

  lemma {:induction false} SizeUpdate(l: Lists, i: nat, s: seq<Handle>)
    requires i < |l|
    ensures Size(l[i := s]) == Size(l) - |l[i]| + |s|
  {
    if i == 0 {
      assert l[0 := s][1..] == l[1..];
    } else {
      SizeUpdate(l[1..], i - 1, s);
      assert l[i := s][1..] == l[1..][i - 1 := s];
    }
  }

  lemma {:induction false} CountShrunk(p: Lists, q: Lists, h: Handle)
    requires Shrunk(p, q)
    ensures Count(q, h) <= Count(p, h)
  {
    if p != [] {
      assert Shrunk(p[1..], q[1..]);
      CountShrunk(p[1..], q[1..], h);
      assert multiset(q[0]) <= multiset(p[0]);
    }
  }

  lemma {:induction false} SizeShrunk(p: Lists, q: Lists)
    requires Shrunk(p, q)
    ensures Size(q) <= Size(p)
  {
    if p != [] {
      assert Shrunk(p[1..], q[1..]);
      SizeShrunk(p[1..], q[1..]);
      assert |multiset(q[0])| <= |multiset(p[0])| by {
        assert multiset(q[0]) + (multiset(p[0]) - multiset(q[0])) == multiset(p[0]);
      }
    }
  }

  lemma ShrunkTrans(p: Lists, q: Lists, r: Lists)
    requires Shrunk(p, q) && Shrunk(q, r)
    ensures Shrunk(p, r)
  {
    forall i | 0 <= i < |p| ensures multiset(r[i]) <= multiset(p[i]) {
      assert multiset(r[i]) <= multiset(q[i]);
    }
  }

  lemma ShrunkIn(p: Lists, q: Lists, h: Handle, i: nat)
    requires Shrunk(p, q) && i < |q| && h in q[i]
    ensures h in p[i]
  {
    assert h in multiset(q[i]);
  }

  /** A handle listed once in all sits on one server only. */
  lemma OneServer(l: Lists, h: Handle, i: nat, j: nat)
    requires Count(l, h) <= 1
    requires i < |l| && j < |l| && h in l[i] && h in l[j]
    ensures i == j
  {
    assert i != j ==> h in l[i := []][j];
    assert multiset(l[i])[h] >= 1;
    CountUpdate(l, i, [], h);
    CountIn(l[i := []], h);
  }

  /** The multiset with one occurrence of one handle. */
  ghost function Single(h: Handle): multiset<Handle> {
    multiset{h}
  }

  /** Replacing one `h` by `last` and then dropping one `last` takes out one `h`. */
  lemma MoveOne(s: multiset<Handle>, t: multiset<Handle>, u: multiset<Handle>, h: Handle, last: Handle)
    requires h in s
    requires t == s - Single(h) + Single(last)
    requires t == u + Single(last)
    ensures u == s - Single(h)
  {
    forall x ensures u[x] == (s - multiset{h})[x] {
      assert t[x] == (s - multiset{h})[x] + multiset{last}[x];
    }
  }

  /** Swap removal takes exactly one occurrence; removing an absent handle changes nothing. */
  lemma SwapRemoveTakesOne(s: seq<Handle>, h: Handle)
    ensures multiset(SwapRemove(s, h)) == multiset(s) - Single(h)
    ensures h !in s ==> SwapRemove(s, h) == s
    ensures h in s ==> |SwapRemove(s, h)| == |s| - 1
  {
    var k := IndexOf(s, h);
    if k < |s| {
      var last := s[|s| - 1];
      var t := s[k := last];
      assert t == t[..|s| - 1] + [last];
      MoveOne(multiset(s), multiset(t), multiset(t[..|s| - 1]), h, last);
    } else {
      assert multiset(s)[h] == 0;
    }
  }

  lemma RemoveAtCount(l: Lists, h: Handle, i: nat, x: Handle)
    requires i < |l|
    ensures Count(RemoveAt(l, h, i), x) == Count(l, x) - if x == h && h in l[i] then 1 else 0
  {
    SwapRemoveTakesOne(l[i], h);
    CountUpdate(l, i, SwapRemove(l[i], h), x);
  }

  lemma RemoveAtShrinks(l: Lists, h: Handle, i: nat)
    requires i < |l|
    ensures Shrunk(l, RemoveAt(l, h, i))
    ensures Size(RemoveAt(l, h, i)) == Size(l) - if h in l[i] then 1 else 0
    ensures h !in l[i] ==> RemoveAt(l, h, i) == l
  {
    SwapRemoveTakesOne(l[i], h);
    SizeUpdate(l, i, SwapRemove(l[i], h));
  }

  lemma PopCount(l: Lists, i: nat, x: Handle)
    requires i < |l| && l[i] != []
    ensures Count(PopAt(l, i), x) == Count(l, x) - if x == l[i][|l[i]| - 1] then 1 else 0
  {
    var s := l[i];
    assert s == s[..|s| - 1] + [s[|s| - 1]];
    CountUpdate(l, i, s[..|s| - 1], x);
  }

  lemma PopShrinks(l: Lists, i: nat)
    requires i < |l| && l[i] != []
    ensures Shrunk(l, PopAt(l, i)) && Size(PopAt(l, i)) == Size(l) - 1
  {
    var r := PopAt(l, i);
    SizeUpdate(l, i, r[i]);
    forall j | 0 <= j < |l| ensures multiset(r[j]) <= multiset(l[j]) {
      if j == i { assert l[j] == r[j] + [l[j][|l[j]| - 1]]; }
    }
  }

  lemma AddCount(l: Lists, h: Handle, i: nat, x: Handle)
    requires i < |l|
    ensures Count(Add(l, h, i), x) == Count(l, x) + if x == h then 1 else 0
  {
    CountUpdate(l, i, l[i] + [h], x);
  }
}
