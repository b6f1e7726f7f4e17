/**
 `struct handlelist` of pvfs2-fsck.h as a mutable object: one fixed array of
 handles per server and an array of fill counts, both changed in place.
 */
module HandleListArrays {
  import opened Wrappers
  import opened HandleLists

  class HandleList {
    /** list_array: one buffer per server; its length is that server's size_array entry. */
    const lists: seq<array<Handle>>
    /** used_array */
    const used: array<nat>
    /** The used part of every list. */
    ghost var model: Lists

    ghost predicate Valid()
      reads this, used, lists
    {
      && used.Length == |lists| == |model|
      && (forall i, j :: 0 <= i < j < |lists| ==> lists[i] != lists[j])
      && used !in lists
      && (forall i :: 0 <= i < |lists| ==> used[i] <= lists[i].Length && lists[i][..used[i]] == model[i])
    }

    ghost function Repr(): set<object> {
      {this, used} + set a | a in lists
    }

    /** How many handles server `i` declared. */
    function Capacity(i: nat): nat
      requires i < |lists|
    {
      lists[i].Length
    }

    /** handlelist_initialize */
    constructor (counts: seq<nat>)
      ensures Valid() && fresh(Repr())
      ensures model == seq(|counts|, i => [])
      ensures |lists| == |counts| && forall i :: 0 <= i < |counts| ==> lists[i].Length == counts[i]
    {
      var buffers: seq<array<Handle>> := [];
      var u := new nat[|counts|];
      for i := 0 to |counts|
        invariant |buffers| == i
        invariant forall j :: 0 <= j < i ==> fresh(buffers[j]) && buffers[j].Length == counts[j]
        invariant forall j, k :: 0 <= j < k < i ==> buffers[j] != buffers[k]
        invariant u !in buffers && fresh(u)
        invariant forall j :: 0 <= j < i ==> u[j] == 0
      {
        var b := new Handle[counts[i]];
        buffers := buffers + [b];
        u[i] := 0;
      }
      lists := buffers;
      used := u;
      model := seq(|counts|, i => []);
    }

    /** handlelist_add_handle; the source stops when the server's list is already full. */
    method AddHandle(h: Handle, i: nat)
      requires Valid() && i < |lists|
      requires |model[i]| < Capacity(i)
      modifies this, used, lists[i]
      ensures Valid() && model == Add(old(model), h, i)
    {
      lists[i][used[i]] := h;
      used[i] := used[i] + 1;
      model := Add(model, h, i);
    }

    /** handlelist_add_handles */
    method AddHandles(handles: seq<Handle>, i: nat)
      requires Valid() && i < |lists|
      requires |model[i]| + |handles| <= Capacity(i)
      modifies this, used, lists[i]
      ensures Valid() && model == old(model)[i := old(model[i]) + handles]
    {
      var start := used[i];
      for k := 0 to |handles|
        invariant used[..] == old(used[..]) && model == old(model)
        invariant lists[i][..start + k] == old(model[i]) + handles[..k]
        invariant forall j :: 0 <= j < |lists| && j != i ==> lists[j][..] == old(lists[j][..])
      {
        lists[i][start + k] := handles[k];
      }
      used[i] := start + |handles|;
      model := model[i := model[i] + handles];
      assert handles[..|handles|] == handles;
      forall j | 0 <= j < |lists| ensures used[j] <= lists[j].Length && lists[j][..used[j]] == model[j] {
        if j != i {
          assert lists[j][..used[j]] == lists[j][..][..used[j]];
        }
      }
    }

    /** handlelist_find_handle */
    method FindHandle(h: Handle) returns (r: Option<nat>)
      requires Valid()
      ensures r == Find(model, h)
    {
      for i := 0 to |lists|
        invariant forall j :: 0 <= j < i ==> h !in model[j]
      {
        for k := 0 to used[i]
          invariant h !in model[i][..k]
        {
          assert lists[i][k] == model[i][k];
          if lists[i][k] == h {
            return Some(i);
          }
        }
      }
      return None;
    }

    /** The removal step: the last handle of server `i` takes the place of handle number `k`. */
    method SwapOut(i: nat, k: nat)
      requires Valid() && i < |lists| && k < |model[i]|
      modifies this, used, lists[i]
      ensures Valid()
      ensures model == old(model)[i := old(model[i])[k := old(model[i])[|old(model[i])| - 1]][..|old(model[i])| - 1]]
    {
      var last := used[i] - 1;
      assert lists[i][last] == model[i][last];
      if k < last {
        lists[i][k] := lists[i][last];
      }
      used[i] := last;
      model := model[i := model[i][k := model[i][last]][..last]];
    }

    /** handlelist_remove_handle; the closing assert of the source holds whether or not it was there. */
    method RemoveHandle(h: Handle, i: nat)
      requires Valid() && i < |lists|
      modifies this, used, lists[i]
      ensures Valid() && model == RemoveAt(old(model), h, i)
    {
      var k := 0;
      while k < used[i]
        invariant k <= used[i]
        invariant Valid() && model == old(model)
        invariant h !in model[i][..k]
      {
        assert lists[i][k] == model[i][k];
        if lists[i][k] == h {
          assert IndexOf(model[i], h) == k;
          SwapOut(i, k);
          assert k <= used[i];
          return;
        }
        k := k + 1;
      }
      assert model[i][..k] == model[i];
      assert IndexOf(model[i], h) == |model[i]|;
      assert k <= used[i];
    }

    /** handlelist_return_handle */
    method ReturnHandle() returns (r: Option<(Handle, nat)>)
      requires Valid()
      modifies this, used
      ensures Valid()
      ensures var i := PopServer(old(model));
              if i.None? then r.None? && model == old(model)
              else r == Some((old(model)[i.value][|old(model)[i.value]| - 1], i.value))
                   && model == PopAt(old(model), i.value)
    {
      for i := 0 to |lists|
        invariant Valid() && model == old(model)
        invariant forall j :: 0 <= j < i ==> model[j] == []
      {
        if used[i] > 0 {
          var h := lists[i][used[i] - 1];
          used[i] := used[i] - 1;
          model := PopAt(model, i);
          return Some((h, i));
        }
      }
      return None;
    }
  }
}
