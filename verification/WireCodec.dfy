/**
 Encoding into a buffer and decoding from one, with a moving cursor. Every reader is proved
 to give back what the buffer's layout was made from and to stop where the next field starts.
 */
module WireCodec {
  import opened Wire

  // ---------- writing ----------

  method PutBytes(buf: array<Byte>, at: nat, bs: seq<Byte>)
    requires at + |bs| <= buf.Length
    modifies buf
    ensures buf[..] == Overlay(old(buf[..]), at, Bytes(bs))
  {
    ghost var goal := Overlay(buf[..], at, Bytes(bs));
    assert bs[0..] == bs;
    for i := 0 to |bs|
      invariant Overlay(buf[..], at + i, Bytes(bs[i..])) == goal
    {
      assert Bytes(bs[i..])[0] == Fixed(bs[i]) && Bytes(bs[i..])[1..] == Bytes(bs[i + 1..]);
      ghost var was := buf[..];
      buf[at + i] := bs[i];
      assert buf[..] == was[at + i := bs[i]];
    }
  }

  /** A length in four bytes, the bytes, and a gap of `gap` bytes that is not written. */
  method PutCounted(buf: array<Byte>, at: nat, n: nat, bs: seq<Byte>, ghost gap: nat)
    requires at + 4 + |bs| + gap <= buf.Length
    modifies buf
    ensures buf[..] == Overlay(old(buf[..]), at, Bytes(Le(n, 4)) + Bytes(bs) + Holes(gap))
  {
    ghost var was := buf[..];
    PutBytes(buf, at, Le(n, 4));
    PutBytes(buf, at + 4, bs);
    OverlayConcat(was, at, Bytes(Le(n, 4)), Bytes(bs));
    OverlayConcat(was, at, Bytes(Le(n, 4)) + Bytes(bs), Holes(gap));
    OverlayHoles(buf[..], at + 4 + |bs|, gap);
  }

  /** One encode macro. */
  method PutItem(buf: array<Byte>, base: nat, at: nat, i: Item) returns (next: nat)
    requires at + |Cells(i, base + at)| <= buf.Length
    modifies buf
    ensures next == at + |Cells(i, base + at)|
    ensures buf[..] == Overlay(old(buf[..]), at, Cells(i, base + at))
  {
    next := at;
    match i
    case U32(n) =>
      PutBytes(buf, at, Le(n, 4));
      next := at + 4;
    case U64(n) =>
      PutBytes(buf, at, Le(n, 8));
      next := at + 8;
    case Skip4 =>
      OverlayHoles(buf[..], at, 4);
      next := at + 4;
    case Text(s) =>
      if s != [] {
        PutCounted(buf, at, |s|, s + [0], Pad(|s| + 5));
        assert Cells(i, base + at) == Bytes(Le(|s|, 4)) + Bytes(s + [0]) + Holes(Pad(|s| + 5));
        next := at + |s| + 5 + Pad(|s| + 5);
      } else {
        PutCounted(buf, at, 0, [], 4);
        assert Cells(i, base + at) == Bytes(Le(0, 4)) + Bytes([]) + Holes(4);
        next := at + 8;
      }
    case Keyval(b) =>
      PutCounted(buf, at, |b|, b, Pad(|b| + 4));
      next := at + |b| + 4 + Pad(|b| + 4);
    case Raw(b) =>
      PutBytes(buf, at, b);
      next := at + |b|;
    case Align8 =>
      OverlayHoles(buf[..], at, Pad(base + at));
      next := at + Pad(base + at);
  }

  lemma EncodeStep(buf: seq<Byte>, base: nat, at: nat, p: Plan)
    requires p.Put? && at + |Layout(p, base + at)| <= |buf|
    ensures var cells := Cells(p.item, base + at);
            var next := at + |cells|;
            && next + |Layout(p.next, base + next)| == at + |Layout(p, base + at)|
            && Overlay(Overlay(buf, at, cells), next, Layout(p.next, base + next)) == Overlay(buf, at, Layout(p, base + at))
  {
    var cells := Cells(p.item, base + at);
    OverlayConcat(buf, at, cells, Layout(p.next, base + at + |cells|));
  }

  /** An encoder: its macro calls one after the other. The rest of the buffer, and all padding, stay as they were. */
  method Encode(buf: array<Byte>, base: nat, at: nat, p: Plan) returns (next: nat)
    requires at + |Layout(p, base + at)| <= buf.Length
    modifies buf
    ensures next == at + |Layout(p, base + at)|
    ensures buf[..] == Overlay(old(buf[..]), at, Layout(p, base + at))
    decreases p
  {
    if p.Done? {
      next := at;
    } else {
      EncodeStep(buf[..], base, at, p);
      next := PutItem(buf, base, at, p.item);
      next := Encode(buf, base, next, p.next);
    }
  }

  // ---------- reading ----------

  /** A little-endian number of `k` bytes. */
  method GetLe(buf: seq<Byte>, at: nat, k: nat) returns (n: nat)
    requires at + k <= |buf|
    ensures n == Val(buf[at..at + k])
  {
    n := 0;
    var i := k;
    while i > 0
      invariant 0 <= i <= k && n == Val(buf[at + i..at + k])
    {
      i := i - 1;
      assert buf[at + i..at + k][1..] == buf[at + i + 1..at + k];
      n := buf[at + i] + 256 * n;
    }
  }

  lemma HeldNumber(buf: seq<Byte>, at: nat, n: nat, k: nat, more: seq<Cell>)
    requires Holds(buf, at, Bytes(Le(n, k)) + more) && n < Pow256(k)
    ensures at + k <= |buf| && Val(buf[at..at + k]) == n
  {
    HeldBytes(buf, at, Le(n, k), more);
    ValLe(n, k);
  }

  lemma HeldBytes(buf: seq<Byte>, at: nat, bs: seq<Byte>, more: seq<Cell>)
    requires Holds(buf, at, Bytes(bs) + more)
    ensures at + |bs| <= |buf| && buf[at..at + |bs|] == bs && Holds(buf, at + |bs|, more)
  {
    HoldsConcat(buf, at, Bytes(bs), more);
    forall i | 0 <= i < |bs| ensures buf[at + i] == bs[i] {
      assert Bytes(bs)[i] == Fixed(bs[i]);
    }
  }

  /** The cursor stands behind the first item. */
  lemma Move(buf: seq<Byte>, base: nat, at: nat, p: Plan, end: nat, next: nat)
    requires p.Put? && Ready(buf, base, at, p, end) && next == at + Width(p.item, base + at)
    ensures Ready(buf, base, next, p.next, end)
    ensures Tidy(buf, base, at, p)
       <==> (p.item.Text? && p.item.s == [] ==> at + 4 < |buf| && buf[at + 4] == 0) && Tidy(buf, base, next, p.next)
  {
    MoveReady(buf, base, at, p, end, next);
    MoveTidy(buf, base, at, p, next);
  }

  method GetU32(buf: seq<Byte>, base: nat, at: nat, ghost p: Plan, ghost end: nat) returns (n: nat, next: nat)
    requires Ready(buf, base, at, p, end) && p.Put? && p.item.U32?
    ensures n == p.item.n && Ready(buf, base, next, p.next, end)
    ensures Tidy(buf, base, at, p) <==> Tidy(buf, base, next, p.next)
  {
    assert Bytes(Le(p.item.n, 4)) + [] == Cells(p.item, base + at);
    HeldNumber(buf, at, p.item.n, 4, []);
    n := GetLe(buf, at, 4);
    next := at + 4;
    Move(buf, base, at, p, end, next);
  }

  method GetU64(buf: seq<Byte>, base: nat, at: nat, ghost p: Plan, ghost end: nat) returns (n: nat, next: nat)
    requires Ready(buf, base, at, p, end) && p.Put? && p.item.U64?
    ensures n == p.item.n && Ready(buf, base, next, p.next, end)
    ensures Tidy(buf, base, at, p) <==> Tidy(buf, base, next, p.next)
  {
    assert Bytes(Le(p.item.n, 8)) + [] == Cells(p.item, base + at);
    assert Pow256(8) == 0x1_0000_0000_0000_0000;
    HeldNumber(buf, at, p.item.n, 8, []);
    n := GetLe(buf, at, 8);
    next := at + 8;
    Move(buf, base, at, p, end, next);
  }

  /** decode_skip4 and align8: the cursor moves over bytes that carry nothing. */
  method Skip(buf: seq<Byte>, base: nat, at: nat, ghost p: Plan, ghost end: nat) returns (next: nat)
    requires Ready(buf, base, at, p, end) && p.Put? && p.item.Skip4?
    ensures Ready(buf, base, next, p.next, end)
    ensures Tidy(buf, base, at, p) <==> Tidy(buf, base, next, p.next)
  {
    next := at + 4;
    Move(buf, base, at, p, end, next);
  }

  method Align(buf: seq<Byte>, base: nat, at: nat, ghost p: Plan, ghost end: nat) returns (next: nat)
    requires Ready(buf, base, at, p, end) && p.Put? && p.item.Align8?
    ensures Ready(buf, base, next, p.next, end) && (base + next) % 8 == 0
    ensures Tidy(buf, base, at, p) <==> Tidy(buf, base, next, p.next)
  {
    UpIs(base + at);
    next := at + Pad(base + at);
    Move(buf, base, at, p, end, next);
  }

  /** `n` bytes copied one by one, as the decode_char loops do. */
  method GetRaw(buf: seq<Byte>, base: nat, at: nat, n: nat, ghost p: Plan, ghost end: nat)
    returns (b: seq<Byte>, next: nat)
    requires Ready(buf, base, at, p, end) && p.Put? && p.item.Raw? && |p.item.b| == n
    ensures b == p.item.b && Ready(buf, base, next, p.next, end)
    ensures Tidy(buf, base, at, p) <==> Tidy(buf, base, next, p.next)
  {
    assert Bytes(p.item.b) + [] == Cells(p.item, base + at);
    HeldBytes(buf, at, p.item.b, []);
    b := [];
    for i := 0 to n
      invariant b == buf[at..at + i]
    {
      b := b + [buf[at + i]];
    }
    next := at + n;
    Move(buf, base, at, p, end, next);
  }

  /** decode_PVFS_ds_keyval */
  method GetKeyval(buf: seq<Byte>, base: nat, at: nat, ghost p: Plan, ghost end: nat)
    returns (b: seq<Byte>, next: nat)
    requires Ready(buf, base, at, p, end) && p.Put? && p.item.Keyval?
    ensures b == p.item.b && Ready(buf, base, next, p.next, end)
    ensures Tidy(buf, base, at, p) <==> Tidy(buf, base, next, p.next)
  {
    HeldKeyval(buf, at, p.item.b, base + at);
    var n := GetLe(buf, at, 4);
    b := buf[at + 4..at + 4 + n];
    next := at + n + 4 + Pad(n + 4);
    Move(buf, base, at, p, end, next);
  }

  lemma HeldKeyval(buf: seq<Byte>, at: nat, v: seq<Byte>, addr: nat)
    requires Holds(buf, at, Cells(Keyval(v), addr)) && Fits(Keyval(v))
    ensures at + |v| + 4 <= |buf| && Val(buf[at..at + 4]) == |v| && buf[at + 4..at + 4 + |v|] == v
  {
    var more := Bytes(v) + Holes(Pad(|v| + 4));
    assert Cells(Keyval(v), addr) == Bytes(Le(|v|, 4)) + more;
    HeldNumber(buf, at, |v|, 4, more);
    HeldBytes(buf, at, Le(|v|, 4), more);
    HeldBytes(buf, at + 4, v, Holes(Pad(|v| + 4)));
  }

  /** The C string that starts at `at`. */
  method CString(buf: seq<Byte>, at: nat) returns (s: seq<Byte>)
    requires at <= |buf|
    ensures at + |s| <= |buf| && s == buf[at..at + |s|] && 0 !in s
    ensures at + |s| == |buf| || buf[at + |s|] == 0
  {
    s := [];
    while at + |s| < |buf| && buf[at + |s|] != 0
      invariant at + |s| <= |buf| && s == buf[at..at + |s|] && 0 !in s
      decreases |buf| - |s|
    {
      s := s + [buf[at + |s|]];
    }
  }

  /** decode_string: the text comes back exactly when it was not empty or a zero byte was lying there. */
  method GetText(buf: seq<Byte>, base: nat, at: nat, ghost p: Plan, ghost end: nat)
    returns (s: seq<Byte>, next: nat)
    requires Ready(buf, base, at, p, end) && p.Put? && p.item.Text?
    ensures Ready(buf, base, next, p.next, end)
    ensures at + 4 < |buf| && (s == p.item.s <==> p.item.s != [] || buf[at + 4] == 0)
    ensures Tidy(buf, base, at, p) <==> s == p.item.s && Tidy(buf, base, next, p.next)
  {
    HeldText(buf, at, p.item.s, base + at);
    var n := GetLe(buf, at, 4);
    s := CString(buf, at + 4);
    TextRead(buf, at, p.item.s, s);
    next := at + n + 5 + Pad(n + 5);
    Move(buf, base, at, p, end, next);
  }

  lemma TextRead(buf: seq<Byte>, at: nat, v: seq<Byte>, s: seq<Byte>)
    requires at + |v| + 5 <= |buf| && 0 !in v && (v != [] ==> buf[at + 4..at + 5 + |v|] == v + [0])
    requires at + 4 + |s| <= |buf| && s == buf[at + 4..at + 4 + |s|] && 0 !in s
    requires at + 4 + |s| == |buf| || buf[at + 4 + |s|] == 0
    ensures s == v <==> v != [] || buf[at + 4] == 0
  {
    if v != [] {
      SameString(buf, at + 4, s, v);
    } else {
      assert s != [] ==> s[0] == buf[at + 4];
    }
  }

  lemma HeldText(buf: seq<Byte>, at: nat, v: seq<Byte>, addr: nat)
    requires Holds(buf, at, Cells(Text(v), addr)) && Fits(Text(v))
    ensures at + |v| + 5 <= |buf|
    ensures Val(buf[at..at + 4]) == |v|
    ensures v != [] ==> buf[at + 4..at + 5 + |v|] == v + [0]
  {
    var more := if v == [] then Holes(4) else Bytes(v + [0]) + Holes(Pad(|v| + 5));
    assert Cells(Text(v), addr) == Bytes(Le(|v|, 4)) + more;
    HeldNumber(buf, at, |v|, 4, more);
    HeldBytes(buf, at, Le(|v|, 4), more);
    if v != [] {
      HeldBytes(buf, at + 4, v + [0], Holes(Pad(|v| + 5)));
    }
  }

  lemma SameString(buf: seq<Byte>, at: nat, s: seq<Byte>, v: seq<Byte>)
    requires at + |v| < |buf| && buf[at..at + |v| + 1] == v + [0] && 0 !in v
    requires at + |s| <= |buf| && s == buf[at..at + |s|] && 0 !in s && (at + |s| == |buf| || buf[at + |s|] == 0)
    ensures s == v
  {
    assert forall i :: 0 <= i <= |v| ==> buf[at + i] == (v + [0])[i];
    assert forall i :: 0 <= i < |v| ==> buf[at + i] == v[i] && v[i] != 0;
    assert buf[at + |v|] == 0;
    assert forall i :: 0 <= i < |s| ==> buf[at + i] == s[i] && s[i] != 0;
    assert |s| == |v|;
  }
}
