/**
 The little-endian bytefield layout (src/proto/endecode-funcs.h): what an encoder writes,
 byte by byte, and what it leaves as it was.
 */
module Wire {
  type Byte = x: int | 0 <= x < 256

  // ---------- numbers ----------

  function Pow256(k: nat): (r: nat)
    ensures r > 0
  {
    if k == 0 then 1 else 256 * Pow256(k - 1)
  }

  /** `n` in `k` bytes, lowest byte first; higher bytes of `n` are cut off. */
  function Le(n: nat, k: nat): (r: seq<Byte>)
    ensures |r| == k
  {
    if k == 0 then [] else [n % 256] + Le(n / 256, k - 1)
  }

  function Val(bs: seq<Byte>): nat {
    if bs == [] then 0 else bs[0] + 256 * Val(bs[1..])
  }

  lemma {:induction false} ValLe(n: nat, k: nat)
    requires n < Pow256(k)
    ensures Val(Le(n, k)) == n
  {
    if k > 0 {
      ValLe(n / 256, k - 1);
      assert Le(n, k)[1..] == Le(n / 256, k - 1);
    }
  }

  // ---------- what is written ----------

  /** One call of a primitive encode macro. */
  datatype Item =
    | U32(n: nat)
    | U64(n: nat)
    | Skip4
    | Text(s: seq<Byte>)
    | Keyval(b: seq<Byte>)
    | Raw(b: seq<Byte>)
    | Align8

  /** The macro calls of an encoder, in order. */
  datatype Plan = Done | Put(item: Item, next: Plan)

  /** A byte of the buffer after encoding: written, or left over from before. */
  datatype Cell = Hole | Fixed(b: Byte)

  /** roundup8: the next multiple of eight. */
  function Up(n: nat): (r: nat)
    ensures n <= r < n + 8
  {
    if n == 0 then 0 else if n <= 8 then 8 else 8 + Up(n - 8)
  }

  /** What align8 and the string codecs add to get there. */
  function Pad(n: nat): (r: nat)
    ensures r < 8
  {
    Up(n) - n
  }

  lemma {:induction false} UpIs(n: nat)
    ensures Up(n) == (n + 7) / 8 * 8 && Up(n) % 8 == 0
  {
    if n > 8 {
      UpIs(n - 8);
    }
  }

  lemma {:induction false} PadSame(n: nat, m: nat)
    requires n % 8 == m % 8
    ensures Pad(n) == Pad(m)
    decreases n + m, n
  {
    if n > m {
      PadSame(m, n);
    } else if n < m {
      PadSame(n, m - 8);
    }
  }

  function Holes(n: nat): (r: seq<Cell>)
    ensures |r| == n
  {
    seq(n, _ => Hole)
  }

  function Bytes(bs: seq<Byte>): (r: seq<Cell>)
    ensures |r| == |bs|
  {
    seq(|bs|, i requires 0 <= i < |bs| => Fixed(bs[i]))
  }

  /** The bytes of one item at address `at`. Only the padding of Align8 depends on the address. */
  function Cells(i: Item, at: nat): seq<Cell> {
    match i
    case U32(n) => Bytes(Le(n, 4))
    case U64(n) => Bytes(Le(n, 8))
    case Skip4 => Holes(4)
    case Text(s) => Bytes(Le(|s|, 4)) + if s == [] then Holes(4) else Bytes(s + [0]) + Holes(Pad(|s| + 5))
    case Keyval(b) => Bytes(Le(|b|, 4)) + Bytes(b) + Holes(Pad(|b| + 4))
    case Raw(b) => Bytes(b)
    case Align8 => Holes(Pad(at))
  }

  /** How far an item moves the cursor. */
  function Width(i: Item, at: nat): nat {
    match i
    case U32(_) => 4
    case U64(_) => 8
    case Skip4 => 4
    case Text(s) => |s| + 5 + Pad(|s| + 5)
    case Keyval(b) => |b| + 4 + Pad(|b| + 4)
    case Raw(b) => |b|
    case Align8 => Pad(at)
  }

  lemma WidthIs(i: Item, at: nat)
    ensures |Cells(i, at)| == Width(i, at)
  {
  }

  function Layout(p: Plan, at: nat): seq<Cell> {
    match p
    case Done => []
    case Put(i, k) => Cells(i, at) + Layout(k, at + |Cells(i, at)|)
  }

  lemma LayoutStep(p: Plan, at: nat, next: nat)
    requires p.Put? && next == at + Width(p.item, at)
    ensures Layout(p, at) == Cells(p.item, at) + Layout(p.next, next) && |Cells(p.item, at)| == Width(p.item, at)
  {
    WidthIs(p.item, at);
  }

  lemma CellsSame(i: Item, at: nat, other: nat)
    requires at % 8 == other % 8
    ensures Cells(i, at) == Cells(i, other)
  {
    PadSame(at, other);
  }

  /** Encoding at another address of the same alignment gives the same bytes. */
  lemma {:induction false} SameAlignment(p: Plan, at: nat, other: nat)
    requires at % 8 == other % 8
    ensures Layout(p, at) == Layout(p, other)
    decreases p
  {
    if p.Put? {
      CellsSame(p.item, at, other);
      SameAlignment(p.next, at + |Cells(p.item, at)|, other + |Cells(p.item, other)|);
    }
  }

  /** The values a field can carry: widths, and no NUL inside a string. */
  predicate Fits(i: Item) {
    match i
    case U32(n) => n < 0x1_0000_0000
    case U64(n) => n < 0x1_0000_0000_0000_0000
    case Text(s) => |s| < 0x8000_0000 && 0 !in s
    case Keyval(b) => |b| < 0x8000_0000
    case _ => true
  }

  predicate AllFit(p: Plan) {
    p.Put? ==> Fits(p.item) && AllFit(p.next)
  }

  // ---------- what a buffer holds ----------

  /** The buffer has these bytes at `at`; holes match anything. */
  ghost predicate Holds(buf: seq<Byte>, at: nat, cells: seq<Cell>) {
    && at + |cells| <= |buf|
    && forall i :: 0 <= i < |cells| && cells[i].Fixed? ==> buf[at + i] == cells[i].b
  }

  /** The buffer after these bytes were written at `at`: holes keep what was there. */
  ghost function Overlay(buf: seq<Byte>, at: nat, cells: seq<Cell>): (r: seq<Byte>)
    requires at + |cells| <= |buf|
    ensures |r| == |buf|
    decreases |cells|
  {
    if cells == [] then buf
    else Overlay(if cells[0].Fixed? then buf[at := cells[0].b] else buf, at + 1, cells[1..])
  }

  lemma {:induction false} OverlayIs(buf: seq<Byte>, at: nat, cells: seq<Cell>)
    requires at + |cells| <= |buf|
    ensures var r := Overlay(buf, at, cells);
            && Holds(r, at, cells)
            && forall i :: 0 <= i < |buf| && (i < at || i >= at + |cells| || cells[i - at].Hole?) ==> r[i] == buf[i]
    decreases |cells|
  {
    if cells != [] {
      OverlayIs(if cells[0].Fixed? then buf[at := cells[0].b] else buf, at + 1, cells[1..]);
    }
  }

  lemma {:induction false} OverlayConcat(buf: seq<Byte>, at: nat, a: seq<Cell>, b: seq<Cell>)
    requires at + |a| + |b| <= |buf|
    ensures Overlay(Overlay(buf, at, a), at + |a|, b) == Overlay(buf, at, a + b)
    decreases |a|
  {
    if a == [] {
      assert a + b == b;
    } else {
      OverlayConcat(if a[0].Fixed? then buf[at := a[0].b] else buf, at + 1, a[1..], b);
      assert (a + b)[1..] == a[1..] + b;
    }
  }

  lemma {:induction false} OverlayHoles(buf: seq<Byte>, at: nat, n: nat)
    requires at + n <= |buf|
    ensures Overlay(buf, at, Holes(n)) == buf
    decreases n
  {
    if n > 0 {
      assert Holes(n)[1..] == Holes(n - 1);
      OverlayHoles(buf, at + 1, n - 1);
    }
  }

  lemma HoldsConcat(buf: seq<Byte>, at: nat, a: seq<Cell>, b: seq<Cell>)
    ensures Holds(buf, at, a + b) <==> Holds(buf, at, a) && Holds(buf, at + |a|, b)
  {
    var c := a + b;
    if Holds(buf, at, c) {
      assert forall i :: 0 <= i < |a| ==> c[i] == a[i];
      forall i | 0 <= i < |b| && b[i].Fixed? ensures buf[at + |a| + i] == b[i].b {
        assert c[|a| + i] == b[i];
      }
    }
  }

  /** Position `at` of the buffer at address `base` starts the encoding of `p`, which stops at `end`. */
  ghost predicate Ready(buf: seq<Byte>, base: nat, at: nat, p: Plan, end: nat)
    decreases p
  {
    match p
    case Done => at == end <= |buf|
    case Put(i, k) =>
      Fits(i) && Holds(buf, at, Cells(i, base + at)) && Ready(buf, base, at + Width(i, base + at), k, end)
  }

  /** That is: the layout is there, and `end` is behind it. */
  lemma {:induction false} ReadyIs(buf: seq<Byte>, base: nat, at: nat, p: Plan, end: nat)
    ensures Ready(buf, base, at, p, end)
       <==> AllFit(p) && Holds(buf, at, Layout(p, base + at)) && end == at + |Layout(p, base + at)|
    decreases p
  {
    if p.Put? {
      var next := at + Width(p.item, base + at);
      ReadyIs(buf, base, next, p.next, end);
      ReadyStep(buf, base, at, p, end, next);
    }
  }

  lemma ReadyStep(buf: seq<Byte>, base: nat, at: nat, p: Plan, end: nat, next: nat)
    requires p.Put? && next == at + Width(p.item, base + at)
    requires Ready(buf, base, next, p.next, end)
        <==> AllFit(p.next) && Holds(buf, next, Layout(p.next, base + next)) && end == next + |Layout(p.next, base + next)|
    ensures Ready(buf, base, at, p, end)
       <==> AllFit(p) && Holds(buf, at, Layout(p, base + at)) && end == at + |Layout(p, base + at)|
  {
    HoldsStep(buf, base, at, p, next);
    ReadyItem(buf, base, at, p, end, next);
  }

  /** The layout of a plan is that of its first item and that of the rest. */
  lemma HoldsStep(buf: seq<Byte>, base: nat, at: nat, p: Plan, next: nat)
    requires p.Put? && next == at + Width(p.item, base + at)
    ensures at + |Layout(p, base + at)| == next + |Layout(p.next, base + next)|
    ensures Holds(buf, at, Layout(p, base + at))
       <==> Holds(buf, at, Cells(p.item, base + at)) && Holds(buf, next, Layout(p.next, base + next))
  {
    LayoutStep(p, base + at, base + next);
    HoldsParts(buf, at, Layout(p, base + at), Cells(p.item, base + at), Layout(p.next, base + next), next);
  }

  lemma HoldsParts(buf: seq<Byte>, at: nat, whole: seq<Cell>, a: seq<Cell>, b: seq<Cell>, next: nat)
    requires whole == a + b && next == at + |a|
    ensures at + |whole| == next + |b|
    ensures Holds(buf, at, whole) <==> Holds(buf, at, a) && Holds(buf, next, b)
  {
    HoldsConcat(buf, at, a, b);
  }

  lemma ReadyItem(buf: seq<Byte>, base: nat, at: nat, p: Plan, end: nat, next: nat)
    requires p.Put? && next == at + Width(p.item, base + at)
    ensures Ready(buf, base, at, p, end)
       <==> Fits(p.item) && Holds(buf, at, Cells(p.item, base + at)) && Ready(buf, base, next, p.next, end)
  {
  }

  /** Empty strings are encoded without their terminator: this says one happens to be there. */
  ghost predicate Tidy(buf: seq<Byte>, base: nat, at: nat, p: Plan)
    decreases p
  {
    p.Put? ==>
      && (p.item.Text? && p.item.s == [] ==> at + 4 < |buf| && buf[at + 4] == 0)
      && Tidy(buf, base, at + Width(p.item, base + at), p.next)
  }

  /** Two buffers agree where an encoding has holes. */
  ghost predicate SameHoles(was: seq<Byte>, buf: seq<Byte>, at: nat, cells: seq<Cell>) {
    && |was| == |buf| && at + |cells| <= |buf|
    && forall i :: 0 <= i < |cells| && cells[i].Hole? ==> buf[at + i] == was[at + i]
  }

  lemma HolesConcat(was: seq<Byte>, buf: seq<Byte>, at: nat, a: seq<Cell>, b: seq<Cell>)
    requires SameHoles(was, buf, at, a + b)
    ensures SameHoles(was, buf, at, a) && SameHoles(was, buf, at + |a|, b)
  {
    var c := a + b;
    assert forall i :: 0 <= i < |a| ==> c[i] == a[i];
    forall i | 0 <= i < |b| && b[i].Hole? ensures buf[at + |a| + i] == was[at + |a| + i] {
      assert c[|a| + i] == b[i];
    }
  }

  /** The terminator of an empty string is a hole. */
  lemma TextHole(was: seq<Byte>, buf: seq<Byte>, at: nat, address: nat)
    requires SameHoles(was, buf, at, Cells(Text([]), address))
    ensures at + 4 < |buf| && |was| == |buf| && buf[at + 4] == was[at + 4]
  {
    WidthIs(Text([]), address);
    assert Cells(Text([]), address)[4].Hole?;
  }

  /** Tidiness depends on bytes that encoding leaves alone, so it can be told before. */
  lemma {:induction false} TidyBefore(was: seq<Byte>, buf: seq<Byte>, base: nat, at: nat, p: Plan)
    requires SameHoles(was, buf, at, Layout(p, base + at))
    ensures Tidy(was, base, at, p) <==> Tidy(buf, base, at, p)
    decreases p
  {
    if p.Put? {
      var n, cells := Width(p.item, base + at), Cells(p.item, base + at);
      var rest := Layout(p.next, base + (at + n));
      LayoutStep(p, base + at, base + (at + n));
      HolesConcat(was, buf, at, cells, rest);
      TidyBefore(was, buf, base, at + n, p.next);
      MoveTidy(was, base, at, p, at + n);
      MoveTidy(buf, base, at, p, at + n);
      if p.item == Text([]) { TextHole(was, buf, at, base + at); }
    }
  }

  /** Tidiness depends on the address only through its alignment. */
  lemma {:induction false} TidySame(buf: seq<Byte>, base: nat, other: nat, at: nat, p: Plan)
    requires base % 8 == other % 8
    ensures Tidy(buf, base, at, p) <==> Tidy(buf, other, at, p)
    decreases p
  {
    if p.Put? {
      PadSame(base + at, other + at);
      assert Width(p.item, base + at) == Width(p.item, other + at);
      TidySame(buf, base, other, at + Width(p.item, base + at), p.next);
    }
  }

  /** After encoding at `base`, a reader at an address of the same alignment finds the message, as tidy as the buffer was. */
  lemma Delivered(was: seq<Byte>, buf: seq<Byte>, base: nat, other: nat, p: Plan)
    requires AllFit(p) && |Layout(p, base)| <= |was| && buf == Overlay(was, 0, Layout(p, base)) && base % 8 == other % 8
    ensures Ready(buf, other, 0, p, |Layout(p, base)|)
    ensures Tidy(buf, other, 0, p) <==> Tidy(was, base, 0, p)
  {
    var cells := Layout(p, base);
    OverlayIs(was, 0, cells);
    assert SameHoles(was, buf, 0, cells);
    DeliveredTidy(was, buf, base, other, p);
    DeliveredReady(buf, base, other, p);
  }

  lemma DeliveredReady(buf: seq<Byte>, base: nat, other: nat, p: Plan)
    requires AllFit(p) && Holds(buf, 0, Layout(p, base)) && base % 8 == other % 8
    ensures Ready(buf, other, 0, p, |Layout(p, base)|)
  {
    SameAlignment(p, base, other);
    assert other + 0 == other;
    ReadyIs(buf, other, 0, p, |Layout(p, base)|);
  }

  lemma DeliveredTidy(was: seq<Byte>, buf: seq<Byte>, base: nat, other: nat, p: Plan)
    requires SameHoles(was, buf, 0, Layout(p, base)) && base % 8 == other % 8
    ensures Tidy(buf, other, 0, p) <==> Tidy(was, base, 0, p)
  {
    assert base + 0 == base;
    TidyBefore(was, buf, base, 0, p);
    TidySame(buf, base, other, 0, p);
  }

  /** Past the first item. */
  lemma MoveReady(buf: seq<Byte>, base: nat, at: nat, p: Plan, end: nat, next: nat)
    requires p.Put? && Ready(buf, base, at, p, end) && next == at + Width(p.item, base + at)
    ensures Ready(buf, base, next, p.next, end)
  {
  }

  lemma MoveTidy(buf: seq<Byte>, base: nat, at: nat, p: Plan, next: nat)
    requires p.Put? && next == at + Width(p.item, base + at)
    ensures Tidy(buf, base, at, p)
       <==> (p.item.Text? && p.item.s == [] ==> at + 4 < |buf| && buf[at + 4] == 0) && Tidy(buf, base, next, p.next)
  {
  }

  lemma {:induction false} LeZero(k: nat)
    ensures Le(0, k) == seq(k, _ => 0)
  {
    if k > 0 {
      LeZero(k - 1);
    }
  }

  lemma PowStep(n: nat, j: nat)
    requires j > 0
    ensures n * Pow256(j) == 256 * (n * Pow256(j - 1))
  {
  }

  lemma {:induction false} LeShift(n: nat, k: nat, j: nat)
    ensures Le(n * Pow256(j), k + j) == seq(j, _ => 0) + Le(n, k)
  {
    if j > 0 {
      LeShift(n, k, j - 1);
      PowStep(n, j);
      LeByte(n * Pow256(j - 1), k + j);
    } else {
      assert n * Pow256(0) == n;
    }
  }

  lemma LeByte(m: nat, k: nat)
    requires k > 0
    ensures Le(256 * m, k) == [0] + Le(m, k - 1)
  {
  }
}
