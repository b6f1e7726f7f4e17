/**
 PVFS_object_attr on the wire (src/proto/pvfs2-attr.h): which parts follow the fixed fields
 depends on the mask, and the mirror array is as long as counts decoded before say.
 */
module WireAttr {
  import opened Wrappers
  import opened Wire
  import opened WireCodec
  import opened WireSecurity

  const TYPE_METAFILE := 1
  const META_DIST := 0x400
  const META_DFILES := 0x800
  const META_UNSTUFFED := 0x1000
  const META_MIRROR_DFILES := 0x2000
  const DATA_SIZE := 0x8000
  const SYMLNK_TARGET := 0x4_0000
  const DIR_DIRENT_COUNT := 0x8_0000
  const DIR_HINT := 0x10_0000
  const DISTDIR_ATTR := 0x20_0000
  const CAPABILITY := 0x40_0000

  /** mask & bit, for a power of two. */
  predicate Bit(mask: nat, bit: nat)
    requires bit > 0
  {
    mask / bit % 2 == 1
  }

  datatype Dfiles = Dfiles(handles: seq<nat>, flags: nat)

  /** mirror_dfile_array: copy after copy, one handle for every datafile. */
  datatype Mirror = Mirror(copies: nat, handles: seq<nat>)

  datatype Hint = Hint(nameLen: nat, name: seq<Byte>, paramsLen: nat, params: seq<Byte>, dfileCount: nat,
                       algorithm: nat, servers: nat, bufsize: nat, serverList: seq<Byte>)

  /** The union: one arm at a time. */
  datatype Arm =
    | NoArm
    | Meta(stuffed: Option<nat>, dist: Option<seq<Byte>>, dfiles: Option<Dfiles>, mirror: Option<Mirror>)
    | Data(size: nat)
    | Symlink(len: nat, target: seq<Byte>)
    | Directory(direntCount: nat, hint: Hint)

  datatype DistDir = DistDir(treeHeight: nat, splitSize: nat, serverNo: nat, branchLevel: nat,
                             bitmap: seq<nat>, handles: seq<nat>)

  datatype Attr = Attr(owner: nat, group: nat, perms: nat, atime: nat, mtime: nat, ctime: nat,
                       mask: nat, objtype: nat, capability: Option<Capability>, arm: Arm, distDir: Option<DistDir>)

  // ---------- when a part is there ----------

  predicate Stuffed(mask: nat, objtype: nat) {
    objtype == TYPE_METAFILE && !Bit(mask, META_UNSTUFFED)
  }

  predicate UsesMeta(mask: nat, objtype: nat) {
    Stuffed(mask, objtype) || Bit(mask, META_DIST) || Bit(mask, META_DFILES) || Bit(mask, META_MIRROR_DFILES)
  }

  predicate UsesDirectory(mask: nat) {
    Bit(mask, DIR_DIRENT_COUNT) || Bit(mask, DIR_HINT)
  }

  /** The mask uses one arm of the union, and mirrors come with datafiles. */
  predicate WellFormed(a: Attr) {
    && (a.capability.Some? <==> Bit(a.mask, CAPABILITY))
    && (a.distDir.Some? <==> Bit(a.mask, DISTDIR_ATTR))
    && (a.arm.Meta? <==> UsesMeta(a.mask, a.objtype))
    && (a.arm.Data? <==> Bit(a.mask, DATA_SIZE))
    && (a.arm.Symlink? <==> Bit(a.mask, SYMLNK_TARGET))
    && (a.arm.Directory? <==> UsesDirectory(a.mask))
    && (a.arm.Meta? ==>
          && (a.arm.stuffed.Some? <==> Stuffed(a.mask, a.objtype))
          && (a.arm.dist.Some? <==> Bit(a.mask, META_DIST))
          && (a.arm.dfiles.Some? <==> Bit(a.mask, META_DFILES))
          && (a.arm.mirror.Some? <==> Bit(a.mask, META_MIRROR_DFILES))
          && (a.arm.mirror.Some? ==>
                && a.arm.dfiles.Some?
                && |a.arm.mirror.value.handles| == a.arm.mirror.value.copies * |a.arm.dfiles.value.handles|))
  }

  // ---------- encoding ----------

  function OptionalU32Gap(n: Option<nat>, k: Plan): Plan {
    if n.None? then k else Put(U32(n.value), Put(Skip4, k))
  }

  function DfilesPlan(d: Option<Dfiles>, k: Plan): Plan {
    if d.None? then k
    else Put(U32(|d.value.handles|), Put(Skip4, Words(d.value.handles, Put(U64(d.value.flags), k))))
  }

  function MirrorPlan(m: Option<Mirror>, k: Plan): Plan {
    if m.None? then k else Put(U32(m.value.copies), Put(Skip4, Words(m.value.handles, k)))
  }

  function MetaPlan(a: Arm, k: Plan): Plan {
    if !a.Meta? then k
    else OptionalU32Gap(a.stuffed, if a.dist.None? then DfilesPlan(a.dfiles, MirrorPlan(a.mirror, k))
                                   else Put(Raw(a.dist.value), DfilesPlan(a.dfiles, MirrorPlan(a.mirror, k))))
  }

  function LayoutHintPlan(h: Hint, k: Plan): Plan {
    Put(U32(h.algorithm), Put(U32(h.servers), Put(U32(h.bufsize), Put(Text(h.serverList), k))))
  }

  function HintPlan(h: Hint, k: Plan): Plan {
    Put(U32(h.nameLen), Put(Skip4, Put(Text(h.name), Put(U32(h.paramsLen), Put(Skip4, Put(Text(h.params),
      Put(U32(h.dfileCount), LayoutHintPlan(h, k))))))))
  }

  function DataPlan(a: Arm, k: Plan): Plan {
    if !a.Data? then k else Put(U64(a.size), k)
  }

  function SymlinkPlan(a: Arm, k: Plan): Plan {
    if !a.Symlink? then k else Put(U32(a.len), Put(Skip4, Put(Text(a.target), k)))
  }

  function DirectoryPlan(a: Arm, k: Plan): Plan {
    if !a.Directory? then k else Put(U64(a.direntCount), HintPlan(a.hint, k))
  }

  function DistDirPlan(d: Option<DistDir>, k: Plan): Plan {
    if d.None? then k
    else
      var x := d.value;
      Put(U32(x.treeHeight), Put(U32(|x.handles|), Put(U32(|x.bitmap|), Put(U32(x.splitSize), Put(U32(x.serverNo),
        Put(U32(x.branchLevel), Halves(x.bitmap, Put(Skip4, Words(x.handles, k)))))))))
  }

  function CapabilityPart(c: Option<Capability>, k: Plan): Plan {
    if c.None? then k else CapabilityPlan(c.value, k)
  }

  /** What follows the fixed fields. */
  function PartsPlan(a: Attr, k: Plan): Plan {
    CapabilityPart(a.capability, MetaPlan(a.arm, DataPlan(a.arm, SymlinkPlan(a.arm,
      DistDirPlan(a.distDir, DirectoryPlan(a.arm, k))))))
  }

  /** encode_PVFS_object_attr */
  function AttrPlan(a: Attr, k: Plan): Plan {
    Put(U32(a.owner), Put(U32(a.group), Put(U32(a.perms), Put(Skip4, Put(U64(a.atime), Put(U64(a.mtime),
      Put(U64(a.ctime), Put(U32(a.mask), Put(U32(a.objtype), PartsPlan(a, k))))))))))
  }

  // ---------- decoding, part by part ----------

  method GetDfiles(buf: seq<Byte>, base: nat, at: nat, ghost d: Dfiles, ghost k: Plan, ghost end: nat)
    returns (r: Dfiles, next: nat)
    requires Ready(buf, base, at, DfilesPlan(Some(d), k), end)
    ensures r == d && Ready(buf, base, next, k, end)
    ensures Tidy(buf, base, at, DfilesPlan(Some(d), k)) <==> Tidy(buf, base, next, k)
  {
    ghost var p := DfilesPlan(Some(d), k);
    var n, handles, flags;
    n, next := GetU32(buf, base, at, p, end);
    next := Skip(buf, base, next, p.next, end);
    ghost var q := Put(U64(d.flags), k);
    handles, next := GetWords(buf, base, next, n, d.handles, q, end);
    flags, next := GetU64(buf, base, next, q, end);
    r := Dfiles(handles, flags);
  }

  lemma RowEnd(i: nat, copies: nat, width: nat)
    requires i < copies
    ensures (i + 1) * width == i * width + width <= copies * width
  {
    assert (i + 1) * width <= copies * width;
  }

  /** The words from number `i` on are still to be written at `next`, and then the buffer is `goal`. */
  ghost predicate StillToPut(buf: seq<Byte>, base: nat, next: nat, h: seq<nat>, i: nat, goal: seq<Byte>) {
    && i <= |h| && next + |Layout(Words(h[i..], Done), base + next)| <= |buf|
    && Overlay(buf, next, Layout(Words(h[i..], Done), base + next)) == goal
  }

  lemma OneLess(buf: seq<Byte>, base: nat, next: nat, h: seq<nat>, i: nat, goal: seq<Byte>)
    requires StillToPut(buf, base, next, h, i, goal) && i < |h|
    ensures |Cells(U64(h[i]), base + next)| == 8 && next + 8 <= |buf|
    ensures StillToPut(Overlay(buf, next, Cells(U64(h[i]), base + next)), base, next + 8, h, i + 1, goal)
  {
    assert h[i..][1..] == h[i + 1..];
    EncodeStep(buf, base, next, Words(h[i..], Done));
  }

  method PutOne(buf: array<Byte>, base: nat, at: nat, i: nat, h: seq<nat>, ghost goal: seq<Byte>) returns (next: nat)
    requires i < |h| && StillToPut(buf[..], base, at, h, i, goal)
    modifies buf
    ensures next == at + 8 && StillToPut(buf[..], base, next, h, i + 1, goal)
  {
    OneLess(buf[..], base, at, h, i, goal);
    next := PutItem(buf, base, at, U64(h[i]));
  }

  /** The inner loop: the handles of one copy, from number `row` on. */
  method PutRow(buf: array<Byte>, base: nat, at: nat, row: nat, width: nat, h: seq<nat>, ghost goal: seq<Byte>) returns (next: nat)
    requires row + width <= |h| && StillToPut(buf[..], base, at, h, row, goal)
    modifies buf
    ensures next == at + 8 * width && StillToPut(buf[..], base, next, h, row + width, goal)
  {
    next := at;
    for j := 0 to width
      invariant next == at + 8 * j && StillToPut(buf[..], base, next, h, row + j, goal)
    {
      next := PutOne(buf, base, next, row + j, h, goal);
    }
  }

  /** The loop of encode_PVFS_metafile_attr_mirror_dfiles writes handle after handle, each once. */
  method PutMirrorRows(buf: array<Byte>, base: nat, at: nat, copies: nat, width: nat, h: seq<nat>) returns (next: nat)
    requires |h| == copies * width && at + |Layout(Words(h, Done), base + at)| <= buf.Length
    modifies buf
    ensures buf[..] == Overlay(old(buf[..]), at, Layout(Words(h, Done), base + at))
    ensures next == at + 8 * |h|
  {
    ghost var goal := Overlay(buf[..], at, Layout(Words(h, Done), base + at));
    next := at;
    ghost var row: nat := 0;
    assert h[0..] == h;
    for i := 0 to copies
      invariant row == i * width <= |h| && next == at + 8 * row
      invariant StillToPut(buf[..], base, next, h, row, goal)
    {
      RowEnd(i, copies, width);
      next := PutRow(buf, base, next, i * width, width, h, goal);
      row := row + width;
    }
    assert h[row..] == [];
  }

  lemma {:induction false} WordsSplit(a: seq<nat>, b: seq<nat>, k: Plan)
    ensures Words(a + b, k) == Words(a, Words(b, k))
  {
    if a == [] {
      assert a + b == b;
    } else {
      WordsSplit(a[1..], b, k);
      assert (a + b)[1..] == a[1..] + b;
    }
  }

  /**
   The loop of decode_PVFS_metafile_attr_mirror_dfiles: copy after copy, each of `width` handles, so that
   handle number i * width + j of the array is the j-th of copy i.
   */
  method GetMirrorRows(buf: seq<Byte>, base: nat, at: nat, copies: nat, width: nat,
                       ghost h: seq<nat>, ghost k: Plan, ghost end: nat)
    returns (r: seq<nat>, next: nat)
    requires Ready(buf, base, at, Words(h, k), end) && |h| == copies * width
    ensures r == h && Ready(buf, base, next, k, end)
    ensures Tidy(buf, base, at, Words(h, k)) <==> Tidy(buf, base, next, k)
  {
    r, next := [], at;
    ghost var rest := h;
    assert r + rest == h;
    for i := 0 to copies
      invariant |r| == i * width <= |h| && r + rest == h
      invariant Ready(buf, base, next, Words(rest, k), end)
      invariant Tidy(buf, base, at, Words(h, k)) <==> Tidy(buf, base, next, Words(rest, k))
    {
      RowEnd(i, copies, width);
      ghost var here, later := rest[..width], rest[width..];
      assert rest == here + later;
      WordsSplit(here, later, k);
      var row;
      row, next := GetWords(buf, base, next, width, here, Words(later, k), end);
      assert (r + row) + later == r + (here + later);
      r, rest := r + row, later;
    }
    assert rest == [] && r + [] == r;
  }

  method GetMirror(buf: seq<Byte>, base: nat, at: nat, width: nat, ghost m: Mirror, ghost k: Plan, ghost end: nat)
    returns (r: Mirror, next: nat)
    requires Ready(buf, base, at, MirrorPlan(Some(m), k), end) && |m.handles| == m.copies * width
    ensures r == m && Ready(buf, base, next, k, end)
    ensures Tidy(buf, base, at, MirrorPlan(Some(m), k)) <==> Tidy(buf, base, next, k)
  {
    ghost var p := MirrorPlan(Some(m), k);
    var copies, handles;
    copies, next := GetU32(buf, base, at, p, end);
    next := Skip(buf, base, next, p.next, end);
    handles, next := GetMirrorRows(buf, base, next, copies, width, m.handles, k, end);
    r := Mirror(copies, handles);
  }

  method GetMeta(buf: seq<Byte>, base: nat, at: nat, mask: nat, objtype: nat, distLen: nat,
                 ghost a: Arm, ghost k: Plan, ghost end: nat)
    returns (r: Arm, next: nat)
    requires Ready(buf, base, at, MetaPlan(a, k), end) && a.Meta?
    requires a.stuffed.Some? <==> Stuffed(mask, objtype)
    requires a.dist.Some? <==> Bit(mask, META_DIST)
    requires a.dist.Some? ==> |a.dist.value| == distLen
    requires a.dfiles.Some? <==> Bit(mask, META_DFILES)
    requires a.mirror.Some? <==> Bit(mask, META_MIRROR_DFILES)
    requires a.mirror.Some? ==> a.dfiles.Some? && |a.mirror.value.handles| == a.mirror.value.copies * |a.dfiles.value.handles|
    ensures r == a && Ready(buf, base, next, k, end)
    ensures Tidy(buf, base, at, MetaPlan(a, k)) <==> Tidy(buf, base, next, k)
  {
    next := at;
    r := Meta(None, None, None, None);
    ghost var p2 := MirrorPlan(a.mirror, k);
    ghost var p1 := DfilesPlan(a.dfiles, p2);
    ghost var p0 := if a.dist.None? then p1 else Put(Raw(a.dist.value), p1);
    if Stuffed(mask, objtype) {
      var n;
      n, next := GetU32(buf, base, next, OptionalU32Gap(a.stuffed, p0), end);
      next := Skip(buf, base, next, Put(Skip4, p0), end);
      r := r.(stuffed := Some(n));
    }
    if Bit(mask, META_DIST) {
      var d;
      d, next := GetRaw(buf, base, next, distLen, p0, end);
      r := r.(dist := Some(d));
    }
    if Bit(mask, META_DFILES) {
      var d;
      d, next := GetDfiles(buf, base, next, a.dfiles.value, p2, end);
      r := r.(dfiles := Some(d));
    }
    if Bit(mask, META_MIRROR_DFILES) {
      var m;
      m, next := GetMirror(buf, base, next, |r.dfiles.value.handles|, a.mirror.value, k, end);
      r := r.(mirror := Some(m));
    }
  }

  method GetHint(buf: seq<Byte>, base: nat, at: nat, ghost h: Hint, ghost k: Plan, ghost end: nat)
    returns (r: Hint, next: nat)
    requires Ready(buf, base, at, HintPlan(h, k), end)
    ensures r == h.(name := r.name, params := r.params, serverList := r.serverList)
    ensures Ready(buf, base, next, k, end)
    ensures Tidy(buf, base, at, HintPlan(h, k)) <==> r == h && Tidy(buf, base, next, k)
  {
    ghost var p := HintPlan(h, k);
    ghost var q := p.next.next.next;
    ghost var l := LayoutHintPlan(h, k);
    var nameLen, name, paramsLen, params, dfileCount, algorithm, servers, bufsize, serverList;
    nameLen, next := GetU32(buf, base, at, p, end);
    next := Skip(buf, base, next, p.next, end);
    name, next := GetText(buf, base, next, p.next.next, end);
    paramsLen, next := GetU32(buf, base, next, q, end);
    next := Skip(buf, base, next, q.next, end);
    params, next := GetText(buf, base, next, q.next.next, end);
    dfileCount, next := GetU32(buf, base, next, q.next.next.next, end);
    algorithm, next := GetU32(buf, base, next, l, end);
    servers, next := GetU32(buf, base, next, l.next, end);
    bufsize, next := GetU32(buf, base, next, l.next.next, end);
    serverList, next := GetText(buf, base, next, l.next.next.next, end);
    r := Hint(nameLen, name, paramsLen, params, dfileCount, algorithm, servers, bufsize, serverList);
  }

  method GetDistDir(buf: seq<Byte>, base: nat, at: nat, ghost d: DistDir, ghost k: Plan, ghost end: nat)
    returns (r: DistDir, next: nat)
    requires Ready(buf, base, at, DistDirPlan(Some(d), k), end)
    ensures r == d && Ready(buf, base, next, k, end)
    ensures Tidy(buf, base, at, DistDirPlan(Some(d), k)) <==> Tidy(buf, base, next, k)
  {
    ghost var p := DistDirPlan(Some(d), k);
    ghost var q := Put(Skip4, Words(d.handles, k));
    var treeHeight, servers, size, splitSize, serverNo, branchLevel, bitmap, handles;
    treeHeight, next := GetU32(buf, base, at, p, end);
    servers, next := GetU32(buf, base, next, p.next, end);
    size, next := GetU32(buf, base, next, p.next.next, end);
    splitSize, next := GetU32(buf, base, next, p.next.next.next, end);
    serverNo, next := GetU32(buf, base, next, p.next.next.next.next, end);
    branchLevel, next := GetU32(buf, base, next, p.next.next.next.next.next, end);
    bitmap, next := GetHalves(buf, base, next, size, d.bitmap, q, end);
    next := Skip(buf, base, next, q, end);
    handles, next := GetWords(buf, base, next, servers, d.handles, k, end);
    r := DistDir(treeHeight, splitSize, serverNo, branchLevel, bitmap, handles);
  }

  /** The union arms other than metafile data, and the directory's own part between them. */
  method GetArm(buf: seq<Byte>, base: nat, at: nat, mask: nat, ghost a: Attr, ghost k: Plan, ghost end: nat)
    returns (arm: Arm, distDir: Option<DistDir>, next: nat)
    requires WellFormed(a) && mask == a.mask
    requires Ready(buf, base, at, DataPlan(a.arm, SymlinkPlan(a.arm, DistDirPlan(a.distDir, DirectoryPlan(a.arm, k)))), end)
    ensures distDir == a.distDir && Ready(buf, base, next, k, end)
    ensures arm.NoArm? <==> a.arm.NoArm? || a.arm.Meta?
    ensures Tidy(buf, base, at, DataPlan(a.arm, SymlinkPlan(a.arm, DistDirPlan(a.distDir, DirectoryPlan(a.arm, k)))))
       <==> (arm.NoArm? || arm == a.arm) && Tidy(buf, base, next, k)
  {
    next := at;
    arm, distDir := NoArm, None;
    ghost var p2 := DirectoryPlan(a.arm, k);
    ghost var p1 := DistDirPlan(a.distDir, p2);
    ghost var p0 := SymlinkPlan(a.arm, p1);
    if Bit(mask, DATA_SIZE) {
      var size;
      size, next := GetU64(buf, base, next, DataPlan(a.arm, p0), end);
      arm := Data(size);
    }
    if Bit(mask, SYMLNK_TARGET) {
      var len, target;
      len, next := GetU32(buf, base, next, p0, end);
      next := Skip(buf, base, next, p0.next, end);
      target, next := GetText(buf, base, next, p0.next.next, end);
      arm := Symlink(len, target);
    }
    if Bit(mask, DISTDIR_ATTR) {
      var d;
      d, next := GetDistDir(buf, base, next, a.distDir.value, p2, end);
      distDir := Some(d);
    }
    if Bit(mask, DIR_DIRENT_COUNT) || Bit(mask, DIR_HINT) {
      var count, hint;
      count, next := GetU64(buf, base, next, p2, end);
      hint, next := GetHint(buf, base, next, a.arm.hint, k, end);
      arm := Directory(count, hint);
    }
  }

  /** What follows the fixed fields, read as the decoded mask and type say. */
  method GetParts(buf: seq<Byte>, base: nat, at: nat, mask: nat, objtype: nat, distLen: nat,
                  ghost a: Attr, ghost k: Plan, ghost end: nat)
    returns (capability: Option<Capability>, arm: Arm, distDir: Option<DistDir>, next: nat)
    requires WellFormed(a) && mask == a.mask && objtype == a.objtype
    requires a.arm.Meta? && a.arm.dist.Some? ==> |a.arm.dist.value| == distLen
    requires Ready(buf, base, at, PartsPlan(a, k), end)
    ensures Ready(buf, base, next, k, end)
    ensures Tidy(buf, base, at, PartsPlan(a, k))
       <==> capability == a.capability && arm == a.arm && distDir == a.distDir && Tidy(buf, base, next, k)
  {
    next := at;
    capability := None;
    ghost var p1 := DataPlan(a.arm, SymlinkPlan(a.arm, DistDirPlan(a.distDir, DirectoryPlan(a.arm, k))));
    ghost var p0 := MetaPlan(a.arm, p1);
    if Bit(mask, CAPABILITY) {
      var c;
      c, next := GetCapability(buf, base, next, a.capability.value, p0, end);
      capability := Some(c);
    }
    var meta := NoArm;
    if UsesMeta(mask, objtype) {
      meta, next := GetMeta(buf, base, next, mask, objtype, distLen, a.arm, p1, end);
    }
    arm, distDir, next := GetArm(buf, base, next, mask, a, k, end);
    if arm.NoArm? {
      arm := meta;
    }
  }

  /** decode_PVFS_object_attr: one arm of the union, mirrors only with datafiles, `distLen` from the distribution's own codec. */
  method GetAttr(buf: seq<Byte>, base: nat, at: nat, distLen: nat, ghost a: Attr, ghost k: Plan, ghost end: nat)
    returns (r: Attr, next: nat)
    requires WellFormed(a) && (a.arm.Meta? && a.arm.dist.Some? ==> |a.arm.dist.value| == distLen)
    requires Ready(buf, base, at, AttrPlan(a, k), end)
    ensures Ready(buf, base, next, k, end)
    ensures Tidy(buf, base, at, AttrPlan(a, k)) <==> r == a && Tidy(buf, base, next, k)
  {
    ghost var p := AttrPlan(a, k);
    ghost var q := p.next.next.next.next;
    var owner, group, perms, atime, mtime, ctime, mask, objtype;
    owner, next := GetU32(buf, base, at, p, end);
    group, next := GetU32(buf, base, next, p.next, end);
    perms, next := GetU32(buf, base, next, p.next.next, end);
    next := Skip(buf, base, next, p.next.next.next, end);
    atime, next := GetU64(buf, base, next, q, end);
    mtime, next := GetU64(buf, base, next, q.next, end);
    ctime, next := GetU64(buf, base, next, q.next.next, end);
    mask, next := GetU32(buf, base, next, q.next.next.next, end);
    objtype, next := GetU32(buf, base, next, q.next.next.next.next, end);
    var capability, arm, distDir;
    capability, arm, distDir, next := GetParts(buf, base, next, mask, objtype, distLen, a, k, end);
    r := Attr(owner, group, perms, atime, mtime, ctime, mask, objtype, capability, arm, distDir);
  }
}
