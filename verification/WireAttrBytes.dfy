/**
 Where the bytes of an object's attributes are.
 */
module WireAttrBytes {
  import opened Wrappers
  import opened Wire
  import opened WireSecurity
  import opened WireBytes
  import opened WireAttr

  // ---------- the parts ----------

  ghost predicate CapabilityPartAt(buf: seq<Byte>, base: nat, at: nat, c: Option<Capability>) {
    c.Some? ==> CapabilityAt(buf, base, at, c.value)
  }

  function CapabilityPartBehind(base: nat, at: nat, c: Option<Capability>): nat {
    if c.None? then at else CapabilityBehind(base, at, c.value)
  }

  /** A number and four bytes of padding, if it is there. */
  ghost predicate StuffedAt(buf: seq<Byte>, at: nat, n: Option<nat>) {
    n.Some? ==> At(buf, at, Le(n.value, 4))
  }

  function StuffedBehind(at: nat, n: Option<nat>): nat {
    if n.None? then at else at + 8
  }

  ghost predicate DistAt(buf: seq<Byte>, at: nat, d: Option<seq<Byte>>) {
    d.Some? ==> At(buf, at, d.value)
  }

  function DistBehind(at: nat, d: Option<seq<Byte>>): nat {
    if d.None? then at else at + |d.value|
  }

  /** The number of datafiles, padding, their handles, the flags. */
  ghost predicate DfilesAt(buf: seq<Byte>, at: nat, d: Option<Dfiles>) {
    d.Some? ==>
      var n := |d.value.handles|;
      At(buf, at, Le(n, 4)) && WordsAt(buf, at + 8, d.value.handles) && At(buf, at + 8 + 8 * n, Le(d.value.flags, 8))
  }

  function DfilesBehind(at: nat, d: Option<Dfiles>): nat {
    if d.None? then at else at + 16 + 8 * |d.value.handles|
  }

  /** The number of copies, padding, the handles. */
  ghost predicate MirrorAt(buf: seq<Byte>, at: nat, m: Option<Mirror>) {
    m.Some? ==> At(buf, at, Le(m.value.copies, 4)) && WordsAt(buf, at + 8, m.value.handles)
  }

  function MirrorBehind(at: nat, m: Option<Mirror>): nat {
    if m.None? then at else at + 8 + 8 * |m.value.handles|
  }

  ghost predicate MetaAt(buf: seq<Byte>, at: nat, a: Arm) {
    a.Meta? ==>
      var p := StuffedBehind(at, a.stuffed);
      var q := DistBehind(p, a.dist);
      StuffedAt(buf, at, a.stuffed) && DistAt(buf, p, a.dist) && DfilesAt(buf, q, a.dfiles)
      && MirrorAt(buf, DfilesBehind(q, a.dfiles), a.mirror)
  }

  function MetaBehind(at: nat, a: Arm): nat {
    if !a.Meta? then at
    else MirrorBehind(DfilesBehind(DistBehind(StuffedBehind(at, a.stuffed), a.dist), a.dfiles), a.mirror)
  }

  ghost predicate DataAt(buf: seq<Byte>, at: nat, a: Arm) {
    a.Data? ==> At(buf, at, Le(a.size, 8))
  }

  function DataBehind(at: nat, a: Arm): nat {
    if !a.Data? then at else at + 8
  }

  ghost predicate SymlinkAt(buf: seq<Byte>, at: nat, a: Arm) {
    a.Symlink? ==> At(buf, at, Le(a.len, 4)) && TextAt(buf, at + 8, a.target)
  }

  function SymlinkBehind(at: nat, a: Arm): nat {
    if !a.Symlink? then at else at + 8 + Up(|a.target| + 5)
  }

  /** Six numbers, the bitmap, padding, the handles. */
  ghost predicate DistDirAt(buf: seq<Byte>, at: nat, d: Option<DistDir>) {
    d.Some? ==> DistDirFields(buf, at, at + 24, at + 28 + 4 * |d.value.bitmap|, d.value)
  }

  ghost predicate DistDirFields(buf: seq<Byte>, at: nat, bitmap: nat, handles: nat, x: DistDir) {
    && At(buf, at, Le(x.treeHeight, 4)) && At(buf, at + 4, Le(|x.handles|, 4)) && At(buf, at + 8, Le(|x.bitmap|, 4))
    && At(buf, at + 12, Le(x.splitSize, 4)) && At(buf, at + 16, Le(x.serverNo, 4)) && At(buf, at + 20, Le(x.branchLevel, 4))
    && HalvesAt(buf, bitmap, x.bitmap) && WordsAt(buf, handles, x.handles)
  }

  function DistDirBehind(at: nat, d: Option<DistDir>): nat {
    if d.None? then at else at + 28 + 4 * |d.value.bitmap| + 8 * |d.value.handles|
  }

  /** Where the second and the third part of the directory hints are. */
  function ParamsPos(at: nat, h: Hint): nat {
    at + 8 + Up(|h.name| + 5)
  }

  function LayoutPos(at: nat, h: Hint): nat {
    ParamsPos(at, h) + 8 + Up(|h.params| + 5)
  }

  ghost predicate HintAt(buf: seq<Byte>, at: nat, h: Hint) {
    HintFields(buf, at, ParamsPos(at, h), LayoutPos(at, h), h)
  }

  ghost predicate HintFields(buf: seq<Byte>, at: nat, p: nat, q: nat, h: Hint) {
    && At(buf, at, Le(h.nameLen, 4)) && TextAt(buf, at + 8, h.name)
    && At(buf, p, Le(h.paramsLen, 4)) && TextAt(buf, p + 8, h.params)
    && At(buf, q, Le(h.dfileCount, 4)) && At(buf, q + 4, Le(h.algorithm, 4)) && At(buf, q + 8, Le(h.servers, 4))
    && At(buf, q + 12, Le(h.bufsize, 4)) && TextAt(buf, q + 16, h.serverList)
  }

  ghost predicate DirectoryAt(buf: seq<Byte>, at: nat, a: Arm) {
    a.Directory? ==> At(buf, at, Le(a.direntCount, 8)) && HintAt(buf, at + 8, a.hint)
  }

  function DirectoryBehind(at: nat, a: Arm): nat {
    if !a.Directory? then at else LayoutPos(at + 8, a.hint) + 16 + Up(|a.hint.serverList| + 5)
  }

  // ---------- all of it ----------

  /** Where each part starts, in the order they are written; the last number is the end. */
  datatype Parts = Parts(meta: nat, data: nat, symlink: nat, distDir: nat, directory: nat, end: nat)

  function PartsFrom(base: nat, at: nat, a: Attr): Parts {
    var meta := CapabilityPartBehind(base, at, a.capability);
    var data := MetaBehind(meta, a.arm);
    var symlink := DataBehind(data, a.arm);
    var distDir := SymlinkBehind(symlink, a.arm);
    var directory := DistDirBehind(distDir, a.distDir);
    Parts(meta, data, symlink, distDir, directory, DirectoryBehind(directory, a.arm))
  }

  /** Owner, group, permissions, padding, three times, the mask, the type; then the parts the mask says are there. */
  ghost predicate AttrAt(buf: seq<Byte>, base: nat, at: nat, a: Attr) {
    var p := PartsFrom(base, at + 48, a);
    && FixedAt(buf, at, a)
    && CapabilityPartAt(buf, base, at + 48, a.capability)
    && MetaAt(buf, p.meta, a.arm)
    && DataAt(buf, p.data, a.arm)
    && SymlinkAt(buf, p.symlink, a.arm)
    && DistDirAt(buf, p.distDir, a.distDir)
    && DirectoryAt(buf, p.directory, a.arm)
  }

  ghost predicate FixedAt(buf: seq<Byte>, at: nat, a: Attr) {
    && At(buf, at, Le(a.owner, 4)) && At(buf, at + 4, Le(a.group, 4)) && At(buf, at + 8, Le(a.perms, 4))
    && At(buf, at + 16, Le(a.atime, 8)) && At(buf, at + 24, Le(a.mtime, 8)) && At(buf, at + 32, Le(a.ctime, 8))
    && At(buf, at + 40, Le(a.mask, 4)) && At(buf, at + 44, Le(a.objtype, 4))
  }

  function AttrBehind(base: nat, at: nat, a: Attr): nat {
    PartsFrom(base, at + 48, a).end
  }

  // ---------- the encoding puts them there ----------

  lemma CapabilityPartBytes(buf: seq<Byte>, base: nat, at: nat, c: Option<Capability>, k: Plan, end: nat)
    requires Ready(buf, base, at, CapabilityPart(c, k), end)
    ensures CapabilityPartAt(buf, base, at, c) && Ready(buf, base, CapabilityPartBehind(base, at, c), k, end)
  {
    if c.Some? { CapabilityBytes(buf, base, at, c.value, k, end); }
  }

  lemma StuffedBytes(buf: seq<Byte>, base: nat, at: nat, n: Option<nat>, k: Plan, end: nat)
    requires Ready(buf, base, at, OptionalU32Gap(n, k), end)
    ensures StuffedAt(buf, at, n) && Ready(buf, base, StuffedBehind(at, n), k, end)
  {
    if n.Some? {
      StepU32(buf, base, at, n.value, Put(Skip4, k), end);
      StepSkip(buf, base, at + 4, k, end);
    }
  }

  /** A number, padding and handles. */
  lemma GapWords(buf: seq<Byte>, base: nat, at: nat, next: nat, n: nat, hs: seq<nat>, k: Plan, end: nat)
    requires Ready(buf, base, at, Put(U32(n), Put(Skip4, Words(hs, k))), end) && next == at + 8 + 8 * |hs|
    ensures At(buf, at, Le(n, 4)) && WordsAt(buf, at + 8, hs) && Ready(buf, base, next, k, end)
  {
    StepU32(buf, base, at, n, Put(Skip4, Words(hs, k)), end);
    SkipWords(buf, base, at + 4, at + 8, next, hs, k, end);
  }

  lemma DfilesBytes(buf: seq<Byte>, base: nat, at: nat, d: Option<Dfiles>, k: Plan, end: nat)
    requires Ready(buf, base, at, DfilesPlan(d, k), end)
    ensures DfilesAt(buf, at, d) && Ready(buf, base, DfilesBehind(at, d), k, end)
  {
    if d.Some? {
      var hs := d.value.handles;
      FlaggedBytes(buf, base, at, at + 8 + 8 * |hs|, DfilesBehind(at, d), hs, d.value.flags, k, end);
    }
  }

  lemma FlaggedBytes(buf: seq<Byte>, base: nat, at: nat, mid: nat, next: nat, hs: seq<nat>, flags: nat, k: Plan, end: nat)
    requires Ready(buf, base, at, Put(U32(|hs|), Put(Skip4, Words(hs, Put(U64(flags), k)))), end)
    requires mid == at + 8 + 8 * |hs| && next == mid + 8
    ensures At(buf, at, Le(|hs|, 4)) && WordsAt(buf, at + 8, hs) && At(buf, mid, Le(flags, 8)) && Ready(buf, base, next, k, end)
  {
    GapWords(buf, base, at, mid, |hs|, hs, Put(U64(flags), k), end);
    StepU64(buf, base, mid, flags, k, end);
  }

  lemma MirrorBytes(buf: seq<Byte>, base: nat, at: nat, m: Option<Mirror>, k: Plan, end: nat)
    requires Ready(buf, base, at, MirrorPlan(m, k), end)
    ensures MirrorAt(buf, at, m) && Ready(buf, base, MirrorBehind(at, m), k, end)
  {
    if m.Some? {
      GapWords(buf, base, at, MirrorBehind(at, m), m.value.copies, m.value.handles, k, end);
    }
  }

  lemma MetaBytes(buf: seq<Byte>, base: nat, at: nat, a: Arm, k: Plan, end: nat)
    requires Ready(buf, base, at, MetaPlan(a, k), end)
    ensures MetaAt(buf, at, a) && Ready(buf, base, MetaBehind(at, a), k, end)
  {
    if a.Meta? {
      var k2 := MirrorPlan(a.mirror, k);
      var k1 := DfilesPlan(a.dfiles, k2);
      var k0 := if a.dist.None? then k1 else Put(Raw(a.dist.value), k1);
      var p := StuffedBehind(at, a.stuffed);
      var q := DistBehind(p, a.dist);
      StuffedBytes(buf, base, at, a.stuffed, k0, end);
      if a.dist.Some? { StepRaw(buf, base, p, a.dist.value, k1, end); }
      DfilesBytes(buf, base, q, a.dfiles, k2, end);
      MirrorBytes(buf, base, DfilesBehind(q, a.dfiles), a.mirror, k, end);
    }
  }

  lemma DataBytes(buf: seq<Byte>, base: nat, at: nat, a: Arm, k: Plan, end: nat)
    requires Ready(buf, base, at, DataPlan(a, k), end)
    ensures DataAt(buf, at, a) && Ready(buf, base, DataBehind(at, a), k, end)
  {
    if a.Data? { StepU64(buf, base, at, a.size, k, end); }
  }

  lemma SymlinkBytes(buf: seq<Byte>, base: nat, at: nat, a: Arm, k: Plan, end: nat)
    requires Ready(buf, base, at, SymlinkPlan(a, k), end)
    ensures SymlinkAt(buf, at, a) && Ready(buf, base, SymlinkBehind(at, a), k, end)
  {
    if a.Symlink? {
      NamedBytes(buf, base, at, SymlinkBehind(at, a), a.len, a.target, k, end);
    }
  }

  lemma DistDirBytes(buf: seq<Byte>, base: nat, at: nat, d: Option<DistDir>, k: Plan, end: nat)
    requires Ready(buf, base, at, DistDirPlan(d, k), end)
    ensures DistDirAt(buf, at, d) && Ready(buf, base, DistDirBehind(at, d), k, end)
  {
    if d.Some? {
      DistDirFound(buf, base, at, at + 24, at + 28 + 4 * |d.value.bitmap|, DistDirBehind(at, d), d.value, k, end);
    }
  }

  lemma DistDirFound(buf: seq<Byte>, base: nat, at: nat, bitmap: nat, handles: nat, next: nat, x: DistDir, k: Plan, end: nat)
    requires Ready(buf, base, at, DistDirPlan(Some(x), k), end)
    requires bitmap == at + 24 && handles == bitmap + 4 + 4 * |x.bitmap| && next == handles + 8 * |x.handles|
    ensures DistDirFields(buf, at, bitmap, handles, x) && Ready(buf, base, next, k, end)
  {
    SixBytes(buf, base, at, at + 12, bitmap, x, Halves(x.bitmap, Put(Skip4, Words(x.handles, k))), end);
    BitmapBytes(buf, base, bitmap, bitmap + 4 * |x.bitmap|, handles, next, x.bitmap, x.handles, k, end);
  }

  lemma SixBytes(buf: seq<Byte>, base: nat, at: nat, mid: nat, next: nat, x: DistDir, k: Plan, end: nat)
    requires Ready(buf, base, at, Put(U32(x.treeHeight), Put(U32(|x.handles|), Put(U32(|x.bitmap|),
               Put(U32(x.splitSize), Put(U32(x.serverNo), Put(U32(x.branchLevel), k)))))), end)
    requires mid == at + 12 && next == mid + 12
    ensures At(buf, at, Le(x.treeHeight, 4)) && At(buf, at + 4, Le(|x.handles|, 4)) && At(buf, at + 8, Le(|x.bitmap|, 4))
    ensures At(buf, at + 12, Le(x.splitSize, 4)) && At(buf, at + 16, Le(x.serverNo, 4)) && At(buf, at + 20, Le(x.branchLevel, 4))
    ensures Ready(buf, base, next, k, end)
  {
    ThreeBytes(buf, base, at, at + 4, at + 8, mid, x.treeHeight, |x.handles|, |x.bitmap|,
               Put(U32(x.splitSize), Put(U32(x.serverNo), Put(U32(x.branchLevel), k))), end);
    ThreeBytes(buf, base, mid, at + 16, at + 20, next, x.splitSize, x.serverNo, x.branchLevel, k, end);
  }

  /** The bitmap, padding at `gap`, the handles. */
  lemma BitmapBytes(buf: seq<Byte>, base: nat, at: nat, gap: nat, from: nat, next: nat, bitmap: seq<nat>, hs: seq<nat>, k: Plan, end: nat)
    requires Ready(buf, base, at, Halves(bitmap, Put(Skip4, Words(hs, k))), end)
    requires gap == at + 4 * |bitmap| && from == gap + 4 && next == from + 8 * |hs|
    ensures HalvesAt(buf, at, bitmap) && WordsAt(buf, from, hs) && Ready(buf, base, next, k, end)
  {
    StepHalves(buf, base, at, gap, bitmap, Put(Skip4, Words(hs, k)), end);
    SkipWords(buf, base, gap, from, next, hs, k, end);
  }

  lemma SkipWords(buf: seq<Byte>, base: nat, at: nat, from: nat, next: nat, hs: seq<nat>, k: Plan, end: nat)
    requires Ready(buf, base, at, Put(Skip4, Words(hs, k)), end) && from == at + 4 && next == from + 8 * |hs|
    ensures WordsAt(buf, from, hs) && Ready(buf, base, next, k, end)
  {
    StepSkip(buf, base, at, Words(hs, k), end);
    StepWords(buf, base, from, next, hs, k, end);
  }

  lemma ThreeBytes(buf: seq<Byte>, base: nat, a: nat, b: nat, c: nat, next: nat, x: nat, y: nat, z: nat, k: Plan, end: nat)
    requires Ready(buf, base, a, Put(U32(x), Put(U32(y), Put(U32(z), k))), end) && b == a + 4 && c == b + 4 && next == c + 4
    ensures At(buf, a, Le(x, 4)) && At(buf, b, Le(y, 4)) && At(buf, c, Le(z, 4)) && Ready(buf, base, next, k, end)
  {
    StepU32(buf, base, a, x, Put(U32(y), Put(U32(z), k)), end);
    StepU32(buf, base, b, y, Put(U32(z), k), end);
    StepU32(buf, base, c, z, k, end);
  }

  /** A number, padding and a string. */
  lemma NamedBytes(buf: seq<Byte>, base: nat, at: nat, next: nat, n: nat, s: seq<Byte>, k: Plan, end: nat)
    requires Ready(buf, base, at, Put(U32(n), Put(Skip4, Put(Text(s), k))), end) && next == at + 8 + Up(|s| + 5)
    ensures At(buf, at, Le(n, 4)) && TextAt(buf, at + 8, s) && Ready(buf, base, next, k, end)
  {
    StepU32(buf, base, at, n, Put(Skip4, Put(Text(s), k)), end);
    StepSkip(buf, base, at + 4, Put(Text(s), k), end);
    StepText(buf, base, at + 8, s, k, end);
  }

  lemma LayoutHintBytes(buf: seq<Byte>, base: nat, at: nat, next: nat, h: Hint, k: Plan, end: nat)
    requires Ready(buf, base, at, Put(U32(h.dfileCount), LayoutHintPlan(h, k)), end) && next == at + 16 + Up(|h.serverList| + 5)
    ensures At(buf, at, Le(h.dfileCount, 4)) && At(buf, at + 4, Le(h.algorithm, 4)) && At(buf, at + 8, Le(h.servers, 4))
    ensures At(buf, at + 12, Le(h.bufsize, 4)) && TextAt(buf, at + 16, h.serverList)
    ensures Ready(buf, base, next, k, end)
  {
    StepU32(buf, base, at, h.dfileCount, LayoutHintPlan(h, k), end);
    ServersBytes(buf, base, at + 4, at + 8, at + 12, at + 16, next, h, k, end);
  }

  lemma ServersBytes(buf: seq<Byte>, base: nat, a: nat, b: nat, c: nat, list: nat, next: nat, h: Hint, k: Plan, end: nat)
    requires Ready(buf, base, a, LayoutHintPlan(h, k), end)
    requires b == a + 4 && c == b + 4 && list == c + 4 && next == list + Up(|h.serverList| + 5)
    ensures At(buf, a, Le(h.algorithm, 4)) && At(buf, b, Le(h.servers, 4)) && At(buf, c, Le(h.bufsize, 4))
    ensures TextAt(buf, list, h.serverList) && Ready(buf, base, next, k, end)
  {
    ThreeBytes(buf, base, a, b, c, list, h.algorithm, h.servers, h.bufsize, Put(Text(h.serverList), k), end);
    StepText(buf, base, list, h.serverList, k, end);
  }

  lemma DirectoryBytes(buf: seq<Byte>, base: nat, at: nat, a: Arm, k: Plan, end: nat)
    requires Ready(buf, base, at, DirectoryPlan(a, k), end)
    ensures DirectoryAt(buf, at, a) && Ready(buf, base, DirectoryBehind(at, a), k, end)
  {
    if a.Directory? {
      StepU64(buf, base, at, a.direntCount, HintPlan(a.hint, k), end);
      HintBytes(buf, base, at + 8, ParamsPos(at + 8, a.hint), LayoutPos(at + 8, a.hint), DirectoryBehind(at, a), a.hint, k, end);
    }
  }

  lemma HintBytes(buf: seq<Byte>, base: nat, at: nat, p: nat, q: nat, next: nat, h: Hint, k: Plan, end: nat)
    requires Ready(buf, base, at, HintPlan(h, k), end)
    requires p == at + 8 + Up(|h.name| + 5) && q == p + 8 + Up(|h.params| + 5) && next == q + 16 + Up(|h.serverList| + 5)
    ensures HintFields(buf, at, p, q, h) && Ready(buf, base, next, k, end)
  {
    var k1 := Put(U32(h.dfileCount), LayoutHintPlan(h, k));
    TwoNamed(buf, base, at, p, q, h, k1, end);
    LayoutHintBytes(buf, base, q, next, h, k, end);
  }

  lemma TwoNamed(buf: seq<Byte>, base: nat, at: nat, p: nat, q: nat, h: Hint, k: Plan, end: nat)
    requires Ready(buf, base, at, Put(U32(h.nameLen), Put(Skip4, Put(Text(h.name),
               Put(U32(h.paramsLen), Put(Skip4, Put(Text(h.params), k)))))), end)
    requires p == at + 8 + Up(|h.name| + 5) && q == p + 8 + Up(|h.params| + 5)
    ensures At(buf, at, Le(h.nameLen, 4)) && TextAt(buf, at + 8, h.name)
    ensures At(buf, p, Le(h.paramsLen, 4)) && TextAt(buf, p + 8, h.params) && Ready(buf, base, q, k, end)
  {
    NamedBytes(buf, base, at, p, h.nameLen, h.name, Put(U32(h.paramsLen), Put(Skip4, Put(Text(h.params), k))), end);
    NamedBytes(buf, base, p, q, h.paramsLen, h.params, k, end);
  }

  lemma PartsBytes(buf: seq<Byte>, base: nat, at: nat, p: Parts, a: Attr, k: Plan, end: nat)
    requires Ready(buf, base, at, PartsPlan(a, k), end) && p == PartsFrom(base, at, a)
    ensures CapabilityPartAt(buf, base, at, a.capability) && MetaAt(buf, p.meta, a.arm) && DataAt(buf, p.data, a.arm)
    ensures SymlinkAt(buf, p.symlink, a.arm) && DistDirAt(buf, p.distDir, a.distDir) && DirectoryAt(buf, p.directory, a.arm)
    ensures Ready(buf, base, p.end, k, end)
  {
    var k4 := DirectoryPlan(a.arm, k);
    var k3 := DistDirPlan(a.distDir, k4);
    var k2 := SymlinkPlan(a.arm, k3);
    var k1 := DataPlan(a.arm, k2);
    CapabilityPartBytes(buf, base, at, a.capability, MetaPlan(a.arm, k1), end);
    MetaBytes(buf, base, p.meta, a.arm, k1, end);
    DataBytes(buf, base, p.data, a.arm, k2, end);
    SymlinkBytes(buf, base, p.symlink, a.arm, k3, end);
    DistDirBytes(buf, base, p.distDir, a.distDir, k4, end);
    DirectoryBytes(buf, base, p.directory, a.arm, k, end);
  }

  /** Padding at `gap`, and three times. */
  lemma TimesBytes(buf: seq<Byte>, base: nat, gap: nat, a: nat, b: nat, c: nat, next: nat, x: nat, y: nat, z: nat, k: Plan, end: nat)
    requires Ready(buf, base, gap, Put(Skip4, Put(U64(x), Put(U64(y), Put(U64(z), k)))), end)
    requires a == gap + 4 && b == a + 8 && c == b + 8 && next == c + 8
    ensures At(buf, a, Le(x, 8)) && At(buf, b, Le(y, 8)) && At(buf, c, Le(z, 8)) && Ready(buf, base, next, k, end)
  {
    StepSkip(buf, base, gap, Put(U64(x), Put(U64(y), Put(U64(z), k))), end);
    StepU64(buf, base, a, x, Put(U64(y), Put(U64(z), k)), end);
    StepU64(buf, base, b, y, Put(U64(z), k), end);
    StepU64(buf, base, c, z, k, end);
  }

  lemma TwoBytes(buf: seq<Byte>, base: nat, a: nat, b: nat, next: nat, x: nat, y: nat, k: Plan, end: nat)
    requires Ready(buf, base, a, Put(U32(x), Put(U32(y), k)), end) && b == a + 4 && next == b + 4
    ensures At(buf, a, Le(x, 4)) && At(buf, b, Le(y, 4)) && Ready(buf, base, next, k, end)
  {
    StepU32(buf, base, a, x, Put(U32(y), k), end);
    StepU32(buf, base, b, y, k, end);
  }

  /** Every field of encoded attributes is where the declarations put it. */
  lemma AttrBytes(buf: seq<Byte>, base: nat, at: nat, a: Attr, k: Plan, end: nat)
    requires Ready(buf, base, at, AttrPlan(a, k), end)
    ensures AttrAt(buf, base, at, a) && Ready(buf, base, AttrBehind(base, at, a), k, end)
  {
    FixedBytes(buf, base, at, at + 12, at + 40, at + 48, a, PartsPlan(a, k), end);
    PartsBytes(buf, base, at + 48, PartsFrom(base, at + 48, a), a, k, end);
  }

  /** The fixed part, in three stretches. */
  lemma FixedBytes(buf: seq<Byte>, base: nat, at: nat, gap: nat, mask: nat, next: nat, a: Attr, k: Plan, end: nat)
    requires Ready(buf, base, at, Put(U32(a.owner), Put(U32(a.group), Put(U32(a.perms), Put(Skip4, Put(U64(a.atime), Put(U64(a.mtime),
               Put(U64(a.ctime), Put(U32(a.mask), Put(U32(a.objtype), k))))))))), end)
    requires gap == at + 12 && mask == gap + 28 && next == mask + 8
    ensures FixedAt(buf, at, a) && Ready(buf, base, next, k, end)
  {
    var r := Put(U32(a.mask), Put(U32(a.objtype), k));
    ThreeBytes(buf, base, at, at + 4, at + 8, gap, a.owner, a.group, a.perms,
               Put(Skip4, Put(U64(a.atime), Put(U64(a.mtime), Put(U64(a.ctime), r)))), end);
    TimesBytes(buf, base, gap, at + 16, at + 24, at + 32, mask, a.atime, a.mtime, a.ctime, r, end);
    TwoBytes(buf, base, mask, at + 44, next, a.mask, a.objtype, k, end);
  }
}
