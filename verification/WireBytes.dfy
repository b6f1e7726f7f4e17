/**
 Where the bytes are: the position of every field of a capability and of a credential, counted from the start of the
 encoding.
 */
module WireBytes {
  import opened Wire
  import opened WireSecurity

  // ---------- positions ----------

  /** The buffer has these bytes from `at` on. */
  ghost predicate At(buf: seq<Byte>, at: nat, bs: seq<Byte>) {
    at + |bs| <= |buf| && buf[at..at + |bs|] == bs
  }

  /** A string: its length, and if there is anything to it the characters and a NUL. */
  ghost predicate TextAt(buf: seq<Byte>, at: nat, s: seq<Byte>) {
    At(buf, at, Le(|s|, 4)) && (s != [] ==> At(buf, at + 4, s + [0]))
  }

  /** Numbers of eight bytes, one behind the other. */
  ghost predicate WordsAt(buf: seq<Byte>, at: nat, hs: seq<nat>)
    decreases |hs|
  {
    hs != [] ==> At(buf, at, Le(hs[0], 8)) && WordsAt(buf, at + 8, hs[1..])
  }

  /** Numbers of four bytes. */
  ghost predicate HalvesAt(buf: seq<Byte>, at: nat, gs: seq<nat>)
    decreases |gs|
  {
    gs != [] ==> At(buf, at, Le(gs[0], 4)) && HalvesAt(buf, at + 4, gs[1..])
  }

  lemma {:induction false} WordAt(buf: seq<Byte>, at: nat, hs: seq<nat>, i: nat)
    requires WordsAt(buf, at, hs) && i < |hs|
    ensures At(buf, at + 8 * i, Le(hs[i], 8))
    decreases i
  {
    if i > 0 { WordAt(buf, at + 8, hs[1..], i - 1); }
  }

  lemma {:induction false} HalfAt(buf: seq<Byte>, at: nat, gs: seq<nat>, i: nat)
    requires HalvesAt(buf, at, gs) && i < |gs|
    ensures At(buf, at + 4 * i, Le(gs[i], 4))
    decreases i
  {
    if i > 0 { HalfAt(buf, at + 4, gs[1..], i - 1); }
  }

  /** The next position whose address is a multiple of eight, in a buffer at address `base`. */
  function Aligned(base: nat, at: nat): (r: nat)
    ensures at <= r < at + 8
  {
    Up(base + at) - base
  }

  lemma AtFromHolds(buf: seq<Byte>, at: nat, bs: seq<Byte>)
    requires Holds(buf, at, Bytes(bs))
    ensures At(buf, at, bs)
  {
    forall i | 0 <= i < |bs| ensures buf[at..at + |bs|][i] == bs[i] { assert Bytes(bs)[i].Fixed?; }
  }

  // ---------- one macro after the other ----------

  lemma StepU32(buf: seq<Byte>, base: nat, at: nat, n: nat, k: Plan, end: nat)
    requires Ready(buf, base, at, Put(U32(n), k), end)
    ensures At(buf, at, Le(n, 4)) && Ready(buf, base, at + 4, k, end)
  {
    AtFromHolds(buf, at, Le(n, 4));
  }

  lemma StepU64(buf: seq<Byte>, base: nat, at: nat, n: nat, k: Plan, end: nat)
    requires Ready(buf, base, at, Put(U64(n), k), end)
    ensures At(buf, at, Le(n, 8)) && Ready(buf, base, at + 8, k, end)
  {
    AtFromHolds(buf, at, Le(n, 8));
  }

  lemma StepSkip(buf: seq<Byte>, base: nat, at: nat, k: Plan, end: nat)
    requires Ready(buf, base, at, Put(Skip4, k), end)
    ensures Ready(buf, base, at + 4, k, end)
  {
  }

  lemma StepRaw(buf: seq<Byte>, base: nat, at: nat, b: seq<Byte>, k: Plan, end: nat)
    requires Ready(buf, base, at, Put(Raw(b), k), end)
    ensures At(buf, at, b) && Ready(buf, base, at + |b|, k, end)
  {
    AtFromHolds(buf, at, b);
  }

  lemma StepAlign(buf: seq<Byte>, base: nat, at: nat, next: nat, k: Plan, end: nat)
    requires Ready(buf, base, at, Put(Align8, k), end) && next == Aligned(base, at)
    ensures Ready(buf, base, next, k, end)
  {
    assert at + Pad(base + at) == next;
  }

  lemma StepText(buf: seq<Byte>, base: nat, at: nat, s: seq<Byte>, k: Plan, end: nat)
    requires Ready(buf, base, at, Put(Text(s), k), end)
    ensures TextAt(buf, at, s) && Ready(buf, base, at + Up(|s| + 5), k, end)
  {
    TextBytes(buf, at, s, base + at);
    MoveReady(buf, base, at, Put(Text(s), k), end, at + Up(|s| + 5));
  }

  lemma TextBytes(buf: seq<Byte>, at: nat, s: seq<Byte>, address: nat)
    requires Holds(buf, at, Cells(Text(s), address))
    ensures TextAt(buf, at, s)
  {
    var rest := if s == [] then Holes(4) else Bytes(s + [0]) + Holes(Pad(|s| + 5));
    HoldsConcat(buf, at, Bytes(Le(|s|, 4)), rest);
    AtFromHolds(buf, at, Le(|s|, 4));
    if s != [] { PaddedBytes(buf, at + 4, s + [0], Pad(|s| + 5)); }
  }

  lemma PaddedBytes(buf: seq<Byte>, at: nat, b: seq<Byte>, pad: nat)
    requires Holds(buf, at, Bytes(b) + Holes(pad))
    ensures At(buf, at, b)
  {
    HoldsConcat(buf, at, Bytes(b), Holes(pad));
    AtFromHolds(buf, at, b);
  }

  lemma {:induction false} StepWords(buf: seq<Byte>, base: nat, at: nat, next: nat, hs: seq<nat>, k: Plan, end: nat)
    requires Ready(buf, base, at, Words(hs, k), end) && next == at + 8 * |hs|
    ensures WordsAt(buf, at, hs) && Ready(buf, base, next, k, end)
    decreases |hs|
  {
    if hs != [] {
      StepU64(buf, base, at, hs[0], Words(hs[1..], k), end);
      StepWords(buf, base, at + 8, next, hs[1..], k, end);
    }
  }

  lemma {:induction false} StepHalves(buf: seq<Byte>, base: nat, at: nat, next: nat, gs: seq<nat>, k: Plan, end: nat)
    requires Ready(buf, base, at, Halves(gs, k), end) && next == at + 4 * |gs|
    ensures HalvesAt(buf, at, gs) && Ready(buf, base, next, k, end)
    decreases |gs|
  {
    if gs != [] {
      StepU32(buf, base, at, gs[0], Halves(gs[1..], k), end);
      StepHalves(buf, base, at + 4, next, gs[1..], k, end);
    }
  }

  /** A length, as many bytes, and the padding up to the next multiple of eight. */
  lemma StepSized(buf: seq<Byte>, base: nat, at: nat, next: nat, b: seq<Byte>, k: Plan, end: nat)
    requires Ready(buf, base, at, Put(U32(|b|), Put(Raw(b), Put(Align8, k))), end) && next == Aligned(base, at + 4 + |b|)
    ensures At(buf, at, Le(|b|, 4)) && At(buf, at + 4, b) && Ready(buf, base, next, k, end)
  {
    StepU32(buf, base, at, |b|, Put(Raw(b), Put(Align8, k)), end);
    StepRaw(buf, base, at + 4, b, Put(Align8, k), end);
    StepAlign(buf, base, at + 4 + |b|, next, k, end);
  }

  // ---------- PVFS_capability ----------

  /** Where a capability's fs id is: behind the issuer, a string. */
  function FsidPos(at: nat, c: Capability): nat {
    at + Up(|c.issuer| + 5)
  }

  /** Where its timeout is: behind the fs id, four bytes of padding, the signature's length and the signature, aligned. */
  function TimeoutPos(base: nat, at: nat, c: Capability): nat {
    Aligned(base, FsidPos(at, c) + 12 + |c.signature|)
  }

  function CapabilityBehind(base: nat, at: nat, c: Capability): nat {
    Aligned(base, TimeoutPos(base, at, c) + 16 + 8 * |c.handles|)
  }

  ghost predicate CapabilityAt(buf: seq<Byte>, base: nat, at: nat, c: Capability) {
    CapabilityFields(buf, at, FsidPos(at, c), TimeoutPos(base, at, c), c)
  }

  ghost predicate CapabilityFields(buf: seq<Byte>, at: nat, f: nat, t: nat, c: Capability) {
    && TextAt(buf, at, c.issuer)
    && At(buf, f, Le(c.fsid, 4))
    && At(buf, f + 8, Le(|c.signature|, 4))
    && At(buf, f + 12, c.signature)
    && At(buf, t, Le(c.timeout, 8))
    && At(buf, t + 8, Le(c.opMask, 4))
    && At(buf, t + 12, Le(|c.handles|, 4))
    && WordsAt(buf, t + 16, c.handles)
  }

  /** Every field of an encoded capability is where the declaration puts it. */
  lemma CapabilityBytes(buf: seq<Byte>, base: nat, at: nat, c: Capability, k: Plan, end: nat)
    requires Ready(buf, base, at, CapabilityPlan(c, k), end)
    ensures CapabilityAt(buf, base, at, c) && Ready(buf, base, CapabilityBehind(base, at, c), k, end)
  {
    CapabilityFound(buf, base, at, FsidPos(at, c), TimeoutPos(base, at, c), CapabilityBehind(base, at, c), c, k, end);
  }

  lemma CapabilityFound(buf: seq<Byte>, base: nat, at: nat, f: nat, t: nat, next: nat, c: Capability, k: Plan, end: nat)
    requires Ready(buf, base, at, CapabilityPlan(c, k), end)
    requires f == at + Up(|c.issuer| + 5) && t == Aligned(base, f + 12 + |c.signature|)
    requires next == Aligned(base, t + 16 + 8 * |c.handles|)
    ensures CapabilityFields(buf, at, f, t, c) && Ready(buf, base, next, k, end)
  {
    CapabilityHeadBytes(buf, base, at, f, t, c, CapabilityTail(c, k), end);
    CapabilityTailBytes(buf, base, t, next, c, k, end);
  }

  lemma CapabilityHeadBytes(buf: seq<Byte>, base: nat, at: nat, f: nat, t: nat, c: Capability, k: Plan, end: nat)
    requires Ready(buf, base, at, Put(Text(c.issuer), Put(U32(c.fsid), Put(Skip4, Put(U32(|c.signature|),
               Put(Raw(c.signature), Put(Align8, k)))))), end)
    requires f == at + Up(|c.issuer| + 5) && t == Aligned(base, f + 12 + |c.signature|)
    ensures TextAt(buf, at, c.issuer) && At(buf, f, Le(c.fsid, 4))
    ensures At(buf, f + 8, Le(|c.signature|, 4)) && At(buf, f + 12, c.signature) && Ready(buf, base, t, k, end)
  {
    var p := Put(U32(c.fsid), Put(Skip4, Put(U32(|c.signature|), Put(Raw(c.signature), Put(Align8, k)))));
    StepText(buf, base, at, c.issuer, p, end);
    CapabilityMiddleBytes(buf, base, f, t, c.fsid, c.signature, k, end);
  }

  lemma CapabilityMiddleBytes(buf: seq<Byte>, base: nat, f: nat, t: nat, fsid: nat, signature: seq<Byte>, k: Plan, end: nat)
    requires Ready(buf, base, f, Put(U32(fsid), Put(Skip4, Put(U32(|signature|), Put(Raw(signature), Put(Align8, k))))), end)
    requires t == Aligned(base, f + 12 + |signature|)
    ensures At(buf, f, Le(fsid, 4)) && At(buf, f + 8, Le(|signature|, 4)) && At(buf, f + 12, signature)
    ensures Ready(buf, base, t, k, end)
  {
    var p := Put(U32(|signature|), Put(Raw(signature), Put(Align8, k)));
    StepU32(buf, base, f, fsid, Put(Skip4, p), end);
    StepSkip(buf, base, f + 4, p, end);
    StepSized(buf, base, f + 8, t, signature, k, end);
  }

  lemma CapabilityTailBytes(buf: seq<Byte>, base: nat, t: nat, next: nat, c: Capability, k: Plan, end: nat)
    requires Ready(buf, base, t, CapabilityTail(c, k), end) && next == Aligned(base, t + 16 + 8 * |c.handles|)
    ensures At(buf, t, Le(c.timeout, 8)) && At(buf, t + 8, Le(c.opMask, 4)) && At(buf, t + 12, Le(|c.handles|, 4))
    ensures WordsAt(buf, t + 16, c.handles) && Ready(buf, base, next, k, end)
  {
    var p := CapabilityTail(c, k);
    StepU64(buf, base, t, c.timeout, p.next, end);
    StepU32(buf, base, t + 8, c.opMask, p.next.next, end);
    CountedWords(buf, base, t + 12, t + 16, next, c.handles, k, end);
  }

  /** A count, as many handles, and padding. */
  lemma CountedWords(buf: seq<Byte>, base: nat, at: nat, from: nat, next: nat, hs: seq<nat>, k: Plan, end: nat)
    requires Ready(buf, base, at, Put(U32(|hs|), Words(hs, Put(Align8, k))), end)
    requires from == at + 4 && next == Aligned(base, from + 8 * |hs|)
    ensures At(buf, at, Le(|hs|, 4)) && WordsAt(buf, from, hs) && Ready(buf, base, next, k, end)
  {
    StepU32(buf, base, at, |hs|, Words(hs, Put(Align8, k)), end);
    PaddedWords(buf, base, from, from + 8 * |hs|, next, hs, k, end);
  }

  lemma PaddedWords(buf: seq<Byte>, base: nat, at: nat, pad: nat, next: nat, hs: seq<nat>, k: Plan, end: nat)
    requires Ready(buf, base, at, Words(hs, Put(Align8, k)), end) && pad == at + 8 * |hs| && next == Aligned(base, pad)
    ensures WordsAt(buf, at, hs) && Ready(buf, base, next, k, end)
  {
    StepWords(buf, base, at, pad, hs, Put(Align8, k), end);
    StepAlign(buf, base, pad, next, k, end);
  }

  // ---------- PVFS_credential ----------

  /** Where a credential's issuer is: behind eight bytes of padding, the user id, the number of groups and the groups. */
  function IssuerPos(base: nat, at: nat, c: Credential): nat {
    Aligned(base, at + 16 + 4 * |c.groups|)
  }

  function CredentialTimeoutPos(base: nat, at: nat, c: Credential): nat {
    IssuerPos(base, at, c) + Up(|c.issuer| + 5)
  }

  /** Where its certificate is: behind the timeout, the signature's length and the signature, aligned. */
  function CertificatePos(base: nat, at: nat, c: Credential): nat {
    Aligned(base, CredentialTimeoutPos(base, at, c) + 12 + |c.signature|)
  }

  function CredentialBehind(base: nat, at: nat, c: Credential): nat {
    Aligned(base, CertificatePos(base, at, c) + 8 + |c.certificate|)
  }

  ghost predicate CredentialAt(buf: seq<Byte>, base: nat, at: nat, c: Credential) {
    var t, z := CredentialTimeoutPos(base, at, c), CertificatePos(base, at, c);
    && At(buf, at + 8, Le(c.userid, 4))
    && At(buf, at + 12, Le(|c.groups|, 4))
    && HalvesAt(buf, at + 16, c.groups)
    && TextAt(buf, IssuerPos(base, at, c), c.issuer)
    && At(buf, t, Le(c.timeout, 8))
    && At(buf, t + 8, Le(|c.signature|, 4))
    && At(buf, t + 12, c.signature)
    && At(buf, z + 4, Le(|c.certificate|, 4))
    && At(buf, z + 8, c.certificate)
  }

  lemma CredentialBytes(buf: seq<Byte>, base: nat, at: nat, c: Credential, k: Plan, end: nat)
    requires Ready(buf, base, at, CredentialPlan(c, k), end)
    ensures CredentialAt(buf, base, at, c) && Ready(buf, base, CredentialBehind(base, at, c), k, end)
  {
    var i, t := IssuerPos(base, at, c), CredentialTimeoutPos(base, at, c);
    CredentialHeadBytes(buf, base, at, i, t, c, CredentialTail(c, k), end);
    CredentialTailBytes(buf, base, t, CertificatePos(base, at, c), CredentialBehind(base, at, c), c, k, end);
  }

  lemma CredentialHeadBytes(buf: seq<Byte>, base: nat, at: nat, i: nat, t: nat, c: Credential, k: Plan, end: nat)
    requires Ready(buf, base, at, Put(Skip4, Put(Skip4, Put(U32(c.userid), Put(U32(|c.groups|),
               Halves(c.groups, Put(Align8, Put(Text(c.issuer), k))))))), end)
    requires i == Aligned(base, at + 16 + 4 * |c.groups|) && t == i + Up(|c.issuer| + 5)
    ensures At(buf, at + 8, Le(c.userid, 4)) && At(buf, at + 12, Le(|c.groups|, 4)) && HalvesAt(buf, at + 16, c.groups)
    ensures TextAt(buf, i, c.issuer) && Ready(buf, base, t, k, end)
  {
    var q := Put(Text(c.issuer), k);
    GroupsBytes(buf, base, at, i, c.userid, c.groups, q, end);
    StepText(buf, base, i, c.issuer, k, end);
  }

  lemma GroupsBytes(buf: seq<Byte>, base: nat, at: nat, i: nat, userid: nat, groups: seq<nat>, k: Plan, end: nat)
    requires Ready(buf, base, at, Put(Skip4, Put(Skip4, Put(U32(userid), Put(U32(|groups|), Halves(groups, Put(Align8, k)))))), end)
    requires i == Aligned(base, at + 16 + 4 * |groups|)
    ensures At(buf, at + 8, Le(userid, 4)) && At(buf, at + 12, Le(|groups|, 4)) && HalvesAt(buf, at + 16, groups)
    ensures Ready(buf, base, i, k, end)
  {
    var p := Put(U32(|groups|), Halves(groups, Put(Align8, k)));
    StepSkip(buf, base, at, Put(Skip4, Put(U32(userid), p)), end);
    StepSkip(buf, base, at + 4, Put(U32(userid), p), end);
    StepU32(buf, base, at + 8, userid, p, end);
    CountedHalves(buf, base, at + 12, at + 16, i, groups, k, end);
  }

  lemma CountedHalves(buf: seq<Byte>, base: nat, at: nat, from: nat, next: nat, gs: seq<nat>, k: Plan, end: nat)
    requires Ready(buf, base, at, Put(U32(|gs|), Halves(gs, Put(Align8, k))), end)
    requires from == at + 4 && next == Aligned(base, from + 4 * |gs|)
    ensures At(buf, at, Le(|gs|, 4)) && HalvesAt(buf, from, gs) && Ready(buf, base, next, k, end)
  {
    StepU32(buf, base, at, |gs|, Halves(gs, Put(Align8, k)), end);
    PaddedHalves(buf, base, from, from + 4 * |gs|, next, gs, k, end);
  }

  lemma PaddedHalves(buf: seq<Byte>, base: nat, at: nat, pad: nat, next: nat, gs: seq<nat>, k: Plan, end: nat)
    requires Ready(buf, base, at, Halves(gs, Put(Align8, k)), end) && pad == at + 4 * |gs| && next == Aligned(base, pad)
    ensures HalvesAt(buf, at, gs) && Ready(buf, base, next, k, end)
  {
    StepHalves(buf, base, at, pad, gs, Put(Align8, k), end);
    StepAlign(buf, base, pad, next, k, end);
  }

  lemma CredentialTailBytes(buf: seq<Byte>, base: nat, t: nat, z: nat, next: nat, c: Credential, k: Plan, end: nat)
    requires Ready(buf, base, t, CredentialTail(c, k), end)
    requires z == Aligned(base, t + 12 + |c.signature|) && next == Aligned(base, z + 8 + |c.certificate|)
    ensures At(buf, t, Le(c.timeout, 8)) && At(buf, t + 8, Le(|c.signature|, 4)) && At(buf, t + 12, c.signature)
    ensures At(buf, z + 4, Le(|c.certificate|, 4)) && At(buf, z + 8, c.certificate) && Ready(buf, base, next, k, end)
  {
    var q := CertificatePlan(c.certificate, Put(Align8, k));
    StepU64(buf, base, t, c.timeout, Put(U32(|c.signature|), Put(Raw(c.signature), Put(Align8, q))), end);
    StepSized(buf, base, t + 8, z, c.signature, q, end);
    StepSkip(buf, base, z, q.next, end);
    StepSized(buf, base, z + 4, next, c.certificate, k, end);
  }
}
