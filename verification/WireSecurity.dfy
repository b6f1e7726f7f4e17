/**
 Capabilities and credentials on the wire (include/pvfs2-types.h), and how large they get.
 */
module WireSecurity {
  import opened Wire
  import opened WireCodec

  // ---------- arrays ----------

  function Words(hs: seq<nat>, k: Plan): Plan {
    if hs == [] then k else Put(U64(hs[0]), Words(hs[1..], k))
  }

  function Halves(gs: seq<nat>, k: Plan): Plan {
    if gs == [] then k else Put(U32(gs[0]), Halves(gs[1..], k))
  }

  lemma WordsHead(hs: seq<nat>, i: nat, k: Plan)
    requires i < |hs|
    ensures Words(hs[i..], k) == Put(U64(hs[i]), Words(hs[i + 1..], k))
  {
    assert hs[i..][1..] == hs[i + 1..];
  }

  lemma HalvesHead(gs: seq<nat>, i: nat, k: Plan)
    requires i < |gs|
    ensures Halves(gs[i..], k) == Put(U32(gs[i]), Halves(gs[i + 1..], k))
  {
    assert gs[i..][1..] == gs[i + 1..];
  }

  /** An array of handles: decode_malloc and a loop. */
  method GetWords(buf: seq<Byte>, base: nat, at: nat, n: nat, ghost hs: seq<nat>, ghost k: Plan, ghost end: nat)
    returns (r: seq<nat>, next: nat)
    requires Ready(buf, base, at, Words(hs, k), end) && |hs| == n
    ensures r == hs && Ready(buf, base, next, k, end)
    ensures Tidy(buf, base, at, Words(hs, k)) <==> Tidy(buf, base, next, k)
  {
    r, next := [], at;
    for i := 0 to n
      invariant r == hs[..i] && Ready(buf, base, next, Words(hs[i..], k), end)
      invariant Tidy(buf, base, at, Words(hs, k)) <==> Tidy(buf, base, next, Words(hs[i..], k))
    {
      WordsHead(hs, i, k);
      var h;
      h, next := GetU64(buf, base, next, Words(hs[i..], k), end);
      r := r + [h];
    }
  }

  method GetHalves(buf: seq<Byte>, base: nat, at: nat, n: nat, ghost gs: seq<nat>, ghost k: Plan, ghost end: nat)
    returns (r: seq<nat>, next: nat)
    requires Ready(buf, base, at, Halves(gs, k), end) && |gs| == n
    ensures r == gs && Ready(buf, base, next, k, end)
    ensures Tidy(buf, base, at, Halves(gs, k)) <==> Tidy(buf, base, next, k)
  {
    r, next := [], at;
    for i := 0 to n
      invariant r == gs[..i] && Ready(buf, base, next, Halves(gs[i..], k), end)
      invariant Tidy(buf, base, at, Halves(gs, k)) <==> Tidy(buf, base, next, Halves(gs[i..], k))
    {
      HalvesHead(gs, i, k);
      var g;
      g, next := GetU32(buf, base, next, Halves(gs[i..], k), end);
      r := r + [g];
    }
  }

  // ---------- PVFS_capability ----------

  datatype Capability = Capability(issuer: seq<Byte>, fsid: nat, signature: seq<Byte>,
                                   timeout: nat, opMask: nat, handles: seq<nat>)

  function CapabilityTail(c: Capability, k: Plan): Plan {
    Put(U64(c.timeout), Put(U32(c.opMask), Put(U32(|c.handles|), Words(c.handles, Put(Align8, k)))))
  }

  function CapabilityPlan(c: Capability, k: Plan): Plan {
    Put(Text(c.issuer), Put(U32(c.fsid), Put(Skip4, Put(U32(|c.signature|), Put(Raw(c.signature),
      Put(Align8, CapabilityTail(c, k)))))))
  }

  method GetCapabilityTail(buf: seq<Byte>, base: nat, at: nat, ghost c: Capability, ghost k: Plan, ghost end: nat)
    returns (timeout: nat, opMask: nat, handles: seq<nat>, next: nat)
    requires Ready(buf, base, at, CapabilityTail(c, k), end)
    ensures timeout == c.timeout && opMask == c.opMask && handles == c.handles
    ensures Ready(buf, base, next, k, end) && (base + next) % 8 == 0
    ensures Tidy(buf, base, at, CapabilityTail(c, k)) <==> Tidy(buf, base, next, k)
  {
    ghost var p := CapabilityTail(c, k);
    timeout, next := GetU64(buf, base, at, p, end);
    opMask, next := GetU32(buf, base, next, p.next, end);
    var n;
    n, next := GetU32(buf, base, next, p.next.next, end);
    handles, next := GetWords(buf, base, next, n, c.handles, Put(Align8, k), end);
    next := Align(buf, base, next, Put(Align8, k), end);
  }

  /** decode_PVFS_capability */
  method GetCapability(buf: seq<Byte>, base: nat, at: nat, ghost c: Capability, ghost k: Plan, ghost end: nat)
    returns (r: Capability, next: nat)
    requires Ready(buf, base, at, CapabilityPlan(c, k), end)
    ensures r == c.(issuer := r.issuer) && Ready(buf, base, next, k, end) && (base + next) % 8 == 0
    ensures Tidy(buf, base, at, CapabilityPlan(c, k)) <==> r == c && Tidy(buf, base, next, k)
  {
    ghost var p := CapabilityPlan(c, k);
    var issuer, fsid, n, signature;
    issuer, next := GetText(buf, base, at, p, end);
    fsid, next := GetU32(buf, base, next, p.next, end);
    next := Skip(buf, base, next, p.next.next, end);
    n, next := GetU32(buf, base, next, p.next.next.next, end);
    signature, next := GetRaw(buf, base, next, n, p.next.next.next.next, end);
    next := Align(buf, base, next, p.next.next.next.next.next, end);
    var timeout, opMask, handles;
    timeout, opMask, handles, next := GetCapabilityTail(buf, base, next, c, k, end);
    r := Capability(issuer, fsid, signature, timeout, opMask, handles);
  }

  lemma BareCells(i: Item, addr: nat)
    requires i in {U32(0), Skip4, Text([]), Raw([]), Align8}
    ensures forall c :: c in Cells(i, addr) ==> c == Hole || c == Fixed(0)
  {
    LeZero(4);
  }

  lemma ExtendBare(buf: seq<Byte>, base: nat, at: nat, p: Plan, end: nat)
    requires p.Put? && p.item in {U32(0), Skip4, Text([]), Raw([]), Align8}
    requires var next := at + Width(p.item, base + at);
             && Ready(buf, base, next, p.next, end) && Tidy(buf, base, next, p.next) && next <= |buf|
             && forall i :: at <= i < next ==> buf[i] == 0
    ensures Ready(buf, base, at, p, end) && Tidy(buf, base, at, p)
  {
    BareCells(p.item, base + at);
    WidthIs(p.item, base + at);
    HoldsZeros(buf, at, Cells(p.item, base + at));
  }

  lemma HoldsZeros(buf: seq<Byte>, at: nat, cells: seq<Cell>)
    requires at + |cells| <= |buf| && (forall c :: c in cells ==> c == Hole || c == Fixed(0))
    requires forall i :: at <= i < at + |cells| ==> buf[i] == 0
    ensures Holds(buf, at, cells)
  {
    forall i | 0 <= i < |cells| && cells[i].Fixed? ensures buf[at + i] == cells[i].b {
      assert cells[i] in cells;
    }
  }

  lemma BareTail(buf: seq<Byte>, base: nat, at: nat, t: nat)
    requires t < 0x1_0000_0000_0000_0000 && (base + at) % 8 == 0
    requires at + 16 <= |buf| && buf[at..at + 8] == Le(t, 8) && forall i :: at + 8 <= i < at + 16 ==> buf[i] == 0
    ensures var p := CapabilityTail(Capability([], 0, [], t, 0, []), Done);
            Ready(buf, base, at, p, at + 16) && Tidy(buf, base, at, p)
  {
    var end := at + 16;
    var p := CapabilityTail(Capability([], 0, [], t, 0, []), Done);
    UpIs(base + end);
    assert Ready(buf, base, end, Done, end);
    ExtendBare(buf, base, end, p.next.next.next, end);
    ExtendBare(buf, base, at + 12, p.next.next, end);
    ExtendBare(buf, base, at + 8, p.next, end);
    HoldsNumber(buf, at, t, 8);
  }

  lemma BareMiddle(buf: seq<Byte>, base: nat, t: nat)
    requires t < 0x1_0000_0000_0000_0000
    requires var at := 20 + Pad(base + 20);
             && at + 16 <= |buf| && buf[at..at + 8] == Le(t, 8)
             && forall i :: 20 <= i < at + 16 && !(at <= i < at + 8) ==> buf[i] == 0
    ensures var p := Put(Raw([]), Put(Align8, CapabilityTail(Capability([], 0, [], t, 0, []), Done)));
            Ready(buf, base, 20, p, 36 + Pad(base + 20)) && Tidy(buf, base, 20, p)
  {
    var at := 20 + Pad(base + 20);
    var p := Put(Raw([]), Put(Align8, CapabilityTail(Capability([], 0, [], t, 0, []), Done)));
    UpIs(base + 20);
    BareTail(buf, base, at, t);
    ExtendBare(buf, base, 20, p.next, at + 16);
    ExtendBare(buf, base, 20, p, at + 16);
  }

  /** A buffer of zeros with a timeout in place holds a capability with nothing else in it. */
  lemma BareCapability(buf: seq<Byte>, base: nat, t: nat)
    requires t < 0x1_0000_0000_0000_0000
    requires var at := 20 + Pad(base + 20);
             && at + 16 <= |buf| && buf[at..at + 8] == Le(t, 8)
             && forall i :: 0 <= i < at + 16 && !(at <= i < at + 8) ==> buf[i] == 0
    ensures var p := CapabilityPlan(Capability([], 0, [], t, 0, []), Done);
            Ready(buf, base, 0, p, 36 + Pad(base + 20)) && Tidy(buf, base, 0, p)
  {
    var at := 20 + Pad(base + 20);
    var p := CapabilityPlan(Capability([], 0, [], t, 0, []), Done);
    BareMiddle(buf, base, t);
    ExtendBare(buf, base, 16, p.next.next.next, at + 16);
    ExtendBare(buf, base, 12, p.next.next, at + 16);
    ExtendBare(buf, base, 8, p.next, at + 16);
    ExtendBare(buf, base, 0, p, at + 16);
  }

  lemma HoldsNumber(buf: seq<Byte>, at: nat, n: nat, k: nat)
    requires at + k <= |buf| && buf[at..at + k] == Le(n, k)
    ensures Holds(buf, at, Bytes(Le(n, k)))
  {
    forall i | 0 <= i < k ensures buf[at + i] == Le(n, k)[i] {
      assert buf[at + i] == buf[at..at + k][i];
    }
  }

  /** Zeros and a single one. */
  function OneAt(n: nat, k: nat): (r: seq<Byte>)
    ensures |r| == n
  {
    seq(n, i => if i == k then 1 else 0)
  }

  lemma {:induction false} Pow256Below(k: nat)
    requires k < 8
    ensures Pow256(k) < 0x1_0000_0000_0000_0000
  {
    assert Pow256(4) == 0x1_0000_0000;
    assert Pow256(5) == 0x100_0000_0000;
    assert Pow256(6) == 0x1_0000_0000_0000;
    assert Pow256(7) == 0x100_0000_0000_0000;
  }

  /** An eight-byte window with a one at distance `d` is the number 256 to the power of `d`. */
  lemma Window(n: nat, k: nat, d: nat)
    requires d < 8 && d <= k && k - d + 8 <= n
    ensures OneAt(n, k)[k - d..k - d + 8] == Le(Pow256(d), 8)
  {
    LeShift(1, 8 - d, d);
    assert 1 * Pow256(d) == Pow256(d);
    LeZero(7 - d);
    assert Le(1, 8 - d) == [1] + Le(0, 7 - d);
    OneWindow(n, k, d);
  }

  lemma OneWindow(n: nat, k: nat, d: nat)
    requires d < 8 && d <= k && k - d + 8 <= n
    ensures OneAt(n, k)[k - d..k - d + 8] == seq(d, _ => 0) + ([1] + seq(7 - d, _ => 0))
  {
  }

  lemma PadDiffers(a: nat, b: nat)
    requires a % 8 != b % 8
    ensures Pad(a) != Pad(b)
  {
    UpIs(a);
    UpIs(b);
  }

  /** A reader at `base` takes the buffer for a capability whose timeout is a power of 256. */
  lemma ReadsPower(base: nat, k: nat, d: nat)
    requires d < 8 && k == 20 + Pad(base + 20) + d
    ensures var p := CapabilityPlan(Capability([], 0, [], Pow256(d), 0, []), Done);
            Ready(OneAt(44, k), base, 0, p, 36 + Pad(base + 20)) && Tidy(OneAt(44, k), base, 0, p)
  {
    Pow256Below(d);
    Window(44, k, d);
    BareCapability(OneAt(44, k), base, Pow256(d));
  }

  /** Readers at any two addresses that differ modulo eight take some buffer for two different capabilities. */
  lemma Misaligned(base: nat, other: nat) returns (buf: seq<Byte>, c: Capability, d: Capability)
    requires base % 8 != other % 8
    ensures Ready(buf, base, 0, CapabilityPlan(c, Done), 36 + Pad(base + 20)) && Tidy(buf, base, 0, CapabilityPlan(c, Done))
    ensures Ready(buf, other, 0, CapabilityPlan(d, Done), 36 + Pad(other + 20)) && Tidy(buf, other, 0, CapabilityPlan(d, Done))
    ensures c != d
  {
    PadDiffers(base + 20, other + 20);
    buf, c, d := PadsApart(base, other, Pad(base + 20), Pad(other + 20));
  }

  lemma PadsApart(base: nat, other: nat, p: nat, q: nat) returns (buf: seq<Byte>, c: Capability, d: Capability)
    requires p == Pad(base + 20) && q == Pad(other + 20) && p != q
    ensures Ready(buf, base, 0, CapabilityPlan(c, Done), 36 + p) && Tidy(buf, base, 0, CapabilityPlan(c, Done))
    ensures Ready(buf, other, 0, CapabilityPlan(d, Done), 36 + q) && Tidy(buf, other, 0, CapabilityPlan(d, Done))
    ensures c != d
  {
    if p < q {
      buf, c, d := ReadTwice(base, other, p, q, 20 + q, q - p, 0);
    } else {
      buf, c, d := ReadTwice(base, other, p, q, 20 + p, 0, p - q);
    }
  }

  /** The one is at distance `a` from where one reader finds the timeout, and at distance `b` for the other. */
  lemma ReadTwice(base: nat, other: nat, p: nat, q: nat, k: nat, a: nat, b: nat)
    returns (buf: seq<Byte>, c: Capability, d: Capability)
    requires p == Pad(base + 20) && q == Pad(other + 20)
    requires a < 8 && b < 8 && a != b && k == 20 + p + a && k == 20 + q + b
    ensures Ready(buf, base, 0, CapabilityPlan(c, Done), 36 + p) && Tidy(buf, base, 0, CapabilityPlan(c, Done))
    ensures Ready(buf, other, 0, CapabilityPlan(d, Done), 36 + q) && Tidy(buf, other, 0, CapabilityPlan(d, Done))
    ensures c != d
  {
    buf := OneAt(44, k);
    c := Capability([], 0, [], Pow256(a), 0, []);
    d := Capability([], 0, [], Pow256(b), 0, []);
    ReadsPower(base, k, a);
    ReadsPower(other, k, b);
    PowersDiffer(a, b);
  }

  lemma {:induction false} PowersDiffer(a: nat, b: nat)
    requires a != b
    ensures Pow256(a) != Pow256(b)
    decreases a + b
  {
    if a > 0 && b > 0 { PowersDiffer(a - 1, b - 1); }
  }

  // ---------- PVFS_credential ----------

  datatype Credential = Credential(userid: nat, groups: seq<nat>, issuer: seq<Byte>, timeout: nat,
                                   signature: seq<Byte>, certificate: seq<Byte>)

  function CertificatePlan(b: seq<Byte>, k: Plan): Plan {
    Put(Skip4, Put(U32(|b|), Put(Raw(b), k)))
  }

  function CredentialTail(c: Credential, k: Plan): Plan {
    Put(U64(c.timeout), Put(U32(|c.signature|), Put(Raw(c.signature), Put(Align8,
      CertificatePlan(c.certificate, Put(Align8, k))))))
  }

  function CredentialPlan(c: Credential, k: Plan): Plan {
    Put(Skip4, Put(Skip4, Put(U32(c.userid), Put(U32(|c.groups|), Halves(c.groups, Put(Align8,
      Put(Text(c.issuer), CredentialTail(c, k))))))))
  }

  method GetCredentialTail(buf: seq<Byte>, base: nat, at: nat, ghost c: Credential, ghost k: Plan, ghost end: nat)
    returns (timeout: nat, signature: seq<Byte>, certificate: seq<Byte>, next: nat)
    requires Ready(buf, base, at, CredentialTail(c, k), end)
    ensures timeout == c.timeout && signature == c.signature && certificate == c.certificate
    ensures Ready(buf, base, next, k, end) && (base + next) % 8 == 0
    ensures Tidy(buf, base, at, CredentialTail(c, k)) <==> Tidy(buf, base, next, k)
  {
    ghost var p := CredentialTail(c, k);
    var n;
    timeout, next := GetU64(buf, base, at, p, end);
    n, next := GetU32(buf, base, next, p.next, end);
    signature, next := GetRaw(buf, base, next, n, p.next.next, end);
    next := Align(buf, base, next, p.next.next.next, end);
    ghost var q := CertificatePlan(c.certificate, Put(Align8, k));
    next := Skip(buf, base, next, q, end);
    n, next := GetU32(buf, base, next, q.next, end);
    certificate, next := GetRaw(buf, base, next, n, q.next.next, end);
    next := Align(buf, base, next, Put(Align8, k), end);
  }

  /** decode_PVFS_credential */
  method GetCredential(buf: seq<Byte>, base: nat, at: nat, ghost c: Credential, ghost k: Plan, ghost end: nat)
    returns (r: Credential, next: nat)
    requires Ready(buf, base, at, CredentialPlan(c, k), end)
    ensures r == c.(issuer := r.issuer) && Ready(buf, base, next, k, end) && (base + next) % 8 == 0
    ensures Tidy(buf, base, at, CredentialPlan(c, k)) <==> r == c && Tidy(buf, base, next, k)
  {
    ghost var p := CredentialPlan(c, k);
    var userid, n, groups, issuer;
    next := Skip(buf, base, at, p, end);
    next := Skip(buf, base, next, p.next, end);
    userid, next := GetU32(buf, base, next, p.next.next, end);
    n, next := GetU32(buf, base, next, p.next.next.next, end);
    ghost var q := Put(Align8, Put(Text(c.issuer), CredentialTail(c, k)));
    groups, next := GetHalves(buf, base, next, n, c.groups, q, end);
    next := Align(buf, base, next, q, end);
    issuer, next := GetText(buf, base, next, q.next, end);
    var timeout, signature, certificate;
    timeout, signature, certificate, next := GetCredentialTail(buf, base, next, c, k, end);
    r := Credential(userid, groups, issuer, timeout, signature, certificate);
  }
}
