/**
 How large capabilities, credentials and the messages that carry them get: the sizes
 lebf_initialize computes in advance are enough (src/proto/PINT-le-bytefield.c).
 */
module WireSizes {
  import opened Wire
  import opened WireSecurity

  // ---------- addresses ----------

  /** The address behind an encoding that starts at `at`. */
  function End(p: Plan, at: nat): nat {
    match p
    case Done => at
    case Put(i, k) => End(k, at + Width(i, at))
  }

  lemma {:induction false} EndLayout(p: Plan, at: nat)
    ensures End(p, at) == at + |Layout(p, at)|
    decreases p
  {
    if p.Put? {
      WidthIs(p.item, at);
      EndLayout(p.next, at + Width(p.item, at));
    }
  }

  lemma {:induction false} EndWords(hs: seq<nat>, k: Plan, at: nat)
    ensures End(Words(hs, k), at) == End(k, at + 8 * |hs|)
  {
    if hs != [] {
      EndWords(hs[1..], k, at + 8);
    }
  }

  lemma {:induction false} EndHalves(gs: seq<nat>, k: Plan, at: nat)
    ensures End(Halves(gs, k), at) == End(k, at + 4 * |gs|)
  {
    if gs != [] {
      EndHalves(gs[1..], k, at + 4);
    }
  }

  /** Rounding up keeps a distance of at most `m`, a multiple of eight. */
  lemma UpClose(v: nat, u: nat, m: nat)
    requires v <= u <= v + m && m % 8 == 0
    ensures Up(v) <= Up(u) <= Up(v) + m
    ensures u == v + m ==> Up(u) == Up(v) + m
  {
    UpIs(u);
    UpIs(v);
    assert m == m / 8 * 8;
    assert (v + m + 7) / 8 == (v + 7) / 8 + m / 8;
  }

  // ---------- the limits ----------

  const LIMIT_HANDLES := 1024
  const LIMIT_GROUPS := 32
  const LIMIT_ISSUER := 128
  const LIMIT_SIGNATURE := 512
  const LIMIT_CERT := 8192
  const EXTRA_CAPABILITY := LIMIT_HANDLES * 8 + LIMIT_ISSUER + LIMIT_SIGNATURE
  const EXTRA_CREDENTIAL := LIMIT_GROUPS * 4 + LIMIT_ISSUER + LIMIT_SIGNATURE + LIMIT_CERT

  /** What zero_capability and zero_credential leave. */
  const BLANK_CAPABILITY := Capability([], 0, [], 0, 0, [])
  const BLANK_CREDENTIAL := Credential(0, [], [], 0, [], [])

  predicate CapabilityInLimits(c: Capability) {
    |c.issuer| <= LIMIT_ISSUER && |c.signature| <= LIMIT_SIGNATURE && |c.handles| <= LIMIT_HANDLES
  }

  predicate CapabilityAtLimits(c: Capability) {
    |c.issuer| == LIMIT_ISSUER && |c.signature| == LIMIT_SIGNATURE && |c.handles| == LIMIT_HANDLES
  }

  predicate CredentialInLimits(c: Credential) {
    |c.groups| <= LIMIT_GROUPS && |c.issuer| <= LIMIT_ISSUER && |c.signature| <= LIMIT_SIGNATURE
    && |c.certificate| <= LIMIT_CERT
  }

  predicate CredentialAtLimits(c: Credential) {
    |c.groups| == LIMIT_GROUPS && |c.issuer| == LIMIT_ISSUER && |c.signature| == LIMIT_SIGNATURE
    && |c.certificate| == LIMIT_CERT
  }

  /** The address behind a capability that starts at `at`. */
  function CapabilityEnd(c: Capability, at: nat): nat {
    Up(TimeoutAt(c, at) + 16 + 8 * |c.handles|)
  }

  /** Where a capability's timeout starts. */
  function TimeoutAt(c: Capability, at: nat): nat {
    Up(at + Up(|c.issuer| + 5) + 12 + |c.signature|)
  }

  function CredentialEnd(c: Credential, at: nat): nat {
    Up(CertificateAt(c, at) + 8 + |c.certificate|)
  }

  lemma CapabilityEndIs(c: Capability, k: Plan, at: nat)
    ensures End(CapabilityPlan(c, k), at) == End(k, CapabilityEnd(c, at))
  {
    var p := CapabilityPlan(c, k);
    var a := at + Up(|c.issuer| + 5);
    assert End(p, at) == End(p.next, a);
    assert End(p.next, a) == End(p.next.next.next, a + 8);
    var q := p.next.next.next;
    assert End(q, a + 8) == End(q.next.next, a + 12 + |c.signature|);
    var b := Up(a + 12 + |c.signature|);
    assert End(q.next.next, a + 12 + |c.signature|) == End(CapabilityTail(c, k), b);
    CapabilityTailEnd(c, k, b);
  }

  lemma CapabilityTailEnd(c: Capability, k: Plan, at: nat)
    ensures End(CapabilityTail(c, k), at) == End(k, Up(at + 16 + 8 * |c.handles|))
  {
    var p := CapabilityTail(c, k);
    assert End(p, at) == End(p.next.next, at + 12);
    assert End(p.next.next, at + 12) == End(Words(c.handles, Put(Align8, k)), at + 16);
    EndWords(c.handles, Put(Align8, k), at + 16);
  }

  lemma CredentialEndIs(c: Credential, k: Plan, at: nat)
    ensures End(CredentialPlan(c, k), at) == End(k, CredentialEnd(c, at))
  {
    var q := Put(Align8, Put(Text(c.issuer), CredentialTail(c, k)));
    GroupsEnd(c, k, at);
    var a := Up(at + 16 + 4 * |c.groups|);
    assert End(q, at + 16 + 4 * |c.groups|) == End(q.next, a);
    assert End(q.next, a) == End(CredentialTail(c, k), a + Up(|c.issuer| + 5));
    CredentialTailEnd(c, k, a + Up(|c.issuer| + 5));
  }

  lemma GroupsEnd(c: Credential, k: Plan, at: nat)
    ensures End(CredentialPlan(c, k), at)
         == End(Put(Align8, Put(Text(c.issuer), CredentialTail(c, k))), at + 16 + 4 * |c.groups|)
  {
    var p := CredentialPlan(c, k);
    var q := Put(Align8, Put(Text(c.issuer), CredentialTail(c, k)));
    assert End(p, at) == End(p.next.next, at + 8);
    assert End(p.next.next, at + 8) == End(Halves(c.groups, q), at + 16);
    EndHalves(c.groups, q, at + 16);
  }

  lemma CredentialTailEnd(c: Credential, k: Plan, at: nat)
    ensures End(CredentialTail(c, k), at) == End(k, Up(Up(at + 12 + |c.signature|) + 8 + |c.certificate|))
  {
    var p := CredentialTail(c, k);
    assert End(p, at) == End(p.next.next, at + 12);
    var b := Up(at + 12 + |c.signature|);
    assert End(p.next.next, at + 12) == End(p.next.next.next.next, b);
    var q := CertificatePlan(c.certificate, Put(Align8, k));
    assert End(q, b) == End(q.next.next, b + 8);
    assert End(q.next.next, b + 8) == End(k, Up(b + 8 + |c.certificate|));
  }

  lemma TimeoutBound(c: Capability, at: nat)
    requires CapabilityInLimits(c)
    ensures var d, limit := TimeoutAt(BLANK_CAPABILITY, at), LIMIT_ISSUER + LIMIT_SIGNATURE;
            && d <= TimeoutAt(c, at) <= d + limit
            && (CapabilityAtLimits(c) ==> TimeoutAt(c, at) == d + limit)
  {
    UpClose(5, |c.issuer| + 5, LIMIT_ISSUER);
    UpClose(at + Up(5) + 12, at + Up(|c.issuer| + 5) + 12 + |c.signature|, LIMIT_ISSUER + LIMIT_SIGNATURE);
  }

  /** At any address: a capability is at most the blank one plus extra_size_PVFS_capability, and can be just that. */
  lemma CapabilityBound(c: Capability, at: nat)
    requires CapabilityInLimits(c)
    ensures CapabilityEnd(c, at) <= CapabilityEnd(BLANK_CAPABILITY, at) + EXTRA_CAPABILITY
    ensures CapabilityAtLimits(c) ==> CapabilityEnd(c, at) == CapabilityEnd(BLANK_CAPABILITY, at) + EXTRA_CAPABILITY
    ensures CapabilityEnd(c, at) % 8 == 0
  {
    TimeoutBound(c, at);
    UpIs(TimeoutAt(c, at) + 16 + 8 * |c.handles|);
    UpClose(TimeoutAt(BLANK_CAPABILITY, at) + 16, TimeoutAt(c, at) + 16 + 8 * |c.handles|, EXTRA_CAPABILITY);
  }

  /** Where a credential's signature starts. */
  function SignatureAt(c: Credential, at: nat): nat {
    Up(at + 16 + 4 * |c.groups|) + Up(|c.issuer| + 5) + 12
  }

  /** Where a credential's certificate starts. */
  function CertificateAt(c: Credential, at: nat): nat {
    Up(SignatureAt(c, at) + |c.signature|)
  }

  lemma SignatureBound(c: Credential, at: nat)
    requires CredentialInLimits(c)
    ensures var d, limit := SignatureAt(BLANK_CREDENTIAL, at), LIMIT_GROUPS * 4 + LIMIT_ISSUER;
            && d <= SignatureAt(c, at) <= d + limit
            && (CredentialAtLimits(c) ==> SignatureAt(c, at) == d + limit)
  {
    UpClose(5, |c.issuer| + 5, LIMIT_ISSUER);
    UpClose(at + 16, at + 16 + 4 * |c.groups|, LIMIT_GROUPS * 4);
  }

  lemma CertificateBound(c: Credential, at: nat)
    requires CredentialInLimits(c)
    ensures var d, limit := CertificateAt(BLANK_CREDENTIAL, at), LIMIT_GROUPS * 4 + LIMIT_ISSUER + LIMIT_SIGNATURE;
            && d <= CertificateAt(c, at) <= d + limit
            && (CredentialAtLimits(c) ==> CertificateAt(c, at) == d + limit)
  {
    var low, high := SignatureAt(BLANK_CREDENTIAL, at), SignatureAt(c, at);
    SignatureBound(c, at);
    UpClose(low, high + |c.signature|, LIMIT_GROUPS * 4 + LIMIT_ISSUER + LIMIT_SIGNATURE);
  }

  lemma CredentialBound(c: Credential, at: nat)
    requires CredentialInLimits(c)
    ensures CredentialEnd(c, at) <= CredentialEnd(BLANK_CREDENTIAL, at) + EXTRA_CREDENTIAL
    ensures CredentialAtLimits(c) ==> CredentialEnd(c, at) == CredentialEnd(BLANK_CREDENTIAL, at) + EXTRA_CREDENTIAL
    ensures CredentialEnd(c, at) % 8 == 0
  {
    CertificateBound(c, at);
    UpIs(CertificateAt(c, at) + 8 + |c.certificate|);
    UpClose(CertificateAt(BLANK_CREDENTIAL, at) + 8, CertificateAt(c, at) + 8 + |c.certificate|, EXTRA_CREDENTIAL);
  }
}
