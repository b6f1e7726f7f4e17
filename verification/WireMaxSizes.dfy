/**
 The buffer sizes lebf_initialize measures in advance are enough for the messages they were computed for.
 */
module WireMaxSizes {
  import opened Wrappers
  import opened Wire
  import opened WireSecurity
  import opened WireMessages
  import opened WireProtocol
  import opened WireSizes

  const GETATTR := 4
  const LOOKUP_PATH := 6
  const MKDIR := 11
  const READDIR := 12
  const UNSTUFF := 38
  const LIMIT_PATH := 4096
  const LIMIT_DIRENTS := 512
  const NAME_MAX := 256
  /** sizeof(PVFS_dirent): the name with its terminator, padded, and a handle. */
  const SIZEOF_DIRENT := 272

  /** Bytes of an encoded request in a buffer at `base`, generic header included. */
  function RequestSize(q: Request, base: nat): int
    requires Sendable(q, 0)
  {
    End(RequestPlan(q, 0), base + HEADER_SIZE) - base
  }

  /** What lebf_initialize encodes to measure a request; `h` is the size of its hint block. */
  function Measured(op: nat, h: nat): (q: Request)
    requires op in {GETATTR, UNSTUFF, LOOKUP_PATH}
    ensures Sendable(q, 0)
  {
    var body := if op == LOOKUP_PATH
                then [Octets([]), Num(0), Nothing, Num(0), Num(0), OfCredential(BLANK_CREDENTIAL)]
                else [Num(0), Num(0), Num(0), OfCredential(BLANK_CREDENTIAL)];
    Request(op, BLANK_CAPABILITY, seq(h, _ => 0), body)
  }

  /** max_size_array[op].req */
  function MaxRequest(op: nat, h: nat, base: nat): int
    requires op in {GETATTR, UNSTUFF, LOOKUP_PATH}
  {
    RequestSize(Measured(op, h), base) + EXTRA_CAPABILITY + EXTRA_CREDENTIAL
    + if op == LOOKUP_PATH then Up(LIMIT_PATH + 1) else 0
  }

  predicate RequestInLimits(q: Request, h: nat)
    requires q.op in {GETATTR, UNSTUFF, LOOKUP_PATH} && Sendable(q, 0)
  {
    && CapabilityInLimits(q.capability)
    && |q.hint| <= h && |q.hint| % 8 == 0
    && if q.op == LOOKUP_PATH then |q.body[0].b| <= LIMIT_PATH && CredentialInLimits(q.body[5].cred)
       else CredentialInLimits(q.body[3].cred)
  }

  // ---------- where a body ends ----------

  lemma GetattrBody(vs: seq<Value>, at: nat)
    requires Shapes([N8, N4, N4, Cred], vs, 0)
    ensures End(FieldsPlan([N8, N4, N4, Cred], vs, 0, Done), at) == CredentialEnd(vs[3].cred, at + 16)
  {
    var fs := [N8, N4, N4, Cred];
    LastCredential(fs, vs, 3);
    Step(fs, vs, 2, at + 12);
    Step(fs, vs, 1, at + 8);
    Step(fs, vs, 0, at);
    assert fs[0..] == fs && vs[0..] == vs;
    CredentialEndIs(vs[3].cred, Done, at + 16);
  }

  const LOOKUP_FIELDS: seq<Kind> := [Str, N4, Gap, N8, N4, Cred]

  lemma LookupBody(vs: seq<Value>, at: nat)
    requires Shapes(LOOKUP_FIELDS, vs, 0)
    ensures End(FieldsPlan(LOOKUP_FIELDS, vs, 0, Done), at) == CredentialEnd(vs[5].cred, at + Up(|vs[0].b| + 5) + 20)
  {
    var fs := LOOKUP_FIELDS;
    var a := at + Up(|vs[0].b| + 5);
    LookupTail(vs, a + 4);
    Step(fs, vs, 1, a);
    Step(fs, vs, 0, at);
    assert fs[0..] == fs && vs[0..] == vs;
  }

  lemma LookupTail(vs: seq<Value>, at: nat)
    requires Shapes(LOOKUP_FIELDS, vs, 0)
    ensures End(FieldsPlan(LOOKUP_FIELDS[2..], vs[2..], 0, Done), at) == CredentialEnd(vs[5].cred, at + 16)
  {
    var fs := LOOKUP_FIELDS;
    LastCredential(fs, vs, 5);
    Step(fs, vs, 4, at + 12);
    Step(fs, vs, 3, at + 4);
    Step(fs, vs, 2, at);
    CredentialEndIs(vs[5].cred, Done, at + 16);
  }

  lemma LastCredential(fs: seq<Kind>, vs: seq<Value>, i: nat)
    requires Shapes(fs, vs, 0) && |fs| == i + 1 && fs[i] == Cred
    ensures FieldsPlan(fs[i..], vs[i..], 0, Done) == CredentialPlan(vs[i].cred, Done)
  {
    assert fs[i..] == [Cred] && vs[i..] == [vs[i]];
    assert fs[i..][1..] == [] && vs[i..][1..] == [];
  }

  /** One field with a single item. */
  lemma Step(fs: seq<Kind>, vs: seq<Value>, i: nat, at: nat)
    requires Shapes(fs, vs, 0) && i < |fs| && (fs[i].N4? || fs[i].N8? || fs[i].Gap? || fs[i].Str?)
    ensures End(FieldsPlan(fs[i..], vs[i..], 0, Done), at)
         == End(FieldsPlan(fs[i + 1..], vs[i + 1..], 0, Done),
                at + if fs[i].N8? then 8 else if fs[i].Str? then Up(|vs[i].b| + 5) else 4)
  {
    assert fs[i..][1..] == fs[i + 1..] && vs[i..][1..] == vs[i + 1..] && fs[i..][0] == fs[i] && vs[i..][0] == vs[i];
  }

  lemma RequestEndIs(q: Request, at: nat)
    requires Sendable(q, 0)
    ensures End(RequestPlan(q, 0), at)
         == End(FieldsPlan(RequestFields(q.op).value, q.body, 0, Done), CapabilityEnd(q.capability, at + 8) + |q.hint|)
  {
    var b := FieldsPlan(RequestFields(q.op).value, q.body, 0, Done);
    var p := RequestPlan(q, 0);
    assert End(p, at) == End(p.next.next, at + 8);
    CapabilityEndIs(q.capability, Put(Raw(q.hint), b), at + 8);
  }

  /** The length of an encoding depends on the alignment of its address only. */
  lemma Slide(c: Credential, at: nat, other: nat)
    requires at % 8 == other % 8
    ensures CredentialEnd(c, at) - at == CredentialEnd(c, other) - other
  {
    CredentialEndIs(c, Done, at);
    CredentialEndIs(c, Done, other);
    EndLayout(CredentialPlan(c, Done), at);
    EndLayout(CredentialPlan(c, Done), other);
    SameAlignment(CredentialPlan(c, Done), at, other);
  }

  lemma CredentialNoMore(c: Credential, at: nat, other: nat, d: nat)
    requires CredentialInLimits(c) && at % 8 == other % 8 && at <= other + d
    ensures CredentialEnd(c, at) <= CredentialEnd(BLANK_CREDENTIAL, other) + d + EXTRA_CREDENTIAL
  {
    CredentialBound(c, at);
    Slide(BLANK_CREDENTIAL, at, other);
  }

  lemma Aligned20(x: nat, y: nat, u: nat, v: nat)
    requires x % 8 == 0 && y % 8 == 0 && u % 8 == 0 && v % 8 == 0
    ensures (x + u + 20) % 8 == (y + v + 20) % 8
  {
  }

  /** The path of a lookup and what follows, from address `x` and from `y` for the measured one. */
  lemma LookupEnds(path: seq<Byte>, c: Credential, x: nat, y: nat, d: nat)
    requires |path| <= LIMIT_PATH && CredentialInLimits(c) && x % 8 == 0 && y % 8 == 0 && x <= y + d
    ensures CredentialEnd(c, x + Up(|path| + 5) + 20)
         <= CredentialEnd(BLANK_CREDENTIAL, y + Up(5) + 20) + d + LIMIT_PATH + EXTRA_CREDENTIAL
  {
    UpClose(5, |path| + 5, LIMIT_PATH);
    UpIs(|path| + 5);
    UpIs(5);
    Aligned20(x, y, Up(|path| + 5), Up(5));
    CredentialNoMore(c, x + Up(|path| + 5) + 20, y + Up(5) + 20, d + LIMIT_PATH);
  }

  lemma Sum8(a: nat, b: nat)
    requires a % 8 == 0 && b % 8 == 0
    ensures (a + b) % 8 == 0
  {
  }

  /** Where the bodies of a request and of the measured one start. */
  lemma Bodies(c: Capability, hint: nat, h: nat, at: nat)
    requires CapabilityInLimits(c) && hint <= h && hint % 8 == 0 && h % 8 == 0
    ensures (CapabilityEnd(c, at) + hint) % 8 == 0 && (CapabilityEnd(BLANK_CAPABILITY, at) + h) % 8 == 0
    ensures CapabilityEnd(c, at) + hint <= CapabilityEnd(BLANK_CAPABILITY, at) + h + EXTRA_CAPABILITY
  {
    CapabilityBound(c, at);
    CapabilityBound(BLANK_CAPABILITY, at);
    Sum8(CapabilityEnd(c, at), hint);
    Sum8(CapabilityEnd(BLANK_CAPABILITY, at), h);
  }

  lemma GetattrEnds(c: Credential, x: nat, y: nat, d: nat)
    requires CredentialInLimits(c) && x % 8 == 0 && y % 8 == 0 && x <= y + d
    ensures CredentialEnd(c, x + 16) <= CredentialEnd(BLANK_CREDENTIAL, y + 16) + d + EXTRA_CREDENTIAL
  {
    Sum8(x, 16);
    Sum8(y, 16);
    CredentialNoMore(c, x + 16, y + 16, d);
  }

  lemma GetattrBodies(vs: seq<Value>, blank: seq<Value>, x: nat, y: nat, d: nat)
    requires Shapes([N8, N4, N4, Cred], vs, 0) && Shapes([N8, N4, N4, Cred], blank, 0)
    requires CredentialInLimits(vs[3].cred) && blank[3].cred == BLANK_CREDENTIAL
    requires x % 8 == 0 && y % 8 == 0 && x <= y + d
    ensures End(FieldsPlan([N8, N4, N4, Cred], vs, 0, Done), x)
         <= End(FieldsPlan([N8, N4, N4, Cred], blank, 0, Done), y) + d + EXTRA_CREDENTIAL
  {
    GetattrBody(vs, x);
    GetattrBody(blank, y);
    GetattrEnds(vs[3].cred, x, y, d);
  }

  lemma LookupBodies(vs: seq<Value>, blank: seq<Value>, x: nat, y: nat, d: nat)
    requires Shapes(LOOKUP_FIELDS, vs, 0) && Shapes(LOOKUP_FIELDS, blank, 0)
    requires |vs[0].b| <= LIMIT_PATH && CredentialInLimits(vs[5].cred)
    requires blank[0].b == [] && blank[5].cred == BLANK_CREDENTIAL
    requires x % 8 == 0 && y % 8 == 0 && x <= y + d
    ensures End(FieldsPlan(LOOKUP_FIELDS, vs, 0, Done), x)
         <= End(FieldsPlan(LOOKUP_FIELDS, blank, 0, Done), y) + d + LIMIT_PATH + EXTRA_CREDENTIAL
  {
    LookupBody(vs, x);
    LookupBody(blank, y);
    LookupEnds(vs[0].b, vs[5].cred, x, y, d);
  }

  /** The length of a message behind its header depends on the alignment of the buffer only. */
  lemma SizeSame(p: Plan, base: nat, other: nat)
    requires base % 8 == other % 8
    ensures End(p, base + HEADER_SIZE) - base == End(p, other + HEADER_SIZE) - other
  {
    var a, b := base + HEADER_SIZE, other + HEADER_SIZE;
    assert a % 8 == b % 8;
    EndLayout(p, a);
    EndLayout(p, b);
    SameAlignment(p, a, b);
  }

  /**
   getattr, unstuff and lookup_path requests within the protocol limits never outgrow the size measured in another
   buffer of the same alignment.
   */
  lemma RequestFits(q: Request, h: nat, base: nat, measuring: nat)
    requires q.op in {GETATTR, UNSTUFF, LOOKUP_PATH} && Sendable(q, 0) && h % 8 == 0 && RequestInLimits(q, h)
    requires base % 8 == measuring % 8
    ensures RequestSize(q, base) <= MaxRequest(q.op, h, measuring)
  {
    SizeSame(RequestPlan(Measured(q.op, h), 0), base, measuring);
    RequestFitsHere(q, h, base);
  }

  lemma RequestFitsHere(q: Request, h: nat, base: nat)
    requires q.op in {GETATTR, UNSTUFF, LOOKUP_PATH} && Sendable(q, 0) && h % 8 == 0 && RequestInLimits(q, h)
    ensures RequestSize(q, base) <= MaxRequest(q.op, h, base)
  {
    var at := base + HEADER_SIZE;
    Bodies(q.capability, |q.hint|, h, at + 8);
    RequestEndIs(q, at);
    RequestEndIs(Measured(q.op, h), at);
    BodyFits(q, Measured(q.op, h), CapabilityEnd(q.capability, at + 8) + |q.hint|,
             CapabilityEnd(BLANK_CAPABILITY, at + 8) + h);
    assert LIMIT_PATH <= Up(LIMIT_PATH + 1);
  }

  lemma BodyFits(q: Request, m: Request, x: nat, y: nat)
    requires q.op in {GETATTR, UNSTUFF, LOOKUP_PATH} && Sendable(q, 0) && RequestInLimits(q, |q.hint|)
    requires m == Measured(q.op, |m.hint|) && x % 8 == 0 && y % 8 == 0 && x <= y + EXTRA_CAPABILITY
    ensures End(FieldsPlan(RequestFields(q.op).value, q.body, 0, Done), x)
         <= End(FieldsPlan(RequestFields(q.op).value, m.body, 0, Done), y) + EXTRA_CAPABILITY + EXTRA_CREDENTIAL
            + if q.op == LOOKUP_PATH then LIMIT_PATH else 0
  {
    if q.op == LOOKUP_PATH {
      LookupBodies(q.body, m.body, x, y, EXTRA_CAPABILITY);
    } else {
      GetattrBodies(q.body, m.body, x, y, EXTRA_CAPABILITY);
    }
  }

  // ---------- responses ----------

  function ResponseSize(q: Response, base: nat): int
    requires Answerable(q, 0)
  {
    End(ResponsePlan(q, 0), base + HEADER_SIZE) - base
  }

  const MEASURED_MKDIR := Response(MKDIR, 0, [Num(0), OfCapability(BLANK_CAPABILITY)])
  const MEASURED_READDIR := Response(READDIR, 0, [Num(0), Num(0), Nothing, Lists([[]])])

  lemma MkdirEnd(q: Response, at: nat)
    requires q.op == MKDIR && q.status == 0 && Answerable(q, 0)
    ensures End(ResponsePlan(q, 0), at) == CapabilityEnd(q.body[1].cap, at + 16)
  {
    var fs, vs := [N8, Cap], q.body;
    assert fs[1..] == [Cap] && vs[1..] == [vs[1]] && fs[1..][1..] == [] && vs[1..][1..] == [];
    assert FieldsPlan(fs[1..], vs[1..], 0, Done) == CapabilityPlan(vs[1].cap, Done);
    Step(fs, vs, 0, at + 8);
    assert fs[0..] == fs && vs[0..] == vs;
    CapabilityEndIs(vs[1].cap, Done, at + 16);
  }

  /** A mkdir response within the limits never outgrows its buffer. */
  lemma MkdirFits(q: Response, base: nat, measuring: nat)
    requires q.op == MKDIR && q.status == 0 && Answerable(q, 0) && CapabilityInLimits(q.body[1].cap)
    requires base % 8 == measuring % 8
    ensures ResponseSize(q, base) <= ResponseSize(MEASURED_MKDIR, measuring) + EXTRA_CAPABILITY
  {
    SizeSame(ResponsePlan(MEASURED_MKDIR, 0), base, measuring);
    MkdirEnd(q, base + HEADER_SIZE);
    MkdirEnd(MEASURED_MKDIR, base + HEADER_SIZE);
    CapabilityBound(q.body[1].cap, base + HEADER_SIZE + 16);
  }

  /** Directory entries: none takes more than sizeof(PVFS_dirent). */
  lemma {:induction false} DirentsEnd(vs: seq<Value>, at: nat)
    requires forall v :: v in vs ==> v.Dirent? && |v.name| <= NAME_MAX
    ensures End(EachPlan(EachDirent, vs, Done), at) <= at + SIZEOF_DIRENT * |vs|
    decreases |vs|
  {
    if vs != [] {
      var w := Up(|vs[0].name| + 5);
      UpClose(5, |vs[0].name| + 5, NAME_MAX);
      var rest := EachPlan(EachDirent, vs[1..], Done);
      assert End(EachPlan(EachDirent, vs, Done), at) == End(rest, at + w + 8);
      DirentsEnd(vs[1..], at + w + 8);
    }
  }

  const READDIR_FIELDS: seq<Kind> := [N8, N8, Gap, Arrays([EachDirent])]

  lemma DirentField(vs: seq<Value>)
    requires Shapes(READDIR_FIELDS, vs, 0)
    ensures |vs[3].ls| == 1 && (forall v :: v in vs[3].ls[0] ==> ElemShape(EachDirent, v))
    ensures FieldsPlan(READDIR_FIELDS[3..], vs[3..], 0, Done) == Put(U32(|vs[3].ls[0]|), EachPlan(EachDirent, vs[3].ls[0], Done))
  {
    var fs, ls, es := READDIR_FIELDS, vs[3].ls, [EachDirent];
    assert Shape(fs[3], vs[3], 0);
    assert fs[3..] == [Arrays(es)] && vs[3..] == [vs[3]] && fs[3..][1..] == [] && vs[3..][1..] == [];
    assert es[1..] == [] && ls[1..] == [] && es[0] == EachDirent;
    assert ListsPlan(es, ls, |ls[0]|, Done) == EachPlan(EachDirent, ls[0], ListsPlan(es[1..], ls[1..], |ls[0]|, Done));
    assert FieldsPlan(fs[3..], vs[3..], 0, Done) == FieldPlan(Arrays(es), vs[3], 0, FieldsPlan([], [], 0, Done));
  }

  lemma ReaddirBody(vs: seq<Value>, at: nat)
    requires Shapes(READDIR_FIELDS, vs, 0)
    ensures |vs[3].ls| == 1 && (forall v :: v in vs[3].ls[0] ==> ElemShape(EachDirent, v))
    ensures End(FieldsPlan(READDIR_FIELDS, vs, 0, Done), at) == End(EachPlan(EachDirent, vs[3].ls[0], Done), at + 24)
  {
    var fs := READDIR_FIELDS;
    DirentField(vs);
    Step(fs, vs, 2, at + 16);
    Step(fs, vs, 1, at + 8);
    Step(fs, vs, 0, at);
    assert fs[0..] == fs && vs[0..] == vs;
  }

  lemma ReaddirEnd(q: Response, at: nat)
    requires q.op == READDIR && q.status == 0 && Answerable(q, 0)
    ensures |q.body[3].ls| == 1 && (forall v :: v in q.body[3].ls[0] ==> ElemShape(EachDirent, v))
    ensures End(ResponsePlan(q, 0), at) == End(EachPlan(EachDirent, q.body[3].ls[0], Done), at + 32)
  {
    ReaddirBody(q.body, at + 8);
    assert ResponsePlan(q, 0).next.next == FieldsPlan(READDIR_FIELDS, q.body, 0, Done);
  }

  /** A readdir response with all the entries it may have, under the longest names, fits. */
  lemma ReaddirFits(q: Response, base: nat, measuring: nat)
    requires q.op == READDIR && q.status == 0 && Answerable(q, 0) && |q.body[3].ls| == 1
    requires |q.body[3].ls[0]| <= LIMIT_DIRENTS
    requires forall v :: v in q.body[3].ls[0] ==> v.Dirent? && |v.name| <= NAME_MAX
    requires base % 8 == measuring % 8
    ensures ResponseSize(q, base) <= ResponseSize(MEASURED_READDIR, measuring) + LIMIT_DIRENTS * SIZEOF_DIRENT
  {
    SizeSame(ResponsePlan(MEASURED_READDIR, 0), base, measuring);
    ReaddirEnd(q, base + HEADER_SIZE);
    ReaddirEnd(MEASURED_READDIR, base + HEADER_SIZE);
    DirentsEnd(q.body[3].ls[0], base + HEADER_SIZE + 32);
  }
}
