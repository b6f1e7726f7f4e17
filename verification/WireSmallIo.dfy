/**
 Small I/O (src/proto/pvfs2-req-proto.h): the segments of a write travel inside the request.
 */
module WireSmallIo {
  import opened Wire
  import opened WireCodec

  const IO_WRITE := 2

  datatype Segment = Segment(offset: nat, size: nat)

  /** PVFS_servreq_small_io; distribution and file request are blocks made by their own codecs. */
  datatype SmallIo = SmallIo(handle: nat, fsid: nat, ioType: nat, serverNr: nat, serverCt: nat, dist: seq<Byte>,
                             fileReq: seq<Byte>, offset: nat, aggregate: nat, total: nat)

  predicate Inside(buffer: seq<Byte>, segs: seq<Segment>) {
    forall i :: 0 <= i < |segs| ==> segs[i].offset + segs[i].size <= |buffer|
  }

  function Cut(buffer: seq<Byte>, s: Segment): seq<Byte>
    requires s.offset + s.size <= |buffer|
  {
    buffer[s.offset..s.offset + s.size]
  }

  /** The segments one after the other. */
  function Gather(buffer: seq<Byte>, segs: seq<Segment>): seq<Byte>
    requires Inside(buffer, segs)
  {
    if segs == [] then [] else Cut(buffer, segs[0]) + Gather(buffer, segs[1..])
  }

  function Total(segs: seq<Segment>): nat {
    if segs == [] then 0 else segs[0].size + Total(segs[1..])
  }

  lemma {:induction false} GatherLength(buffer: seq<Byte>, segs: seq<Segment>)
    requires Inside(buffer, segs)
    ensures |Gather(buffer, segs)| == Total(segs)
  {
    if segs != [] {
      GatherLength(buffer, segs[1..]);
    }
  }

  /** The loop of PINT_SERVREQ_SMALL_IO_FILL. */
  method FillTotal(segs: seq<Segment>) returns (total: nat)
    ensures total == Total(segs)
  {
    total := 0;
    assert segs[0..] == segs;
    for i := 0 to |segs|
      invariant total + Total(segs[i..]) == Total(segs)
    {
      assert segs[i..][1..] == segs[i + 1..];
      total := total + segs[i].size;
    }
  }

  /** One memcpy for every segment. */
  function SegmentsPlan(buffer: seq<Byte>, segs: seq<Segment>, k: Plan): Plan
    requires Inside(buffer, segs)
  {
    if segs == [] then k else Put(Raw(Cut(buffer, segs[0])), SegmentsPlan(buffer, segs[1..], k))
  }

  /** encode_PVFS_servreq_small_io */
  function SmallIoPlan(x: SmallIo, buffer: seq<Byte>, segs: seq<Segment>, k: Plan): Plan
    requires Inside(buffer, segs)
  {
    Put(U64(x.handle), Put(U32(x.fsid), Put(U32(x.ioType), Put(U32(x.serverNr), Put(U32(x.serverCt), Put(Raw(x.dist),
      Put(Raw(x.fileReq), Put(U64(x.offset), Put(U64(x.aggregate), Put(U64(x.total), Put(Skip4,
        if x.ioType == IO_WRITE then SegmentsPlan(buffer, segs, k) else k)))))))))))
  }

  /** Consecutive copies make one block. */
  lemma {:induction false} Gathered(buf: seq<Byte>, base: nat, at: nat, buffer: seq<Byte>, segs: seq<Segment>, k: Plan, end: nat)
    requires Inside(buffer, segs) && Ready(buf, base, at, SegmentsPlan(buffer, segs, k), end)
    ensures var p := Put(Raw(Gather(buffer, segs)), k);
            && Ready(buf, base, at, p, end)
            && (Tidy(buf, base, at, p) <==> Tidy(buf, base, at, SegmentsPlan(buffer, segs, k)))
    decreases |segs|
  {
    if segs == [] {
      EmptyCopy(buf, base, at, k, end);
    } else {
      var a, b, rest := Cut(buffer, segs[0]), Gather(buffer, segs[1..]), SegmentsPlan(buffer, segs[1..], k);
      FirstCopy(buf, base, at, a, rest, end);
      Gathered(buf, base, at + |a|, buffer, segs[1..], k, end);
      Join(buf, base, at, a, b, k, end);
    }
  }

  lemma EmptyCopy(buf: seq<Byte>, base: nat, at: nat, k: Plan, end: nat)
    requires Ready(buf, base, at, k, end)
    ensures Ready(buf, base, at, Put(Raw([]), k), end)
    ensures Tidy(buf, base, at, Put(Raw([]), k)) <==> Tidy(buf, base, at, k)
  {
    assert at == at + Width(Raw([]), base + at);
  }

  lemma FirstCopy(buf: seq<Byte>, base: nat, at: nat, a: seq<Byte>, k: Plan, end: nat)
    requires Ready(buf, base, at, Put(Raw(a), k), end)
    ensures Holds(buf, at, Bytes(a)) && Ready(buf, base, at + |a|, k, end)
    ensures Tidy(buf, base, at, Put(Raw(a), k)) <==> Tidy(buf, base, at + |a|, k)
  {
    assert at + |a| == at + Width(Raw(a), base + at);
  }

  lemma Join(buf: seq<Byte>, base: nat, at: nat, a: seq<Byte>, b: seq<Byte>, k: Plan, end: nat)
    requires Holds(buf, at, Bytes(a)) && Ready(buf, base, at + |a|, Put(Raw(b), k), end)
    ensures Ready(buf, base, at, Put(Raw(a + b), k), end)
    ensures Tidy(buf, base, at, Put(Raw(a + b), k)) <==> Tidy(buf, base, at + |a|, Put(Raw(b), k))
  {
    assert at + Width(Raw(a + b), base + at) == at + |a| + Width(Raw(b), base + at + |a|);
    assert Bytes(a + b) == Bytes(a) + Bytes(b);
    HoldsConcat(buf, at, Bytes(a), Bytes(b));
  }

  /** The fields ahead of the data. */
  method GetSmallIoFields(buf: seq<Byte>, base: nat, at: nat, distLen: nat, reqLen: nat,
                          ghost x: SmallIo, ghost d: Plan, ghost p: Plan, ghost end: nat)
    returns (r: SmallIo, next: nat)
    requires |x.dist| == distLen && |x.fileReq| == reqLen
    requires p == Put(U64(x.handle), Put(U32(x.fsid), Put(U32(x.ioType), Put(U32(x.serverNr), Put(U32(x.serverCt), Put(Raw(x.dist),
      Put(Raw(x.fileReq), Put(U64(x.offset), Put(U64(x.aggregate), Put(U64(x.total), Put(Skip4, d)))))))))))
    requires Ready(buf, base, at, p, end)
    ensures r == x && Ready(buf, base, next, d, end)
    ensures Tidy(buf, base, at, p) <==> Tidy(buf, base, next, d)
  {
    ghost var q := p.next.next.next.next.next;
    var handle, fsid, ioType, serverNr, serverCt, dist, fileReq, offset, aggregate, total;
    handle, next := GetU64(buf, base, at, p, end);
    fsid, next := GetU32(buf, base, next, p.next, end);
    ioType, next := GetU32(buf, base, next, p.next.next, end);
    serverNr, next := GetU32(buf, base, next, p.next.next.next, end);
    serverCt, next := GetU32(buf, base, next, p.next.next.next.next, end);
    dist, next := GetRaw(buf, base, next, distLen, q, end);
    fileReq, next := GetRaw(buf, base, next, reqLen, q.next, end);
    offset, next := GetU64(buf, base, next, q.next.next, end);
    aggregate, next := GetU64(buf, base, next, q.next.next.next, end);
    total, next := GetU64(buf, base, next, q.next.next.next.next, end);
    next := Skip(buf, base, next, q.next.next.next.next.next, end);
    r := SmallIo(handle, fsid, ioType, serverNr, serverCt, dist, fileReq, offset, aggregate, total);
  }

  /** decode_PVFS_servreq_small_io: of a write that was filled by the macro, the data is the segments in order. */
  method GetSmallIo(buf: seq<Byte>, base: nat, at: nat, distLen: nat, reqLen: nat,
                    ghost x: SmallIo, ghost buffer: seq<Byte>, ghost segs: seq<Segment>, ghost k: Plan, ghost end: nat)
    returns (r: SmallIo, data: seq<Byte>, next: nat)
    requires Inside(buffer, segs) && |x.dist| == distLen && |x.fileReq| == reqLen && x.total == Total(segs)
    requires Ready(buf, base, at, SmallIoPlan(x, buffer, segs, k), end)
    ensures r == x && Ready(buf, base, next, k, end)
    ensures data == if x.ioType == IO_WRITE then Gather(buffer, segs) else []
    ensures Tidy(buf, base, at, SmallIoPlan(x, buffer, segs, k)) <==> Tidy(buf, base, next, k)
  {
    ghost var d := if x.ioType == IO_WRITE then SegmentsPlan(buffer, segs, k) else k;
    r, next := GetSmallIoFields(buf, base, at, distLen, reqLen, x, d, SmallIoPlan(x, buffer, segs, k), end);
    data := [];
    if r.ioType == IO_WRITE {
      Gathered(buf, base, next, buffer, segs, k, end);
      GatherLength(buffer, segs);
      data, next := GetRaw(buf, base, next, r.total, Put(Raw(Gather(buffer, segs)), k), end);
    }
  }
}
