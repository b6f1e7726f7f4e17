/**
 The message table of src/proto/PINT-le-bytefield.c and the header check of
 src/proto/PINT-reqproto-encode.c.
 */
module WireProtocol {
  import opened Wrappers
  import opened Wire
  import opened WireCodec
  import opened WireSecurity
  import opened WireMessages

  const PROTO_ERROR := 28

  /** The fields of each request the encoder's switch sends; None for requests it refuses or that are not modelled here. */
  function RequestFields(op: nat): Option<seq<Kind>> {
    match op
    case 2 => Some([N8, N4, Cred])                             // remove
    case 4 => Some([N8, N4, N4, Cred])                         // getattr
    case 5 => Some([N8, N4, Gap, ObjectAttr, Cred])            // setattr
    case 6 => Some([Str, N4, Gap, N8, N4, Cred])               // lookup_path
    case 7 => Some([Cred, Str, N8, N8, N8, N4])                // crdirent
    case 8 => Some([Str, N8, N4])                              // rmdirent
    case 9 => Some([Str, N8, N8, N4])                          // chdirent
    case 10 => Some([N8, N4, Gap, N8, N4])                     // truncate
    case 12 => Some([N8, N4, N4, Gap, N8])                     // readdir
    case 13 => Some([])                                        // getconfig
    case 15 => Some([N8, N4, N4])                              // flush
    case 16 => Some([N4, N4, Param])                           // mgmt_setparam
    case 17 => Some([])                                        // mgmt_noop
    case 18 => Some([N4])                                      // statfs
    case 20 => Some([N4, N4, N4, N4])                          // mgmt_perf_mon
    case 21 => Some([N4, N4, N4, N8])                          // mgmt_iterate_handles
    case 22 => Some([N4, Arrays([Each8])])                     // mgmt_dspace_info_list
    case 23 => Some([N4])                                      // mgmt_event_mon
    case 24 => Some([N8, N4])                                  // mgmt_remove_object
    case 25 => Some([N8, N4, Gap, Str])                        // mgmt_remove_dirent
    case 26 => Some([N8, N4])                                  // mgmt_get_dirdata_handle
    case 28 => Some([])                                        // proto_error
    case 29 => Some([N8, N4, Arrays([EachBlob, Each8])])       // geteattr
    case 30 => Some([N8, N4, N4, Gap, Arrays([EachBlob, EachBlob])])            // seteattr
    case 31 => Some([N8, N4, Blob])                            // deleattr
    case 32 => Some([N8, N4, Gap, N8, Arrays([Each8])])        // listeattr
    case 34 => Some([N4, N4, Gap, Arrays([Each8])])            // listattr
    case 35 => Some([N4, N4, N4, Gap, Gap, Arrays([EachExtent])])               // batch_create
    case 36 => Some([N4, Arrays([Each8])])                     // batch_remove
    case 38 => Some([N8, N4, N4, Cred])                        // unstuff
    case 40 => Some([])                                        // imm_copies
    case 41 => Some([N4, Cred, N4, Arrays([Each8])])           // tree_remove
    case 42 => Some([N4, N4, N4, Cred, Arrays([Each8])])       // tree_get_file_size
    case 43 => Some([N4])                                      // mgmt_get_uid
    case 44 => Some([N4, Cred, N4, ObjectAttr, N4, Arrays([Each8])])            // tree_setattr
    case 45 => Some([N8, N4, Str])                             // mgmt_get_dirent
    case 46 => Some([N8, N4])                                  // mgmt_create_root_dir
    case 48 => Some([N8, N4, N4, N4, Arrays([EachBlob, EachBlob, Each8])])      // atomiceattr
    case 49 => Some([N4, N4, N4, Cred, N4, Arrays([Each8])])   // tree_getattr
    case 50 => Some([N4, Str, Long, Long, N4])                 // mgmt_get_user_cert
    case 51 => Some([N4])                                      // mgmt_get_user_cert_keyreq
    case _ => None
  }

  /** The fields of each response. */
  function ResponseFields(op: nat): Option<seq<Kind>> {
    match op
    case 1 => Some([N8, N4, ObjectAttr])                       // create
    case 3 => Some([N8])                                       // io
    case 4 => Some([ObjectAttr])                               // getattr
    case 8 => Some([N8])                                       // rmdirent
    case 9 => Some([N8])                                       // chdirent
    case 11 => Some([N8, Cap])                                 // mkdir
    case 12 => Some([N8, N8, Gap, Arrays([EachDirent])])       // readdir
    case 13 => Some([N4, Gap, Str])                            // getconfig
    case 14 => Some([N8])                                      // write_completion
    case 18 => Some([Gap, N4, N8, N8, N8, N8, N8, N8, N8, N8, N8, N8])          // statfs
    case 20 => Some([N4, N4, N8, N8, N4, Arrays([Each8])])     // mgmt_perf_mon
    case 21 => Some([N8, Gap, Arrays([Each8])])                // mgmt_iterate_handles
    case 26 => Some([N8])                                      // mgmt_get_dirdata_handle
    case 29 => Some([Gap, Arrays([EachBlob, Each4])])          // geteattr
    case 32 => Some([N8, Gap, Arrays([EachBlob])])             // listeattr
    case 35 => Some([Gap, Arrays([Each8])])                    // batch_create
    case 38 => Some([ObjectAttr])                              // unstuff
    case 41 => Some([Gap, N4, Arrays([Each4])])                // tree_remove
    case 42 => Some([N4, Arrays([Each8, Each4])])              // tree_get_file_size
    case 44 => Some([Gap, N4, Arrays([Each4])])                // tree_setattr
    case 45 => Some([N8, N4])                                  // mgmt_get_dirent
    case 48 => Some([Gap, Arrays([EachBlob, Each4])])          // atomiceattr
    case 50 => Some([Gap, Data])                               // mgmt_get_user_cert
    case 51 => Some([Gap, Data])                               // mgmt_get_user_cert_keyreq
    case _ => if op in {2, 5, 7, 10, 15, 16, 17, 24, 25, 28, 30, 31, 36, 40, 46, 47} then Some([]) else None
  }

  /** PVFS_server_req; the hint block is whatever its own codec produced. */
  datatype Request = Request(op: nat, capability: Capability, hint: seq<Byte>, body: seq<Value>)

  predicate Sendable(q: Request, distLen: nat) {
    RequestFields(q.op).Some? && Shapes(RequestFields(q.op).value, q.body, distLen)
  }

  /** lebf_encode_req */
  function RequestPlan(q: Request, distLen: nat): Plan
    requires Sendable(q, distLen)
  {
    Put(U32(q.op), Put(Skip4, CapabilityPlan(q.capability, Put(Raw(q.hint),
      FieldsPlan(RequestFields(q.op).value, q.body, distLen, Done)))))
  }

  /**
   lebf_decode_req on the encoding of any request: it fails exactly for PROTO_ERROR and for a wrong size,
   and otherwise returns the request exactly when no empty string picked up a stray byte.
   */
  method DecodeRequest(buf: seq<Byte>, base: nat, at: nat, size: nat, hintLen: nat, distLen: nat, ghost q: Request, ghost end: nat)
    returns (r: Option<Request>)
    requires Sendable(q, distLen) && |q.hint| == hintLen && Ready(buf, base, at, RequestPlan(q, distLen), end)
    ensures r.Some? <==> q.op != PROTO_ERROR && at + size == end
    ensures r.Some? ==> (r.value == q <==> Tidy(buf, base, at, RequestPlan(q, distLen)))
  {
    ghost var p := RequestPlan(q, distLen);
    ghost var b := FieldsPlan(RequestFields(q.op).value, q.body, distLen, Done);
    ghost var h := Put(Raw(q.hint), b);
    var op, capability, hint, body, next;
    op, next := GetU32(buf, base, at, p, end);
    next := Skip(buf, base, next, p.next, end);
    capability, next := GetCapability(buf, base, next, q.capability, h, end);
    hint, next := GetRaw(buf, base, next, hintLen, h, end);
    if op == PROTO_ERROR {
      return None;
    }
    body, next := GetFields(buf, base, next, RequestFields(op).value, distLen, q.body, Done, end);
    if next != at + size {
      return None;
    }
    return Some(Request(op, capability, hint, body));
  }

  /**
   Encode into a used buffer, deliver to an address of the same alignment, decode: the request is back exactly when the
   buffer was tidy for it before.
   */
  method RoundTrip(buf: array<Byte>, base: nat, other: nat, q: Request, distLen: nat) returns (r: Option<Request>)
    requires Sendable(q, distLen) && AllFit(RequestPlan(q, distLen)) && base % 8 == other % 8
    requires |Layout(RequestPlan(q, distLen), base)| <= buf.Length
    modifies buf
    ensures q.op == PROTO_ERROR ==> r.None?
    ensures q.op != PROTO_ERROR ==> r.Some? && (r.value == q <==> Tidy(old(buf[..]), base, 0, RequestPlan(q, distLen)))
  {
    ghost var was := buf[..];
    var size := Encode(buf, base, 0, RequestPlan(q, distLen));
    Delivered(was, buf[..], base, other, RequestPlan(q, distLen));
    r := DecodeRequest(buf[..], other, 0, size, |q.hint|, distLen, q, size);
  }

  /** PVFS_server_resp */
  datatype Response = Response(op: nat, status: nat, body: seq<Value>)

  /** A response with an error status has no body. */
  predicate Answerable(q: Response, distLen: nat) {
    && ResponseFields(q.op).Some?
    && if q.status != 0 then q.body == [] else Shapes(ResponseFields(q.op).value, q.body, distLen)
  }

  /** lebf_encode_resp */
  function ResponsePlan(q: Response, distLen: nat): Plan
    requires Answerable(q, distLen)
  {
    Put(U32(q.op), Put(U32(q.status),
      if q.status != 0 then Done else FieldsPlan(ResponseFields(q.op).value, q.body, distLen, Done)))
  }

  /** lebf_decode_resp: an error response is accepted whatever its size. */
  method DecodeResponse(buf: seq<Byte>, base: nat, at: nat, size: nat, distLen: nat, ghost q: Response, ghost end: nat)
    returns (r: Option<Response>)
    requires Answerable(q, distLen) && Ready(buf, base, at, ResponsePlan(q, distLen), end)
    ensures r.Some? <==> q.status != 0 || at + size == end
    ensures r.Some? ==> (r.value == q <==> Tidy(buf, base, at, ResponsePlan(q, distLen)))
  {
    ghost var p := ResponsePlan(q, distLen);
    var op, status, body, next;
    op, next := GetU32(buf, base, at, p, end);
    status, next := GetU32(buf, base, next, p.next, end);
    if status != 0 {
      return Some(Response(op, status, []));
    }
    body, next := GetFields(buf, base, next, ResponseFields(op).value, distLen, q.body, Done, end);
    if next != at + size {
      return None;
    }
    return Some(Response(op, status, body));
  }

  // ---------- the header ----------

  const ENCODING_LE_BFIELD := 2
  const HEADER_SIZE := 8

  datatype Outcome = Accept | Malformed | NotSupported

  /** C division and remainder of a decoded, possibly negative, version number. */
  function Quotient(v: int): int {
    if v >= 0 then v / 1000 else -((-v) / 1000)
  }

  function Signed(n: nat): int {
    if n < 0x8000_0000 then n else n - 0x1_0000_0000
  }

  /** PVFS2_PROTO_VERSION of a peer. */
  datatype Peer = Peer(major: nat, minor: nat)

  function Header(p: Peer): Plan {
    Put(U32(p.major * 1000 + p.minor), Put(U32(ENCODING_LE_BFIELD), Done))
  }

  /** The checks PINT_decode makes before it looks at the message itself. */
  method CheckHeader(self: Peer, buf: seq<Byte>, request: bool) returns (o: Outcome)
    ensures o == Malformed <==> |buf| < HEADER_SIZE
    ensures o != Malformed ==>
      var v := Signed(Val(buf[0..4]));
      (o == Accept <==>
        && Signed(Val(buf[4..8])) == ENCODING_LE_BFIELD
        && Quotient(v) == self.major
        && if request then v - Quotient(v) * 1000 <= self.minor else v - Quotient(v) * 1000 >= self.minor)
  {
    if |buf| < HEADER_SIZE {
      return Malformed;
    }
    var v := GetLe(buf, 0, 4);
    var encoding := GetLe(buf, 4, 4);
    var major := Quotient(Signed(v));
    var minor := Signed(v) - major * 1000;
    if Signed(encoding) != ENCODING_LE_BFIELD {
      return NotSupported;
    }
    if major != self.major {
      return NotSupported;
    }
    if request && minor > self.minor {
      return NotSupported;
    }
    if !request && minor < self.minor {
      return NotSupported;
    }
    return Accept;
  }

  predicate Numbered(p: Peer) {
    p.minor <= 999 && p.major * 1000 + p.minor < 0x8000_0000
  }

  /** A peer sends its header; the other side checks it. */
  method Hear(self: Peer, from: Peer, request: bool, message: seq<Byte>, base: nat, ghost end: nat) returns (o: Outcome)
    requires Numbered(self) && Numbered(from) && Ready(message, base, 0, Header(from), end)
    ensures o == Accept <==> from.major == self.major && if request then from.minor <= self.minor else from.minor >= self.minor
  {
    ghost var p := Header(from);
    HeaderNumbers(message, from);
    VersionParts(from.major, from.minor);
    o := CheckHeader(self, message, request);
  }

  lemma VersionParts(major: nat, minor: nat)
    requires minor <= 999
    ensures Quotient(major * 1000 + minor) == major
  {
  }

  lemma HeaderNumbers(message: seq<Byte>, from: Peer)
    requires Numbered(from)
    requires Holds(message, 0, Bytes(Le(from.major * 1000 + from.minor, 4))) && Holds(message, 4, Bytes(Le(ENCODING_LE_BFIELD, 4)))
    ensures |message| >= 8 && Val(message[0..4]) == from.major * 1000 + from.minor && Val(message[4..8]) == ENCODING_LE_BFIELD
  {
    assert Bytes(Le(from.major * 1000 + from.minor, 4)) + [] == Bytes(Le(from.major * 1000 + from.minor, 4));
    HeldNumber(message, 0, from.major * 1000 + from.minor, 4, []);
    assert Bytes(Le(ENCODING_LE_BFIELD, 4)) + [] == Bytes(Le(ENCODING_LE_BFIELD, 4));
    HeldNumber(message, 4, ENCODING_LE_BFIELD, 4, []);
  }

  /** The server takes a client's request exactly when the client takes that server's response. */
  method Handshake(client: Peer, server: Peer, request: seq<Byte>, response: seq<Byte>, ghost end: nat)
    returns (heard: Outcome, answered: Outcome)
    requires Numbered(client) && Numbered(server)
    requires Ready(request, 0, 0, Header(client), end) && Ready(response, 0, 0, Header(server), end)
    ensures heard == Accept <==> answered == Accept
  {
    heard := Hear(server, client, true, request, 0, end);
    answered := Hear(client, server, false, response, 0, end);
  }
}
