/**
 The fields of every request and response as the header declares them, and where their bytes are in a message.
 */
module WireRows {
  import opened Wrappers
  import opened Wire
  import opened WireCodec
  import opened WireSecurity
  import opened WireMessages
  import opened WireProtocol
  import opened WireBytes
  import WireAttrBytes

  // ---------- the declarations ----------

  /**
   The types the fields of src/proto/pvfs2-req-proto.h are declared with. Bulk is a size and as many bytes, Buffer the
   same with a size of four bytes; Counted is a count and one or more arrays of that many elements.
   */
  datatype CType =
    | Handle | FsId | Uint32 | Int32 | Uint64 | Int64 | Size | Position | Enum | DsType | Error | Skip | String
    | Keyvals | Dirents | Extents | Credentials | Capabilities | Attributes | SetparamValue | Bulk | Buffer
    | Counted(es: seq<CType>)

  /** The fields of a request, in order; the comments give their names. */
  function DeclaredRequest(op: nat): seq<CType> {
    match op
    // remove: handle, fs_id, credential
    case 2 => [Handle, FsId, Credentials]
    // getattr: handle, fs_id, attrmask, credential
    case 4 => [Handle, FsId, Uint32, Credentials]
    // setattr: handle, fs_id, attr, credential
    case 5 => [Handle, FsId, Skip, Attributes, Credentials]
    // lookup_path: path, fs_id, handle, attrmask, credential
    case 6 => [String, FsId, Skip, Handle, Uint32, Credentials]
    // crdirent: credential, name, new_handle, handle, dirent_handle, fs_id
    case 7 => [Credentials, String, Handle, Handle, Handle, FsId]
    // rmdirent: entry, handle, fs_id
    case 8 => [String, Handle, FsId]
    // chdirent: entry, new_dirent_handle, handle, fs_id
    case 9 => [String, Handle, Handle, FsId]
    // truncate: handle, fs_id, size, flags
    case 10 => [Handle, FsId, Skip, Size, Int32]
    // readdir: handle, fs_id, dirent_count, token
    case 12 => [Handle, FsId, Uint32, Skip, Position]
    // flush: handle, fs_id, flags
    case 15 => [Handle, FsId, Int32]
    // mgmt_setparam: fs_id, param, value
    case 16 => [FsId, Enum, SetparamValue]
    // statfs: fs_id
    case 18 => [FsId]
    // mgmt_perf_mon: cnt_type, next_id, key_count, count
    case 20 => [Uint32, Uint32, Uint32, Uint32]
    // mgmt_iterate_handles: fs_id, handle_count, flags, position
    case 21 => [FsId, Int32, Int32, Position]
    // mgmt_dspace_info_list: fs_id, handle_count, handle_array
    case 22 => [FsId, Counted([Handle])]
    // mgmt_event_mon: event_count
    case 23 => [Uint32]
    // mgmt_remove_object: handle, fs_id
    case 24 => [Handle, FsId]
    // mgmt_remove_dirent: handle, fs_id, entry
    case 25 => [Handle, FsId, Skip, String]
    // mgmt_get_dirdata_handle: handle, fs_id
    case 26 => [Handle, FsId]
    // geteattr: handle, fs_id, nkey, key, valsz
    case 29 => [Handle, FsId, Counted([Keyvals, Size])]
    // seteattr: handle, fs_id, flags, nkey, key, val
    case 30 => [Handle, FsId, Int32, Skip, Counted([Keyvals, Keyvals])]
    // deleattr: handle, fs_id, key
    case 31 => [Handle, FsId, Keyvals]
    // listeattr: handle, fs_id, token, nkey, keysz
    case 32 => [Handle, FsId, Skip, Position, Counted([Size])]
    // listattr: fs_id, attrmask, nhandles, handles
    case 34 => [FsId, Uint32, Skip, Counted([Handle])]
    // batch_create: fs_id, object_type, object_count, handle_extent_array
    case 35 => [FsId, DsType, Uint32, Skip, Skip, Counted([Extents])]
    // batch_remove: fs_id, handle_count, handles
    case 36 => [FsId, Counted([Handle])]
    // unstuff: handle, fs_id, attrmask, credential
    case 38 => [Handle, FsId, Uint32, Credentials]
    // tree_remove: fs_id, credential, caller_handle_index, handle_count, handle_array
    case 41 => [FsId, Credentials, Uint32, Counted([Handle])]
    // tree_get_file_size: fs_id, caller_handle_index, retry_msgpair_at_leaf, credential, num_data_files, handle_array
    case 42 => [FsId, Uint32, Uint32, Credentials, Counted([Handle])]
    // mgmt_get_uid: history
    case 43 => [Uint32]
    // tree_setattr: fs_id, credential, objtype, attr, caller_handle_index, handle_count, handle_array
    case 44 => [FsId, Credentials, DsType, Attributes, Uint32, Counted([Handle])]
    // mgmt_get_dirent: handle, fs_id, entry
    case 45 => [Handle, FsId, String]
    // mgmt_create_root_dir: handle, fs_id
    case 46 => [Handle, FsId]
    // atomiceattr: handle, fs_id, flags, opcode, nkey, key, val, valsz
    case 48 => [Handle, FsId, Int32, Int32, Counted([Keyvals, Keyvals, Size])]
    // tree_getattr: fs_id, caller_handle_index, retry_msgpair_at_leaf, credential, attrmask, handle_count, handle_array
    case 49 => [FsId, Uint32, Uint32, Credentials, Uint32, Counted([Handle])]
    // mgmt_get_user_cert: fs_id, userid, enc_pwd, enc_key, exp
    case 50 => [FsId, String, Bulk, Bulk, Uint32]
    // mgmt_get_user_cert_keyreq: fs_id
    case 51 => [FsId]
    case _ => []
  }

  /** The fields of a response. */
  function DeclaredResponse(op: nat): seq<CType> {
    match op
    // create: metafile_handle, stuffed, metafile_attrs
    case 1 => [Handle, Uint32, Attributes]
    // io: bstream_size
    case 3 => [Size]
    // getattr: attr
    case 4 => [Attributes]
    // rmdirent: entry_handle
    case 8 => [Handle]
    // chdirent: old_dirent_handle
    case 9 => [Handle]
    // mkdir: handle, capability
    case 11 => [Handle, Capabilities]
    // readdir: token, directory_version, dirent_count, dirent_array
    case 12 => [Position, Uint64, Skip, Counted([Dirents])]
    // getconfig: fs_config_buf_size, fs_config_buf
    case 13 => [Uint32, Skip, String]
    // write_completion: total_completed
    case 14 => [Size]
    // statfs: fs_id, bytes_available, bytes_total, ram_total_bytes, ram_free_bytes, loads, uptime, handles
    case 18 => [Skip, FsId, Size, Size, Uint64, Uint64, Uint64, Uint64, Uint64, Uint64, Uint64, Uint64]
    // mgmt_perf_mon: key_count, suggested_next_id, end_time_ms, cur_time_ms, sample_count, perf_array_count, perf_array
    case 20 => [Uint32, Uint32, Uint64, Uint64, Uint32, Counted([Int64])]
    // mgmt_iterate_handles: position, handle_count, handle_array
    case 21 => [Position, Skip, Counted([Handle])]
    // mgmt_get_dirdata_handle: handle
    case 26 => [Handle]
    // geteattr: nkey, val, err
    case 29 => [Skip, Counted([Keyvals, Error])]
    // listeattr: token, nkey, key
    case 32 => [Position, Skip, Counted([Keyvals])]
    // batch_create: handle_count, handle_array
    case 35 => [Skip, Counted([Handle])]
    // unstuff: attr
    case 38 => [Attributes]
    // tree_remove: caller_handle_index, handle_count, status
    case 41 => [Skip, Uint32, Counted([Int32])]
    // tree_get_file_size: caller_handle_index, handle_count, size, error
    case 42 => [Uint32, Counted([Size, Error])]
    // tree_setattr: caller_handle_index, handle_count, status
    case 44 => [Skip, Uint32, Counted([Int32])]
    // mgmt_get_dirent: handle, error
    case 45 => [Handle, Error]
    // atomiceattr: nkey, val, err
    case 48 => [Skip, Counted([Keyvals, Error])]
    // mgmt_get_user_cert: cert
    case 50 => [Skip, Buffer]
    // mgmt_get_user_cert_keyreq: public_key
    case 51 => [Skip, Buffer]
    case _ => []
  }

  // ---------- where their bytes are ----------

  predicate Wide(t: CType) {
    t.Handle? || t.Uint64? || t.Int64? || t.Size? || t.Position?
  }

  predicate Narrow(t: CType) {
    t.FsId? || t.Uint32? || t.Int32? || t.Enum? || t.DsType? || t.Error?
  }

  ghost predicate KeyvalAt(buf: seq<Byte>, at: nat, b: seq<Byte>) {
    At(buf, at, Le(|b|, 4)) && At(buf, at + 4, b)
  }

  /** A number, an opaque value, or one element of an array. */
  ghost predicate ElemAt(buf: seq<Byte>, at: nat, t: CType, v: Value) {
    if Wide(t) then v.Num? && At(buf, at, Le(v.n, 8))
    else if Narrow(t) then v.Num? && At(buf, at, Le(v.n, 4))
    else if t.Keyvals? then v.Octets? && KeyvalAt(buf, at, v.b)
    else if t.Extents? then v.Extent? && At(buf, at, Le(v.first, 8)) && At(buf, at + 8, Le(v.last, 8))
    else if t.Dirents? then v.Dirent? && TextAt(buf, at, v.name) && At(buf, at + Up(|v.name| + 5), Le(v.handle, 8))
    else false
  }

  function ElemBehind(at: nat, t: CType, v: Value): nat {
    if Wide(t) then at + 8
    else if Narrow(t) then at + 4
    else if t.Keyvals? && v.Octets? then at + Up(|v.b| + 4)
    else if t.Extents? then at + 16
    else if t.Dirents? && v.Dirent? then at + Up(|v.name| + 5) + 8
    else at
  }

  ghost predicate EachAt(buf: seq<Byte>, at: nat, t: CType, vs: seq<Value>)
    decreases |vs|
  {
    vs == [] || (ElemAt(buf, at, t, vs[0]) && EachAt(buf, ElemBehind(at, t, vs[0]), t, vs[1..]))
  }

  function EachBehind(at: nat, t: CType, vs: seq<Value>): nat
    decreases |vs|
  {
    if vs == [] then at else EachBehind(ElemBehind(at, t, vs[0]), t, vs[1..])
  }

  /** One array after the other. */
  ghost predicate ListsAt(buf: seq<Byte>, at: nat, es: seq<CType>, ls: seq<seq<Value>>)
    decreases |es|
  {
    |es| == |ls| && (es == [] || (EachAt(buf, at, es[0], ls[0]) && ListsAt(buf, EachBehind(at, es[0], ls[0]), es[1..], ls[1..])))
  }

  function ListsBehind(at: nat, es: seq<CType>, ls: seq<seq<Value>>): nat
    decreases |es|
  {
    if es == [] || ls == [] then at else ListsBehind(EachBehind(at, es[0], ls[0]), es[1..], ls[1..])
  }

  ghost predicate FieldAt(buf: seq<Byte>, base: nat, at: nat, t: CType, v: Value) {
    match t
    case Skip => true
    case String => v.Octets? && TextAt(buf, at, v.b)
    case Bulk => v.Octets? && At(buf, at, Le(|v.b|, 8)) && At(buf, at + 8, v.b)
    case Buffer => v.Octets? && At(buf, at, Le(|v.b|, 4)) && At(buf, at + 4, v.b)
    case Credentials => v.OfCredential? && CredentialAt(buf, base, at, v.cred)
    case Capabilities => v.OfCapability? && CapabilityAt(buf, base, at, v.cap)
    case Attributes => v.OfAttr? && WireAttrBytes.AttrAt(buf, base, at, v.attr)
    case SetparamValue =>
      v.Setting? && At(buf, at, Le(v.tag, 4)) && if v.tag == 0 then At(buf, at + 4, Le(v.number, 8)) else TextAt(buf, at + 4, v.text)
    case Counted(es) => v.Lists? && |v.ls| > 0 && At(buf, at, Le(|v.ls[0]|, 4)) && ListsAt(buf, at + 4, es, v.ls)
    case _ => ElemAt(buf, at, t, v)
  }

  function FieldBehind(base: nat, at: nat, t: CType, v: Value): nat {
    match t
    case Skip => at + 4
    case String => if v.Octets? then at + Up(|v.b| + 5) else at
    case Bulk => if v.Octets? then at + 8 + |v.b| else at
    case Buffer => if v.Octets? then at + 4 + |v.b| else at
    case Credentials => if v.OfCredential? then CredentialBehind(base, at, v.cred) else at
    case Capabilities => if v.OfCapability? then CapabilityBehind(base, at, v.cap) else at
    case Attributes => if v.OfAttr? then WireAttrBytes.AttrBehind(base, at, v.attr) else at
    case SetparamValue => if !v.Setting? then at else if v.tag == 0 then at + 12 else at + 4 + Up(|v.text| + 5)
    case Counted(es) => if v.Lists? then ListsBehind(at + 4, es, v.ls) else at
    case _ => ElemBehind(at, t, v)
  }

  /** Where field number `i` starts: behind the one before. */
  function Pos(base: nat, at: nat, ts: seq<CType>, vs: seq<Value>, i: nat): nat
    requires i <= |ts| == |vs|
  {
    if i == 0 then at else FieldBehind(base, Pos(base, at, ts, vs, i - 1), ts[i - 1], vs[i - 1])
  }

  /** All fields are where they should be. */
  ghost predicate FieldsAt(buf: seq<Byte>, base: nat, at: nat, ts: seq<CType>, vs: seq<Value>) {
    |ts| == |vs| && forall i :: 0 <= i < |ts| ==> FieldAt(buf, base, Pos(base, at, ts, vs, i), ts[i], vs[i])
  }

  // ---------- the encoding puts them there ----------

  ghost predicate ElemMatches(t: CType, e: Elem) {
    match e
    case Each4 => Narrow(t)
    case Each8 => Wide(t)
    case EachBlob => t.Keyvals?
    case EachExtent => t.Extents?
    case EachDirent => t.Dirents?
  }

  ghost predicate ElemsMatch(ts: seq<CType>, es: seq<Elem>) {
    |ts| == |es| && forall i :: 0 <= i < |es| ==> ElemMatches(ts[i], es[i])
  }

  ghost predicate Matches(t: CType, f: Kind) {
    match f
    case N4 => Narrow(t)
    case N8 => Wide(t)
    case Gap => t.Skip?
    case Str => t.String?
    case Blob => t.Keyvals?
    case Long => t.Bulk?
    case Data => t.Buffer?
    case Cred => t.Credentials?
    case Cap => t.Capabilities?
    case ObjectAttr => t.Attributes?
    case Param => t.SetparamValue?
    case Arrays(es) => t.Counted? && ElemsMatch(t.es, es)
  }

  ghost predicate RowMatches(ts: seq<CType>, fs: seq<Kind>) {
    |ts| == |fs| && forall i :: 0 <= i < |fs| ==> Matches(ts[i], fs[i])
  }

  lemma StepKeyval(buf: seq<Byte>, base: nat, at: nat, next: nat, b: seq<Byte>, k: Plan, end: nat)
    requires Ready(buf, base, at, Put(Keyval(b), k), end) && next == at + Up(|b| + 4)
    ensures KeyvalAt(buf, at, b) && Ready(buf, base, next, k, end)
  {
    KeyvalBytes(buf, at, b, base + at);
    MoveReady(buf, base, at, Put(Keyval(b), k), end, next);
  }

  lemma KeyvalBytes(buf: seq<Byte>, at: nat, b: seq<Byte>, address: nat)
    requires Holds(buf, at, Cells(Keyval(b), address))
    ensures KeyvalAt(buf, at, b)
  {
    var pad := Pad(|b| + 4);
    assert Cells(Keyval(b), address) == Bytes(Le(|b|, 4)) + (Bytes(b) + Holes(pad));
    HoldsConcat(buf, at, Bytes(Le(|b|, 4)), Bytes(b) + Holes(pad));
    AtFromHolds(buf, at, Le(|b|, 4));
    PaddedBytes(buf, at + 4, b, pad);
  }

  lemma ElemBytes(buf: seq<Byte>, base: nat, at: nat, t: CType, e: Elem, v: Value, k: Plan, end: nat)
    requires ElemMatches(t, e) && ElemShape(e, v) && Ready(buf, base, at, ElemPlan(e, v, k), end)
    ensures ElemAt(buf, at, t, v) && Ready(buf, base, ElemBehind(at, t, v), k, end)
  {
    match e
    case Each4 => NarrowElem(buf, base, at, t, v, k, end);
    case Each8 => WideElem(buf, base, at, t, v, k, end);
    case EachBlob => KeyvalElem(buf, base, at, t, v, k, end);
    case EachExtent => ExtentElem(buf, base, at, t, v, k, end);
    case EachDirent => DirentElem(buf, base, at, t, v, k, end);
  }

  lemma NarrowElem(buf: seq<Byte>, base: nat, at: nat, t: CType, v: Value, k: Plan, end: nat)
    requires ElemMatches(t, Each4) && ElemShape(Each4, v) && Ready(buf, base, at, ElemPlan(Each4, v, k), end)
    ensures ElemAt(buf, at, t, v) && Ready(buf, base, ElemBehind(at, t, v), k, end)
  {
    StepU32(buf, base, at, v.n, k, end);
  }

  lemma WideElem(buf: seq<Byte>, base: nat, at: nat, t: CType, v: Value, k: Plan, end: nat)
    requires ElemMatches(t, Each8) && ElemShape(Each8, v) && Ready(buf, base, at, ElemPlan(Each8, v, k), end)
    ensures ElemAt(buf, at, t, v) && Ready(buf, base, ElemBehind(at, t, v), k, end)
  {
    StepU64(buf, base, at, v.n, k, end);
  }

  lemma KeyvalElem(buf: seq<Byte>, base: nat, at: nat, t: CType, v: Value, k: Plan, end: nat)
    requires ElemMatches(t, EachBlob) && ElemShape(EachBlob, v) && Ready(buf, base, at, ElemPlan(EachBlob, v, k), end)
    ensures ElemAt(buf, at, t, v) && Ready(buf, base, ElemBehind(at, t, v), k, end)
  {
    StepKeyval(buf, base, at, ElemBehind(at, t, v), v.b, k, end);
  }

  lemma ExtentElem(buf: seq<Byte>, base: nat, at: nat, t: CType, v: Value, k: Plan, end: nat)
    requires ElemMatches(t, EachExtent) && ElemShape(EachExtent, v) && Ready(buf, base, at, ElemPlan(EachExtent, v, k), end)
    ensures ElemAt(buf, at, t, v) && Ready(buf, base, ElemBehind(at, t, v), k, end)
  {
    ExtentBytes(buf, base, at, v.first, v.last, k, end);
  }

  lemma DirentElem(buf: seq<Byte>, base: nat, at: nat, t: CType, v: Value, k: Plan, end: nat)
    requires ElemMatches(t, EachDirent) && ElemShape(EachDirent, v) && Ready(buf, base, at, ElemPlan(EachDirent, v, k), end)
    ensures ElemAt(buf, at, t, v) && Ready(buf, base, ElemBehind(at, t, v), k, end)
  {
    DirentBytes(buf, base, at, at + Up(|v.name| + 5), v.name, v.handle, k, end);
  }

  lemma ExtentBytes(buf: seq<Byte>, base: nat, at: nat, first: nat, last: nat, k: Plan, end: nat)
    requires Ready(buf, base, at, Put(U64(first), Put(U64(last), k)), end)
    ensures At(buf, at, Le(first, 8)) && At(buf, at + 8, Le(last, 8)) && Ready(buf, base, at + 16, k, end)
  {
    StepU64(buf, base, at, first, Put(U64(last), k), end);
    StepU64(buf, base, at + 8, last, k, end);
  }

  lemma DirentBytes(buf: seq<Byte>, base: nat, at: nat, mid: nat, name: seq<Byte>, h: nat, k: Plan, end: nat)
    requires Ready(buf, base, at, Put(Text(name), Put(U64(h), k)), end) && mid == at + Up(|name| + 5)
    ensures TextAt(buf, at, name) && At(buf, mid, Le(h, 8)) && Ready(buf, base, mid + 8, k, end)
  {
    StepText(buf, base, at, name, Put(U64(h), k), end);
    StepU64(buf, base, mid, h, k, end);
  }

  lemma {:induction false} EachBytes(buf: seq<Byte>, base: nat, at: nat, t: CType, e: Elem, vs: seq<Value>, k: Plan, end: nat)
    requires ElemMatches(t, e) && (forall v :: v in vs ==> ElemShape(e, v)) && Ready(buf, base, at, EachPlan(e, vs, k), end)
    ensures EachAt(buf, at, t, vs) && Ready(buf, base, EachBehind(at, t, vs), k, end)
    decreases |vs|
  {
    if vs != [] {
      assert vs[0] in vs;
      ElemBytes(buf, base, at, t, e, vs[0], EachPlan(e, vs[1..], k), end);
      EachBytes(buf, base, ElemBehind(at, t, vs[0]), t, e, vs[1..], k, end);
    }
  }

  lemma {:induction false} ListsBytes(buf: seq<Byte>, base: nat, at: nat, ts: seq<CType>, es: seq<Elem>, ls: seq<seq<Value>>,
                                      n: nat, k: Plan, end: nat)
    requires ElemsMatch(ts, es) && ListsShape(es, ls, n) && Ready(buf, base, at, ListsPlan(es, ls, n, k), end)
    ensures ListsAt(buf, at, ts, ls) && Ready(buf, base, ListsBehind(at, ts, ls), k, end)
    decreases |es|
  {
    if es != [] {
      EachBytes(buf, base, at, ts[0], es[0], ls[0], ListsPlan(es[1..], ls[1..], n, k), end);
      ListsBytes(buf, base, EachBehind(at, ts[0], ls[0]), ts[1..], es[1..], ls[1..], n, k, end);
    }
  }

  lemma FieldBytes(buf: seq<Byte>, base: nat, at: nat, t: CType, f: Kind, v: Value, distLen: nat, k: Plan, end: nat)
    requires Matches(t, f) && Shape(f, v, distLen) && Ready(buf, base, at, FieldPlan(f, v, distLen, k), end)
    ensures FieldAt(buf, base, at, t, v) && Ready(buf, base, FieldBehind(base, at, t, v), k, end)
  {
    if f.Long? || f.Data? || f.Cred? || f.Cap? || f.ObjectAttr? {
      SizedBytes(buf, base, at, t, f, v, distLen, k, end);
    } else {
      match f
      case N4 => NarrowField(buf, base, at, t, v, distLen, k, end);
      case N8 => WideField(buf, base, at, t, v, distLen, k, end);
      case Gap => GapField(buf, base, at, t, v, distLen, k, end);
      case Str => StringField(buf, base, at, t, v, distLen, k, end);
      case Blob => KeyvalField(buf, base, at, t, v, distLen, k, end);
      case Param => ParamBytes(buf, base, at, v, k, end);
      case Arrays(_) => ArraysBytes(buf, base, at, t, f, v, distLen, k, end);
    }
  }

  lemma SizedBytes(buf: seq<Byte>, base: nat, at: nat, t: CType, f: Kind, v: Value, distLen: nat, k: Plan, end: nat)
    requires Matches(t, f) && Shape(f, v, distLen) && Ready(buf, base, at, FieldPlan(f, v, distLen, k), end)
    requires f.Long? || f.Data? || f.Cred? || f.Cap? || f.ObjectAttr?
    ensures FieldAt(buf, base, at, t, v) && Ready(buf, base, FieldBehind(base, at, t, v), k, end)
  {
    match f
    case Long => BulkField(buf, base, at, t, v, distLen, k, end);
    case Data => BufferField(buf, base, at, t, v, distLen, k, end);
    case Cred => CredentialField(buf, base, at, t, v, distLen, k, end);
    case Cap => CapabilityField(buf, base, at, t, v, distLen, k, end);
    case ObjectAttr => AttrField(buf, base, at, t, v, distLen, k, end);
  }

  lemma NarrowField(buf: seq<Byte>, base: nat, at: nat, t: CType, v: Value, distLen: nat, k: Plan, end: nat)
    requires Matches(t, N4) && Shape(N4, v, distLen) && Ready(buf, base, at, FieldPlan(N4, v, distLen, k), end)
    ensures FieldAt(buf, base, at, t, v) && Ready(buf, base, FieldBehind(base, at, t, v), k, end)
  {
    StepU32(buf, base, at, v.n, k, end);
  }

  lemma WideField(buf: seq<Byte>, base: nat, at: nat, t: CType, v: Value, distLen: nat, k: Plan, end: nat)
    requires Matches(t, N8) && Shape(N8, v, distLen) && Ready(buf, base, at, FieldPlan(N8, v, distLen, k), end)
    ensures FieldAt(buf, base, at, t, v) && Ready(buf, base, FieldBehind(base, at, t, v), k, end)
  {
    StepU64(buf, base, at, v.n, k, end);
  }

  lemma GapField(buf: seq<Byte>, base: nat, at: nat, t: CType, v: Value, distLen: nat, k: Plan, end: nat)
    requires Matches(t, Gap) && Shape(Gap, v, distLen) && Ready(buf, base, at, FieldPlan(Gap, v, distLen, k), end)
    ensures FieldAt(buf, base, at, t, v) && Ready(buf, base, FieldBehind(base, at, t, v), k, end)
  {
    StepSkip(buf, base, at, k, end);
  }

  lemma StringField(buf: seq<Byte>, base: nat, at: nat, t: CType, v: Value, distLen: nat, k: Plan, end: nat)
    requires Matches(t, Str) && Shape(Str, v, distLen) && Ready(buf, base, at, FieldPlan(Str, v, distLen, k), end)
    ensures FieldAt(buf, base, at, t, v) && Ready(buf, base, FieldBehind(base, at, t, v), k, end)
  {
    StepText(buf, base, at, v.b, k, end);
  }

  lemma KeyvalField(buf: seq<Byte>, base: nat, at: nat, t: CType, v: Value, distLen: nat, k: Plan, end: nat)
    requires Matches(t, Blob) && Shape(Blob, v, distLen) && Ready(buf, base, at, FieldPlan(Blob, v, distLen, k), end)
    ensures FieldAt(buf, base, at, t, v) && Ready(buf, base, FieldBehind(base, at, t, v), k, end)
  {
    StepKeyval(buf, base, at, FieldBehind(base, at, t, v), v.b, k, end);
  }

  lemma BulkField(buf: seq<Byte>, base: nat, at: nat, t: CType, v: Value, distLen: nat, k: Plan, end: nat)
    requires Matches(t, Long) && Shape(Long, v, distLen) && Ready(buf, base, at, FieldPlan(Long, v, distLen, k), end)
    ensures FieldAt(buf, base, at, t, v) && Ready(buf, base, FieldBehind(base, at, t, v), k, end)
  {
    BulkBytes(buf, base, at, FieldBehind(base, at, t, v), v.b, k, end);
  }

  lemma BufferField(buf: seq<Byte>, base: nat, at: nat, t: CType, v: Value, distLen: nat, k: Plan, end: nat)
    requires Matches(t, Data) && Shape(Data, v, distLen) && Ready(buf, base, at, FieldPlan(Data, v, distLen, k), end)
    ensures FieldAt(buf, base, at, t, v) && Ready(buf, base, FieldBehind(base, at, t, v), k, end)
  {
    BufferBytes(buf, base, at, FieldBehind(base, at, t, v), v.b, k, end);
  }

  lemma CredentialField(buf: seq<Byte>, base: nat, at: nat, t: CType, v: Value, distLen: nat, k: Plan, end: nat)
    requires Matches(t, Cred) && Shape(Cred, v, distLen) && Ready(buf, base, at, FieldPlan(Cred, v, distLen, k), end)
    ensures FieldAt(buf, base, at, t, v) && Ready(buf, base, FieldBehind(base, at, t, v), k, end)
  {
    CredentialBytes(buf, base, at, v.cred, k, end);
  }

  lemma CapabilityField(buf: seq<Byte>, base: nat, at: nat, t: CType, v: Value, distLen: nat, k: Plan, end: nat)
    requires Matches(t, Cap) && Shape(Cap, v, distLen) && Ready(buf, base, at, FieldPlan(Cap, v, distLen, k), end)
    ensures FieldAt(buf, base, at, t, v) && Ready(buf, base, FieldBehind(base, at, t, v), k, end)
  {
    CapabilityBytes(buf, base, at, v.cap, k, end);
  }

  lemma AttrField(buf: seq<Byte>, base: nat, at: nat, t: CType, v: Value, distLen: nat, k: Plan, end: nat)
    requires Matches(t, ObjectAttr) && Shape(ObjectAttr, v, distLen) && Ready(buf, base, at, FieldPlan(ObjectAttr, v, distLen, k), end)
    ensures FieldAt(buf, base, at, t, v) && Ready(buf, base, FieldBehind(base, at, t, v), k, end)
  {
    WireAttrBytes.AttrBytes(buf, base, at, v.attr, k, end);
  }

  lemma BulkBytes(buf: seq<Byte>, base: nat, at: nat, next: nat, b: seq<Byte>, k: Plan, end: nat)
    requires Ready(buf, base, at, Put(U64(|b|), Put(Raw(b), k)), end) && next == at + 8 + |b|
    ensures At(buf, at, Le(|b|, 8)) && At(buf, at + 8, b) && Ready(buf, base, next, k, end)
  {
    StepU64(buf, base, at, |b|, Put(Raw(b), k), end);
    StepRaw(buf, base, at + 8, b, k, end);
  }

  lemma BufferBytes(buf: seq<Byte>, base: nat, at: nat, next: nat, b: seq<Byte>, k: Plan, end: nat)
    requires Ready(buf, base, at, Put(U32(|b|), Put(Raw(b), k)), end) && next == at + 4 + |b|
    ensures At(buf, at, Le(|b|, 4)) && At(buf, at + 4, b) && Ready(buf, base, next, k, end)
  {
    StepU32(buf, base, at, |b|, Put(Raw(b), k), end);
    StepRaw(buf, base, at + 4, b, k, end);
  }

  lemma ArraysBytes(buf: seq<Byte>, base: nat, at: nat, t: CType, f: Kind, v: Value, distLen: nat, k: Plan, end: nat)
    requires Matches(t, f) && Shape(f, v, distLen) && Ready(buf, base, at, FieldPlan(f, v, distLen, k), end) && f.Arrays?
    ensures FieldAt(buf, base, at, t, v) && Ready(buf, base, FieldBehind(base, at, t, v), k, end)
  {
    var n := |v.ls[0]|;
    StepU32(buf, base, at, n, ListsPlan(f.es, v.ls, n, k), end);
    ListsBytes(buf, base, at + 4, t.es, f.es, v.ls, n, k, end);
  }

  lemma ParamBytes(buf: seq<Byte>, base: nat, at: nat, v: Value, k: Plan, end: nat)
    requires Shape(Param, v, 0) && Ready(buf, base, at, FieldPlan(Param, v, 0, k), end)
    ensures FieldAt(buf, base, at, SetparamValue, v) && Ready(buf, base, FieldBehind(base, at, SetparamValue, v), k, end)
  {
    if v.tag == 0 {
      NumberParam(buf, base, at, v, k, end);
    } else {
      TextParam(buf, base, at, v, k, end);
    }
  }

  lemma NumberParam(buf: seq<Byte>, base: nat, at: nat, v: Value, k: Plan, end: nat)
    requires Shape(Param, v, 0) && v.tag == 0 && Ready(buf, base, at, FieldPlan(Param, v, 0, k), end)
    ensures FieldAt(buf, base, at, SetparamValue, v) && Ready(buf, base, FieldBehind(base, at, SetparamValue, v), k, end)
  {
    NumberBytes(buf, base, at, v.tag, v.number, k, end);
  }

  lemma TextParam(buf: seq<Byte>, base: nat, at: nat, v: Value, k: Plan, end: nat)
    requires Shape(Param, v, 0) && v.tag != 0 && Ready(buf, base, at, FieldPlan(Param, v, 0, k), end)
    ensures FieldAt(buf, base, at, SetparamValue, v) && Ready(buf, base, FieldBehind(base, at, SetparamValue, v), k, end)
  {
    TaggedBytes(buf, base, at, v.tag, v.text, k, end);
  }

  lemma NumberBytes(buf: seq<Byte>, base: nat, at: nat, tag: nat, n: nat, k: Plan, end: nat)
    requires Ready(buf, base, at, Put(U32(tag), Put(U64(n), k)), end)
    ensures At(buf, at, Le(tag, 4)) && At(buf, at + 4, Le(n, 8)) && Ready(buf, base, at + 12, k, end)
  {
    StepU32(buf, base, at, tag, Put(U64(n), k), end);
    StepU64(buf, base, at + 4, n, k, end);
  }

  lemma TaggedBytes(buf: seq<Byte>, base: nat, at: nat, tag: nat, s: seq<Byte>, k: Plan, end: nat)
    requires Ready(buf, base, at, Put(U32(tag), Put(Text(s), k)), end)
    ensures At(buf, at, Le(tag, 4)) && TextAt(buf, at + 4, s) && Ready(buf, base, at + 4 + Up(|s| + 5), k, end)
  {
    StepU32(buf, base, at, tag, Put(Text(s), k), end);
    StepText(buf, base, at + 4, s, k, end);
  }

  /** Behind the first `i` fields the rest begins where it should. */
  lemma {:induction false} FieldsReached(buf: seq<Byte>, base: nat, at: nat, ts: seq<CType>, fs: seq<Kind>, vs: seq<Value>,
                                         distLen: nat, i: nat, here: nat, end: nat)
    requires RowMatches(ts, fs) && Shapes(fs, vs, distLen) && Ready(buf, base, at, FieldsPlan(fs, vs, distLen, Done), end)
    requires i <= |fs| && here == Pos(base, at, ts, vs, i)
    ensures Ready(buf, base, here, FieldsPlan(fs[i..], vs[i..], distLen, Done), end)
    decreases i
  {
    if i == 0 {
      assert fs[0..] == fs && vs[0..] == vs;
    } else {
      var last := Pos(base, at, ts, vs, i - 1);
      FieldsReached(buf, base, at, ts, fs, vs, distLen, i - 1, last, end);
      OnePassed(buf, base, last, here, ts, fs, vs, distLen, i - 1, end);
    }
  }

  lemma OnePassed(buf: seq<Byte>, base: nat, here: nat, next: nat, ts: seq<CType>, fs: seq<Kind>, vs: seq<Value>, distLen: nat,
                  i: nat, end: nat)
    requires RowMatches(ts, fs) && Shapes(fs, vs, distLen) && i < |fs| && next == FieldBehind(base, here, ts[i], vs[i])
    requires Ready(buf, base, here, FieldsPlan(fs[i..], vs[i..], distLen, Done), end)
    ensures FieldAt(buf, base, here, ts[i], vs[i])
    ensures Ready(buf, base, next, FieldsPlan(fs[i + 1..], vs[i + 1..], distLen, Done), end)
  {
    assert fs[i..][1..] == fs[i + 1..] && vs[i..][1..] == vs[i + 1..];
    FieldBytes(buf, base, here, ts[i], fs[i], vs[i], distLen, FieldsPlan(fs[i + 1..], vs[i + 1..], distLen, Done), end);
  }

  lemma FieldsBytes(buf: seq<Byte>, base: nat, at: nat, ts: seq<CType>, fs: seq<Kind>, vs: seq<Value>, distLen: nat, p: Plan, end: nat)
    requires RowMatches(ts, fs) && Shapes(fs, vs, distLen) && p == FieldsPlan(fs, vs, distLen, Done) && Ready(buf, base, at, p, end)
    ensures FieldsAt(buf, base, at, ts, vs)
  {
    forall i | 0 <= i < |ts| ensures FieldAt(buf, base, Pos(base, at, ts, vs, i), ts[i], vs[i]) {
      var here := Pos(base, at, ts, vs, i);
      FieldsReached(buf, base, at, ts, fs, vs, distLen, i, here, end);
      OnePassed(buf, base, here, FieldBehind(base, here, ts[i], vs[i]), ts, fs, vs, distLen, i, end);
    }
  }

  // ---------- whole messages ----------

  lemma RequestRow(op: nat)
    requires RequestFields(op).Some?
    ensures RowMatches(DeclaredRequest(op), RequestFields(op).value)
  {
    if op < 9 {
      RequestRow2(op);
    } else if op < 21 {
      RequestRow9(op);
    } else if op < 29 {
      RequestRow21(op);
    } else if op < 38 {
      RequestRow29(op);
    } else if op < 45 {
      RequestRow38(op);
    } else {
      RequestRow45(op);
    }
  }

  lemma RequestRow2(op: nat)
    requires RequestFields(op).Some? && 2 <= op < 9
    ensures RowMatches(DeclaredRequest(op), RequestFields(op).value)
  {
  }

  lemma RequestRow9(op: nat)
    requires RequestFields(op).Some? && 9 <= op < 21
    ensures RowMatches(DeclaredRequest(op), RequestFields(op).value)
  {
  }

  lemma RequestRow21(op: nat)
    requires RequestFields(op).Some? && 21 <= op < 29
    ensures RowMatches(DeclaredRequest(op), RequestFields(op).value)
  {
  }

  lemma RequestRow29(op: nat)
    requires RequestFields(op).Some? && 29 <= op < 38
    ensures RowMatches(DeclaredRequest(op), RequestFields(op).value)
  {
  }

  lemma RequestRow38(op: nat)
    requires RequestFields(op).Some? && 38 <= op < 45
    ensures RowMatches(DeclaredRequest(op), RequestFields(op).value)
  {
  }

  lemma RequestRow45(op: nat)
    requires RequestFields(op).Some? && op >= 45
    ensures RowMatches(DeclaredRequest(op), RequestFields(op).value)
  {
  }

  lemma ResponseRow(op: nat)
    requires ResponseFields(op).Some?
    ensures RowMatches(DeclaredResponse(op), ResponseFields(op).value)
  {
    if op < 12 {
      ResponseRow0(op);
    } else if op < 20 {
      ResponseRow12(op);
    } else if op < 40 {
      ResponseRow20(op);
    } else {
      ResponseRow40(op);
    }
  }

  lemma ResponseRow0(op: nat)
    requires ResponseFields(op).Some? && op < 12
    ensures RowMatches(DeclaredResponse(op), ResponseFields(op).value)
  {
  }

  lemma ResponseRow12(op: nat)
    requires ResponseFields(op).Some? && 12 <= op < 20
    ensures RowMatches(DeclaredResponse(op), ResponseFields(op).value)
  {
  }

  lemma ResponseRow20(op: nat)
    requires ResponseFields(op).Some? && 20 <= op < 40
    ensures RowMatches(DeclaredResponse(op), ResponseFields(op).value)
  {
  }

  lemma ResponseRow40(op: nat)
    requires ResponseFields(op).Some? && op >= 40
    ensures RowMatches(DeclaredResponse(op), ResponseFields(op).value)
  {
  }

  /** What comes before the body of a request: the operation, four bytes of padding, the capability, the hint block. */
  ghost predicate FrontAt(buf: seq<Byte>, base: nat, at: nat, hint: nat, q: Request) {
    At(buf, at, Le(q.op, 4)) && CapabilityAt(buf, base, at + 8, q.capability) && At(buf, hint, q.hint)
  }

  /** An encoded request begins with the operation, four bytes of padding, the capability and the hint block. */
  lemma RequestFront(buf: seq<Byte>, base: nat, at: nat, hint: nat, q: Request, distLen: nat, end: nat)
    requires Sendable(q, distLen) && Ready(buf, base, at, RequestPlan(q, distLen), end)
    requires hint == CapabilityBehind(base, at + 8, q.capability)
    ensures FrontAt(buf, base, at, hint, q)
  {
    FrontBytes(buf, base, at, hint, q, RequestPlan(q, distLen), FieldsPlan(RequestFields(q.op).value, q.body, distLen, Done), end);
  }

  /** Behind that comes every field the header declares for this operation, in the declared order and width. */
  lemma RequestBody(buf: seq<Byte>, base: nat, at: nat, hint: nat, body: nat, q: Request, distLen: nat, end: nat)
    requires Sendable(q, distLen) && Ready(buf, base, at, RequestPlan(q, distLen), end)
    requires hint == CapabilityBehind(base, at + 8, q.capability) && body == hint + |q.hint|
    ensures FieldsAt(buf, base, body, DeclaredRequest(q.op), q.body)
  {
    var fs := RequestFields(q.op).value;
    RequestRow(q.op);
    BodyBytes(buf, base, at, hint, body, DeclaredRequest(q.op), fs, q, distLen, FieldsPlan(fs, q.body, distLen, Done),
              RequestPlan(q, distLen), end);
  }

  lemma BodyBytes(buf: seq<Byte>, base: nat, at: nat, hint: nat, body: nat, ts: seq<CType>, fs: seq<Kind>, q: Request,
                  distLen: nat, k: Plan, p: Plan, end: nat)
    requires RowMatches(ts, fs) && Shapes(fs, q.body, distLen) && k == FieldsPlan(fs, q.body, distLen, Done)
    requires p == Put(U32(q.op), Put(Skip4, CapabilityPlan(q.capability, Put(Raw(q.hint), k)))) && Ready(buf, base, at, p, end)
    requires hint == CapabilityBehind(base, at + 8, q.capability) && body == hint + |q.hint|
    ensures FieldsAt(buf, base, body, ts, q.body)
  {
    PastFront(buf, base, at, at + 8, hint, body, q, p, k, end);
    FieldsBytes(buf, base, body, ts, fs, q.body, distLen, k, end);
  }

  lemma PastFront(buf: seq<Byte>, base: nat, at: nat, cap: nat, hint: nat, body: nat, q: Request, p: Plan, k: Plan, end: nat)
    requires Ready(buf, base, at, p, end) && p == Put(U32(q.op), Put(Skip4, CapabilityPlan(q.capability, Put(Raw(q.hint), k))))
    requires cap == at + 8 && hint == CapabilityBehind(base, cap, q.capability) && body == hint + |q.hint|
    ensures Ready(buf, base, body, k, end)
  {
    OperationBytes(buf, base, at, cap, q.op, CapabilityPlan(q.capability, Put(Raw(q.hint), k)), end);
    PastCapability(buf, base, cap, hint, q.capability, Put(Raw(q.hint), k), end);
    StepRaw(buf, base, hint, q.hint, k, end);
  }

  lemma PastCapability(buf: seq<Byte>, base: nat, at: nat, next: nat, c: Capability, k: Plan, end: nat)
    requires Ready(buf, base, at, CapabilityPlan(c, k), end) && next == CapabilityBehind(base, at, c)
    ensures Ready(buf, base, next, k, end)
  {
    CapabilityBytes(buf, base, at, c, k, end);
  }

  lemma OperationBytes(buf: seq<Byte>, base: nat, at: nat, next: nat, op: nat, k: Plan, end: nat)
    requires Ready(buf, base, at, Put(U32(op), Put(Skip4, k)), end) && next == at + 8
    ensures At(buf, at, Le(op, 4)) && Ready(buf, base, next, k, end)
  {
    StepU32(buf, base, at, op, Put(Skip4, k), end);
    StepSkip(buf, base, at + 4, k, end);
  }

  lemma FrontBytes(buf: seq<Byte>, base: nat, at: nat, hint: nat, q: Request, p: Plan, k: Plan, end: nat)
    requires Ready(buf, base, at, p, end) && p == Put(U32(q.op), Put(Skip4, CapabilityPlan(q.capability, Put(Raw(q.hint), k))))
    requires hint == CapabilityBehind(base, at + 8, q.capability)
    ensures FrontAt(buf, base, at, hint, q)
  {
    OperationBytes(buf, base, at, at + 8, q.op, CapabilityPlan(q.capability, Put(Raw(q.hint), k)), end);
    CapabilityBytes(buf, base, at + 8, q.capability, Put(Raw(q.hint), k), end);
    StepRaw(buf, base, hint, q.hint, k, end);
  }

  /** An encoded response: the operation, the status, and if that is zero the declared fields. */
  lemma ResponseBytes(buf: seq<Byte>, base: nat, at: nat, body: nat, q: Response, distLen: nat, end: nat)
    requires Answerable(q, distLen) && Ready(buf, base, at, ResponsePlan(q, distLen), end) && body == at + 8
    ensures At(buf, at, Le(q.op, 4)) && At(buf, at + 4, Le(q.status, 4))
    ensures q.status == 0 ==> FieldsAt(buf, base, body, DeclaredResponse(q.op), q.body)
  {
    var p := ResponsePlan(q, distLen);
    StepU32(buf, base, at, q.op, p.next, end);
    StepU32(buf, base, at + 4, q.status, p.next.next, end);
    if q.status == 0 {
      ResponseRow(q.op);
      FieldsBytes(buf, base, body, DeclaredResponse(q.op), ResponseFields(q.op).value, q.body, distLen, p.next.next, end);
    }
  }

  /** What an encoder has written is there. */
  lemma Written(was: seq<Byte>, buf: seq<Byte>, base: nat, p: Plan)
    requires AllFit(p) && |Layout(p, base)| <= |was| && buf == Overlay(was, 0, Layout(p, base))
    ensures Ready(buf, base, 0, p, |Layout(p, base)|)
  {
    OverlayIs(was, 0, Layout(p, base));
    assert base + 0 == base;
    ReadyIs(buf, base, 0, p, |Layout(p, base)|);
  }

  /** lebf_encode_req: every field ends up where the declarations put it. */
  method EncodeRequest(buf: array<Byte>, base: nat, q: Request, distLen: nat) returns (size: nat, ghost hint: nat, ghost body: nat)
    requires Sendable(q, distLen) && AllFit(RequestPlan(q, distLen)) && |Layout(RequestPlan(q, distLen), base)| <= buf.Length
    modifies buf
    ensures hint == CapabilityBehind(base, 8, q.capability) && body == hint + |q.hint|
    ensures FrontAt(buf[..], base, 0, hint, q) && FieldsAt(buf[..], base, body, DeclaredRequest(q.op), q.body)
  {
    ghost var was := buf[..];
    size := Encode(buf, base, 0, RequestPlan(q, distLen));
    Written(was, buf[..], base, RequestPlan(q, distLen));
    hint := CapabilityBehind(base, 8, q.capability);
    body := hint + |q.hint|;
    RequestFront(buf[..], base, 0, hint, q, distLen, size);
    RequestBody(buf[..], base, 0, hint, body, q, distLen, size);
  }

  /** lebf_encode_resp */
  method EncodeResponse(buf: array<Byte>, base: nat, q: Response, distLen: nat) returns (size: nat, ghost body: nat)
    requires Answerable(q, distLen) && AllFit(ResponsePlan(q, distLen)) && |Layout(ResponsePlan(q, distLen), base)| <= buf.Length
    modifies buf
    ensures At(buf[..], 0, Le(q.op, 4)) && At(buf[..], 4, Le(q.status, 4))
    ensures body == 8 && (q.status == 0 ==> FieldsAt(buf[..], base, body, DeclaredResponse(q.op), q.body))
  {
    ghost var was := buf[..];
    size := Encode(buf, base, 0, ResponsePlan(q, distLen));
    Written(was, buf[..], base, ResponsePlan(q, distLen));
    body := 8;
    ResponseBytes(buf[..], base, 0, body, q, distLen, size);
  }
}
