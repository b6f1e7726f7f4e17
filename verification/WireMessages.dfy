/**
 Requests and responses as lists of fields (src/proto/pvfs2-req-proto.h), and one decoder for all of them.
 */
module WireMessages {
  import opened Wrappers
  import opened Wire
  import opened WireCodec
  import opened WireSecurity
  import WireAttr

  /** The field types of the endecode_fields families; Arrays is a count and one or more arrays of that length. */
  datatype Kind = N4 | N8 | Gap | Str | Blob | Cred | Cap | ObjectAttr | Param | Long | Data | Arrays(es: seq<Elem>)
  datatype Elem = Each4 | Each8 | EachBlob | EachExtent | EachDirent

  datatype Value =
    | Nothing
    | Num(n: nat)
    | Octets(b: seq<Byte>)
    | Extent(first: nat, last: nat)
    | Dirent(name: seq<Byte>, handle: nat)
    | OfCredential(cred: Credential)
    | OfCapability(cap: Capability)
    | OfAttr(attr: WireAttr.Attr)
    | Setting(tag: nat, number: nat, text: seq<Byte>)
    | Lists(ls: seq<seq<Value>>)

  const PARAM_UINT64 := 0
  const PARAM_STRING := 1

  // ---------- values of the right shape ----------

  predicate ElemShape(e: Elem, v: Value) {
    match e
    case Each4 => v.Num?
    case Each8 => v.Num?
    case EachBlob => v.Octets?
    case EachExtent => v.Extent?
    case EachDirent => v.Dirent?
  }

  predicate ListsShape(es: seq<Elem>, ls: seq<seq<Value>>, n: nat) {
    |es| == |ls| && forall i :: 0 <= i < |es| ==> |ls[i]| == n && forall v :: v in ls[i] ==> ElemShape(es[i], v)
  }

  /** `distLen` is the length of the distribution block, if the message has one. */
  predicate Shape(k: Kind, v: Value, distLen: nat) {
    match k
    case N4 => v.Num?
    case N8 => v.Num?
    case Gap => v.Nothing?
    case Str => v.Octets?
    case Blob => v.Octets?
    case Long => v.Octets?
    case Data => v.Octets?
    case Cred => v.OfCredential?
    case Cap => v.OfCapability?
    case ObjectAttr => v.OfAttr? && WireAttr.WellFormed(v.attr)
                       && (v.attr.arm.Meta? && v.attr.arm.dist.Some? ==> |v.attr.arm.dist.value| == distLen)
    case Param => v.Setting? && ((v.tag == PARAM_UINT64 && v.text == []) || (v.tag == PARAM_STRING && v.number == 0))
    case Arrays(es) => v.Lists? && es != [] && |v.ls| > 0 && ListsShape(es, v.ls, |v.ls[0]|)
  }

  predicate Shapes(ks: seq<Kind>, vs: seq<Value>, distLen: nat) {
    |ks| == |vs| && forall i :: 0 <= i < |ks| ==> Shape(ks[i], vs[i], distLen)
  }

  // ---------- encoding ----------

  function ElemPlan(e: Elem, v: Value, k: Plan): Plan
    requires ElemShape(e, v)
  {
    match e
    case Each4 => Put(U32(v.n), k)
    case Each8 => Put(U64(v.n), k)
    case EachBlob => Put(Keyval(v.b), k)
    case EachExtent => Put(U64(v.first), Put(U64(v.last), k))
    case EachDirent => Put(Text(v.name), Put(U64(v.handle), k))
  }

  function EachPlan(e: Elem, vs: seq<Value>, k: Plan): Plan
    requires forall v :: v in vs ==> ElemShape(e, v)
  {
    if vs == [] then k else ElemPlan(e, vs[0], EachPlan(e, vs[1..], k))
  }

  function ListsPlan(es: seq<Elem>, ls: seq<seq<Value>>, n: nat, k: Plan): Plan
    requires ListsShape(es, ls, n)
  {
    if es == [] then k else EachPlan(es[0], ls[0], ListsPlan(es[1..], ls[1..], n, k))
  }

  function FieldPlan(f: Kind, v: Value, distLen: nat, k: Plan): Plan
    requires Shape(f, v, distLen)
  {
    match f
    case N4 => Put(U32(v.n), k)
    case N8 => Put(U64(v.n), k)
    case Gap => Put(Skip4, k)
    case Str => Put(Text(v.b), k)
    case Blob => Put(Keyval(v.b), k)
    case Long => Put(U64(|v.b|), Put(Raw(v.b), k))
    case Data => Put(U32(|v.b|), Put(Raw(v.b), k))
    case Cred => CredentialPlan(v.cred, k)
    case Cap => CapabilityPlan(v.cap, k)
    case ObjectAttr => WireAttr.AttrPlan(v.attr, k)
    case Param => Put(U32(v.tag), if v.tag == PARAM_UINT64 then Put(U64(v.number), k) else Put(Text(v.text), k))
    case Arrays(es) => Put(U32(|v.ls[0]|), ListsPlan(es, v.ls, |v.ls[0]|, k))
  }

  function FieldsPlan(fs: seq<Kind>, vs: seq<Value>, distLen: nat, k: Plan): Plan
    requires Shapes(fs, vs, distLen)
  {
    if fs == [] then k else FieldPlan(fs[0], vs[0], distLen, FieldsPlan(fs[1..], vs[1..], distLen, k))
  }

  // ---------- decoding ----------

  /** What the decoding loops have read so far agrees with the first `i` values. */
  ghost predicate Agrees<T>(r: seq<T>, vs: seq<T>, i: nat) {
    |r| == i <= |vs| && forall j :: 0 <= j < i ==> r[j] == vs[j]
  }

  lemma AgreesMore<T>(r: seq<T>, v: T, vs: seq<T>, i: nat)
    requires |r| == i < |vs|
    ensures Agrees(r + [v], vs, i + 1) <==> Agrees(r, vs, i) && v == vs[i]
  {
    if Agrees(r + [v], vs, i + 1) {
      assert forall j :: 0 <= j < i ==> r[j] == (r + [v])[j];
      assert (r + [v])[i] == v;
    }
  }

  lemma AgreesAll<T>(r: seq<T>, vs: seq<T>)
    requires |r| == |vs|
    ensures Agrees(r, vs, |vs|) <==> r == vs
  {
  }

  method GetElem(buf: seq<Byte>, base: nat, at: nat, e: Elem, ghost v: Value, ghost k: Plan, ghost end: nat)
    returns (r: Value, next: nat)
    requires ElemShape(e, v) && Ready(buf, base, at, ElemPlan(e, v, k), end)
    ensures Ready(buf, base, next, k, end)
    ensures Tidy(buf, base, at, ElemPlan(e, v, k)) <==> r == v && Tidy(buf, base, next, k)
  {
    ghost var p := ElemPlan(e, v, k);
    match e
    case Each4 =>
      var n;
      n, next := GetU32(buf, base, at, p, end);
      r := Num(n);
    case Each8 =>
      var n;
      n, next := GetU64(buf, base, at, p, end);
      r := Num(n);
    case EachBlob =>
      var b;
      b, next := GetKeyval(buf, base, at, p, end);
      r := Octets(b);
    case EachExtent =>
      var first, last;
      first, next := GetU64(buf, base, at, p, end);
      last, next := GetU64(buf, base, next, p.next, end);
      r := Extent(first, last);
    case EachDirent =>
      var name, handle;
      name, next := GetText(buf, base, at, p, end);
      handle, next := GetU64(buf, base, next, p.next, end);
      r := Dirent(name, handle);
  }

  lemma EachHead(e: Elem, vs: seq<Value>, i: nat, k: Plan)
    requires i < |vs| && forall v :: v in vs ==> ElemShape(e, v)
    ensures EachPlan(e, vs[i..], k) == ElemPlan(e, vs[i], EachPlan(e, vs[i + 1..], k))
  {
    assert vs[i..][1..] == vs[i + 1..];
  }

  /** One array: the loop over its elements. */
  method GetEach(buf: seq<Byte>, base: nat, at: nat, e: Elem, n: nat, ghost vs: seq<Value>, ghost k: Plan, ghost end: nat)
    returns (r: seq<Value>, next: nat)
    requires |vs| == n && (forall v :: v in vs ==> ElemShape(e, v)) && Ready(buf, base, at, EachPlan(e, vs, k), end)
    ensures Ready(buf, base, next, k, end)
    ensures Tidy(buf, base, at, EachPlan(e, vs, k)) <==> r == vs && Tidy(buf, base, next, k)
  {
    r, next := [], at;
    assert vs[0..] == vs;
    for i := 0 to n
      invariant |r| == i && Ready(buf, base, next, EachPlan(e, vs[i..], k), end)
      invariant Tidy(buf, base, at, EachPlan(e, vs, k)) <==> Agrees(r, vs, i) && Tidy(buf, base, next, EachPlan(e, vs[i..], k))
    {
      EachHead(e, vs, i, k);
      var v;
      v, next := GetElem(buf, base, next, e, vs[i], EachPlan(e, vs[i + 1..], k), end);
      AgreesMore(r, v, vs, i);
      r := r + [v];
    }
    AgreesAll(r, vs);
  }

  /** The arrays that share one count. */
  method GetLists(buf: seq<Byte>, base: nat, at: nat, es: seq<Elem>, n: nat, ghost ls: seq<seq<Value>>, ghost k: Plan, ghost end: nat)
    returns (r: seq<seq<Value>>, next: nat)
    requires ListsShape(es, ls, n) && Ready(buf, base, at, ListsPlan(es, ls, n, k), end)
    ensures Ready(buf, base, next, k, end)
    ensures Tidy(buf, base, at, ListsPlan(es, ls, n, k)) <==> r == ls && Tidy(buf, base, next, k)
  {
    r, next := [], at;
    assert es[0..] == es && ls[0..] == ls;
    for i := 0 to |es|
      invariant |r| == i && Ready(buf, base, next, ListsPlan(es[i..], ls[i..], n, k), end)
      invariant Tidy(buf, base, at, ListsPlan(es, ls, n, k))
           <==> Agrees(r, ls, i) && Tidy(buf, base, next, ListsPlan(es[i..], ls[i..], n, k))
    {
      assert es[i..][1..] == es[i + 1..] && ls[i..][1..] == ls[i + 1..];
      var l;
      l, next := GetEach(buf, base, next, es[i], n, ls[i], ListsPlan(es[i + 1..], ls[i + 1..], n, k), end);
      AgreesMore(r, l, ls, i);
      r := r + [l];
    }
    AgreesAll(r, ls);
  }

  method GetField(buf: seq<Byte>, base: nat, at: nat, f: Kind, distLen: nat, ghost v: Value, ghost k: Plan, ghost end: nat)
    returns (r: Value, next: nat)
    requires Shape(f, v, distLen) && Ready(buf, base, at, FieldPlan(f, v, distLen, k), end)
    ensures Ready(buf, base, next, k, end)
    ensures Tidy(buf, base, at, FieldPlan(f, v, distLen, k)) <==> r == v && Tidy(buf, base, next, k)
  {
    ghost var p := FieldPlan(f, v, distLen, k);
    match f
    case N4 =>
      var n;
      n, next := GetU32(buf, base, at, p, end);
      r := Num(n);
    case N8 =>
      var n;
      n, next := GetU64(buf, base, at, p, end);
      r := Num(n);
    case Gap =>
      next := Skip(buf, base, at, p, end);
      r := Nothing;
    case Str =>
      var b;
      b, next := GetText(buf, base, at, p, end);
      r := Octets(b);
    case Blob =>
      var b;
      b, next := GetKeyval(buf, base, at, p, end);
      r := Octets(b);
    case Long =>
      var n, b;
      n, next := GetU64(buf, base, at, p, end);
      b, next := GetRaw(buf, base, next, n, p.next, end);
      r := Octets(b);
    case Data =>
      var n, b;
      n, next := GetU32(buf, base, at, p, end);
      b, next := GetRaw(buf, base, next, n, p.next, end);
      r := Octets(b);
    case Cred =>
      var c;
      c, next := GetCredential(buf, base, at, v.cred, k, end);
      r := OfCredential(c);
    case Cap =>
      var c;
      c, next := GetCapability(buf, base, at, v.cap, k, end);
      r := OfCapability(c);
    case ObjectAttr =>
      var a;
      a, next := WireAttr.GetAttr(buf, base, at, distLen, v.attr, k, end);
      r := OfAttr(a);
    case Param =>
      r, next := GetSetting(buf, base, at, v, k, end);
    case Arrays(es) =>
      var n, ls;
      n, next := GetU32(buf, base, at, p, end);
      ls, next := GetLists(buf, base, next, es, n, v.ls, k, end);
      r := Lists(ls);
  }

  /** decode_PVFS_mgmt_setparam_value: a tag, then the arm it names. */
  method GetSetting(buf: seq<Byte>, base: nat, at: nat, ghost v: Value, ghost k: Plan, ghost end: nat)
    returns (r: Value, next: nat)
    requires Shape(Param, v, 0) && Ready(buf, base, at, FieldPlan(Param, v, 0, k), end)
    ensures Ready(buf, base, next, k, end)
    ensures Tidy(buf, base, at, FieldPlan(Param, v, 0, k)) <==> r == v && Tidy(buf, base, next, k)
  {
    ghost var p := FieldPlan(Param, v, 0, k);
    var tag;
    tag, next := GetU32(buf, base, at, p, end);
    if tag == PARAM_UINT64 {
      var n;
      n, next := GetU64(buf, base, next, p.next, end);
      r := Setting(tag, n, []);
    } else {
      var s;
      s, next := GetText(buf, base, next, p.next, end);
      r := Setting(tag, 0, s);
    }
  }

  method GetFields(buf: seq<Byte>, base: nat, at: nat, fs: seq<Kind>, distLen: nat, ghost vs: seq<Value>, ghost k: Plan, ghost end: nat)
    returns (r: seq<Value>, next: nat)
    requires Shapes(fs, vs, distLen) && Ready(buf, base, at, FieldsPlan(fs, vs, distLen, k), end)
    ensures Ready(buf, base, next, k, end)
    ensures Tidy(buf, base, at, FieldsPlan(fs, vs, distLen, k)) <==> r == vs && Tidy(buf, base, next, k)
  {
    r, next := [], at;
    assert fs[0..] == fs && vs[0..] == vs;
    for i := 0 to |fs|
      invariant |r| == i && Ready(buf, base, next, FieldsPlan(fs[i..], vs[i..], distLen, k), end)
      invariant Tidy(buf, base, at, FieldsPlan(fs, vs, distLen, k))
           <==> Agrees(r, vs, i) && Tidy(buf, base, next, FieldsPlan(fs[i..], vs[i..], distLen, k))
    {
      assert fs[i..][1..] == fs[i + 1..] && vs[i..][1..] == vs[i + 1..];
      var v;
      v, next := GetField(buf, base, next, fs[i], distLen, vs[i], FieldsPlan(fs[i + 1..], vs[i + 1..], distLen, k), end);
      AgreesMore(r, v, vs, i);
      r := r + [v];
    }
    AgreesAll(r, vs);
  }
}
