/**
 The server's access checks (src/server/check.c): the ACL scan, the mode bits and the
 capability mask, with the POSIX 1003.1e draft 17 access check as reference.
 */
module Acl {
  import opened Wrappers

  type Id = bv32

  const USER_OBJ: bv16 := 0x01
  const USER: bv16 := 0x02
  const GROUP_OBJ: bv16 := 0x04
  const GROUP: bv16 := 0x08
  const MASK: bv16 := 0x10
  const OTHER: bv16 := 0x20

  /** pvfs2_acl_entry */
  datatype Entry = Entry(tag: bv16, perm: bv16, id: Id)

  /** The bits of attr->mask and attr->perms that matter here, by name. */
  datatype Field = Uid | Gid | Perm
  datatype Access = Read | Write | Exec
  datatype ModeBit = User(x: Access) | Group(x: Access) | Other(x: Access)

  /** The part of PVFS_object_attr the checks look at; a bit mask is the set of its bits. */
  datatype Attr = Attr(mask: set<Field>, owner: Id, group: Id, perms: set<ModeBit>, directory: bool)
  {
    predicate Complete() {
      Uid in mask && Gid in mask && Perm in mask
    }
  }

  datatype Verdict = Granted | Denied | Invalid

  /** All wanted bits are among the given ones. */
  predicate Has(perm: bv16, want: bv16) {
    perm & want == want
  }

  lemma AndHas(p: bv16, m: bv16, want: bv16)
    requires (p & m) & want == want
    ensures p & want == want && m & want == want
  {
  }

  lemma HasAnd(p: bv16, m: bv16, want: bv16)
    requires p & want == want && m & want == want
    ensures (p & m) & want == want
  {
  }

  lemma HasBoth(p: bv16, m: bv16, want: bv16)
    ensures Has(p & m, want) <==> Has(p, want) && Has(m, want)
  {
    if Has(p & m, want) {
      AndHas(p, m, want);
    } else if Has(p, want) && Has(m, want) {
      HasAnd(p, m, want);
    }
  }

  lemma HasFewer(p: bv16, want: bv16, fewer: bv16)
    requires Has(p, want) && Has(want, fewer)
    ensures Has(p, fewer)
  {
  }

  // ---------- the stored form ----------

  const HEADER := 4
  const ENTRY := 8

  /** acl_buf and acl_size: the pointer may be NULL whatever the size. */
  datatype AclBuffer = Null(size: nat) | Bytes(bytes: seq<bv8>)
  {
    function Size(): nat {
      if Null? then size else |bytes|
    }
  }

  function ReadEntry(b: seq<bv8>, i: nat): Entry
    requires HEADER + ENTRY * (i + 1) <= |b|
  {
    var at := HEADER + ENTRY * i;
    Entry(b[at] as bv16 | (b[at + 1] as bv16 << 8),
          b[at + 2] as bv16 | (b[at + 3] as bv16 << 8),
          b[at + 4] as bv32 | (b[at + 5] as bv32 << 8) | (b[at + 6] as bv32 << 16) | (b[at + 7] as bv32 << 24))
  }

  /** An entry in the Linux ACL attribute format: tag, permissions and id, little-endian. */
  function Stored(e: Entry): seq<bv8> {
    [(e.tag & 0xff) as bv8, (e.tag >> 8) as bv8, (e.perm & 0xff) as bv8, (e.perm >> 8) as bv8,
     (e.id & 0xff) as bv8, ((e.id >> 8) & 0xff) as bv8, ((e.id >> 16) & 0xff) as bv8, (e.id >> 24) as bv8]
  }

  /** Entries come back as they were stored. */
  lemma ReadStored(b: seq<bv8>, i: nat, e: Entry)
    requires HEADER + ENTRY * (i + 1) <= |b| && b[HEADER + ENTRY * i..HEADER + ENTRY * (i + 1)] == Stored(e)
    ensures ReadEntry(b, i) == e
  {
  }

  /** acl_size after the header is taken off, as a size_t: it wraps below zero. */
  function Payload(size: nat): nat
    requires size < 0x1_0000_0000_0000_0000
  {
    (size - HEADER) % 0x1_0000_0000_0000_0000
  }

  predicate WholeEntries(b: seq<bv8>) {
    HEADER <= |b| && (|b| - HEADER) % ENTRY == 0
  }

  function Entries(b: seq<bv8>): (es: seq<Entry>)
    requires WholeEntries(b)
    ensures |es| == (|b| - HEADER) / ENTRY
  {
    seq((|b| - HEADER) / ENTRY, i requires 0 <= i < (|b| - HEADER) / ENTRY => ReadEntry(b, i))
  }

  // ---------- the scan ----------

  /** Whoever asks: a user and the groups they are in. */
  datatype Subject = Subject(uid: Id, groups: seq<Id>)

  /** The entry applies to a group of the subject. */
  predicate InGroup(e: Entry, a: Attr, s: Subject) {
    || (e.tag == GROUP_OBJ && a.group in s.groups)
    || (e.tag == GROUP && e.id in s.groups)
  }

  /** Label check_perm. */
  function Plain(e: Entry, want: bv16): Verdict {
    if Has(e.perm, want) then Granted else Denied
  }

  /** Label mask: the first mask entry after the one that matched. */
  function Masked(e: Entry, rest: seq<Entry>, want: bv16): Verdict {
    if rest == [] then Plain(e, want)
    else if rest[0].tag == MASK then Plain(e.(perm := e.perm & rest[0].perm), want)
    else Masked(e, rest[1..], want)
  }

  /** The switch in the loop: a verdict, or on to the next entry. */
  function Step(e: Entry, rest: seq<Entry>, a: Attr, s: Subject, want: bv16, found: bool): Option<Verdict> {
    if e.tag == USER_OBJ then
      if a.owner == s.uid then Some(Plain(e, want)) else None
    else if e.tag == USER then
      if e.id == s.uid then Some(Masked(e, rest, want)) else None
    else if e.tag == GROUP_OBJ || e.tag == GROUP then
      if InGroup(e, a, s) && Has(e.perm, want) then Some(Masked(e, rest, want)) else None
    else if e.tag == MASK then None
    else if e.tag == OTHER then Some(if found then Invalid else Plain(e, want))
    else Some(Invalid)
  }

  function Scan(es: seq<Entry>, a: Attr, s: Subject, want: bv16, found: bool): Verdict {
    if es == [] then Invalid
    else
      var v := Step(es[0], es[1..], a, s, want, found);
      if v.Some? then v.value else Scan(es[1..], a, s, want, found || InGroup(es[0], a, s))
  }

  /** The arguments check_acls refuses. */
  predicate Refused(buf: AclBuffer, a: Attr, s: Subject) {
    || !a.Complete() || s.groups == [] || buf.Null? || !WholeEntries(buf.bytes)
  }

  /** The inner loop over group_array. */
  method Member(groups: seq<Id>, g: Id) returns (found: bool)
    ensures found <==> g in groups
  {
    found := false;
    var j := 0;
    while j < |groups|
      invariant 0 <= j <= |groups| && !found && g !in groups[..j]
    {
      if groups[j] == g {
        return true;
      }
      j := j + 1;
    }
  }

  /** The code at label mask. */
  method ApplyMask(b: seq<bv8>, i: nat, e: Entry, want: bv16) returns (v: Verdict)
    requires WholeEntries(b) && i <= |Entries(b)|
    ensures v == Masked(e, Entries(b)[i..], want)
  {
    var count := (|b| - HEADER) / ENTRY;
    ghost var es := Entries(b);
    var j := i;
    while j < count
      invariant i <= j <= count && Masked(e, es[i..], want) == Masked(e, es[j..], want)
    {
      var m := ReadEntry(b, j);
      assert es[j..][0] == m && es[j..][1..] == es[j + 1..];
      if m.tag == MASK {
        return if Has(e.perm & m.perm, want) then Granted else Denied;
      }
      j := j + 1;
    }
    return if Has(e.perm, want) then Granted else Denied;
  }

  /** The switch of check_acls on an entry `e`, number `i`. */
  method SwitchOn(b: seq<bv8>, i: nat, e: Entry, a: Attr, s: Subject, want: bv16, found: bool)
    returns (v: Option<Verdict>, seen: bool)
    requires WholeEntries(b) && i < |Entries(b)|
    ensures v == Step(e, Entries(b)[i + 1..], a, s, want, found)
    ensures seen == (found || InGroup(e, a, s))
  {
    v, seen := None, found;
    if e.tag == USER_OBJ {
      if a.owner == s.uid {
        v := Some(if Has(e.perm, want) then Granted else Denied);
      }
    } else if e.tag == USER {
      if e.id == s.uid {
        var w := ApplyMask(b, i + 1, e, want);
        v := Some(w);
      }
    } else if e.tag == GROUP_OBJ || e.tag == GROUP {
      var member := Member(s.groups, if e.tag == GROUP_OBJ then a.group else e.id);
      if member {
        seen := true;
        if Has(e.perm, want) {
          var w := ApplyMask(b, i + 1, e, want);
          v := Some(w);
        }
      }
    } else if e.tag == OTHER {
      v := Some(if found then Invalid else if Has(e.perm, want) then Granted else Denied);
    } else if e.tag != MASK {
      v := Some(Invalid);
    }
  }

  /** check_acls */
  method CheckAcls(buf: AclBuffer, a: Attr, s: Subject, want: bv16) returns (v: Verdict)
    requires buf.Size() < 0x1_0000_0000_0000_0000
    ensures v == if Refused(buf, a, s) then Invalid else Scan(Entries(buf.bytes), a, s, want, false)
  {
    if Uid !in a.mask || Gid !in a.mask || Perm !in a.mask || |s.groups| == 0 || buf.Size() == 0 || buf.Null? {
      return Invalid;
    }
    PayloadWhole(buf.bytes);
    if Payload(|buf.bytes|) % ENTRY != 0 {
      return Invalid;
    }
    var count := Payload(|buf.bytes|) / ENTRY;
    ghost var es := Entries(buf.bytes);
    var found, i := false, 0;
    assert es[0..] == es;
    while i < count
      invariant 0 <= i <= count == |es|
      invariant Scan(es, a, s, want, false) == Scan(es[i..], a, s, want, found)
    {
      var w, seen := SwitchOn(buf.bytes, i, ReadEntry(buf.bytes, i), a, s, want, found);
      assert es[i..][0] == es[i] && es[i..][1..] == es[i + 1..];
      if w.Some? {
        return w.value;
      }
      found, i := seen, i + 1;
    }
    return Invalid;
  }

  /** Sizes one to three wrap around, and still fail the divisibility test. */
  lemma PayloadWhole(b: seq<bv8>)
    requires |b| < 0x1_0000_0000_0000_0000
    ensures Payload(|b|) % ENTRY == 0 <==> WholeEntries(b)
    ensures WholeEntries(b) ==> Payload(|b|) == |b| - HEADER
  {
  }
}
