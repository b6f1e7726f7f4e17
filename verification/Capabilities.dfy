/**
 PINT_get_capabilities: the capability mask a user gets on an object, from the ACL and the mode bits.
 */
module Capabilities {
  import opened Wrappers
  import opened Acl
  import opened AclPosix

  /** The bits of a capability's op_mask. */
  datatype Cap = May(x: Access) | SetAttr | Create | Admin | Remove

  const ALL: set<Cap> := {May(Read), May(Write), May(Exec), SetAttr, Create, Admin, Remove}

  lemma Which(c: Cap)
    ensures c == May(Read) || c == May(Write) || c == May(Exec) || c == SetAttr || c == Create || c == Admin || c == Remove
  {
    if c.May? {
      assert c.x.Read? || c.x.Write? || c.x.Exec?;
    }
  }

  /** PVFS2_ACL_READ, PVFS2_ACL_WRITE and PVFS2_ACL_EXECUTE, the permission bits an ACL entry stores. */
  const ACL_READ: bv16 := 4
  const ACL_WRITE: bv16 := 2
  const ACL_EXECUTE: bv16 := 1

  function AclBit(x: Access): bv16 {
    if x == Read then ACL_READ else if x == Write then ACL_WRITE else ACL_EXECUTE
  }

  /** The owner's bits count for the owner, the others' bits for everyone else, the group's bits for members besides. */
  predicate ModeGrants(x: Access, a: Attr, s: Subject) {
    || (if a.owner == s.uid then User(x) else Other(x)) in a.perms
    || (a.group in s.groups && Group(x) in a.perms)
  }

  predicate AclGrants(x: Access, buf: AclBuffer, a: Attr, s: Subject) {
    !Refused(buf, a, s) && Scan(Entries(buf.bytes), a, s, AclBit(x), false) == Granted
  }

  predicate Grants(x: Access, buf: AclBuffer, a: Attr, s: Subject) {
    AclGrants(x, buf, a, s) || ModeGrants(x, a, s)
  }

  /** Who gets an error instead of a mask. */
  predicate Fails(buf: AclBuffer, a: Attr, s: Subject) {
    s.uid != 0 && ((buf.Null? && buf.size > 0) || s.groups == [] || !a.Complete())
  }

  /** Exactly when a capability bit is set. */
  predicate Entitled(c: Cap, buf: AclBuffer, a: Attr, s: Subject) {
    if s.uid == 0 then a.directory || (c != Create && c != Remove)
    else if c.May? then Grants(c.x, buf, a, s)
    else if c.SetAttr? then s.uid == a.owner
    else if c.Admin? then false
    else a.directory && Grants(Write, buf, a, s) && Grants(Exec, buf, a, s)
  }

  /** check_mode; None stands for EINVAL. */
  method CheckMode(x: Access, uid: Id, group: Id, a: Attr) returns (r: Option<bool>)
    ensures r.None? <==> !a.Complete()
    ensures r.Some? ==> (r.value <==> ModeGrants(x, a, Subject(uid, [group])))
  {
    if Uid !in a.mask || Gid !in a.mask || Perm !in a.mask {
      return None;
    }
    var bit := if a.owner == uid then User(x) else Other(x);
    var userOrOther := bit in a.perms;
    var ofGroup := false;
    if a.group == group {
      ofGroup := Group(x) in a.perms;
    }
    return Some(userOrOther || ofGroup);
  }

  /** The ACL part of PINT_get_capabilities. */
  method AclCaps(buf: AclBuffer, a: Attr, s: Subject) returns (caps: set<Cap>)
    requires buf.Size() < 0x1_0000_0000_0000_0000 && !buf.Null?
    ensures forall c :: c in caps <==> c.May? && AclGrants(c.x, buf, a, s)
  {
    caps := {};
    var v := CheckAcls(buf, a, s, AclBit(Read));
    if v == Granted { caps := caps + {May(Read)}; }
    v := CheckAcls(buf, a, s, AclBit(Write));
    if v == Granted { caps := caps + {May(Write)}; }
    v := CheckAcls(buf, a, s, AclBit(Exec));
    if v == Granted { caps := caps + {May(Exec)}; }
  }

  /** The group whose bits count: the object's group if the user is in it, the user's first group otherwise. */
  method ActiveGroup(a: Attr, groups: seq<Id>) returns (g: Id)
    requires groups != []
    ensures g == a.group <==> a.group in groups
  {
    g := groups[0];
    var i := 0;
    while i < |groups|
      invariant 0 <= i <= |groups| && a.group !in groups[..i] && g == groups[0]
    {
      if groups[i] == a.group {
        return groups[i];
      }
      i := i + 1;
    }
  }

  /** The part of PINT_get_capabilities that looks at the mode bits, for the group chosen; None stands for EINVAL. */
  method ModeCaps(a: Attr, uid: Id, g: Id) returns (r: Option<set<Cap>>)
    ensures r.None? <==> !a.Complete()
    ensures r.Some? ==> forall c :: c in r.value <==> c.May? && ModeGrants(c.x, a, Subject(uid, [g]))
  {
    var caps: set<Cap> := {};
    var m := CheckMode(Read, uid, g, a);
    if m.None? { return None; }
    if m.value { caps := caps + {May(Read)}; }
    m := CheckMode(Write, uid, g, a);
    if m.value { caps := caps + {May(Write)}; }
    m := CheckMode(Exec, uid, g, a);
    if m.value { caps := caps + {May(Exec)}; }
    forall c ensures c in caps <==> c.May? && ModeGrants(c.x, a, Subject(uid, [g])) { Which(c); }
    return Some(caps);
  }

  /**
   What a non-root user gets on an object with a regular ACL, bit by bit: reading for the stored
   bit 4, writing for 2 and executing for 1, by the POSIX access check or by the mode.
   */
  predicate PosixMask(caps: set<Cap>, es: seq<Entry>, a: Attr, s: Subject) {
    && (May(Read) in caps <==> PosixGrants(es, a, s, 4) || ModeGrants(Read, a, s))
    && (May(Write) in caps <==> PosixGrants(es, a, s, 2) || ModeGrants(Write, a, s))
    && (May(Exec) in caps <==> PosixGrants(es, a, s, 1) || ModeGrants(Exec, a, s))
    && (SetAttr in caps <==> s.uid == a.owner)
    && (Create in caps <==> a.directory && May(Write) in caps && May(Exec) in caps)
    && (Remove in caps <==> Create in caps)
    && Admin !in caps
  }

  /** Whoever has the bits of Entitled has the mask the POSIX access check gives. */
  lemma EntitledIsPosix(caps: set<Cap>, buf: AclBuffer, a: Attr, s: Subject)
    requires s.uid != 0 && !Refused(buf, a, s) && Regular(Entries(buf.bytes))
    requires forall c :: c in caps <==> Entitled(c, buf, a, s)
    ensures PosixMask(caps, Entries(buf.bytes), a, s)
  {
    var es := Entries(buf.bytes);
    RegularIsPosix(es, a, s, 4);
    RegularIsPosix(es, a, s, 2);
    RegularIsPosix(es, a, s, 1);
  }

  /** PINT_get_capabilities; None stands for EINVAL. */
  method GetCapabilities(buf: AclBuffer, a: Attr, s: Subject) returns (r: Option<set<Cap>>)
    requires buf.Size() < 0x1_0000_0000_0000_0000
    ensures r.None? <==> Fails(buf, a, s)
    ensures r.Some? ==> forall c :: c in r.value <==> Entitled(c, buf, a, s)
    ensures r.Some? && s.uid != 0 && !Refused(buf, a, s) && Regular(Entries(buf.bytes)) ==>
              PosixMask(r.value, Entries(buf.bytes), a, s)
  {
    if s.uid == 0 {
      forall c: Cap ensures c in ALL { Which(c); }
      return Some(if a.directory then ALL else ALL - {Create, Remove});
    }
    var caps: set<Cap> := {};
    if buf.Size() > 0 {
      if buf.Null? {
        return None;
      }
      caps := AclCaps(buf, a, s);
    }
    if |s.groups| == 0 || Gid !in a.mask {
      return None;
    }
    var g := ActiveGroup(a, s.groups);
    assert forall x :: ModeGrants(x, a, Subject(s.uid, [g])) <==> ModeGrants(x, a, s);
    var m := ModeCaps(a, s.uid, g);
    if m.None? { return None; }
    caps := caps + m.value;
    assert forall c :: c in caps <==> c.May? && Grants(c.x, buf, a, s);
    if s.uid == a.owner {
      caps := caps + {SetAttr};
    }
    if a.directory && May(Write) in caps && May(Exec) in caps {
      caps := caps + {Create, Remove};
    }
    forall c ensures c in caps <==> Entitled(c, buf, a, s) { Which(c); }
    if !Refused(buf, a, s) && Regular(Entries(buf.bytes)) { EntitledIsPosix(caps, buf, a, s); }
    return Some(caps);
  }

  // ---------- only the set of groups matters ----------

  ghost predicate SameGroups(s: Subject, t: Subject) {
    s.uid == t.uid && forall g :: g in s.groups <==> g in t.groups
  }

  lemma {:induction false} ScanSameGroups(es: seq<Entry>, a: Attr, s: Subject, t: Subject, want: bv16, found: bool)
    requires SameGroups(s, t)
    ensures Scan(es, a, s, want, found) == Scan(es, a, t, want, found)
  {
    if es != [] {
      ScanSameGroups(es[1..], a, s, t, want, found || InGroup(es[0], a, s));
    }
  }

  lemma NoGroups(s: Subject, t: Subject)
    requires SameGroups(s, t) && s.groups != []
    ensures t.groups != []
  {
    var g := s.groups[0];
    assert g in s.groups;
    assert g in t.groups;
  }

  /** Listing a user's groups in another order, or twice, changes neither errors nor capabilities, canonical ACL or not. */
  lemma GroupOrder(c: Cap, buf: AclBuffer, a: Attr, s: Subject, t: Subject)
    requires SameGroups(s, t)
    ensures Fails(buf, a, s) == Fails(buf, a, t)
    ensures Entitled(c, buf, a, s) == Entitled(c, buf, a, t)
  {
    if s.groups != [] {
      NoGroups(s, t);
    } else if t.groups != [] {
      NoGroups(t, s);
    }
    forall x ensures Grants(x, buf, a, s) == Grants(x, buf, a, t) {
      if !Refused(buf, a, s) {
        ScanSameGroups(Entries(buf.bytes), a, s, t, AclBit(x), false);
      }
    }
  }
}
