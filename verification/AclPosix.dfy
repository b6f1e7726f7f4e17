/**
 The ACL scan against the access check algorithm of POSIX 1003.1e draft 17, section 23.1.5.
 */
module AclPosix {
  import opened Wrappers
  import opened Acl

  // ---------- the reference ----------

  predicate Present(es: seq<Entry>, tag: bv16) {
    exists e :: e in es && e.tag == tag
  }

  /** Some entry with this tag holds all wanted bits. */
  predicate Holds(es: seq<Entry>, tag: bv16, want: bv16) {
    exists e :: e in es && e.tag == tag && Has(e.perm, want)
  }

  predicate UserNamed(es: seq<Entry>, uid: Id) {
    exists e :: e in es && e.tag == USER && e.id == uid
  }

  predicate UserHolds(es: seq<Entry>, uid: Id, want: bv16) {
    exists e :: e in es && e.tag == USER && e.id == uid && Has(e.perm, want)
  }

  predicate GroupNamed(es: seq<Entry>, a: Attr, s: Subject) {
    exists e :: e in es && InGroup(e, a, s)
  }

  predicate GroupHolds(es: seq<Entry>, a: Attr, s: Subject, want: bv16) {
    exists e :: e in es && InGroup(e, a, s) && Has(e.perm, want)
  }

  /** The mask entry, if there is one, holds all wanted bits. */
  predicate MaskHolds(es: seq<Entry>, want: bv16) {
    forall e :: e in es && e.tag == MASK ==> Has(e.perm, want)
  }

  /** The access check of section 23.1.5. The order of the entries plays no role in it. */
  predicate PosixGrants(es: seq<Entry>, a: Attr, s: Subject, want: bv16) {
    if s.uid == a.owner then Holds(es, USER_OBJ, want)
    else if UserNamed(es, s.uid) then UserHolds(es, s.uid, want) && MaskHolds(es, want)
    else if GroupNamed(es, a, s) then GroupHolds(es, a, s, want) && MaskHolds(es, want)
    else Holds(es, OTHER, want)
  }

  /** The place of a tag: the owner, named users, groups of either kind, the mask, others. */
  function Rank(tag: bv16): nat {
    if tag == USER_OBJ then 0 else if tag == USER then 1 else if tag == GROUP_OBJ || tag == GROUP then 2
    else if tag == MASK then 3 else if tag == OTHER then 4 else 5
  }

  /** Known tags in their places, group entries in any order; no user, and neither owner, mask nor others, comes twice. */
  predicate Ordered(es: seq<Entry>) {
    && (forall e :: e in es ==> Rank(e.tag) < 5)
    && (forall i, j :: 0 <= i < j < |es| ==> Rank(es[i].tag) <= Rank(es[j].tag))
    && (forall i, j :: 0 <= i < j < |es| ==> MayFollow(es[i], es[j]))
  }

  predicate MayFollow(e: Entry, f: Entry) {
    e.tag == f.tag ==> Rank(e.tag) == 2 || (e.tag == USER && e.id != f.id)
  }

  /** What the scan needs of a list; a canonical ACL has it. */
  predicate Regular(es: seq<Entry>) {
    Ordered(es) && Present(es, USER_OBJ)
  }

  // ---------- the scan meets it ----------

  /** What the scan decides from the rest of an ordered list; `found` says a group entry matched before. */
  predicate Outcome(es: seq<Entry>, a: Attr, s: Subject, want: bv16, found: bool) {
    if s.uid == a.owner then Holds(es, USER_OBJ, want)
    else if UserNamed(es, s.uid) then UserHolds(es, s.uid, want) && MaskHolds(es, want)
    else if GroupHolds(es, a, s, want) then MaskHolds(es, want)
    else !found && !GroupNamed(es, a, s) && Holds(es, OTHER, want)
  }

  lemma OrderedRest(es: seq<Entry>)
    requires Ordered(es) && es != []
    ensures Ordered(es[1..])
    ensures forall e :: e in es <==> e == es[0] || e in es[1..]
    ensures forall e :: e in es[1..] ==> Rank(es[0].tag) <= Rank(e.tag) && MayFollow(es[0], e)
  {
    assert es == [es[0]] + es[1..];
    forall e | e in es[1..]
      ensures Rank(es[0].tag) <= Rank(e.tag) && MayFollow(es[0], e)
    {
      var k :| 0 <= k < |es[1..]| && es[1..][k] == e;
      assert es[k + 1] == e;
    }
  }

  /** How each part of the reference divides over the first entry and the others. */
  lemma Divide(es: seq<Entry>, a: Attr, s: Subject, want: bv16)
    requires es != []
    ensures var e, rest := es[0], es[1..];
            && (forall t :: Present(es, t) <==> e.tag == t || Present(rest, t))
            && (forall t :: Holds(es, t, want) <==> (e.tag == t && Has(e.perm, want)) || Holds(rest, t, want))
            && (UserNamed(es, s.uid) <==> (e.tag == USER && e.id == s.uid) || UserNamed(rest, s.uid))
            && (UserHolds(es, s.uid, want) <==>
                  (e.tag == USER && e.id == s.uid && Has(e.perm, want)) || UserHolds(rest, s.uid, want))
            && (GroupNamed(es, a, s) <==> InGroup(e, a, s) || GroupNamed(rest, a, s))
            && (GroupHolds(es, a, s, want) <==> (InGroup(e, a, s) && Has(e.perm, want)) || GroupHolds(rest, a, s, want))
            && (MaskHolds(es, want) <==> (e.tag == MASK ==> Has(e.perm, want)) && MaskHolds(rest, want))
  {
    assert es == [es[0]] + es[1..];
    assert forall e :: e in es <==> e == es[0] || e in es[1..];
  }

  /** What an entry that comes after one of rank `r` cannot be. */
  lemma Later(es: seq<Entry>, a: Attr, s: Subject, want: bv16)
    requires Ordered(es) && es != []
    ensures var e, rest := es[0], es[1..];
            && Ordered(rest)
            && (forall t :: Rank(t) < Rank(e.tag) ==> !Present(rest, t) && !Holds(rest, t, want))
            && (e.tag == USER_OBJ ==> !Present(rest, USER_OBJ) && !Holds(rest, USER_OBJ, want))
            && (e.tag == USER && e.id == s.uid ==> !UserNamed(rest, s.uid) && !UserHolds(rest, s.uid, want))
            && (Rank(e.tag) > 1 ==> !UserNamed(rest, s.uid))
            && (Rank(e.tag) > 2 ==> !GroupNamed(rest, a, s) && !GroupHolds(rest, a, s, want))
            && (e.tag == MASK ==> MaskHolds(rest, want))
            && (e.tag == OTHER ==> !Holds(rest, OTHER, want))
  {
    OrderedRest(es);
  }

  lemma {:induction false} MaskedIff(e: Entry, rest: seq<Entry>, want: bv16)
    requires Ordered(rest)
    ensures Masked(e, rest, want) == if Has(e.perm, want) && MaskHolds(rest, want) then Granted else Denied
  {
    if rest != [] {
      var a, s := Attr({}, 0, 0, {}, false), Subject(0, []);
      Divide(rest, a, s, want);
      Later(rest, a, s, want);
      if rest[0].tag == MASK {
        HasBoth(e.perm, rest[0].perm, want);
      } else {
        MaskedIff(e, rest[1..], want);
      }
    }
  }

  lemma Decides(es: seq<Entry>, a: Attr, s: Subject, want: bv16, found: bool)
    requires Ordered(es) && es != [] && (s.uid == a.owner ==> Present(es, USER_OBJ))
    ensures var v := Step(es[0], es[1..], a, s, want, found);
            && (v.Some? ==> (v.value == Granted <==> Outcome(es, a, s, want, found)))
  {
    Divide(es, a, s, want);
    Later(es, a, s, want);
    MaskedIff(es[0], es[1..], want);
  }

  lemma Skips(es: seq<Entry>, a: Attr, s: Subject, want: bv16, found: bool)
    requires Ordered(es) && es != [] && (s.uid == a.owner ==> Present(es, USER_OBJ))
    requires Step(es[0], es[1..], a, s, want, found).None?
    ensures s.uid != a.owner && es[0].tag != OTHER
    ensures Outcome(es, a, s, want, found) == Outcome(es[1..], a, s, want, found || InGroup(es[0], a, s))
  {
    Divide(es, a, s, want);
    Later(es, a, s, want);
  }

  lemma {:induction false} ScanIff(es: seq<Entry>, a: Attr, s: Subject, want: bv16, found: bool)
    requires Ordered(es)
    requires s.uid == a.owner ==> Present(es, USER_OBJ)
    ensures Scan(es, a, s, want, found) == Granted <==> Outcome(es, a, s, want, found)
  {
    if es != [] {
      Decides(es, a, s, want, found);
      if Step(es[0], es[1..], a, s, want, found).None? {
        Skips(es, a, s, want, found);
        OrderedRest(es);
        ScanIff(es[1..], a, s, want, found || InGroup(es[0], a, s));
      }
    }
  }

  /** On regular ACLs check_acls is the POSIX access check. */
  lemma RegularIsPosix(es: seq<Entry>, a: Attr, s: Subject, want: bv16)
    requires Regular(es)
    ensures Scan(es, a, s, want, false) == Granted <==> PosixGrants(es, a, s, want)
  {
    ScanIff(es, a, s, want, false);
  }

  // ---------- EINVAL or EACCES ----------

  /** When a refusal is EINVAL: no entry decides, or a group matched and an OTHER entry or the end is reached. */
  predicate Undecided(es: seq<Entry>, a: Attr, s: Subject, want: bv16, found: bool) {
    && s.uid != a.owner && !UserNamed(es, s.uid) && !GroupHolds(es, a, s, want)
    && (found || GroupNamed(es, a, s) || !Present(es, OTHER))
  }

  lemma DecidesWhy(es: seq<Entry>, a: Attr, s: Subject, want: bv16, found: bool)
    requires Ordered(es) && es != [] && (s.uid == a.owner ==> Present(es, USER_OBJ))
    ensures var v := Step(es[0], es[1..], a, s, want, found);
            v.Some? ==> (v.value == Invalid <==> Undecided(es, a, s, want, found))
  {
    Divide(es, a, s, want);
    Later(es, a, s, want);
    MaskedIff(es[0], es[1..], want);
  }

  lemma SkipsWhy(es: seq<Entry>, a: Attr, s: Subject, want: bv16, found: bool)
    requires Ordered(es) && es != [] && (s.uid == a.owner ==> Present(es, USER_OBJ))
    requires Step(es[0], es[1..], a, s, want, found).None?
    ensures Undecided(es, a, s, want, found) == Undecided(es[1..], a, s, want, found || InGroup(es[0], a, s))
  {
    Divide(es, a, s, want);
    Later(es, a, s, want);
  }

  lemma {:induction false} InvalidIff(es: seq<Entry>, a: Attr, s: Subject, want: bv16, found: bool)
    requires Ordered(es)
    requires s.uid == a.owner ==> Present(es, USER_OBJ)
    ensures Scan(es, a, s, want, found) == Invalid <==> Undecided(es, a, s, want, found)
  {
    if es != [] {
      DecidesWhy(es, a, s, want, found);
      if Step(es[0], es[1..], a, s, want, found).None? {
        Skips(es, a, s, want, found);
        SkipsWhy(es, a, s, want, found);
        OrderedRest(es);
        InvalidIff(es[1..], a, s, want, found || InGroup(es[0], a, s));
      }
    }
  }

  /**
   Which error a refusal on a regular ACL is. EINVAL: the user is neither the owner nor named, no group of
   theirs holds the bits, and a group of theirs is named or there is no OTHER entry. EACCES otherwise.
   */
  lemma RegularRefusal(es: seq<Entry>, a: Attr, s: Subject, want: bv16)
    requires Regular(es) && !PosixGrants(es, a, s, want)
    ensures Scan(es, a, s, want, false) ==
              if s.uid != a.owner && !UserNamed(es, s.uid) && !GroupHolds(es, a, s, want)
                 && (GroupNamed(es, a, s) || !Present(es, OTHER))
              then Invalid else Denied
  {
    RegularIsPosix(es, a, s, want);
    InvalidIff(es, a, s, want, false);
  }

  /** The entry is the mask or belongs to somebody else. */
  predicate Unrelated(e: Entry, a: Attr, s: Subject) {
    || e.tag == MASK
    || (e.tag == USER_OBJ && a.owner != s.uid)
    || (e.tag == USER && e.id != s.uid)
    || ((e.tag == GROUP_OBJ || e.tag == GROUP) && !InGroup(e, a, s))
  }

  /** In any list: an unknown tag ends the scan with EINVAL if no entry before it has to do with the user. */
  lemma {:induction false} UnknownTag(es: seq<Entry>, a: Attr, s: Subject, want: bv16, found: bool, k: nat)
    requires k < |es| && Rank(es[k].tag) == 5 && forall j :: 0 <= j < k ==> Unrelated(es[j], a, s)
    ensures Scan(es, a, s, want, found) == Invalid
    decreases k
  {
    if k > 0 {
      forall j | 0 <= j < k - 1 ensures Unrelated(es[1..][j], a, s) { assert Unrelated(es[j + 1], a, s); }
      UnknownTag(es[1..], a, s, want, found || InGroup(es[0], a, s), k - 1);
    }
  }

  /** Whoever is granted a set of bits is granted each part of it. */
  lemma RegularMonotone(es: seq<Entry>, a: Attr, s: Subject, want: bv16, fewer: bv16)
    requires Regular(es) && Has(want, fewer)
    requires Scan(es, a, s, want, false) == Granted
    ensures Scan(es, a, s, fewer, false) == Granted
  {
    RegularIsPosix(es, a, s, want);
    RegularIsPosix(es, a, s, fewer);
    forall e | e in es && Has(e.perm, want) ensures Has(e.perm, fewer) {
      HasFewer(e.perm, want, fewer);
    }
  }

  // ---------- every part of the order is needed ----------

  /** Attributes of an object and a user in its group. */
  function Shared(owner: Id, g: Id): Attr {
    Attr({Uid, Gid, Perm}, owner, g, {}, false)
  }

  /** A named user ahead of the owner: the owner is judged by the wrong entry. */
  lemma UserBeforeOwner(owner: Id, g: Id)
    ensures var es := [Entry(USER, 0, owner), Entry(USER_OBJ, 7, 0), Entry(OTHER, 0, 0)];
            var s := Subject(owner, [g]);
            Scan(es, Shared(owner, g), s, 4, false) == Denied && PosixGrants(es, Shared(owner, g), s, 4)
  {
    var e0, e1, e2 := Entry(USER, 0, owner), Entry(USER_OBJ, 7, 0), Entry(OTHER, 0, 0);
    assert [e0, e1, e2][1..] == [e1, e2] && [e1, e2][1..] == [e2] && [e2][1..] == [];
    assert Masked(e0, [e2], 4) == Denied;
    assert Masked(e0, [e1, e2], 4) == Denied;
    assert e1 in [e0, e1, e2];
  }

  /** A group ahead of a named user: the user gets what the user's own entry withholds. */
  lemma GroupBeforeUser(owner: Id, uid: Id, g: Id)
    requires owner != uid
    ensures var es := [Entry(USER_OBJ, 7, 0), Entry(GROUP_OBJ, 4, 0), Entry(USER, 0, uid), Entry(OTHER, 0, 0)];
            var s := Subject(uid, [g]);
            Scan(es, Shared(owner, g), s, 4, false) == Granted && !PosixGrants(es, Shared(owner, g), s, 4)
  {
    var e0, e1, e2, e3 := Entry(USER_OBJ, 7, 0), Entry(GROUP_OBJ, 4, 0), Entry(USER, 0, uid), Entry(OTHER, 0, 0);
    var es := [e0, e1, e2, e3];
    assert es[1..] == [e1, e2, e3] && [e1, e2, e3][1..] == [e2, e3] && [e2, e3][1..] == [e3] && [e3][1..] == [];
    assert Masked(e1, [e3], 4) == Granted;
    assert Masked(e1, [e2, e3], 4) == Granted;
    assert Scan([e1, e2, e3], Shared(owner, g), Subject(uid, [g]), 4, false) == Granted;
    assert e2 in es;
  }

  /** Others ahead of a named user: likewise. */
  lemma OtherBeforeUser(owner: Id, uid: Id, g: Id)
    requires owner != uid
    ensures var es := [Entry(USER_OBJ, 7, 0), Entry(OTHER, 4, 0), Entry(USER, 0, uid)];
            var s := Subject(uid, [g]);
            Scan(es, Shared(owner, g), s, 4, false) == Granted && !PosixGrants(es, Shared(owner, g), s, 4)
  {
    var e0, e1, e2 := Entry(USER_OBJ, 7, 0), Entry(OTHER, 4, 0), Entry(USER, 0, uid);
    assert [e0, e1, e2][1..] == [e1, e2] && [e1, e2][1..] == [e2];
    assert Scan([e1, e2], Shared(owner, g), Subject(uid, [g]), 4, false) == Granted;
    assert e2 in [e0, e1, e2];
  }

  /** A user named twice: only the first entry counts. */
  lemma UserTwice(owner: Id, uid: Id, g: Id)
    requires owner != uid
    ensures var es := [Entry(USER_OBJ, 7, 0), Entry(USER, 0, uid), Entry(USER, 4, uid), Entry(OTHER, 0, 0)];
            var s := Subject(uid, [g]);
            Scan(es, Shared(owner, g), s, 4, false) == Denied && PosixGrants(es, Shared(owner, g), s, 4)
  {
    var e0, e1, e2, e3 := Entry(USER_OBJ, 7, 0), Entry(USER, 0, uid), Entry(USER, 4, uid), Entry(OTHER, 0, 0);
    var es := [e0, e1, e2, e3];
    assert es[1..] == [e1, e2, e3] && [e1, e2, e3][1..] == [e2, e3] && [e2, e3][1..] == [e3] && [e3][1..] == [];
    assert Masked(e1, [e3], 4) == Denied;
    assert Masked(e1, [e2, e3], 4) == Denied;
    assert Scan([e1, e2, e3], Shared(owner, g), Subject(uid, [g]), 4, false) == Denied;
    assert e2 in es;
  }

  /**
   The mask ahead of a named group: a member of both groups may read and
   write together but may not read, and POSIX allows neither.
   */
  lemma MaskTooEarly(owner: Id, uid: Id, g: Id, h: Id)
    requires owner != uid && g != h
    ensures var es := [Entry(USER_OBJ, 7, 0), Entry(GROUP_OBJ, 4, 0), Entry(MASK, 0, 0), Entry(GROUP, 6, h), Entry(OTHER, 0, 0)];
            var a := Shared(owner, g);
            var s := Subject(uid, [g, h]);
            && Scan(es, a, s, 6, false) == Granted && !PosixGrants(es, a, s, 6)
            && Has(6, 4) && Scan(es, a, s, 4, false) == Denied
  {
    var e1, e2, m, e3, e4 :=
      Entry(USER_OBJ, 7, 0), Entry(GROUP_OBJ, 4, 0), Entry(MASK, 0, 0), Entry(GROUP, 6, h), Entry(OTHER, 0, 0);
    var es := [e1, e2, m, e3, e4];
    var a, s := Shared(owner, g), Subject(uid, [g, h]);
    assert m in es && e2 in es && InGroup(e2, a, s);
    assert es[1..] == [e2, m, e3, e4] && [e2, m, e3, e4][1..] == [m, e3, e4];
    assert [m, e3, e4][1..] == [e3, e4] && [e3, e4][1..] == [e4] && [e4][1..] == [];
    assert Masked(e3, [e4], 6) == Granted;
    assert Scan([e3, e4], a, s, 6, true) == Granted;
    assert Scan([m, e3, e4], a, s, 6, true) == Granted;
    assert Masked(e2, [m, e3, e4], 4) == Denied;
  }
}
