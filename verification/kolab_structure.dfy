/**
  The Kolab directory structure (`Horde_Kolab_Server_Structure_Kolab`): which
  object type an entry is, decided from its object classes, its group
  memberships and its position in the tree; and, in reverse, under which
  sub-container a new object of a given type is placed.
 */
module KolabStructure {
  import opened Outcomes
  import opened PhpValues
  import opened ObjectTypes
  import LdapServer

  // User types of `Horde_Kolab_Server_Object_Kolab_User`.
  const UserTypeStandard: int := 0
  const UserTypeInternal: int := 1
  const UserTypeGroup: int := 2
  const UserTypeResource: int := 3

  // Sub-containers below the base DN.
  const InternalSegment: string := "cn=internal"
  const GroupsSegment: string := "cn=groups"
  const ResourcesSegment: string := "cn=resources"
  /** The tree segment that marks external addresses. */
  const ExternalSegment: string := "cn=external"

  function AdminGroup(base: string): string {
    "cn=admin,cn=internal," + base
  }

  function MaintainerGroup(base: string): string {
    "cn=maintainer,cn=internal," + base
  }

  function DomainMaintainerGroup(base: string): string {
    "cn=domain-maintainer,cn=internal," + base
  }

  /** The entry is a member of none of the three privileged groups. */
  predicate Unprivileged(groups: seq<string>, base: string) {
    AdminGroup(base) !in groups &&
    MaintainerGroup(base) !in groups &&
    DomainMaintainerGroup(base) !in groups
  }

  /**
    `determineType` of the Kolab structure. `ocs` are the entry's lower-cased
    object classes, `groups` the DNs of the groups it belongs to, `base` the
    server's base DN and `parent` the answer of the generic resolver, which
    is consulted only for entries that are neither persons nor one of the
    three Kolab specific non-person classes.
   */
  function DetermineType(ocs: seq<string>, groups: seq<string>, uid: string, base: string,
                         parent: Result<Variant>): (r: Result<Variant>)
    // Entries that are not Kolab persons: the three class checks in order, then the parent.
    ensures "kolabinetorgperson" !in ocs ==>
              (r == Ok(Kolabgroupofnames) <== "kolabgroupofnames" in ocs)
    ensures "kolabinetorgperson" !in ocs && "kolabgroupofnames" !in ocs ==>
              (r == Ok(Kolabpop3account) <== "kolabexternalpop3account" in ocs)
    ensures "kolabinetorgperson" !in ocs && "kolabgroupofnames" !in ocs &&
            "kolabexternalpop3account" !in ocs ==>
              (r == Ok(Kolabsharedfolder) <== "kolabsharedfolder" in ocs)
    ensures "kolabinetorgperson" !in ocs && "kolabgroupofnames" !in ocs &&
            "kolabexternalpop3account" !in ocs && "kolabsharedfolder" !in ocs ==>
              r == parent
    // Given its group memberships, a Kolab person never fails and never reaches the parent.
    ensures "kolabinetorgperson" in ocs ==>
              r.Ok? && r.value in {Administrator, Maintainer, Domainmaintainer, Address, User}
    ensures "kolabinetorgperson" in ocs ==>
              (r == Ok(Administrator) <==> AdminGroup(base) in groups)
    ensures "kolabinetorgperson" in ocs ==>
              (r == Ok(Maintainer) <==>
                 AdminGroup(base) !in groups && MaintainerGroup(base) in groups)
    ensures "kolabinetorgperson" in ocs ==>
              (r == Ok(Domainmaintainer) <==>
                 AdminGroup(base) !in groups && MaintainerGroup(base) !in groups &&
                 DomainMaintainerGroup(base) in groups)
    ensures "kolabinetorgperson" in ocs ==>
              (r == Ok(Address) <==> Unprivileged(groups, base) && Contains(uid, ExternalSegment))
    ensures "kolabinetorgperson" in ocs ==>
              (r == Ok(User) <==> Unprivileged(groups, base) && !Contains(uid, ExternalSegment))
  {
    Ladder(ocs, groups, base, parent, Contains(uid, ExternalSegment))
  }

  /**
    The decisions of `determineType` in source order, given whether the
    entry counts as lying under `cn=external`.
   */
  function Ladder(ocs: seq<string>, groups: seq<string>, base: string, parent: Result<Variant>,
                  external: bool): Result<Variant>
  {
    if "kolabinetorgperson" !in ocs then
      if "kolabgroupofnames" in ocs then Ok(Kolabgroupofnames)
      else if "kolabexternalpop3account" in ocs then Ok(Kolabpop3account)
      else if "kolabsharedfolder" in ocs then Ok(Kolabsharedfolder)
      else parent
    else if |groups| > 0 && AdminGroup(base) in groups then Ok(Administrator)
    else if |groups| > 0 && MaintainerGroup(base) in groups then Ok(Maintainer)
    else if |groups| > 0 && DomainMaintainerGroup(base) in groups then Ok(Domainmaintainer)
    else if external then Ok(Address)
    else Ok(User)
  }

  /** `t` is a final segment of `s`. */
  predicate HasSuffix(s: string, t: string) {
    |t| <= |s| && s[|s| - |t|..] == t
  }

  /** `uid` names an entry of the `cn=external` container directly below the base DN. */
  predicate InExternalContainer(uid: string, base: string) {
    HasSuffix(uid, "," + ExternalSegment + "," + base)
  }

  /**
    `determineType` with the address test corrected to what address UIDs
    look like: the entry's parent is `cn=external` below the base DN, rather
    than `cn=external` occurring anywhere in the UID. Every other decision is
    that of `DetermineType`.
   */
  function DetermineTypeExact(ocs: seq<string>, groups: seq<string>, uid: string, base: string,
                              parent: Result<Variant>): (r: Result<Variant>)
    ensures "kolabinetorgperson" !in ocs || !Unprivileged(groups, base) ==>
              r == DetermineType(ocs, groups, uid, base, parent)
    ensures "kolabinetorgperson" in ocs ==>
              (r == Ok(Address) <==> Unprivileged(groups, base) && InExternalContainer(uid, base))
    ensures "kolabinetorgperson" in ocs ==>
              (r == Ok(User) <==> Unprivileged(groups, base) && !InExternalContainer(uid, base))
  {
    Ladder(ocs, groups, base, parent, InExternalContainer(uid, base))
  }

  /** The creation hints `generateServerUid` consults; `Null` means unset. */
  datatype CreationInfo = CreationInfo(userType: Option<int>, visible: Value)

  /** `empty($info['user_type'])`: unset or the integer 0. */
  predicate NoUserType(info: CreationInfo) {
    info.userType.None? || info.userType.value == 0
  }

  /** `!isset($info['visible']) || !empty($info['visible'])`. */
  predicate Visible(info: CreationInfo) {
    info.visible == Null || !Empty(info.visible)
  }

  /**
    The id handed to the generic UID generator: for users the sub-container
    of their user type, for addresses `cn=external`, for invisible groups and
    distribution lists `cn=internal`, for everything else the plain id.
   */
  function ContainedId(v: Variant, id: string, info: CreationInfo): string {
    match v
    case User =>
      if NoUserType(info) then id
      else if info.userType.value == UserTypeInternal then id + "," + InternalSegment
      else if info.userType.value == UserTypeGroup then id + "," + GroupsSegment
      else if info.userType.value == UserTypeResource then id + "," + ResourcesSegment
      else id
    case Address => id + "," + ExternalSegment
    case Kolabgroupofnames =>
      if Visible(info) then id else id + "," + InternalSegment
    case Distlist =>
      if Visible(info) then id else id + "," + InternalSegment
    case _ => id
  }

  /** `generateServerUid` of the Kolab structure over the generic `"%s,%s"` generator. */
  function GenerateServerUid(v: Variant, id: string, info: CreationInfo, base: string): (r: string)
    ensures v == Address ==> r == id + "," + ExternalSegment + "," + base
    ensures v == User ==>
              (r == id + "," + base <==>
                 NoUserType(info) || info.userType.value !in {UserTypeInternal, UserTypeGroup, UserTypeResource})
    ensures v == User ==>
              (r == id + "," + InternalSegment + "," + base <==> !NoUserType(info) && info.userType.value == UserTypeInternal)
    ensures v == User ==>
              (r == id + "," + GroupsSegment + "," + base <==> !NoUserType(info) && info.userType.value == UserTypeGroup)
    ensures v == User ==>
              (r == id + "," + ResourcesSegment + "," + base <==> !NoUserType(info) && info.userType.value == UserTypeResource)
    ensures v in {Kolabgroupofnames, Distlist} ==>
              (r == id + "," + base <==> Visible(info)) &&
              (r == id + "," + InternalSegment + "," + base <==> !Visible(info))
    ensures v !in {User, Address, Kolabgroupofnames, Distlist} ==> r == id + "," + base
  {
    LdapServer.GenerateServerUid(ContainedId(v, id, info), base)
  }

  // ---------------------------------------------------------------------
  // Round trips between generation and resolution

  /** None of the sub-container segments a user may be placed in mentions `cn=external`. */
  lemma UserSegmentsAreInternal()
    ensures !Contains(InternalSegment, ExternalSegment)
    ensures !Contains(GroupsSegment, ExternalSegment)
    ensures !Contains(ResourcesSegment, ExternalSegment)
  {
    var w := ExternalSegment;
    assert !OccursAt(InternalSegment, w, 0) by {
      assert InternalSegment[3] != w[3];
    }
    assert !OccursAt(ResourcesSegment, w, 0) by {
      assert ResourcesSegment[3] != w[3];
    }
    assert !OccursAt(ResourcesSegment, w, 1) by {
      assert ResourcesSegment[2] != w[1];
    }
  }

  /**
    An address UID resolves back to an address for every Kolab person that
    holds no privileged membership.
   */
  lemma AddressRoundTrip(id: string, info: CreationInfo, base: string,
                         ocs: seq<string>, groups: seq<string>, parent: Result<Variant>)
    requires "kolabinetorgperson" in ocs
    requires Unprivileged(groups, base)
    ensures DetermineType(ocs, groups, GenerateServerUid(Address, id, info, base), base, parent) == Ok(Address)
  {
    var uid := GenerateServerUid(Address, id, info, base);
    assert uid == id + "," + ExternalSegment + "," + base;
    assert uid == (id + ",") + ExternalSegment + ("," + base);
    ContainsInfix(id + ",", ExternalSegment, "," + base);
    assert Contains(uid, ExternalSegment);
  }

  /**
    A user UID, whatever the user type, resolves back to a user for every
    unprivileged Kolab person, provided neither the id nor the base DN
    mentions `cn=external`.
   */
  lemma UserRoundTrip(id: string, info: CreationInfo, base: string,
                      ocs: seq<string>, groups: seq<string>, parent: Result<Variant>)
    requires "kolabinetorgperson" in ocs
    requires Unprivileged(groups, base)
    requires !Contains(id, ExternalSegment) && !Contains(base, ExternalSegment)
    ensures DetermineType(ocs, groups, GenerateServerUid(User, id, info, base), base, parent) == Ok(User)
  {
    UserUidIsInternal(id, info, base);
    ResolvesToUser(ocs, groups, GenerateServerUid(User, id, info, base), base, parent);
  }

  /** A user UID mentions `cn=external` only if its id or the base DN does. */
  lemma UserUidIsInternal(id: string, info: CreationInfo, base: string)
    requires !Contains(id, ExternalSegment) && !Contains(base, ExternalSegment)
    ensures !Contains(GenerateServerUid(User, id, info, base), ExternalSegment)
  {
    var uid := GenerateServerUid(User, id, info, base);
    UserSegmentsAreInternal();
    if NoUserType(info) || info.userType.value !in {UserTypeInternal, UserTypeGroup, UserTypeResource} {
      assert uid == id + "," + base;
      NotContainedAcrossComma(id, base);
    } else if info.userType.value == UserTypeInternal {
      assert uid == id + "," + InternalSegment + "," + base;
      SegmentedUidIsInternal(id, InternalSegment, base);
    } else if info.userType.value == UserTypeGroup {
      assert uid == id + "," + GroupsSegment + "," + base;
      SegmentedUidIsInternal(id, GroupsSegment, base);
    } else {
      assert uid == id + "," + ResourcesSegment + "," + base;
      SegmentedUidIsInternal(id, ResourcesSegment, base);
    }
  }

  /** Three parts free of `cn=external` joined by commas do not mention it. */
  lemma SegmentedUidIsInternal(id: string, segment: string, base: string)
    requires !Contains(id, ExternalSegment) && !Contains(segment, ExternalSegment)
    requires !Contains(base, ExternalSegment)
    ensures !Contains(id + "," + segment + "," + base, ExternalSegment)
  {
    NotContainedAcrossComma(segment, base);
    NotContainedAcrossComma(id, segment + "," + base);
    assert id + "," + segment + "," + base == id + "," + (segment + "," + base);
  }

  /** An unprivileged Kolab person outside `cn=external` is a user. */
  lemma ResolvesToUser(ocs: seq<string>, groups: seq<string>, uid: string, base: string,
                       parent: Result<Variant>)
    requires "kolabinetorgperson" in ocs
    requires Unprivileged(groups, base)
    requires !Contains(uid, ExternalSegment)
    ensures DetermineType(ocs, groups, uid, base, parent) == Ok(User)
  {
  }

  /** Joining two parts free of `cn=external` with a comma does not create it. */
  lemma NotContainedAcrossComma(a: string, b: string)
    requires !Contains(a, ExternalSegment) && !Contains(b, ExternalSegment)
    ensures !Contains(a + "," + b, ExternalSegment)
  {
    if Contains(a + "," + b, ExternalSegment) {
      ContainsAcrossComma(a, b, ExternalSegment);
    }
  }

  /** Privileged memberships win over the tree position: an admin stays an admin under `cn=external`. */
  lemma AdministratorBeatsExternal(id: string, info: CreationInfo, base: string,
                                   ocs: seq<string>, groups: seq<string>, parent: Result<Variant>)
    requires "kolabinetorgperson" in ocs
    requires AdminGroup(base) in groups
    ensures DetermineType(ocs, groups, GenerateServerUid(Address, id, info, base), base, parent) == Ok(Administrator)
  {
  }

  /**
    A Kolab group that is not also a Kolab person resolves to a Kolab group
    wherever its UID was placed.
   */
  lemma GroupRoundTrip(id: string, info: CreationInfo, base: string,
                       ocs: seq<string>, groups: seq<string>, parent: Result<Variant>)
    requires "kolabgroupofnames" in ocs && "kolabinetorgperson" !in ocs
    ensures DetermineType(ocs, groups, GenerateServerUid(Kolabgroupofnames, id, info, base), base, parent)
            == Ok(Kolabgroupofnames)
  {
  }

  // ---------------------------------------------------------------------
  // The `cn=external` test

  /** A standard user id that has `cn=external` as a prefix of its RDN. */
  const AuditId: string := "cn=externalaudit"
  const ExampleBase: string := "dc=example,dc=org"

  /**
    As written, the substring test reads a standard user whose id merely
    begins with `cn=external` as an address; the corrected test reads it as
    the user it was created as.
   */
  lemma ExternalSubstringMisreadsUser(parent: Result<Variant>)
    ensures DetermineType(["kolabinetorgperson"], [], GenerateServerUid(User, AuditId, CreationInfo(None, Null), ExampleBase),
                          ExampleBase, parent) == Ok(Address)
    ensures DetermineTypeExact(["kolabinetorgperson"], [], GenerateServerUid(User, AuditId, CreationInfo(None, Null), ExampleBase),
                               ExampleBase, parent) == Ok(User)
  {
    var uid := GenerateServerUid(User, AuditId, CreationInfo(None, Null), ExampleBase);
    assert uid == "" + ExternalSegment + "audit," + ExampleBase;
    ContainsInfix("", ExternalSegment, "audit," + ExampleBase);
    var tail := "," + ExternalSegment + "," + ExampleBase;
    assert |uid| - |tail| == 4 && uid[4] != tail[0];
  }

  /** Every entry of the external container also passes the substring test. */
  lemma ExactIsNarrower(uid: string, base: string)
    requires InExternalContainer(uid, base)
    ensures Contains(uid, ExternalSegment)
  {
    var tail := "," + ExternalSegment + "," + base;
    var p := uid[..|uid| - |tail|];
    assert uid == (p + ",") + ExternalSegment + ("," + base);
    ContainsInfix(p + ",", ExternalSegment, "," + base);
  }

  /** A common ending can be cancelled on both sides of a suffix test. */
  lemma HasSuffixCancel(a: string, b: string, t: string)
    ensures HasSuffix(a + t, b + t) <==> HasSuffix(a, b)
  {
    if |b| <= |a| {
      assert (a + t)[|a + t| - |b + t|..] == a[|a| - |b|..] + t;
      if (a + t)[|a + t| - |b + t|..] == b + t {
        assert a[|a| - |b|..] == (b + t)[..|b|];
      }
    }
  }

  /** No user container ends in `,cn=external`, whatever precedes it. */
  lemma ContainerNotExternal(x: string, segment: string)
    requires segment in {InternalSegment, GroupsSegment, ResourcesSegment}
    ensures !HasSuffix(x + "," + segment, "," + ExternalSegment)
  {
    var s := x + "," + segment;
    var w := "," + ExternalSegment;
    if segment == InternalSegment {
      assert s[|s| - 8] == 'i' && w[|w| - 8] == 'e';
    } else {
      assert s[|s| - 1] == 's' && w[|w| - 1] == 'l';
    }
  }

  /**
    With the corrected test, an address UID resolves back to an address for
    every unprivileged Kolab person.
   */
  lemma ExactAddressRoundTrip(id: string, info: CreationInfo, base: string,
                              ocs: seq<string>, groups: seq<string>, parent: Result<Variant>)
    requires "kolabinetorgperson" in ocs
    requires Unprivileged(groups, base)
    ensures DetermineTypeExact(ocs, groups, GenerateServerUid(Address, id, info, base), base, parent) == Ok(Address)
  {
    var tail := "," + ExternalSegment + "," + base;
    assert GenerateServerUid(Address, id, info, base) == id + tail;
    AppendedIsSuffix(id, tail);
  }

  /** A string ends in whatever was appended to it. */
  lemma AppendedIsSuffix(a: string, t: string)
    ensures HasSuffix(a + t, t)
  {
    assert (a + t)[|a|..] == t;
  }

  /**
    With the corrected test, a user UID of any user type resolves back to a
    user for every unprivileged Kolab person, whatever the base DN, unless
    the id itself ends in `,cn=external`.
   */
  lemma ExactUserRoundTrip(id: string, info: CreationInfo, base: string,
                           ocs: seq<string>, groups: seq<string>, parent: Result<Variant>)
    requires "kolabinetorgperson" in ocs
    requires Unprivileged(groups, base)
    requires !HasSuffix(id, "," + ExternalSegment)
    ensures DetermineTypeExact(ocs, groups, GenerateServerUid(User, id, info, base), base, parent) == Ok(User)
  {
    var uid := GenerateServerUid(User, id, info, base);
    if NoUserType(info) || info.userType.value !in {UserTypeInternal, UserTypeGroup, UserTypeResource} {
      assert uid == id + "," + base;
      PlacedOutsideExternal(id, base);
    } else {
      var segment := if info.userType.value == UserTypeInternal then InternalSegment
                     else if info.userType.value == UserTypeGroup then GroupsSegment
                     else ResourcesSegment;
      assert uid == (id + "," + segment) + "," + base;
      ContainerNotExternal(id, segment);
      PlacedOutsideExternal(id + "," + segment, base);
    }
  }

  /** An entry placed directly below the base DN lies in the external container only if its id ends in `,cn=external`. */
  lemma PlacedOutsideExternal(x: string, base: string)
    requires !HasSuffix(x, "," + ExternalSegment)
    ensures !InExternalContainer(x + "," + base, base)
  {
    assert "," + ExternalSegment + "," + base == ("," + ExternalSegment) + ("," + base);
    assert x + "," + base == x + ("," + base);
    HasSuffixCancel(x, "," + ExternalSegment, "," + base);
  }
}
