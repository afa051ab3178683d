/**
  The object types a Kolab directory entry can be presented as, and the
  registry that replaces dynamic class loading: an object class marker
  (lower case) maps to the type whose class name is built from it.
 */
module ObjectTypes {
  import opened Outcomes

  /** One case per class of the Kolab structure's supported objects. */
  datatype Variant =
    | BaseObject
    | Groupofnames
    | Person
    | Organizationalperson
    | Inetorgperson
    | Kolab
    | Kolabinetorgperson
    | Kolabgermanbankarrangement
    | Kolabpop3account
    | Kolabgroupofnames
    | Kolabsharedfolder
    | Address
    | Administrator
    | Distlist
    | Domainmaintainer
    | Maintainer
    | User

  /** The supported objects of the Kolab structure, in declaration order. */
  function SupportedObjects(): (r: seq<Variant>)
    ensures |r| == 17
    ensures forall v :: v in r
    ensures forall i, j :: 0 <= i < j < |r| ==> r[i] != r[j]
  {
    var r := [BaseObject, Groupofnames, Person, Organizationalperson, Inetorgperson,
              Kolab, Kolabinetorgperson, Kolabgermanbankarrangement, Kolabpop3account,
              Kolabgroupofnames, Kolabsharedfolder, Address, Administrator, Distlist,
              Domainmaintainer, Maintainer, User];
    assert forall v :: v in r by {
      forall v ensures v in r {
        assert r[Position(v)] == v;
      }
    }
    r
  }

  /** Where `v` stands in the supported objects. */
  function Position(v: Variant): (p: nat)
    ensures p < 17
  {
    match v
    case BaseObject => 0
    case Groupofnames => 1
    case Person => 2
    case Organizationalperson => 3
    case Inetorgperson => 4
    case Kolab => 5
    case Kolabinetorgperson => 6
    case Kolabgermanbankarrangement => 7
    case Kolabpop3account => 8
    case Kolabgroupofnames => 9
    case Kolabsharedfolder => 10
    case Address => 11
    case Administrator => 12
    case Distlist => 13
    case Domainmaintainer => 14
    case Maintainer => 15
    case User => 16
  }

  /**
    The lower-case object class whose capitalised form names the class of
    `v` (`Horde_Kolab_Server_Object_` + ucfirst(marker)); the base object and
    the `Kolab_*` sub-types have none.
   */
  function Marker(v: Variant): Option<string> {
    match v
    case Groupofnames => Some("groupofnames")
    case Person => Some("person")
    case Organizationalperson => Some("organizationalperson")
    case Inetorgperson => Some("inetorgperson")
    case Kolab => Some("kolab")
    case Kolabinetorgperson => Some("kolabinetorgperson")
    case Kolabgermanbankarrangement => Some("kolabgermanbankarrangement")
    case Kolabpop3account => Some("kolabpop3account")
    case Kolabgroupofnames => Some("kolabgroupofnames")
    case Kolabsharedfolder => Some("kolabsharedfolder")
    case _ => None
  }

  /** Which type, if any, a lower-case object class loads. */
  type Registry = string -> Option<Variant>

  /**
    The registry of the supported objects: an object class loads the type
    whose marker it is, and nothing else loads.
   */
  function ClassRegistry(oc: string): (r: Option<Variant>)
    ensures r.Some? ==> Marker(r.value) == Some(oc)
    ensures forall v :: Marker(v) == Some(oc) ==> r == Some(v)
  {
    if oc == "groupofnames" then Some(Groupofnames)
    else if oc == "person" then Some(Person)
    else if oc == "organizationalperson" then Some(Organizationalperson)
    else if oc == "inetorgperson" then Some(Inetorgperson)
    else if oc == "kolab" then Some(Kolab)
    else if oc == "kolabinetorgperson" then Some(Kolabinetorgperson)
    else if oc == "kolabgermanbankarrangement" then Some(Kolabgermanbankarrangement)
    else if oc == "kolabpop3account" then Some(Kolabpop3account)
    else if oc == "kolabgroupofnames" then Some(Kolabgroupofnames)
    else if oc == "kolabsharedfolder" then Some(Kolabsharedfolder)
    else None
  }
}
