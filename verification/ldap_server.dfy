/**
  The decisions of the LDAP server driver (`Horde_Kolab_Server_Ldap`): how a
  lookup result becomes one entry or an error, how object classes are read,
  how a change set is split into deletions and replacements when an entry is
  saved, how a listing of one object type is requested and post-filtered,
  and the generic resolution of an entry's object type and UID.

  The directory client is not modelled: its answers (search results, group
  membership) are inputs, and its requests (`SaveRequest`, `SearchRequest`)
  are outputs.
 */
module LdapServer {
  import opened Outcomes
  import opened PhpValues
  import opened ObjectTypes

  /** One directory entry: attribute name to its values. */
  type RawEntry = map<string, seq<string>>

  /**
    What a search returns as a structure: either a library failure, or the
    entries found by DN, each of which may itself be a library failure.
   */
  type SearchResult = Result<map<string, Result<RawEntry>>>

  datatype Scope = BaseScope | SubScope

  datatype SearchOptions = SearchOptions(scope: Scope, attributes: Option<seq<string>>)

  datatype SearchRequest = SearchRequest(base: string, filter: string, options: SearchOptions)

  /** The attribute holding an entry's object classes. */
  const ObjectClassAttribute: string := "objectClass"

  // ---------------------------------------------------------------------
  // read

  /** The options of the base-scope search `read` issues. */
  function ReadOptions(attrs: seq<string>): (o: SearchOptions)
    ensures o.scope == BaseScope
    ensures o.attributes.Some? <==> |attrs| > 0
    ensures o.attributes.Some? ==> o.attributes.value == attrs
  {
    SearchOptions(BaseScope, if |attrs| == 0 then None else Some(attrs))
  }

  /** The entry stored under `dn` in a lookup result, or why there is none. */
  function Read(data: SearchResult, dn: string): (r: Result<RawEntry>)
    ensures r.Ok? <==> data.Ok? && dn in data.value && data.value[dn].Ok?
    ensures r.Ok? ==> r.value == data.value[dn].value
    ensures data.Err? ==> r == Err(data.error)
    ensures data.Ok? && |data.value| == 0 ==> r == Err(EmptyResult)
    ensures data.Ok? && |data.value| > 0 && dn !in data.value ==> r == Err(NoResultFor(dn))
    ensures data.Ok? && dn in data.value && data.value[dn].Err? ==> r == data.value[dn]
  {
    match data
    case Err(e) => Err(e)
    case Ok(entries) =>
      if |entries| == 0 then Err(EmptyResult)
      else if dn !in entries then Err(NoResultFor(dn))
      else entries[dn]
  }

  /** Every class name in lower case. */
  function LowerAll(names: seq<string>): (r: seq<string>)
    ensures |r| == |names|
    ensures forall i :: 0 <= i < |r| ==> r[i] == Lower(names[i])
  {
    seq(|names|, i requires 0 <= i < |names| => Lower(names[i]))
  }

  /** The lower-cased object classes of the entry `dn`. */
  function GetObjectClasses(data: SearchResult, dn: string): (r: Result<seq<string>>)
    ensures r.Ok? <==> Read(data, dn).Ok? && ObjectClassAttribute in Read(data, dn).value
    ensures Read(data, dn).Err? ==> r == Err(Read(data, dn).error)
    ensures Read(data, dn).Ok? && ObjectClassAttribute !in Read(data, dn).value ==>
              r == Err(MissingAttribute(dn, ObjectClassAttribute))
    ensures r.Ok? ==> |r.value| == |Read(data, dn).value[ObjectClassAttribute]|
    ensures r.Ok? ==> forall i :: 0 <= i < |r.value| ==>
              r.value[i] == Lower(Read(data, dn).value[ObjectClassAttribute][i])
  {
    var entry :- Read(data, dn);
    if ObjectClassAttribute !in entry then Err(MissingAttribute(dn, ObjectClassAttribute))
    else Ok(LowerAll(entry[ObjectClassAttribute]))
  }

  /** The classes `GetObjectClasses` yields contain no upper-case letter. */
  lemma ObjectClassesAreLowerCase(data: SearchResult, dn: string)
    requires GetObjectClasses(data, dn).Ok?
    ensures forall i, j ::
              (0 <= i < |GetObjectClasses(data, dn).value| &&
               0 <= j < |GetObjectClasses(data, dn).value[i]|) ==>
              !IsUpper(GetObjectClasses(data, dn).value[i][j])
  {
  }

  // ---------------------------------------------------------------------
  // save

  /**
    One attribute of a change set with its new values: normally an array of
    values, but a caller may hand over a single string (or null) as well.
   */
  datatype Change = Change(key: string, values: Value)

  /** The write `save` sends to the directory. */
  datatype SaveRequest =
    | AddEntry(uid: string, data: seq<Change>)
    | ModifyEntry(uid: string, delete: seq<string>, replace: seq<Change>)

  /** The keys of a PHP array are distinct. */
  predicate DistinctKeys(data: seq<Change>) {
    forall i, j :: 0 <= i < j < |data| ==> data[i].key != data[j].key
  }

  function KeysOf(data: seq<Change>): set<string> {
    set c | c in data :: c.key
  }

  /**
    The inner `foreach` finds no non-empty value: every value of an array is
    PHP-empty, and a value that is not an array is not iterated at all.
   */
  predicate AllEmpty(values: Value) {
    values.Arr? ==> forall i :: 0 <= i < |values.entries| ==> Empty(values.entries[i].val)
  }

  /** The keys to delete: those whose values are all empty, in order. */
  function DeletedKeys(data: seq<Change>): seq<string> {
    if |data| == 0 then []
    else DeletedKeys(data[..|data| - 1]) +
         (if AllEmpty(data[|data| - 1].values) then [data[|data| - 1].key] else [])
  }

  /** The changes kept for replacement: those with a non-empty value, in order. */
  function Replaced(data: seq<Change>): seq<Change> {
    if |data| == 0 then []
    else Replaced(data[..|data| - 1]) +
         (if AllEmpty(data[|data| - 1].values) then [] else [data[|data| - 1]])
  }

  /** The scan for a non-empty value, stopping at the first one. */
  method ValuesEmpty(values: Value) returns (empty: bool)
    ensures empty <==> AllEmpty(values)
    ensures !values.Arr? ==> empty
  {
    empty := true;
    if !values.Arr? {
      return;
    }
    var es := values.entries;
    var i := 0;
    while i < |es|
      invariant 0 <= i <= |es|
      invariant forall k :: 0 <= k < i ==> Empty(es[k].val)
    {
      if !Empty(es[i].val) {
        empty := false;
        break;
      }
      i := i + 1;
    }
  }

  /** The pass over a change set that moves all-empty keys to the deletions. */
  method Partition(data: seq<Change>) returns (delete: seq<string>, replace: seq<Change>)
    ensures delete == DeletedKeys(data)
    ensures replace == Replaced(data)
  {
    delete := [];
    replace := [];
    var i := 0;
    while i < |data|
      invariant 0 <= i <= |data|
      invariant delete == DeletedKeys(data[..i])
      invariant replace == Replaced(data[..i])
    {
      var empty := ValuesEmpty(data[i].values);
      if empty {
        delete := delete + [data[i].key];
      } else {
        replace := replace + [data[i]];
      }
      assert data[..i + 1][..i] == data[..i];
      i := i + 1;
    }
    assert data[..|data|] == data;
  }

  /** `save`: a fresh entry is added whole; an existing one is modified. */
  method Save(uid: string, data: seq<Change>, existing: bool) returns (r: SaveRequest)
    ensures !existing ==> r == AddEntry(uid, data)
    ensures existing ==> r.ModifyEntry? && r.uid == uid
    ensures existing ==> r.delete == DeletedKeys(data) && r.replace == Replaced(data)
  {
    if !existing {
      r := AddEntry(uid, data);
    } else {
      var delete, replace := Partition(data);
      r := ModifyEntry(uid, delete, replace);
    }
  }

  /** A key is deleted exactly when some change under it has only empty values. */
  lemma {:induction false} DeletedKeysMembers(data: seq<Change>)
    ensures forall k :: k in DeletedKeys(data) <==>
              exists i :: 0 <= i < |data| && data[i].key == k && AllEmpty(data[i].values)
  {
    if |data| > 0 {
      var init := data[..|data| - 1];
      DeletedKeysMembers(init);
      assert forall i :: 0 <= i < |init| ==> init[i] == data[i];
    }
  }

  /** A change is replaced exactly when it is in the set and has a non-empty value. */
  lemma {:induction false} ReplacedMembers(data: seq<Change>)
    ensures forall c :: c in Replaced(data) <==> c in data && !AllEmpty(c.values)
  {
    if |data| > 0 {
      var init := data[..|data| - 1];
      ReplacedMembers(init);
      assert data == init + [data[|data| - 1]];
    }
  }

  /** Every change lands in exactly one of the two lists. */
  lemma {:induction false} PartitionSizes(data: seq<Change>)
    ensures |DeletedKeys(data)| + |Replaced(data)| == |data|
  {
    if |data| > 0 {
      PartitionSizes(data[..|data| - 1]);
    }
  }

  /**
    The modify request of `save`: a key is deleted iff all its values are
    empty (so a key without values, or with a single string or null instead
    of an array, is deleted); deletions and replacements
    are disjoint and together cover exactly the keys of the change set;
    replaced changes keep their values.
   */
  lemma PartitionExact(data: seq<Change>)
    requires DistinctKeys(data)
    ensures forall i :: 0 <= i < |data| ==>
              (data[i].key in DeletedKeys(data) <==> AllEmpty(data[i].values))
    ensures forall i :: 0 <= i < |data| && (!data[i].values.Arr? || |data[i].values.entries| == 0) ==>
              data[i].key in DeletedKeys(data)
    ensures forall c :: c in Replaced(data) ==> c in data && c.key !in DeletedKeys(data)
    ensures (set k | k in DeletedKeys(data)) + KeysOf(Replaced(data)) == KeysOf(data)
    ensures |DeletedKeys(data)| + |Replaced(data)| == |data|
  {
    DeletedKeysMembers(data);
    ReplacedMembers(data);
    PartitionSizes(data);
    forall i | 0 <= i < |data| && data[i].key in DeletedKeys(data)
      ensures AllEmpty(data[i].values)
    {
      var j :| 0 <= j < |data| && data[j].key == data[i].key && AllEmpty(data[j].values);
      assert i == j;
    }
    forall c | c in Replaced(data)
      ensures c.key !in DeletedKeys(data)
    {
      var i :| 0 <= i < |data| && data[i] == c;
      assert !AllEmpty(data[i].values);
    }
    forall k | k in KeysOf(data)
      ensures k in DeletedKeys(data) || k in KeysOf(Replaced(data))
    {
      var c :| c in data && c.key == k;
      if !AllEmpty(c.values) {
        assert c in Replaced(data);
      }
    }
  }

  /**
    A change given as a single string is deleted, however non-empty the
    string is, because the inner `foreach` never runs on it.
   */
  lemma {:induction false} ScalarChangeDeleted(key: string, value: string)
    ensures DeletedKeys([Change(key, Str(value))]) == [key]
    ensures Replaced([Change(key, Str(value))]) == []
  {
    var data := [Change(key, Str(value))];
    assert data[..0] == [];
    assert AllEmpty(data[0].values);
  }

  // ---------------------------------------------------------------------
  // listObjects

  /** The static description of an object type that `listObjects` consults. */
  datatype ObjectType = ObjectType(
    variant: Variant,
    filter: string,
    sortBy: string,
    supportedAttributes: seq<string>,
    requiredGroup: string)

  /** The caller's listing parameters (`base_dn`, `attributes`, `sort`). */
  datatype ListParams = ListParams(
    baseDn: Option<string>,
    attributes: Option<seq<string>>,
    sort: Option<string>)

  /** One search hit: its DN and its entry. */
  datatype Row = Row(uid: string, entry: RawEntry)

  /** A typed object built for one search hit. */
  datatype KolabObject = KolabObject(variant: Variant, uid: string, entry: RawEntry)

  /** The subtree search `listObjects` issues. */
  function ListSearch(serverBase: string, t: ObjectType, p: ListParams): (r: SearchRequest)
    ensures r.filter == t.filter && r.options.scope == SubScope
    ensures p.baseDn.None? || EmptyString(p.baseDn.value) ==> r.base == serverBase
    ensures p.baseDn.Some? && !EmptyString(p.baseDn.value) ==> r.base == p.baseDn.value
    ensures p.attributes.Some? ==> r.options.attributes == p.attributes
    ensures p.attributes.None? ==> r.options.attributes == Some(t.supportedAttributes)
  {
    var base := if p.baseDn.None? || EmptyString(p.baseDn.value) then serverBase else p.baseDn.value;
    var attributes := if p.attributes.Some? then p.attributes.value else t.supportedAttributes;
    SearchRequest(base, t.filter, SearchOptions(SubScope, Some(attributes)))
  }

  /** A hit is skipped when the type names a required group and the hit is a member. */
  predicate Skipped(t: ObjectType, members: set<string>, uid: string) {
    !EmptyString(t.requiredGroup) && uid in members
  }

  /** The objects built from the hits that are not skipped, in result order. */
  function Kept(rows: seq<Row>, t: ObjectType, members: set<string>): seq<KolabObject> {
    if |rows| == 0 then []
    else
      var last := rows[|rows| - 1];
      Kept(rows[..|rows| - 1], t, members) +
      (if Skipped(t, members, last.uid) then [] else [KolabObject(t.variant, last.uid, last.entry)])
  }

  /**
    `listObjects` after the search: a failed search fails the listing; every
    hit that is not a member of the type's required group becomes an object.
    `members` is the member list of the required group.
   */
  method ListObjects(t: ObjectType, result: Result<seq<Row>>, members: set<string>)
    returns (r: Result<seq<KolabObject>>)
    ensures result.Err? ==> r == Err(result.error)
    ensures result.Ok? ==> r == Ok(Kept(result.value, t, members))
  {
    if result.Err? {
      return Err(result.error);
    }
    var rows := result.value;
    var objects: seq<KolabObject> := [];
    var i := 0;
    while i < |rows|
      invariant 0 <= i <= |rows|
      invariant objects == Kept(rows[..i], t, members)
    {
      if !Skipped(t, members, rows[i].uid) {
        objects := objects + [KolabObject(t.variant, rows[i].uid, rows[i].entry)];
      }
      assert rows[..i + 1][..i] == rows[..i];
      i := i + 1;
    }
    assert rows[..|rows|] == rows;
    return Ok(objects);
  }

  /** An object is listed exactly when some hit that is not skipped produced it. */
  lemma {:induction false} KeptMembers(rows: seq<Row>, t: ObjectType, members: set<string>)
    ensures forall o :: o in Kept(rows, t, members) <==>
              o.variant == t.variant &&
              exists i :: 0 <= i < |rows| && rows[i] == Row(o.uid, o.entry) && !Skipped(t, members, o.uid)
  {
    if |rows| > 0 {
      var init := rows[..|rows| - 1];
      KeptMembers(init, t, members);
      assert forall i :: 0 <= i < |init| ==> init[i] == rows[i];
      assert rows[|rows| - 1] == Row(rows[|rows| - 1].uid, rows[|rows| - 1].entry);
    }
  }

  /** Listing keeps result order: the objects of consecutive result parts follow each other. */
  lemma {:induction false} KeptAppend(a: seq<Row>, b: seq<Row>, t: ObjectType, members: set<string>)
    ensures Kept(a + b, t, members) == Kept(a, t, members) + Kept(b, t, members)
    decreases |b|
  {
    if |b| == 0 {
      assert a + b == a;
    } else {
      var b' := b[..|b| - 1];
      assert (a + b)[..|a + b| - 1] == a + b';
      KeptAppend(a, b', t, members);
    }
  }

  /** Without a required group nothing is skipped. */
  lemma {:induction false} KeptWithoutGroup(rows: seq<Row>, t: ObjectType, members: set<string>)
    requires EmptyString(t.requiredGroup)
    ensures |Kept(rows, t, members)| == |rows|
    ensures forall i :: 0 <= i < |rows| ==>
              Kept(rows, t, members)[i] == KolabObject(t.variant, rows[i].uid, rows[i].entry)
  {
    if |rows| > 0 {
      KeptWithoutGroup(rows[..|rows| - 1], t, members);
    }
  }

  // ---------------------------------------------------------------------
  // determineType and generateServerUid

  /** The index of the last class that loads a type, scanning from the end. */
  function LastRegistered(ocs: seq<string>, registry: Registry): (r: Option<nat>)
    ensures r.Some? ==> r.value < |ocs| && registry(ocs[r.value]).Some?
    ensures r.Some? ==> forall j :: r.value < j < |ocs| ==> registry(ocs[j]).None?
    ensures r.None? ==> forall j :: 0 <= j < |ocs| ==> registry(ocs[j]).None?
  {
    if |ocs| == 0 then None
    else if registry(ocs[|ocs| - 1]).Some? then Some(|ocs| - 1)
    else LastRegistered(ocs[..|ocs| - 1], registry)
  }

  /**
    The generic `determineType` over the lower-cased classes of `uid`: the
    last listed class that loads a type wins. When none loads, the base
    object is chosen only if the FIRST listed class is `top` (the variable
    compared after the reversed scan holds the last class visited, which is
    the first one listed).
   */
  function DetermineType(ocs: seq<string>, uid: string, registry: Registry): (r: Result<Variant>)
    ensures r.Ok? <==> (exists i :: 0 <= i < |ocs| && registry(ocs[i]).Some?) ||
                       (|ocs| > 0 && ocs[0] == "top")
    ensures r.Err? ==> r.error == UnknownType(uid)
    ensures forall i ::
              (0 <= i < |ocs| && registry(ocs[i]).Some? &&
               (forall j :: i < j < |ocs| ==> registry(ocs[j]).None?)) ==>
              r == Ok(registry(ocs[i]).value)
    ensures (forall i :: 0 <= i < |ocs| ==> registry(ocs[i]).None?) && |ocs| > 0 && ocs[0] == "top" ==>
              r == Ok(BaseObject)
  {
    match LastRegistered(ocs, registry)
    case Some(i) => Ok(registry(ocs[i]).value)
    case None => if |ocs| > 0 && ocs[0] == "top" then Ok(BaseObject) else Err(UnknownType(uid))
  }

  /**
    A class listed after a registered one hides it only if it is registered
    itself: with `c` unregistered, an entry listing `top, person, c`
    resolves through `person`.
   */
  lemma MostSpecificRegisteredWins(registry: Registry, uid: string, c: string)
    requires registry(c).None?
    requires registry("person") == Some(Person)
    ensures DetermineType(["top", "person", c], uid, registry) == Ok(Person)
  {
    var ocs := ["top", "person", c];
    assert registry(ocs[1]) == Some(Person);
    assert forall j :: 1 < j < |ocs| ==> registry(ocs[j]).None?;
  }

  /**
    With the registry of the supported objects, a person entry resolves to
    its most specific supported class, and a class the registry does not
    know, listed after it, changes nothing.
   */
  lemma ClassRegistryResolvesMostSpecific(uid: string)
    ensures DetermineType(["top", "person", "organizationalperson"], uid, ClassRegistry) == Ok(Organizationalperson)
    ensures DetermineType(["top", "person", "organizationalperson", "hordeperson"], uid, ClassRegistry)
            == Ok(Organizationalperson)
    ensures DetermineType(["top", "hordeperson"], uid, ClassRegistry) == Ok(BaseObject)
  {
    var ocs := ["top", "person", "organizationalperson", "hordeperson"];
    assert ClassRegistry(ocs[3]).None?;
    var top := ["top", "hordeperson"];
    assert forall i :: 0 <= i < |top| ==> ClassRegistry(top[i]).None?;
  }

  /**
    The `top` fallback looks only at the first listed class: `top` listed
    anywhere else does not rescue an entry whose classes are all unknown.
   */
  lemma TopFallbackSeesFirstClassOnly(registry: Registry, uid: string, c: string)
    requires registry(c).None? && registry("top").None?
    requires c != "top"
    ensures DetermineType(["top", c], uid, registry) == Ok(BaseObject)
    ensures DetermineType([c, "top"], uid, registry) == Err(UnknownType(uid))
  {
    var ocs := [c, "top"];
    assert forall i :: 0 <= i < |ocs| ==> registry(ocs[i]).None?;
    var ocs' := ["top", c];
    assert forall i :: 0 <= i < |ocs'| ==> registry(ocs'[i]).None?;
  }

  /** The generic UID of a new object: its id in front of the base DN. */
  function GenerateServerUid(id: string, base: string): (r: string)
    ensures |r| == |id| + 1 + |base|
    ensures r[..|id|] == id && r[|id|] == ',' && r[|id| + 1..] == base
  {
    id + "," + base
  }
}
