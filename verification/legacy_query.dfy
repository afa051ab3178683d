/**
  The legacy criteria compiler of the LDAP server (`searchQuery` and
  `buildSearchQuery`, inherited from the Turba LDAP driver): a PHP criteria
  array in which `OR` and `AND` entries open composite filters and entries
  carrying a `field` become item clauses, rendered as RFC 4515 filter text.

  `Horde_LDAP::buildClause` and the charset conversion are foreign code and
  appear as the two functions of a `ClauseEnv`.
 */
module LegacyQuery {
  import opened PhpValues
  import opened FilterSyntax

  /** The foreign helpers: the clause builder and the charset conversion of a test value. */
  datatype ClauseEnv = ClauseEnv(
    buildClause: (Value, Value, Value, bool) -> string,
    convertCharset: Value -> Value)

  const OrKey: Key := StrKey("OR")
  const AndKey: Key := StrKey("AND")
  const FieldKey: Key := StrKey("field")
  const OpKey: Key := StrKey("op")
  const TestKey: Key := StrKey("test")
  const BeginKey: Key := StrKey("begin")

  /** The filter that accepts every entry: `(objectclass=*)`. */
  const PresenceFilter: string := "(objectclass=*)"

  /**
    Where the clause of a test met inside a list of tests takes its `begin`
    flag from: the enclosing list (as the code is written) or the test itself.
   */
  datatype BeginSource = EnclosingList | OwnTest

  /** The clause of a single test, with the `begin` flag read from `beginFrom`. */
  function Clause(test: Value, beginFrom: Value, env: ClauseEnv): string {
    env.buildClause(Get(test, FieldKey), Get(test, OpKey),
                    env.convertCharset(Get(test, TestKey)), !Empty(Get(beginFrom, BeginKey)))
  }

  /** `buildSearchQuery($criteria)`: the pieces of every entry of `c`, concatenated. */
  function Build(c: Value, env: ClauseEnv, src: BeginSource): string
    decreases c, 1
  {
    if c.Arr? then BuildFrom(c, 0, env, src) else ""
  }

  function BuildFrom(c: Value, i: nat, env: ClauseEnv, src: BeginSource): string
    requires c.Arr? && i <= |c.entries|
    decreases c, 0, |c.entries| - i
  {
    if i == |c.entries| then ""
    else Item(c.entries[i].val, env, src) + BuildFrom(c, i + 1, env, src)
  }

  /** The piece one entry `vals` of a criteria array contributes. */
  function Item(vals: Value, env: ClauseEnv, src: BeginSource): string
    decreases vals, 2
  {
    if !Empty(Get(vals, OrKey)) then "(|" + Build(vals, env, src) + ")"
    else if !Empty(Get(vals, AndKey)) then "(&" + Build(vals, env, src) + ")"
    else if IsSet(vals, FieldKey) then Clause(vals, vals, env)
    else if vals.Arr? then Tests(vals, 0, env, src)
    else ""
  }

  /** A list of tests from index `j` on: nested groups, or clauses. */
  function Tests(vals: Value, j: nat, env: ClauseEnv, src: BeginSource): string
    requires vals.Arr? && j <= |vals.entries|
    decreases vals, 0, |vals.entries| - j
  {
    if j == |vals.entries| then ""
    else
      var test := vals.entries[j].val;
      var piece :=
        if !Empty(Get(test, OrKey)) then "(|" + Build(test, env, src) + ")"
        else if !Empty(Get(test, AndKey)) then "(&" + Build(test, env, src) + ")"
        else Clause(test, if src == OwnTest then test else vals, env);
      piece + Tests(vals, j + 1, env, src)
  }

  /** The top-level loop of `searchQuery`: only `OR` and `AND` keys contribute. */
  function TopLevel(criteria: seq<Entry>, env: ClauseEnv, src: BeginSource): string {
    if |criteria| == 0 then ""
    else
      var last := criteria[|criteria| - 1];
      TopLevel(criteria[..|criteria| - 1], env, src) +
      (if last.key == OrKey then "(|" + Build(last.val, env, src) + ")"
       else if last.key == AndKey then "(&" + Build(last.val, env, src) + ")"
       else "")
  }

  /**
    `searchQuery`: the criteria, or `(objectclass=*)` when there are none,
    AND-ed with the source-wide filter when one is configured.
   */
  function Compile(criteria: seq<Entry>, sourceFilter: string, env: ClauseEnv, src: BeginSource): (r: string)
    ensures |criteria| == 0 && EmptyString(sourceFilter) ==> r == PresenceFilter
    ensures |criteria| == 0 && !EmptyString(sourceFilter) ==>
              r == "(&(" + sourceFilter + ")" + PresenceFilter + ")"
    ensures |criteria| > 0 && EmptyString(sourceFilter) ==> r == TopLevel(criteria, env, src)
    ensures |criteria| > 0 && !EmptyString(sourceFilter) ==>
              r == "(&(" + sourceFilter + ")" + TopLevel(criteria, env, src) + ")"
  {
    var filter := if |criteria| > 0 then TopLevel(criteria, env, src) else PresenceFilter;
    if !EmptyString(sourceFilter) then "(&" + "(" + sourceFilter + ")" + filter + ")" else filter
  }

  /** `searchQuery` with every test's clause honouring that test's own `begin` flag. */
  function SearchQuery(criteria: seq<Entry>, sourceFilter: string, env: ClauseEnv): string {
    Compile(criteria, sourceFilter, env, OwnTest)
  }

  /** `searchQuery` as written: a test inside a list reads `begin` from the list. */
  function SearchQueryAsWritten(criteria: seq<Entry>, sourceFilter: string, env: ClauseEnv): string {
    Compile(criteria, sourceFilter, env, EnclosingList)
  }

  // ---------------------------------------------------------------------
  // Top-level properties

  /** Entries under other keys than `OR` and `AND` are ignored at the top level. */
  lemma {:induction false} TopLevelIgnoresOtherKeys(criteria: seq<Entry>, env: ClauseEnv, src: BeginSource)
    requires forall i :: 0 <= i < |criteria| ==> criteria[i].key != OrKey && criteria[i].key != AndKey
    ensures TopLevel(criteria, env, src) == ""
  {
    if |criteria| > 0 {
      TopLevelIgnoresOtherKeys(criteria[..|criteria| - 1], env, src);
    }
  }

  /** Top-level entries contribute in order. */
  lemma {:induction false} TopLevelAppend(a: seq<Entry>, b: seq<Entry>, env: ClauseEnv, src: BeginSource)
    ensures TopLevel(a + b, env, src) == TopLevel(a, env, src) + TopLevel(b, env, src)
    decreases |b|
  {
    if |b| == 0 {
      assert a + b == a;
    } else {
      var b' := b[..|b| - 1];
      assert (a + b)[..|a + b| - 1] == a + b';
      assert (a + b)[|a + b| - 1] == b[|b| - 1];
      TopLevelAppend(a, b', env, src);
    }
  }

  // ---------------------------------------------------------------------
  // Typed criteria and their array encoding

  /**
    Criteria as their callers mean them: a test of a field, or a group of
    criteria joined by `AND` or `OR`.
   */
  datatype Criterion =
    | Test(field: string, comparison: string, value: string, begin: bool)
    | Group(op: Connective, items: seq<Criterion>)

  /** Groups are `AND` or `OR`, and nested groups are not empty. */
  predicate WellFormed(c: Criterion) {
    match c
    case Test(_, _, _, _) => true
    case Group(op, items) =>
      op != Not && |items| > 0 && forall k :: 0 <= k < |items| ==> WellFormed(items[k])
  }

  /** The array key that opens a group. */
  function GroupKey(op: Connective): Key {
    if op == Or then OrKey else AndKey
  }

  /** The array form a caller passes: a test as its four named entries, a group as `[KEY => list]`. */
  function Encode(c: Criterion): Value
    decreases c, 1
  {
    match c
    case Test(f, o, v, b) =>
      Arr([Entry(FieldKey, Str(f)), Entry(OpKey, Str(o)), Entry(TestKey, Str(v)),
           Entry(BeginKey, Str(if b then "1" else ""))])
    case Group(op, items) => Arr([Entry(GroupKey(op), EncodeList(c))])
  }

  /** The integer-keyed list of a group's encoded items. */
  function EncodeList(c: Criterion): (r: Value)
    requires c.Group?
    ensures r.Arr? && |r.entries| == |c.items|
    ensures forall k :: 0 <= k < |c.items| ==> r.entries[k] == Entry(IntKey(k), Encode(c.items[k]))
    decreases c, 0
  {
    Arr(seq(|c.items|, k requires 0 <= k < |c.items| => Entry(IntKey(k), Encode(c.items[k]))))
  }

  /** The filter a criterion denotes, with item filters built by the clause builder. */
  function ToFilter(c: Criterion, env: ClauseEnv): Filter
    decreases c, 1
  {
    match c
    case Test(f, o, v, b) => Leaf(env.buildClause(Str(f), Str(o), env.convertCharset(Str(v)), b))
    case Group(op, items) => Combined(op, FiltersFrom(c, 0, env))
  }

  /** The filters of a group's items from index `j` on. */
  function FiltersFrom(c: Criterion, j: nat, env: ClauseEnv): (r: seq<Filter>)
    requires c.Group? && j <= |c.items|
    ensures |r| == |c.items| - j
    decreases c, 0
  {
    seq(|c.items| - j, k requires 0 <= k < |c.items| - j => ToFilter(c.items[j + k], env))
  }

  /** The filters from `j` on are the filter of item `j` followed by those from `j + 1` on. */
  lemma FiltersFromStep(c: Criterion, j: nat, env: ClauseEnv)
    requires c.Group? && j < |c.items|
    ensures FiltersFrom(c, j, env) == [ToFilter(c.items[j], env)] + FiltersFrom(c, j + 1, env)
  {
  }

  /** The top-level criteria array of a single group. */
  function TopCriteria(c: Criterion): seq<Entry>
    requires c.Group?
  {
    [Entry(GroupKey(c.op), EncodeList(c))]
  }

  // ---------------------------------------------------------------------
  // The compiled text of well-formed criteria

  /** The four named entries of an encoded test are found under their keys, and no group key is present. */
  lemma TestEntries(f: string, o: string, v: string, flag: Value)
    ensures var es := [Entry(FieldKey, Str(f)), Entry(OpKey, Str(o)), Entry(TestKey, Str(v)), Entry(BeginKey, flag)];
            Lookup(es, FieldKey) == Str(f) && Lookup(es, OpKey) == Str(o) &&
            Lookup(es, TestKey) == Str(v) && Lookup(es, BeginKey) == flag &&
            Lookup(es, OrKey) == Null && Lookup(es, AndKey) == Null
  {
    var es := [Entry(FieldKey, Str(f)), Entry(OpKey, Str(o)), Entry(TestKey, Str(v)), Entry(BeginKey, flag)];
    assert FieldKey != OpKey && FieldKey != TestKey && FieldKey != BeginKey;
    assert OpKey != TestKey && OpKey != BeginKey && TestKey != BeginKey;
    assert forall i :: 0 <= i < |es| ==> es[i].key != OrKey && es[i].key != AndKey;
    LookupFirst(es, 0, FieldKey);
    LookupFirst(es, 1, OpKey);
    LookupFirst(es, 2, TestKey);
    LookupFirst(es, 3, BeginKey);
  }

  /** An encoded test is read back as a clause of its own field, comparison, value and flag. */
  lemma EncodedTestIsClause(c: Criterion, env: ClauseEnv)
    requires c.Test?
    ensures Get(Encode(c), OrKey) == Null && Get(Encode(c), AndKey) == Null
    ensures IsSet(Encode(c), FieldKey)
    ensures !Empty(Get(Encode(c), BeginKey)) <==> c.begin
    ensures Clause(Encode(c), Encode(c), env) == AsString(ToFilter(c, env))
  {
    var flag := Str(if c.begin then "1" else "");
    TestEntries(c.field, c.comparison, c.value, flag);
    assert !Empty(flag) == c.begin;
    assert ToFilter(c, env) == Leaf(env.buildClause(Str(c.field), Str(c.comparison), env.convertCharset(Str(c.value)), c.begin));
  }

  /** An encoded list has no entry under a string key. */
  lemma ListHasNoNamedEntry(c: Criterion, k: string)
    requires c.Group?
    ensures Get(EncodeList(c), StrKey(k)) == Null
  {
    var l := EncodeList(c);
    assert forall i :: 0 <= i < |l.entries| ==> l.entries[i].key != StrKey(k);
  }

  /**
    No test that sits in the list of a nested group carries a `begin` flag:
    the tests whose clause, as the code is written, reads the flag of the
    list instead of its own.
   */
  predicate ListedTestsPlain(c: Criterion) {
    match c
    case Test(_, _, _, _) => true
    case Group(_, items) =>
      forall k :: 0 <= k < |items| ==> (items[k].Test? ==> !items[k].begin) && ListedTestsPlain(items[k])
  }

  /**
    A well-formed criterion compiles to the string form of the filter it
    denotes when each test's clause honours its own `begin` flag, and also as
    the code is written when no listed test carries one.
   */
  lemma {:induction false} ItemDenotes(c: Criterion, env: ClauseEnv, src: BeginSource)
    requires WellFormed(c)
    requires src == OwnTest || ListedTestsPlain(c)
    ensures Item(Encode(c), env, src) == AsString(ToFilter(c, env))
    decreases c, 1
  {
    match c
    case Test(_, _, _, _) =>
      EncodedTestIsClause(c, env);
    case Group(op, items) =>
      CombinedAsString(op, FiltersFrom(c, 0, env));
      ListFromDenotes(c, 0, env, src);
      GroupItem(c, env, src);
  }

  /** An encoded group is its connective around the tests of its list. */
  lemma GroupItem(c: Criterion, env: ClauseEnv, src: BeginSource)
    requires c.Group? && WellFormed(c)
    ensures Item(Encode(c), env, src) == "(" + [Symbol(c.op)] + Tests(EncodeList(c), 0, env, src) + ")"
  {
    var e := Encode(c);
    var l := EncodeList(c);
    ListHasNoNamedEntry(c, "OR");
    ListHasNoNamedEntry(c, "AND");
    ListHasNoNamedEntry(c, "field");
    assert Get(e, GroupKey(c.op)) == l;
    assert Build(e, env, src) == Item(l, env, src) + BuildFrom(e, 1, env, src);
    assert Item(l, env, src) == Tests(l, 0, env, src);
    if c.op == Or {
      assert Item(e, env, src) == "(|" + Build(e, env, src) + ")";
    } else {
      assert Get(e, OrKey) == Null;
      assert Item(e, env, src) == "(&" + Build(e, env, src) + ")";
    }
  }

  /** The tests of an encoded group from `j` on compile to the joined renderings of its items' filters. */
  lemma {:induction false} ListFromDenotes(c: Criterion, j: nat, env: ClauseEnv, src: BeginSource)
    requires c.Group? && WellFormed(c) && j <= |c.items|
    requires src == OwnTest || ListedTestsPlain(c)
    ensures Tests(EncodeList(c), j, env, src) == Join(FiltersFrom(c, j, env))
    decreases c, 0, |c.items| - j
  {
    if j == |c.items| {
      assert FiltersFrom(c, j, env) == [];
    } else {
      var item := c.items[j];
      ListFromDenotes(c, j + 1, env, src);
      FiltersFromStep(c, j, env);
      JoinCons(ToFilter(item, env), FiltersFrom(c, j + 1, env));
      ItemDenotes(item, env, src);
      TestsStep(c, j, env, src);
    }
  }

  /** One step of the test loop over an encoded list: the item at `j` in front of the rest. */
  lemma TestsStep(c: Criterion, j: nat, env: ClauseEnv, src: BeginSource)
    requires c.Group? && WellFormed(c) && j < |c.items|
    requires src == OwnTest || ListedTestsPlain(c)
    ensures Tests(EncodeList(c), j, env, src) ==
              Item(Encode(c.items[j]), env, src) + Tests(EncodeList(c), j + 1, env, src)
  {
    var l := EncodeList(c);
    var item := c.items[j];
    assert l.entries[j].val == Encode(item);
    ListHasNoNamedEntry(c, "begin");
    TestPieceIsItem(item, l, env, src);
  }

  /**
    Inside a list without a `begin` entry, a well-formed item contributes
    what it contributes anywhere else, unless it is a test that reads the
    list's flag while carrying its own.
   */
  lemma TestPieceIsItem(c: Criterion, list: Value, env: ClauseEnv, src: BeginSource)
    requires WellFormed(c)
    requires Get(list, BeginKey) == Null
    requires src == OwnTest || (c.Test? ==> !c.begin)
    ensures (if !Empty(Get(Encode(c), OrKey)) then "(|" + Build(Encode(c), env, src) + ")"
             else if !Empty(Get(Encode(c), AndKey)) then "(&" + Build(Encode(c), env, src) + ")"
             else Clause(Encode(c), if src == OwnTest then Encode(c) else list, env))
            == Item(Encode(c), env, src)
  {
    if c.Test? {
      EncodedTestIsClause(c, env);
    }
  }

  /** The entries of a top-level list from `j` on compile to the joined renderings of the items' filters. */
  lemma {:induction false} TopListDenotes(c: Criterion, j: nat, env: ClauseEnv, src: BeginSource)
    requires c.Group? && WellFormed(c) && j <= |c.items|
    requires src == OwnTest || forall k :: 0 <= k < |c.items| ==> ListedTestsPlain(c.items[k])
    ensures BuildFrom(EncodeList(c), j, env, src) == Join(FiltersFrom(c, j, env))
    decreases |c.items| - j
  {
    if j == |c.items| {
      assert FiltersFrom(c, j, env) == [];
    } else {
      var item := c.items[j];
      TopListDenotes(c, j + 1, env, src);
      FiltersFromStep(c, j, env);
      JoinCons(ToFilter(item, env), FiltersFrom(c, j + 1, env));
      assert EncodeList(c).entries[j].val == Encode(item);
      ItemDenotes(item, env, src);
    }
  }

  /** The top level of one well-formed group compiles to the string form of its filter. */
  lemma TopLevelDenotes(c: Criterion, env: ClauseEnv, src: BeginSource)
    requires c.Group? && WellFormed(c)
    requires src == OwnTest || forall k :: 0 <= k < |c.items| ==> ListedTestsPlain(c.items[k])
    ensures TopLevel(TopCriteria(c), env, src) == AsString(ToFilter(c, env))
  {
    var crit := TopCriteria(c);
    var l := EncodeList(c);
    assert crit[..0] == [];
    assert TopLevel(crit, env, src) == "(" + [Symbol(c.op)] + Build(l, env, src) + ")";
    TopListDenotes(c, 0, env, src);
    CombinedAsString(c.op, FiltersFrom(c, 0, env));
  }

  /**
    Criteria made of one well-formed group compile to the string form of
    the filter they denote, AND-ed with the source-wide filter if any.
   */
  lemma SearchQueryDenotes(c: Criterion, sourceFilter: string, env: ClauseEnv)
    requires c.Group? && WellFormed(c)
    ensures EmptyString(sourceFilter) ==>
              SearchQuery(TopCriteria(c), sourceFilter, env) == AsString(ToFilter(c, env))
    ensures !EmptyString(sourceFilter) ==>
              SearchQuery(TopCriteria(c), sourceFilter, env) ==
                "(&(" + sourceFilter + ")" + AsString(ToFilter(c, env)) + ")"
  {
    TopLevelDenotes(c, env, OwnTest);
  }

  /**
    The code as written compiles one well-formed group to the filter it
    denotes, exactly as the corrected reading does, whenever no test nested
    in a list below the top group carries a `begin` flag. The tests listed
    directly in the top group may carry one.
   */
  lemma SearchQueryAsWrittenDenotes(c: Criterion, sourceFilter: string, env: ClauseEnv)
    requires c.Group? && WellFormed(c)
    requires forall k :: 0 <= k < |c.items| ==> ListedTestsPlain(c.items[k])
    ensures SearchQueryAsWritten(TopCriteria(c), sourceFilter, env) == SearchQuery(TopCriteria(c), sourceFilter, env)
    ensures EmptyString(sourceFilter) ==>
              SearchQueryAsWritten(TopCriteria(c), sourceFilter, env) == AsString(ToFilter(c, env))
  {
    TopLevelDenotes(c, env, EnclosingList);
    TopLevelDenotes(c, env, OwnTest);
  }

  // ---------------------------------------------------------------------
  // The `begin` flag of nested tests

  /** A clause builder that shows the `begin` flag it is handed. */
  function ShowBegin(field: Value, op: Value, rhs: Value, begin: bool): string {
    if begin then "B" else "N"
  }

  function Identity(v: Value): Value {
    v
  }

  /** The clause builder and charset conversion that make the `begin` flag visible. */
  const BeginShown: ClauseEnv := ClauseEnv(ShowBegin, Identity)

  /** A prefix test nested two groups deep: `OR => [AND => [test with begin]]`. */
  const NestedPrefixTest: Criterion := Test("cn", "=", "a", true)
  const NestedPrefix: Criterion := Group(Or, [Group(And, [NestedPrefixTest])])

  /** With each test's own flag, the nested prefix test asks for a prefix clause. */
  lemma NestedBeginKept()
    ensures SearchQuery(TopCriteria(NestedPrefix), "", BeginShown) == "(|(&B))"
  {
    var env := BeginShown;
    var t := NestedPrefixTest;
    var inner := Group(And, [t]);
    var c := NestedPrefix;
    assert WellFormed(c);
    SearchQueryDenotes(c, "", env);
    assert ToFilter(t, env) == Leaf("B");
    assert ToFilter(inner, env) == Combined(And, [Leaf("B")]);
    assert ToFilter(c, env) == Combined(Or, [Combined(And, [Leaf("B")])]);
    CombinedAsString(And, [Leaf("B")]);
    JoinCons(Leaf("B"), []);
    CombinedAsString(Or, [Combined(And, [Leaf("B")])]);
    JoinCons(Combined(And, [Leaf("B")]), []);
  }

  /** As written, the nested prefix test reads the flag of its list and asks for a plain clause. */
  lemma NestedBeginLostAsWritten()
    ensures SearchQueryAsWritten(TopCriteria(NestedPrefix), "", BeginShown) == "(|(&N))"
  {
    var env := BeginShown;
    var t := NestedPrefixTest;
    var inner := Group(And, [t]);
    var c := NestedPrefix;
    var li := EncodeList(inner);
    var lc := EncodeList(c);
    var ei := Encode(inner);
    assert Get(li, BeginKey) == Null by { ListHasNoNamedEntry(inner, "begin"); }
    ListHasNoNamedEntry(c, "OR");
    ListHasNoNamedEntry(c, "AND");
    ListHasNoNamedEntry(c, "field");
    EncodedTestIsClause(t, env);
    assert li.entries[0].val == Encode(t);
    assert Tests(li, 1, env, EnclosingList) == "";
    assert Tests(li, 0, env, EnclosingList) == "N";
    assert WellFormed(inner);
    GroupItem(inner, env, EnclosingList);
    assert Item(ei, env, EnclosingList) == "(&N)";
    assert lc.entries[0].val == ei;
    assert BuildFrom(lc, 1, env, EnclosingList) == "";
    assert Build(lc, env, EnclosingList) == "(&N)";
    var crit := TopCriteria(c);
    assert crit[..0] == [];
    assert TopLevel(crit, env, EnclosingList) == "(|(&N))";
  }

  /**
    The code as written and the corrected reading disagree on well-formed
    criteria: the nested prefix test loses its `begin` flag.
   */
  lemma NestedBeginIgnoredAsWritten()
    ensures WellFormed(NestedPrefix)
    ensures SearchQueryAsWritten(TopCriteria(NestedPrefix), "", BeginShown) !=
            SearchQuery(TopCriteria(NestedPrefix), "", BeginShown)
  {
    NestedBeginKept();
    NestedBeginLostAsWritten();
  }
}
