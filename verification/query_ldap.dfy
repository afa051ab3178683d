/**
  The LDAP query compiler (`Horde_Kolab_Server_Query_Ldap`): a visitor that
  turns a criteria tree into a filter of the filter library, one library
  call per node, and turns any library failure into an INVALID_QUERY
  failure of the whole conversion.

  The filter library (`Net_LDAP2_Filter`) is not modelled: `create` and the
  decision whether `combine` accepts its arguments are parameters. A
  combined filter that the library accepts is the RFC 4515 composite of its
  parts.
 */
module QueryLdap {
  import opened Outcomes
  import opened FilterSyntax

  /** The seven comparisons of a single criteria element. */
  datatype SingleKind = Equals | Begins | Ends | Contains | Less | Greater | Approx

  /** The operator name each single converter hands to the library. */
  function OperatorName(k: SingleKind): string {
    match k
    case Equals => "equals"
    case Begins => "begins"
    case Ends => "ends"
    case Contains => "contains"
    case Less => "less"
    case Greater => "greater"
    case Approx => "approx"
  }

  /** Distinct comparisons reach the library under distinct operator names. */
  lemma OperatorNamesDistinct(k1: SingleKind, k2: SingleKind)
    ensures OperatorName(k1) == OperatorName(k2) ==> k1 == k2
  {
  }

  /** A criteria tree. */
  datatype Element =
    | Single(kind: SingleKind, name: string, value: string)
    | NotElement(elements: seq<Element>)
    | AndElement(elements: seq<Element>)
    | OrElement(elements: seq<Element>)

  /** What the filter library answers to `create`. */
  datatype LibResult = Created(text: string) | LibError(message: string)

  /**
    The filter library: `create(name, operator, value)`, and the error, if
    any, that `combine(operator, filters)` reports.
   */
  datatype FilterLibrary = FilterLibrary(
    create: (string, string, string) -> LibResult,
    combineError: (Connective, seq<Filter>) -> Option<string>)

  /** `_convertSingle`: one `create` call, its failure becoming INVALID_QUERY. */
  function ConvertSingle(name: string, operator: string, value: string, lib: FilterLibrary): (r: Result<Filter>)
    ensures r.Ok? <==> lib.create(name, operator, value).Created?
    ensures r.Ok? ==> r.value == Leaf(lib.create(name, operator, value).text)
    ensures r.Err? ==> r.error == InvalidQuery(lib.create(name, operator, value).message)
  {
    match lib.create(name, operator, value)
    case Created(t) => Ok(Leaf(t))
    case LibError(m) => Err(InvalidQuery(m))
  }

  /** `Net_LDAP2_Filter::combine` followed by `_handleError`. */
  function Combine(op: Connective, parts: seq<Filter>, lib: FilterLibrary): (r: Result<Filter>)
    ensures r.Ok? <==> lib.combineError(op, parts).None?
    ensures r.Ok? ==> r.value == Combined(op, parts)
    ensures r.Err? ==> r.error == InvalidQuery(lib.combineError(op, parts).value)
  {
    match lib.combineError(op, parts)
    case None => Ok(Combined(op, parts))
    case Some(m) => Err(InvalidQuery(m))
  }

  /**
    `convert` of an element: the single converters call `create` with their
    own operator name, `Not` converts only its first element and combines it
    with `!`, `And` and `Or` convert every element in order and combine them
    with `&` and `|`. The first failure aborts the whole conversion.
   */
  function Convert(e: Element, lib: FilterLibrary): (r: Result<Filter>)
    ensures r.Err? ==> r.error.InvalidQuery? || r.error == MissingOperand
    ensures e.Single? ==> r == ConvertSingle(e.name, OperatorName(e.kind), e.value, lib)
    ensures e.NotElement? && |e.elements| == 0 ==> r == Err(MissingOperand)
    ensures r.Ok? && e.NotElement? ==> r.value.Combined? && r.value.op == Not && |r.value.parts| == 1
    ensures r.Ok? && e.AndElement? ==> r.value.Combined? && r.value.op == And && |r.value.parts| == |e.elements|
    ensures r.Ok? && e.OrElement? ==> r.value.Combined? && r.value.op == Or && |r.value.parts| == |e.elements|
    decreases e, 1
  {
    match e
    case Single(k, n, v) => ConvertSingle(n, OperatorName(k), v, lib)
    case NotElement(es) =>
      if |es| == 0 then Err(MissingOperand)
      else
        var f :- Convert(es[0], lib);
        Combine(Not, [f], lib)
    case AndElement(es) =>
      var parts :- ConvertFrom(e, 0, lib);
      Combine(And, parts, lib)
    case OrElement(es) =>
      var parts :- ConvertFrom(e, 0, lib);
      Combine(Or, parts, lib)
  }

  /** The conversions of the elements of a group from index `i` on, in order. */
  function ConvertFrom(e: Element, i: nat, lib: FilterLibrary): (r: Result<seq<Filter>>)
    requires !e.Single? && i <= |e.elements|
    ensures r.Ok? ==> |r.value| == |e.elements| - i
    ensures r.Err? ==> r.error.InvalidQuery? || r.error == MissingOperand
    decreases e, 0, |e.elements| - i
  {
    if i == |e.elements| then Ok([])
    else
      var f :- Convert(e.elements[i], lib);
      var rest :- ConvertFrom(e, i + 1, lib);
      Ok([f] + rest)
  }

  /** `__toString`: the string form of the converted root. */
  function ToString(e: Element, lib: FilterLibrary): (r: Result<string>)
    ensures r.Ok? <==> Convert(e, lib).Ok?
    ensures r.Ok? ==> r.value == AsString(Convert(e, lib).value)
    ensures r.Err? ==> r.error == Convert(e, lib).error
  {
    var f :- Convert(e, lib);
    Ok(AsString(f))
  }

  // ---------------------------------------------------------------------
  // Properties of the conversion

  /**
    The elements of a group from `i` on convert together iff each of them
    converts; the parts are then exactly those conversions, in order.
   */
  lemma {:induction false} ConvertFromParts(e: Element, i: nat, lib: FilterLibrary)
    requires !e.Single? && i <= |e.elements|
    ensures ConvertFrom(e, i, lib).Ok? <==>
              forall k :: i <= k < |e.elements| ==> Convert(e.elements[k], lib).Ok?
    decreases |e.elements| - i
  {
    if i < |e.elements| {
      ConvertFromParts(e, i + 1, lib);
      ConvertFromStep(e, i, lib);
    }
  }

  /** The parts of a successful group conversion are its elements' conversions, in order. */
  lemma {:induction false} ConvertFromValues(e: Element, i: nat, lib: FilterLibrary)
    requires !e.Single? && i <= |e.elements|
    requires ConvertFrom(e, i, lib).Ok?
    ensures forall k :: 0 <= k < |ConvertFrom(e, i, lib).value| ==>
              Convert(e.elements[i + k], lib) == Ok(ConvertFrom(e, i, lib).value[k])
    decreases |e.elements| - i
  {
    if i < |e.elements| {
      ConvertFromStep(e, i, lib);
      ConvertFromValues(e, i + 1, lib);
      var parts := ConvertFrom(e, i, lib).value;
      var rest := ConvertFrom(e, i + 1, lib).value;
      assert parts == [Convert(e.elements[i], lib).value] + rest;
      forall k | 1 <= k < |parts|
        ensures Convert(e.elements[i + k], lib) == Ok(parts[k])
      {
        assert parts[k] == rest[k - 1];
        assert Convert(e.elements[(i + 1) + (k - 1)], lib) == Ok(rest[k - 1]);
      }
    }
  }

  /** One step of `ConvertFrom`: the first element in front of the rest. */
  lemma ConvertFromStep(e: Element, i: nat, lib: FilterLibrary)
    requires !e.Single? && i < |e.elements|
    ensures ConvertFrom(e, i, lib).Ok? <==>
              Convert(e.elements[i], lib).Ok? && ConvertFrom(e, i + 1, lib).Ok?
    ensures ConvertFrom(e, i, lib).Ok? ==>
              ConvertFrom(e, i, lib).value ==
                [Convert(e.elements[i], lib).value] + ConvertFrom(e, i + 1, lib).value
  {
  }

  /**
    When the elements of a group fail to convert, the failure is that of the
    first element that fails: the later elements are not converted.
   */
  lemma {:induction false} ConvertFromFirstFailure(e: Element, i: nat, lib: FilterLibrary)
    requires !e.Single? && i <= |e.elements|
    requires ConvertFrom(e, i, lib).Err?
    ensures exists k :: i <= k < |e.elements| &&
              Convert(e.elements[k], lib).Err? &&
              ConvertFrom(e, i, lib).error == Convert(e.elements[k], lib).error &&
              forall j :: i <= j < k ==> Convert(e.elements[j], lib).Ok?
    decreases |e.elements| - i
  {
    if Convert(e.elements[i], lib).Ok? {
      ConvertFromFirstFailure(e, i + 1, lib);
      var k :| i + 1 <= k < |e.elements| &&
               Convert(e.elements[k], lib).Err? &&
               ConvertFrom(e, i + 1, lib).error == Convert(e.elements[k], lib).error &&
               forall j :: i + 1 <= j < k ==> Convert(e.elements[j], lib).Ok?;
      assert forall j :: i <= j < k ==> Convert(e.elements[j], lib).Ok?;
    }
  }

  /**
    `Not` with elements converts iff its first element converts and the
    library accepts negating it; its one part is that element's conversion,
    and a failure of either is the failure of the `Not`.
   */
  lemma NotConvertsFirst(first: Element, rest: seq<Element>, lib: FilterLibrary)
    ensures Convert(first, lib).Err? ==> Convert(NotElement([first] + rest), lib) == Convert(first, lib)
    ensures Convert(first, lib).Ok? ==>
              Convert(NotElement([first] + rest), lib) == Combine(Not, [Convert(first, lib).value], lib)
    ensures Convert(NotElement([first] + rest), lib).Ok? <==>
              Convert(first, lib).Ok? && lib.combineError(Not, [Convert(first, lib).value]).None?
    ensures Convert(NotElement([first] + rest), lib).Ok? ==>
              Convert(NotElement([first] + rest), lib).value == Combined(Not, [Convert(first, lib).value])
  {
    assert ([first] + rest)[0] == first;
  }

  /** `Not` converts only its first element: the others are never looked at. */
  lemma NotIgnoresRest(first: Element, rest: seq<Element>, lib: FilterLibrary)
    ensures Convert(NotElement([first] + rest), lib) == Convert(NotElement([first]), lib)
  {
  }

  /** A failing element anywhere in a group fails the group with that element's error kind. */
  lemma GroupFailsOnChildFailure(e: Element, k: nat, lib: FilterLibrary)
    requires e.AndElement? || e.OrElement?
    requires k < |e.elements| && Convert(e.elements[k], lib).Err?
    ensures Convert(e, lib).Err?
  {
    ConvertFromParts(e, 0, lib);
  }

  /**
    A group converts exactly when all its elements convert and the library
    accepts their combination; its parts are the elements' conversions.
   */
  lemma GroupConvertsEveryChild(e: Element, lib: FilterLibrary)
    requires e.AndElement? || e.OrElement?
    ensures ConvertFrom(e, 0, lib).Ok? <==>
              forall k :: 0 <= k < |e.elements| ==> Convert(e.elements[k], lib).Ok?
    ensures Convert(e, lib).Ok? <==>
              ConvertFrom(e, 0, lib).Ok? &&
              lib.combineError(if e.AndElement? then And else Or, ConvertFrom(e, 0, lib).value).None?
    ensures Convert(e, lib).Ok? ==>
              forall k :: 0 <= k < |e.elements| ==>
                Convert(e.elements[k], lib) == Ok(Convert(e, lib).value.parts[k])
  {
    ConvertFromParts(e, 0, lib);
    if ConvertFrom(e, 0, lib).Ok? {
      ConvertFromValues(e, 0, lib);
    }
  }

  // ---------------------------------------------------------------------
  // The compiled filter means what the criteria mean

  /** What the criteria say of an entry, given what each single test says. */
  predicate Holds(e: Element, single: (SingleKind, string, string) -> bool) {
    match e
    case Single(k, n, v) => single(k, n, v)
    case NotElement(es) => |es| > 0 && !Holds(es[0], single)
    case AndElement(es) => forall i :: 0 <= i < |es| ==> Holds(es[i], single)
    case OrElement(es) => exists i :: 0 <= i < |es| && Holds(es[i], single)
  }

  /** Every item filter the library creates tests what its single element tests. */
  ghost predicate LeavesAgree(lib: FilterLibrary, single: (SingleKind, string, string) -> bool,
                              item: string -> bool)
  {
    forall k, n, v :: lib.create(n, OperatorName(k), v).Created? ==>
      item(lib.create(n, OperatorName(k), v).text) == single(k, n, v)
  }

  /**
    A successful conversion yields a filter that, read as RFC 4515 defines
    `&`, `|` and `!`, holds of an entry exactly when the criteria do.
   */
  lemma {:induction false} ConvertPreservesMeaning(e: Element, lib: FilterLibrary,
                                                   single: (SingleKind, string, string) -> bool,
                                                   item: string -> bool)
    requires LeavesAgree(lib, single, item)
    requires Convert(e, lib).Ok?
    ensures Satisfies(Convert(e, lib).value, item) <==> Holds(e, single)
    decreases e
  {
    match e
    case Single(k, n, v) =>
    case NotElement(es) =>
      ConvertPreservesMeaning(es[0], lib, single, item);
    case AndElement(es) =>
      GroupConvertsEveryChild(e, lib);
      forall k | 0 <= k < |es|
        ensures Satisfies(Convert(e, lib).value.parts[k], item) <==> Holds(es[k], single)
      {
        ConvertPreservesMeaning(es[k], lib, single, item);
      }
    case OrElement(es) =>
      GroupConvertsEveryChild(e, lib);
      forall k | 0 <= k < |es|
        ensures Satisfies(Convert(e, lib).value.parts[k], item) <==> Holds(es[k], single)
      {
        ConvertPreservesMeaning(es[k], lib, single, item);
      }
  }

  /** The string form of a converted group is its connective around its parts' string forms. */
  lemma GroupString(e: Element, lib: FilterLibrary)
    requires e.AndElement? || e.OrElement?
    requires Convert(e, lib).Ok?
    ensures ToString(e, lib).value ==
              "(" + [if e.AndElement? then '&' else '|'] + Join(Convert(e, lib).value.parts) + ")"
  {
    var f := Convert(e, lib).value;
    CombinedAsString(f.op, f.parts);
  }
}
