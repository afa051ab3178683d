/**
  Object attributes (`Horde_Kolab_Server_Object_Attribute`) and the base
  decorator over them: a decorator holds exactly one attribute and answers
  every one of the seven methods of the attribute contract by asking it.

  A concrete attribute is described by what its seven methods answer. The
  by-reference `consume(&$changes)` becomes a function from the change map
  before the call to the change map after it.
 */
module Attribute {
  import opened Outcomes

  /** Pending object data: attribute name to values. */
  type Changes = map<string, seq<string>>

  /** The object an attribute belongs to, identified by its UID. */
  datatype ObjectRef = ObjectRef(uid: string)

  /** What the seven methods of one concrete attribute answer. */
  datatype Behaviour = Behaviour(
    value: Result<seq<string>>,
    update: Changes -> Result<Changes>,
    owner: ObjectRef,
    internalName: string,
    externalName: string,
    isEmpty: Changes -> bool,
    consume: Changes -> Changes)

  /** A concrete attribute, or a decorator around another attribute. */
  datatype Attr = Base(behaviour: Behaviour) | Decorated(inner: Attr)

  /** The concrete attribute at the bottom of a decorator chain. */
  function Root(a: Attr): Behaviour {
    match a
    case Base(b) => b
    case Decorated(inner) => Root(inner)
  }

  /** The number of decorators around the concrete attribute. */
  function Depth(a: Attr): nat {
    match a
    case Base(_) => 0
    case Decorated(inner) => 1 + Depth(inner)
  }

  /** `a` wrapped in `n` further decorators. */
  function Wrap(a: Attr, n: nat): (r: Attr)
    ensures Depth(r) == Depth(a) + n
  {
    if n == 0 then a else Decorated(Wrap(a, n - 1))
  }

  // ---------------------------------------------------------------------
  // The seven methods

  /** `value()`: the concrete attribute's value(s), or its failure. */
  function Value(a: Attr): (r: Result<seq<string>>)
    ensures r == Root(a).value
  {
    match a
    case Base(b) => b.value
    case Decorated(inner) => Value(inner)
  }

  /** `update($changes)`: the resulting internal state, or a failure; `changes` is taken by value. */
  function Update(a: Attr, changes: Changes): (r: Result<Changes>)
    ensures r == Root(a).update(changes)
  {
    match a
    case Base(b) => b.update(changes)
    case Decorated(inner) => Update(inner, changes)
  }

  /** `getObject()`. */
  function GetObject(a: Attr): (r: ObjectRef)
    ensures r == Root(a).owner
  {
    match a
    case Base(b) => b.owner
    case Decorated(inner) => GetObject(inner)
  }

  /** `getInternalName()`. */
  function GetInternalName(a: Attr): (r: string)
    ensures r == Root(a).internalName
  {
    match a
    case Base(b) => b.internalName
    case Decorated(inner) => GetInternalName(inner)
  }

  /** `getExternalName()`. */
  function GetExternalName(a: Attr): (r: string)
    ensures r == Root(a).externalName
  {
    match a
    case Base(b) => b.externalName
    case Decorated(inner) => GetExternalName(inner)
  }

  /** `isEmpty($changes)`: a query that leaves `changes` as it was. */
  function IsEmpty(a: Attr, changes: Changes): (r: bool)
    ensures r == Root(a).isEmpty(changes)
  {
    match a
    case Base(b) => b.isEmpty(changes)
    case Decorated(inner) => IsEmpty(inner, changes)
  }

  /** `consume(&$changes)`: the change map the caller holds after the call. */
  function Consume(a: Attr, changes: Changes): (r: Changes)
    ensures r == Root(a).consume(changes)
  {
    match a
    case Base(b) => b.consume(changes)
    case Decorated(inner) => Consume(inner, changes)
  }

  // ---------------------------------------------------------------------
  // Decorators are transparent

  /** Everything a caller can observe of an attribute on a given change map. */
  datatype Observation = Observation(
    value: Result<seq<string>>,
    update: Result<Changes>,
    owner: ObjectRef,
    internalName: string,
    externalName: string,
    isEmpty: bool,
    consume: Changes)

  function Observe(a: Attr, changes: Changes): Observation {
    Observation(Value(a), Update(a, changes), GetObject(a), GetInternalName(a),
                GetExternalName(a), IsEmpty(a, changes), Consume(a, changes))
  }

  /** What the concrete attribute itself answers on `changes`. */
  function ObserveBehaviour(b: Behaviour, changes: Changes): Observation {
    Observation(b.value, b.update(changes), b.owner, b.internalName,
                b.externalName, b.isEmpty(changes), b.consume(changes))
  }

  /** Further decorators leave the concrete attribute unchanged. */
  lemma {:induction false} RootOfWrap(a: Attr, n: nat)
    ensures Root(Wrap(a, n)) == Root(a)
  {
    if n > 0 {
      RootOfWrap(a, n - 1);
    }
  }

  /** One decorator answers every method exactly as the attribute it holds. */
  lemma DecoratorDelegates(a: Attr, changes: Changes)
    ensures Observe(Decorated(a), changes) == Observe(a, changes)
  {
  }

  /**
    Any number of decorators stacked over an attribute is observationally
    equal to that attribute, on every change map.
   */
  lemma WrapIsTransparent(a: Attr, n: nat, changes: Changes)
    ensures Observe(Wrap(a, n), changes) == Observe(a, changes)
  {
    RootOfWrap(a, n);
  }

  /** Every attribute is its concrete attribute under `Depth` decorators. */
  lemma {:induction false} ChainNormalForm(a: Attr)
    ensures a == Wrap(Base(Root(a)), Depth(a))
  {
    match a
    case Base(_) =>
    case Decorated(inner) =>
      ChainNormalForm(inner);
  }

  /** A decorator chain of any depth answers as the concrete attribute it ends in. */
  lemma ChainAnswersAsRoot(a: Attr, changes: Changes)
    ensures Observe(a, changes) == ObserveBehaviour(Root(a), changes)
  {
  }

  // ---------------------------------------------------------------------
  // The consume contract

  /** `consume` only deletes entries: whatever is left is unchanged. */
  ghost predicate ConsumeOnlyDeletes(b: Behaviour) {
    forall c: Changes, k :: k in b.consume(c) ==> k in c && b.consume(c)[k] == c[k]
  }

  /** A chain over an attribute whose `consume` only deletes entries only deletes entries itself. */
  lemma ConsumeContractPreserved(a: Attr, changes: Changes, k: string)
    requires ConsumeOnlyDeletes(Root(a))
    ensures k in Consume(a, changes) ==> k in changes && Consume(a, changes)[k] == changes[k]
    ensures Consume(a, changes).Keys <= changes.Keys
  {
  }
}
