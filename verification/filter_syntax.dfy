/**
  Composite LDAP search filters as section 3 of RFC 4515 writes them:
  `filter = "(" filtercomp ")"`, with `"&" filterlist`, `"|" filterlist` and
  `"!" filter` as the composite forms. Item filters (equality, substring,
  presence, ...) are produced by foreign code and are kept as opaque text.
 */
module FilterSyntax {

  datatype Connective = And | Or | Not

  /** The character that opens a composite filter of this kind. */
  function Symbol(c: Connective): char {
    match c
    case And => '&'
    case Or => '|'
    case Not => '!'
  }

  datatype Filter =
    /** An item filter as its library renders it. */
    | Leaf(text: string)
    | Combined(op: Connective, parts: seq<Filter>)

  /** The string form of a filter. */
  function AsString(f: Filter): string
    decreases f, 1
  {
    match f
    case Leaf(t) => t
    case Combined(op, parts) => "(" + [Symbol(op)] + JoinFrom(f, 0) + ")"
  }

  /** The concatenated string forms of the parts of `f` from index `i` on. */
  function JoinFrom(f: Filter, i: nat): string
    requires f.Combined? && i <= |f.parts|
    decreases f, 0, |f.parts| - i
  {
    if i == |f.parts| then "" else AsString(f.parts[i]) + JoinFrom(f, i + 1)
  }

  /** The concatenated string forms of a list of filters, in order. */
  function Join(parts: seq<Filter>): string {
    if |parts| == 0 then "" else AsString(parts[0]) + Join(parts[1..])
  }

  /** The parts of a composite from index `i` on are rendered as the list of those parts. */
  lemma {:induction false} JoinFromIsJoin(f: Filter, i: nat)
    requires f.Combined? && i <= |f.parts|
    ensures JoinFrom(f, i) == Join(f.parts[i..])
    decreases |f.parts| - i
  {
    if i < |f.parts| {
      JoinFromIsJoin(f, i + 1);
      assert f.parts[i..][1..] == f.parts[i + 1..];
    }
  }

  /** A composite filter is its connective applied to the concatenated parts. */
  lemma CombinedAsString(op: Connective, parts: seq<Filter>)
    ensures AsString(Combined(op, parts)) == "(" + [Symbol(op)] + Join(parts) + ")"
  {
    JoinFromIsJoin(Combined(op, parts), 0);
    assert parts[0..] == parts;
  }

  /** Joining splits at the first part. */
  lemma JoinCons(p: Filter, rest: seq<Filter>)
    ensures Join([p] + rest) == AsString(p) + Join(rest)
  {
    assert ([p] + rest)[1..] == rest;
  }

  // ---------------------------------------------------------------------
  // Meaning of a filter

  /**
    Whether an entry satisfies `f`, given whether it satisfies each item
    filter: `&` needs every part, `|` needs some part, `!` negates its
    first part (RFC 4515 gives `!` exactly one).
   */
  predicate Satisfies(f: Filter, item: string -> bool) {
    match f
    case Leaf(t) => item(t)
    case Combined(And, parts) => forall i :: 0 <= i < |parts| ==> Satisfies(parts[i], item)
    case Combined(Or, parts) => exists i :: 0 <= i < |parts| && Satisfies(parts[i], item)
    case Combined(Not, parts) => |parts| > 0 && !Satisfies(parts[0], item)
  }
}
