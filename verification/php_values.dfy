/**
  The PHP values the directory layer receives from its callers (criteria
  arrays, change sets, creation info) and the PHP string primitives its
  decisions rest on: `empty()`, `isset()`, array lookup, `strtolower()` and
  `strpos()`.
 */
module PhpValues {
  import opened Outcomes

  /** A key of a PHP array. */
  datatype Key = IntKey(i: int) | StrKey(s: string)

  /** A PHP value: null, a string, or an ordered array of key/value entries. */
  datatype Value = Null | Str(s: string) | Arr(entries: seq<Entry>)

  datatype Entry = Entry(key: Key, val: Value)

  /** `empty($s)` on a string: only "" and "0" are empty. */
  predicate EmptyString(s: string) {
    s == "" || s == "0"
  }

  /** `empty($v)`: null, "", "0" and the empty array. */
  predicate Empty(v: Value) {
    match v
    case Null => true
    case Str(s) => EmptyString(s)
    case Arr(es) => |es| == 0
  }

  /** The first entry of `es` stored under `k`, or null. */
  function Lookup(es: seq<Entry>, k: Key): (r: Value)
    ensures r != Null ==> exists i :: 0 <= i < |es| && es[i] == Entry(k, r)
    ensures (forall i :: 0 <= i < |es| ==> es[i].key != k) ==> r == Null
  {
    if |es| == 0 then Null
    else if es[0].key == k then es[0].val
    else Lookup(es[1..], k)
  }

  /** The lookup finds the first entry stored under `k`. */
  lemma {:induction false} LookupFirst(es: seq<Entry>, i: nat, k: Key)
    requires i < |es| && es[i].key == k
    requires forall j :: 0 <= j < i ==> es[j].key != k
    ensures Lookup(es, k) == es[i].val
  {
    if i > 0 {
      assert es[1..][i - 1] == es[i];
      LookupFirst(es[1..], i - 1, k);
    }
  }

  /** `$a[$k]`: null when `a` is not an array or has no entry under `k`. */
  function Get(a: Value, k: Key): Value {
    if a.Arr? then Lookup(a.entries, k) else Null
  }

  /** `isset($a[$k])`. */
  predicate IsSet(a: Value, k: Key) {
    Get(a, k) != Null
  }

  // ---------------------------------------------------------------------
  // strtolower

  predicate IsUpper(c: char) {
    'A' <= c <= 'Z'
  }

  function LowerChar(c: char): (r: char)
    ensures !IsUpper(r)
    ensures IsUpper(c) ==> r as int == c as int + 32
    ensures !IsUpper(c) ==> r == c
  {
    if IsUpper(c) then (c as int + 32) as char else c
  }

  /** `strtolower()` on ASCII letters. */
  function Lower(s: string): (r: string)
    ensures |r| == |s|
    ensures forall i :: 0 <= i < |r| ==> !IsUpper(r[i])
    ensures forall i :: 0 <= i < |s| && !IsUpper(s[i]) ==> r[i] == s[i]
    ensures forall i :: 0 <= i < |s| && IsUpper(s[i]) ==> r[i] as int == s[i] as int + 32
  {
    seq(|s|, i requires 0 <= i < |s| => LowerChar(s[i]))
  }

  // ---------------------------------------------------------------------
  // strpos

  /** `w` occurs in `s` starting at index `j`. */
  predicate OccursAt(s: string, w: string, j: nat) {
    j + |w| <= |s| && s[j..j + |w|] == w
  }

  /** `strpos($s, $w, $from)`: the first occurrence of `w` at or after `from`. */
  function IndexOf(s: string, w: string, from: nat): (r: Option<nat>)
    ensures r.Some? ==> from <= r.value && OccursAt(s, w, r.value)
    ensures r.Some? ==> forall j :: from <= j < r.value ==> !OccursAt(s, w, j)
    ensures r.None? ==> forall j :: from <= j ==> !OccursAt(s, w, j)
    decreases |s| - from
  {
    if from + |w| > |s| then None
    else if s[from..from + |w|] == w then Some(from)
    else IndexOf(s, w, from + 1)
  }

  /** `strpos($s, $w) !== false`. */
  predicate Contains(s: string, w: string) {
    IndexOf(s, w, 0).Some?
  }

  /** Any occurrence makes `Contains` true. */
  lemma ContainsAt(s: string, w: string, j: nat)
    requires OccursAt(s, w, j)
    ensures Contains(s, w)
  {
  }

  /** A string contains every word it is built around. */
  lemma {:induction false} ContainsInfix(a: string, w: string, b: string)
    ensures Contains(a + w + b, w)
  {
    var s := a + w + b;
    assert s[|a|..|a| + |w|] == w;
    ContainsAt(s, w, |a|);
  }

  /**
    A word without a comma that occurs in `a + "," + b` occurs in `a` or in
    `b`: no occurrence can straddle the comma.
   */
  lemma {:induction false} ContainsAcrossComma(a: string, b: string, w: string)
    requires ',' !in w
    requires Contains(a + "," + b, w)
    ensures Contains(a, w) || Contains(b, w)
  {
    var s := a + "," + b;
    var j := IndexOf(s, w, 0).value;
    assert s[j..j + |w|] == w;
    assert s[|a|] == ',';
    assert forall t :: 0 <= t < |w| ==> w[t] == s[j + t];
    if j + |w| <= |a| {
      assert a[j..j + |w|] == s[j..j + |w|];
      ContainsAt(a, w, j);
    } else {
      var k := j - |a| - 1;
      assert b[k..k + |w|] == s[j..j + |w|];
      ContainsAt(b, w, k);
    }
  }
}
