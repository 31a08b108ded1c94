/** Values of a pandas column, where an entry may be undefined (NaN).
    An undefined entry is `None`; comparisons follow IEEE NaN semantics:
    any comparison with an undefined operand is false. */
module Series {

  datatype Option<+T> = None | Some(value: T)

  /** `a > b` on column entries: false when either side is undefined. */
  predicate Gt(a: Option<real>, b: Option<real>)
    ensures Gt(a, b) ==> a.Some? && b.Some? && a != b
    ensures Gt(a, b) <==> Lt(b, a)
  {
    a.Some? && b.Some? && a.value > b.value
  }

  /** `a < b` on column entries: false when either side is undefined. */
  predicate Lt(a: Option<real>, b: Option<real>)
    ensures Lt(a, b) ==> a.Some? && b.Some? && a != b
  {
    a.Some? && b.Some? && a.value < b.value
  }

  /** Every entry of the column is defined. */
  predicate AllDefined(s: seq<Option<real>>) {
    forall k :: 0 <= k < |s| ==> s[k].Some?
  }

  /** A column made of the given numbers, all defined. */
  function Defined(xs: seq<real>): (r: seq<Option<real>>)
    ensures |r| == |xs| && AllDefined(r)
    ensures forall k :: 0 <= k < |xs| ==> r[k] == Some(xs[k])
  {
    seq(|xs|, k requires 0 <= k < |xs| => Some(xs[k]))
  }

  /** The numbers held by a column whose entries are all defined. */
  function Values(s: seq<Option<real>>): (r: seq<real>)
    requires AllDefined(s)
    ensures |r| == |s|
    ensures forall k :: 0 <= k < |s| ==> s[k] == Some(r[k])
  {
    seq(|s|, k requires 0 <= k < |s| => s[k].value)
  }

  /** Values undoes Defined on every slice of the column. */
  lemma ValuesOfDefined(xs: seq<real>, lo: nat, hi: nat)
    requires lo <= hi <= |xs|
    ensures AllDefined(Defined(xs)[lo..hi])
    ensures Values(Defined(xs)[lo..hi]) == xs[lo..hi]
  {
    var w := Defined(xs)[lo..hi];
    assert forall k :: 0 <= k < |w| ==> w[k] == Some(xs[lo + k]);
    assert Values(w) == xs[lo..hi];
  }
}
