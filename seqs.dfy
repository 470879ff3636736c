/** The three `Vec` idioms every in-memory registry of the backend is built
    from: `iter().find(p)` (FindFirst), `iter().filter(p).collect()` (Filter)
    and `iter_mut().find(p)` followed by a write to the found element
    (UpdateFirst). Each is defined once here, with the facts the registries
    rely on.
 */
module Seqs {
  import opened Types

  /** Position of the first element satisfying `p`, if any. */
  function FirstIndex<T>(s: seq<T>, p: T -> bool): (r: Option<nat>)
    ensures r.Some? ==> r.value < |s| && p(s[r.value])
    ensures r.Some? ==> forall j :: 0 <= j < r.value ==> !p(s[j])
    ensures r.None? ==> forall j :: 0 <= j < |s| ==> !p(s[j])
  {
    if s == [] then None
    else if p(s[0]) then Some(0)
    else
      match FirstIndex(s[1..], p)
      case None => None
      case Some(i) => Some(i + 1)
  }

  /** `iter().find(p).cloned()`: the first element satisfying `p`. */
  function FindFirst<T>(s: seq<T>, p: T -> bool): (r: Option<T>)
    ensures r.None? <==> forall i :: 0 <= i < |s| ==> !p(s[i])
    ensures r.Some? ==> exists i :: 0 <= i < |s| && s[i] == r.value && p(s[i]) &&
                                    forall j :: 0 <= j < i ==> !p(s[j])
  {
    match FirstIndex(s, p)
    case None => None
    case Some(i) => Some(s[i])
  }

  /** `iter().filter(p).cloned().collect()`. */
  function Filter<T>(s: seq<T>, p: T -> bool): (r: seq<T>)
    ensures |r| <= |s|
    ensures forall i :: 0 <= i < |r| ==> r[i] in s && p(r[i])
    ensures forall i :: 0 <= i < |s| && p(s[i]) ==> s[i] in r
  {
    if s == [] then []
    else (if p(s[0]) then [s[0]] else []) + Filter(s[1..], p)
  }

  /** Overwrite the first element satisfying `p` with `f` of it; a sequence
      with no such element is returned as it is. */
  function UpdateFirst<T>(s: seq<T>, p: T -> bool, f: T -> T): (r: seq<T>)
    ensures |r| == |s|
    ensures forall k :: 0 <= k < |s| && FirstIndex(s, p) != Some(k) ==> r[k] == s[k]
    ensures FirstIndex(s, p).Some? ==> r[FirstIndex(s, p).value] == f(s[FirstIndex(s, p).value])
  {
    match FirstIndex(s, p)
    case None => s
    case Some(i) => s[i := f(s[i])]
  }

  /** Filtering commutes with concatenation, so it keeps the order of the
      input: appending to the input appends to the output. */
  lemma {:induction false} FilterAppend<T>(a: seq<T>, b: seq<T>, p: T -> bool)
    ensures Filter(a + b, p) == Filter(a, p) + Filter(b, p)
  {
    if a == [] {
      assert a + b == b;
    } else {
      assert (a + b)[0] == a[0];
      assert (a + b)[1..] == a[1..] + b;
      FilterAppend(a[1..], b, p);
    }
  }

  /** The k-th element of `Filter(s, p)` stands in `s` at a position `i`
      that satisfies `p` and has exactly k such elements before it. */
  lemma {:induction false} FilterAt<T>(s: seq<T>, p: T -> bool, k: nat)
    requires k < |Filter(s, p)|
    ensures exists i :: 0 <= i < |s| && s[i] == Filter(s, p)[k] && p(s[i]) && |Filter(s[..i], p)| == k
  {
    var rest := Filter(s[1..], p);
    assert s[..0] == [];
    if p(s[0]) && k == 0 {
      assert s[0] == Filter(s, p)[0];
      assert Filter(s[..0], p) == [];
    } else {
      var k' := if p(s[0]) then k - 1 else k;
      assert Filter(s, p)[k] == rest[k'];
      FilterAt(s[1..], p, k');
      var i' :| 0 <= i' < |s[1..]| && s[1..][i'] == rest[k'] && p(s[1..][i']) && |Filter(s[1..][..i'], p)| == k';
      var i := i' + 1;
      assert s[..i][0] == s[0];
      assert s[..i][1..] == s[1..][..i'];
      assert Filter(s[..i], p) == (if p(s[0]) then [s[0]] else []) + Filter(s[1..][..i'], p);
      assert s[i] == Filter(s, p)[k] && p(s[i]) && |Filter(s[..i], p)| == k;
    }
  }

  /** Searching a concatenation finds the match in the first part if there
      is one, and otherwise searches the second part. */
  lemma {:induction false} FindFirstAppend<T>(a: seq<T>, b: seq<T>, p: T -> bool)
    ensures FindFirst(a + b, p) == if FindFirst(a, p).Some? then FindFirst(a, p) else FindFirst(b, p)
  {
    if a == [] {
      assert a + b == b;
    } else {
      assert (a + b)[0] == a[0];
      assert (a + b)[1..] == a[1..] + b;
      FindFirstAppend(a[1..], b, p);
      if !p(a[0]) {
        FindFirstSkip(a, p);
        FindFirstSkip(a + b, p);
      }
    }
  }

  /** An element that does not match may be skipped by the search. */
  lemma FindFirstSkip<T>(s: seq<T>, p: T -> bool)
    requires s != [] && !p(s[0])
    ensures FindFirst(s, p) == FindFirst(s[1..], p)
  {
  }

  /** An update that keeps the element matching the search key leaves the
      position of the first match where it was. */
  lemma {:induction false} UpdateFirstKeepsIndex<T>(s: seq<T>, p: T -> bool, f: T -> T)
    requires forall x :: p(f(x)) == p(x)
    ensures FirstIndex(UpdateFirst(s, p, f), p) == FirstIndex(s, p)
  {
    var r := UpdateFirst(s, p, f);
    match FirstIndex(s, p)
    case None =>
      assert r == s;
    case Some(i) =>
      assert p(r[i]);
      var m := FirstIndex(r, p);
      assert m.Some? && m.value <= i;
  }

  /** Looking up the key that was just updated finds the updated element. */
  lemma FindAfterUpdateFirst<T>(s: seq<T>, p: T -> bool, f: T -> T)
    requires forall x :: p(f(x)) == p(x)
    ensures FindFirst(UpdateFirst(s, p, f), p) == match FindFirst(s, p) case None => None case Some(x) => Some(f(x))
  {
    UpdateFirstKeepsIndex(s, p, f);
  }

  /** Applying an idempotent update twice is the same as applying it once. */
  lemma UpdateFirstIdempotent<T>(s: seq<T>, p: T -> bool, f: T -> T)
    requires forall x :: p(f(x)) == p(x)
    requires forall x :: f(f(x)) == f(x)
    ensures UpdateFirst(UpdateFirst(s, p, f), p, f) == UpdateFirst(s, p, f)
  {
    UpdateFirstKeepsIndex(s, p, f);
  }
}
