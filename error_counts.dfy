/**
 * Error-code -> occurrence-count maps, the `{ [key: number]: number }` objects the
 * reducers keep, with the read-modify-write idiom `m[e] = (m[e] ?? 0) + n`.
 */
module ErrorCounts {

  type ErrorMap = map<int, nat>

  /** `m[e] ?? 0`. */
  function CountOf(m: ErrorMap, e: int): nat {
    if e in m then m[e] else 0
  }

  /** `m[e] = (m[e] ?? 0) + n`. */
  function AddCount(m: ErrorMap, e: int, n: nat): (r: ErrorMap)
    ensures r.Keys == m.Keys + {e}
    ensures CountOf(r, e) == CountOf(m, e) + n
    ensures forall k :: k != e ==> CountOf(r, k) == CountOf(m, k)
  {
    m[e := CountOf(m, e) + n]
  }

  /** The pointwise sum of two count maps over the union of their keys. */
  function Merged(a: ErrorMap, b: ErrorMap): (r: ErrorMap)
    ensures r.Keys == a.Keys + b.Keys
    ensures forall k :: CountOf(r, k) == CountOf(a, k) + CountOf(b, k)
  {
    map k | k in a.Keys + b.Keys :: CountOf(a, k) + CountOf(b, k)
  }

  ghost function Pick(s: set<int>): (x: int)
    requires s != {}
    ensures x in s
  {
    NonEmptyHasElement(s);
    var x :| x in s; x
  }

  lemma NonEmptyHasElement(s: set<int>)
    requires s != {}
    ensures exists x :: x in s
  {
    if !exists x :: x in s {
      EmptyIfNoElement(s);
    }
  }

  lemma EmptyIfNoElement(s: set<int>)
    requires forall x :: x !in s
    ensures s == {}
  {
    assert forall x :: x in s <==> x in {};
  }

  /** Sum of all counts in a map. */
  ghost function MapSum(m: ErrorMap): nat
    decreases |m|
  {
    if |m| == 0 then 0
    else
      var k := Pick(m.Keys);
      assert |m - {k}| < |m| by { RemoveKeySize(m, k); }
      m[k] + MapSum(m - {k})
  }

  lemma RemoveKeySize(m: ErrorMap, k: int)
    requires k in m
    ensures |m - {k}| == |m| - 1
  {
    assert (m - {k}).Keys == m.Keys - {k};
    assert |m.Keys - {k}| == |m.Keys| - 1;
  }

  /** MapSum does not depend on which key is taken out first. */
  lemma {:induction false} MapSumRemove(m: ErrorMap, k: int)
    requires k in m
    ensures MapSum(m) == m[k] + MapSum(m - {k})
    decreases |m|
  {
    var j := Pick(m.Keys);
    RemoveKeySize(m, j);
    if j != k {
      RemoveKeySize(m, k);
      MapSumRemove(m - {j}, k);
      MapSumRemove(m - {k}, j);
      assert m - {j} - {k} == m - {k} - {j};
    }
  }

  /** Adding n to one code adds n to the total. */
  lemma MapSumAdd(m: ErrorMap, e: int, n: nat)
    ensures MapSum(AddCount(m, e, n)) == MapSum(m) + n
  {
    var r := AddCount(m, e, n);
    MapSumRemove(r, e);
    if e in m {
      MapSumRemove(m, e);
      assert r - {e} == m - {e};
    } else {
      assert r - {e} == m;
    }
  }

  lemma MapSumEmpty(m: ErrorMap)
    requires m.Keys == {}
    ensures MapSum(m) == 0
  {
    assert |m| == 0;
  }

  /** The total of a pointwise sum is the sum of the totals. */
  lemma {:induction false} MapSumMerged(a: ErrorMap, b: ErrorMap)
    ensures MapSum(Merged(a, b)) == MapSum(a) + MapSum(b)
    decreases |b|
  {
    if |b| == 0 {
      assert b.Keys == {};
      assert Merged(a, b) == a;
      MapSumEmpty(b);
    } else {
      var k := Pick(b.Keys);
      var b' := b - {k};
      RemoveKeySize(b, k);
      MapSumMerged(a, b');
      MapSumRemove(b, k);
      MergedStep(a, b, k);
      MapSumAdd(Merged(a, b'), k, b[k]);
    }
  }

  lemma MergedStep(a: ErrorMap, b: ErrorMap, k: int)
    requires k in b
    ensures Merged(a, b) == AddCount(Merged(a, b - {k}), k, b[k])
  {
    var l := Merged(a, b);
    var r := AddCount(Merged(a, b - {k}), k, b[k]);
    assert l.Keys == r.Keys;
    forall j | j in l.Keys
      ensures l[j] == r[j]
    {
      assert CountOf(l, j) == CountOf(r, j);
    }
  }

  /** Taking one more key of `from` into the merge adds its count. */
  lemma MergedPendingStep(into: ErrorMap, from: ErrorMap, pending: set<int>, k: int)
    requires k in pending && pending <= from.Keys
    ensures Merged(into, from - (pending - {k})) == AddCount(Merged(into, from - pending), k, from[k])
  {
    var done := from - pending;
    assert from - (pending - {k}) == done[k := from[k]];
    assert k !in done;
    var l := Merged(into, done[k := from[k]]);
    var r := AddCount(Merged(into, done), k, from[k]);
    assert l.Keys == r.Keys;
    forall j | j in l.Keys
      ensures l[j] == r[j]
    {
      assert CountOf(l, j) == CountOf(r, j);
    }
  }

  /**
   * The inner loop of the child-snapshot reducers: for every key of `from`,
   * `into[key] = (into[key] ?? 0) + from[key]`.
   */
  method AddErrorCounts(into: ErrorMap, from: ErrorMap) returns (r: ErrorMap)
    ensures r == Merged(into, from)
  {
    r := into;
    var pending := from.Keys;
    while pending != {}
      invariant pending <= from.Keys
      invariant r == Merged(into, from - pending)
      decreases pending
    {
      NonEmptyHasElement(pending);
      var k :| k in pending;
      MergedPendingStep(into, from, pending, k);
      pending := pending - {k};
      r := AddCount(r, k, from[k]);
    }
    assert from - pending == from;
  }
}
