/**
 * Plain JSON objects as the persisted log files hold them: the (key, value) pairs in
 * the order `Object.keys` lists them. `o[k] = v` overwrites an existing key where it
 * stands and appends a new key at the end, as a JavaScript object does for string keys.
 */
module JsonObject {
  import opened Basics

  type Obj<V> = seq<(string, V)>

  function Keys<V>(o: Obj<V>): (ks: seq<string>)
    ensures |ks| == |o|
    ensures forall i :: 0 <= i < |o| ==> ks[i] == o[i].0
  {
    seq(|o|, i requires 0 <= i < |o| => o[i].0)
  }

  predicate UniqueKeys<V>(o: Obj<V>) {
    forall i, j :: 0 <= i < j < |o| ==> o[i].0 != o[j].0
  }

  /** `o[k]`, with `None` for a key the object does not have. */
  function Lookup<V>(o: Obj<V>, k: string): Option<V> {
    if |o| == 0 then None
    else if o[0].0 == k then Some(o[0].1)
    else Lookup(o[1..], k)
  }

  /** `o[k] = v`. */
  function Put<V>(o: Obj<V>, k: string, v: V): (r: Obj<V>)
    ensures |r| > 0
  {
    if |o| == 0 then [(k, v)]
    else if o[0].0 == k then [(k, v)] + o[1..]
    else [o[0]] + Put(o[1..], k, v)
  }

  /** After `o[k] = v`, `k` reads `v` and every other key reads what it did. */
  lemma {:induction false} PutLookup<V>(o: Obj<V>, k: string, v: V)
    ensures Lookup(Put(o, k, v), k) == Some(v)
    ensures forall j :: j != k ==> Lookup(Put(o, k, v), j) == Lookup(o, j)
  {
    if |o| > 0 && o[0].0 != k {
      PutLookup(o[1..], k, v);
      assert Put(o, k, v)[1..] == Put(o[1..], k, v);
    }
  }

  /** An existing key keeps its place; a new key goes last. */
  lemma {:induction false} PutKeys<V>(o: Obj<V>, k: string, v: V)
    ensures Keys(Put(o, k, v)) == if k in Keys(o) then Keys(o) else Keys(o) + [k]
  {
    if |o| > 0 {
      if o[0].0 == k {
        PutKeysHere(o, k, v);
      } else {
        PutKeys(o[1..], k, v);
        PutKeysLater(o, k, v);
      }
    }
  }

  lemma PutKeysHere<V>(o: Obj<V>, k: string, v: V)
    requires |o| > 0 && o[0].0 == k
    ensures k in Keys(o) && Keys(Put(o, k, v)) == Keys(o)
  {
    assert Keys(o)[0] == k;
    assert Put(o, k, v) == [(k, v)] + o[1..];
    assert forall i :: 0 < i < |o| ==> Put(o, k, v)[i] == o[i];
  }

  lemma PutKeysLater<V>(o: Obj<V>, k: string, v: V)
    requires |o| > 0 && o[0].0 != k
    requires Keys(Put(o[1..], k, v)) == if k in Keys(o[1..]) then Keys(o[1..]) else Keys(o[1..]) + [k]
    ensures Keys(Put(o, k, v)) == if k in Keys(o) then Keys(o) else Keys(o) + [k]
  {
    var rest := Keys(o[1..]);
    assert Keys(o) == [o[0].0] + rest;
    assert Put(o, k, v) == [o[0]] + Put(o[1..], k, v);
    assert Keys(Put(o, k, v)) == [o[0].0] + Keys(Put(o[1..], k, v));
    assert k in Keys(o) <==> k in rest;
  }

  /** Keys stay unique. */
  lemma PutUnique<V>(o: Obj<V>, k: string, v: V)
    ensures UniqueKeys(o) ==> UniqueKeys(Put(o, k, v))
  {
    if !UniqueKeys(o) {
      return;
    }
    PutKeys(o, k, v);
    var r := Put(o, k, v);
    forall a, b | 0 <= a < b < |r|
      ensures r[a].0 != r[b].0
    {
      assert Keys(r)[a] == r[a].0 && Keys(r)[b] == r[b].0;
      if b < |o| {
        assert Keys(o)[a] == o[a].0 && Keys(o)[b] == o[b].0;
      } else {
        assert Keys(o)[a] == o[a].0;
      }
    }
  }

  /** In an object with unique keys, each pair is what its key looks up. */
  lemma {:induction false} LookupAt<V>(o: Obj<V>, i: nat)
    requires UniqueKeys(o) && i < |o|
    ensures Lookup(o, o[i].0) == Some(o[i].1)
  {
    if i > 0 {
      assert UniqueKeys(o[1..]) by {
        forall a, b | 0 <= a < b < |o[1..]|
          ensures o[1..][a].0 != o[1..][b].0
        {
          assert o[1..][a] == o[a + 1] && o[1..][b] == o[b + 1];
        }
      }
      LookupAt(o[1..], i - 1);
    }
  }

  /** A key is found exactly when it is one of the keys. */
  lemma {:induction false} LookupKeys<V>(o: Obj<V>, k: string)
    ensures Lookup(o, k).Some? <==> k in Keys(o)
  {
    if |o| > 0 {
      LookupKeys(o[1..], k);
      assert Keys(o) == [o[0].0] + Keys(o[1..]);
    }
  }

  /** Storing under a new key appends the pair. */
  lemma {:induction false} PutNew<V>(o: Obj<V>, k: string, v: V)
    requires k !in Keys(o)
    ensures Put(o, k, v) == o + [(k, v)]
  {
    if |o| > 0 {
      assert o[0].0 != k by {
        assert Keys(o)[0] == o[0].0;
      }
      assert Put(o, k, v) == [o[0]] + Put(o[1..], k, v);
      assert k !in Keys(o[1..]) by {
        forall j | 0 <= j < |o| - 1
          ensures Keys(o[1..])[j] != k
        {
          assert Keys(o[1..])[j] == Keys(o)[j + 1];
        }
      }
      PutNew(o[1..], k, v);
      assert [o[0]] + (o[1..] + [(k, v)]) == o + [(k, v)];
    }
  }
}
