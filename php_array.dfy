/** PHP's string-keyed arrays, as the library uses them for query strings, headers
    and HTTP client options: an ordered list of entries in which every key occurs
    at most once. `$a[$k] = $v` replaces the value of an existing key in place and
    appends a new key at the end. */
module PhpArrays {
  import opened Wrappers

  datatype Entry<V> = Entry(key: string, value: V)

  /** The keys, in insertion order. */
  function Keys<V>(a: seq<Entry<V>>): (ks: seq<string>)
    ensures |ks| == |a|
    ensures forall i :: 0 <= i < |a| ==> ks[i] == a[i].key
  {
    seq(|a|, i requires 0 <= i < |a| => a[i].key)
  }

  /** No key occurs twice. */
  predicate DistinctKeys<V>(a: seq<Entry<V>>)
  {
    forall i, j :: 0 <= i < j < |a| ==> a[i].key != a[j].key
  }

  /** `$a[$k] ?? null`: nothing exactly when the key is absent, and otherwise a
      value stored under that key. */
  function Lookup<V>(a: seq<Entry<V>>, k: string): (r: Option<V>)
    ensures r.None? <==> k !in Keys(a)
    ensures r.Some? ==> Entry(k, r.value) in a
  {
    if |a| == 0 then None
    else if a[0].key == k then Some(a[0].value)
    else
      var rest := a[1..];
      assert Keys(a) == [a[0].key] + Keys(rest);
      assert forall e :: e in rest ==> e in a;
      Lookup(rest, k)
  }

  /** `$a[$k] = $v`. */
  function Put<V>(a: seq<Entry<V>>, k: string, v: V): (r: seq<Entry<V>>)
  {
    if |a| == 0 then [Entry(k, v)]
    else if a[0].key == k then [Entry(k, v)] + a[1..]
    else
      var rest := a[1..];
      [a[0]] + Put(rest, k, v)
  }

  lemma KeysCons<V>(a: seq<Entry<V>>)
    requires |a| > 0
    ensures Keys(a) == [a[0].key] + Keys(a[1..])
  {
  }

  /** After `$a[$k] = $v` the key holds `$v`. */
  lemma {:induction false} PutLookup<V>(a: seq<Entry<V>>, k: string, v: V)
    ensures Lookup(Put(a, k, v), k) == Some(v)
  {
    if |a| > 0 && a[0].key != k {
      var rest := a[1..];
      PutLookup(rest, k, v);
      assert Put(a, k, v)[1..] == Put(rest, k, v);
    }
  }

  /** Every other key keeps its value. */
  lemma {:induction false} PutLookupOther<V>(a: seq<Entry<V>>, k: string, v: V, k': string)
    requires k' != k
    ensures Lookup(Put(a, k, v), k') == Lookup(a, k')
  {
    if |a| > 0 && a[0].key != k {
      var rest := a[1..];
      PutLookupOther(rest, k, v, k');
      assert Put(a, k, v)[1..] == Put(rest, k, v);
    } else if |a| > 0 {
      assert Put(a, k, v)[1..] == a[1..];
    }
  }

  /** An existing key keeps its place: the keys do not change. */
  lemma {:induction false} PutExisting<V>(a: seq<Entry<V>>, k: string, v: V)
    requires k in Keys(a)
    ensures Keys(Put(a, k, v)) == Keys(a)
  {
    KeysCons(a);
    if a[0].key != k {
      var rest := a[1..];
      PutExisting(rest, k, v);
      KeysCons(Put(a, k, v));
      assert Put(a, k, v)[1..] == Put(rest, k, v);
    } else {
      KeysCons(Put(a, k, v));
      assert Put(a, k, v)[1..] == a[1..];
    }
  }

  /** A new key goes last. */
  lemma {:induction false} PutNew<V>(a: seq<Entry<V>>, k: string, v: V)
    requires k !in Keys(a)
    ensures Put(a, k, v) == a + [Entry(k, v)]
  {
    if |a| > 0 {
      KeysCons(a);
      var rest := a[1..];
      assert a[0].key != k && k !in Keys(rest);
      PutNew(rest, k, v);
      calc {
        Put(a, k, v);
        [a[0]] + Put(rest, k, v);
        [a[0]] + (rest + [Entry(k, v)]);
        ([a[0]] + rest) + [Entry(k, v)];
        { assert [a[0]] + rest == a; }
        a + [Entry(k, v)];
      }
    }
  }

  /** Keys stay distinct. */
  lemma PutDistinct<V>(a: seq<Entry<V>>, k: string, v: V)
    requires DistinctKeys(a)
    ensures DistinctKeys(Put(a, k, v))
  {
    var r := Put(a, k, v);
    if k in Keys(a) {
      PutExisting(a, k, v);
      assert forall i :: 0 <= i < |r| ==> r[i].key == Keys(a)[i];
    } else {
      PutNew(a, k, v);
    }
  }

  /** Looking up in `a + b` looks in `a` first. */
  lemma {:induction false} LookupAppend<V>(a: seq<Entry<V>>, b: seq<Entry<V>>, k: string)
    ensures Lookup(a + b, k) == if k in Keys(a) then Lookup(a, k) else Lookup(b, k)
  {
    if |a| > 0 {
      KeysCons(a);
      assert (a + b)[1..] == a[1..] + b;
      LookupAppend(a[1..], b, k);
    } else {
      assert a + b == b;
    }
  }

  /** With distinct keys, every entry is what its key looks up. */
  lemma {:induction false} LookupDistinct<V>(a: seq<Entry<V>>, i: nat)
    requires DistinctKeys(a) && i < |a|
    ensures Lookup(a, a[i].key) == Some(a[i].value)
  {
    if i > 0 {
      var rest := a[1..];
      assert a[0].key != a[i].key;
      LookupDistinct(rest, i - 1);
    }
  }
}
