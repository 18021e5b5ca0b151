/** PHP's ordered arrays with string keys: a sequence of key/value entries in insertion order,
    no key twice. */
module OrderedArray {

  type Entries<V> = seq<(string, V)>

  predicate UniqueKeys<V>(m: Entries<V>)
  {
    forall i, j :: 0 <= i < j < |m| ==> m[i].0 != m[j].0
  }

  predicate HasKey<V>(m: Entries<V>, k: string)
  {
    exists i :: 0 <= i < |m| && m[i].0 == k
  }

  /** The position of key `k`, or -1 when `k` is not a key. */
  function IndexOf<V>(m: Entries<V>, k: string): (r: int)
    ensures -1 <= r < |m|
    ensures r >= 0 ==> m[r].0 == k
  {
    if m == [] then -1
    else if m[0].0 == k then 0
    else
      var r := IndexOf(m[1..], k);
      if r < 0 then -1 else r + 1
  }

  /** IndexOf finds the first entry of `k`, and -1 means there is none. */
  lemma {:induction false} IndexOfFirst<V>(m: Entries<V>, k: string)
    ensures IndexOf(m, k) >= 0 ==> forall j :: 0 <= j < IndexOf(m, k) ==> m[j].0 != k
    ensures IndexOf(m, k) < 0 ==> forall j :: 0 <= j < |m| ==> m[j].0 != k
  {
    if m != [] && m[0].0 != k {
      IndexOfFirst(m[1..], k);
      assert forall j :: 1 <= j < |m| ==> m[j] == m[1..][j - 1];
    }
  }

  /** `$m[$k] = $v`: overwrites the entry of `k` in place, or appends one when there is none. */
  function Put<V>(m: Entries<V>, k: string, v: V): (r: Entries<V>)
  {
    var i := IndexOf(m, k);
    if i >= 0 then m[i := (k, v)] else m + [(k, v)]
  }

  /** The entries whose key is not `k`, in their order. */
  function Without<V>(m: Entries<V>, k: string): (r: Entries<V>)
    ensures |r| <= |m|
  {
    if m == [] then []
    else if m[0].0 == k then Without(m[1..], k)
    else [m[0]] + Without(m[1..], k)
  }

  lemma {:induction false} WithoutAppend<V>(m: Entries<V>, n: Entries<V>, k: string)
    ensures Without(m + n, k) == Without(m, k) + Without(n, k)
  {
    if m == [] {
      assert m + n == n;
    } else {
      assert (m + n)[1..] == m[1..] + n;
      WithoutAppend(m[1..], n, k);
    }
  }

  /** The position of a key is determined by its first occurrence. */
  lemma {:induction false} IndexOfAt<V>(m: Entries<V>, k: string, i: int)
    requires 0 <= i < |m| && m[i].0 == k
    requires forall j :: 0 <= j < i ==> m[j].0 != k
    ensures IndexOf(m, k) == i
  {
    if i > 0 {
      assert m[0].0 != k;
      assert forall j :: 0 <= j < i - 1 ==> m[1..][j] == m[j + 1];
      IndexOfAt(m[1..], k, i - 1);
    }
  }

  /** A key no entry has is not found. */
  lemma {:induction false} IndexOfAbsent<V>(m: Entries<V>, k: string)
    requires forall j :: 0 <= j < |m| ==> m[j].0 != k
    ensures IndexOf(m, k) < 0
  {
    if m != [] {
      assert forall j :: 0 <= j < |m| - 1 ==> m[1..][j] == m[j + 1];
      IndexOfAbsent(m[1..], k);
    }
  }

  lemma {:induction false} WithoutOther<V>(m: Entries<V>, k: string)
    requires forall j :: 0 <= j < |m| ==> m[j].0 != k
    ensures Without(m, k) == m
  {
    if m != [] {
      WithoutOther(m[1..], k);
    }
  }

  /** `Put` keeps the keys unique, gives `k` the value `v`, and leaves every other entry
      where it was and as it was; the array grows by one exactly when `k` was not a key. */
  lemma PutProperties<V>(m: Entries<V>, k: string, v: V)
    requires UniqueKeys(m)
    ensures UniqueKeys(Put(m, k, v))
    ensures var i := IndexOf(Put(m, k, v), k); i >= 0 && Put(m, k, v)[i] == (k, v)
    ensures HasKey(m, k) ==> IndexOf(Put(m, k, v), k) == IndexOf(m, k)
    ensures !HasKey(m, k) ==> IndexOf(Put(m, k, v), k) == |m|
    ensures |Put(m, k, v)| == if HasKey(m, k) then |m| else |m| + 1
    ensures Without(Put(m, k, v), k) == Without(m, k)
  {
    var i := IndexOf(m, k);
    var r := Put(m, k, v);
    IndexOfFirst(m, k);
    if i >= 0 {
      assert r == m[..i] + [(k, v)] + m[i + 1..];
      assert m == m[..i] + [m[i]] + m[i + 1..];
      WithoutAppend(m[..i] + [(k, v)], m[i + 1..], k);
      WithoutAppend(m[..i], [(k, v)], k);
      WithoutAppend(m[..i] + [m[i]], m[i + 1..], k);
      WithoutAppend(m[..i], [m[i]], k);
      IndexOfAt(r, k, i);
    } else {
      WithoutAppend(m, [(k, v)], k);
      assert forall j :: 0 <= j < |m| ==> r[j] == m[j];
      IndexOfAt(r, k, |m|);
    }
  }
}
