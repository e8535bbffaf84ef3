/**
 * Python dicts with string keys, kept as their items in insertion order, and
 * the "fetch each configured item, keep the ones that arrived" loop that every
 * `get_all_*` collector runs.
 */
module Dicts {
  import opened Wrappers

  type Dict<V> = seq<(string, V)>

  function Keys<V>(d: Dict<V>): (r: seq<string>)
    ensures |r| == |d| && forall i :: 0 <= i < |d| ==> r[i] == d[i].0
    decreases |d|
  {
    if d == [] then [] else [d[0].0] + Keys(d[1..])
  }

  /** `d.get(k)`: the value of the first item with key `k`. */
  function Get<V>(d: Dict<V>, k: string): (r: Option<V>)
    ensures r.None? <==> k !in Keys(d)
    decreases |d|
  {
    if d == [] then None
    else if d[0].0 == k then Some(d[0].1)
    else Get(d[1..], k)
  }

  /** A value found under `k` is the value of an item with key `k`. */
  lemma {:induction false} GetFound<V>(d: Dict<V>, k: string)
    requires Get(d, k).Some?
    ensures exists i :: 0 <= i < |d| && d[i].0 == k && d[i].1 == Get(d, k).value
    decreases |d|
  {
    if d[0].0 != k {
      GetFound(d[1..], k);
      var i :| 0 <= i < |d[1..]| && d[1..][i].0 == k && d[1..][i].1 == Get(d[1..], k).value;
      assert d[i + 1] == d[1..][i];
    }
  }

  ghost predicate DistinctKeys<V>(d: Dict<V>) {
    forall i, j :: 0 <= i < j < |d| ==> d[i].0 != d[j].0
  }

  /** The keys of a prefix are the prefix of the keys. */
  lemma KeysPrefix<V>(d: Dict<V>, n: int)
    requires 0 <= n <= |d|
    ensures Keys(d[..n]) == Keys(d)[..n]
  {
  }

  /** `d[k] = v`: a present key keeps its place, a new one goes last. */
  function Put<V>(d: Dict<V>, k: string, v: V): (r: Dict<V>)
    ensures Keys(r) == if k in Keys(d) then Keys(d) else Keys(d) + [k]
    decreases |d|
  {
    if d == [] then [(k, v)]
    else if d[0].0 == k then [(k, v)] + d[1..]
    else [d[0]] + Put(d[1..], k, v)
  }

  /** After `d[k] = v`, `k` maps to `v` and every other key is unchanged. */
  lemma {:induction false} PutGet<V>(d: Dict<V>, k: string, v: V, j: string)
    ensures Get(Put(d, k, v), j) == if j == k then Some(v) else Get(d, j)
    decreases |d|
  {
    if d != [] && d[0].0 != k {
      PutGet(d[1..], k, v, j);
      assert Put(d, k, v)[1..] == Put(d[1..], k, v);
    }
  }

  lemma PutDistinct<V>(d: Dict<V>, k: string, v: V)
    requires DistinctKeys(d)
    ensures DistinctKeys(Put(d, k, v))
  {
    var r := Put(d, k, v);
    forall i, j | 0 <= i < j < |r| ensures r[i].0 != r[j].0 {
      assert Keys(r)[i] == r[i].0 && Keys(r)[j] == r[j].0;
      if k !in Keys(d) && j == |d| {
        assert Keys(r)[i] == Keys(d)[i];
      } else {
        assert Keys(r)[i] == Keys(d)[i] && Keys(r)[j] == Keys(d)[j];
      }
    }
  }

  /** The dict built by
        for name, arg in entries:
            data = fetch(arg)
            if data: d[name] = data
      where a failed fetch (None) is skipped. */
  function Collected<A, V>(entries: seq<(string, A)>, fetch: A --> Option<V>): Dict<V>
    requires forall i :: 0 <= i < |entries| ==> fetch.requires(entries[i].1)
    decreases |entries|
  {
    if entries == [] then []
    else
      var last := entries[|entries| - 1];
      var d := Collected(entries[..|entries| - 1], fetch);
      match fetch(last.1)
      case Some(v) => Put(d, last.0, v)
      case None => d
  }

  /** The collected dict never holds a key twice. */
  lemma {:induction false} CollectedDistinct<A, V>(entries: seq<(string, A)>, fetch: A --> Option<V>)
    requires forall i :: 0 <= i < |entries| ==> fetch.requires(entries[i].1)
    ensures DistinctKeys(Collected(entries, fetch))
    decreases |entries|
  {
    if entries != [] {
      var n := |entries| - 1;
      var p := entries[..n];
      assert forall i :: 0 <= i < n ==> p[i] == entries[i];
      CollectedDistinct(p, fetch);
      if fetch(entries[n].1).Some? {
        PutDistinct(Collected(p, fetch), entries[n].0, fetch(entries[n].1).value);
      }
    }
  }

  /** Some entry named `k` was fetched successfully. */
  ghost predicate Fetched<A, V>(entries: seq<(string, A)>, fetch: A --> Option<V>, k: string)
    requires forall i :: 0 <= i < |entries| ==> fetch.requires(entries[i].1)
  {
    exists i :: 0 <= i < |entries| && entries[i].0 == k && fetch(entries[i].1).Some?
  }

  lemma FetchedSnoc<A, V>(entries: seq<(string, A)>, fetch: A --> Option<V>, k: string)
    requires entries != []
    requires forall i :: 0 <= i < |entries| ==> fetch.requires(entries[i].1)
    ensures Fetched(entries, fetch, k) <==>
      Fetched(entries[..|entries| - 1], fetch, k) || (entries[|entries| - 1].0 == k && fetch(entries[|entries| - 1].1).Some?)
  {
    var n := |entries| - 1;
    var p := entries[..n];
    if Fetched(entries, fetch, k) {
      var i :| 0 <= i < |entries| && entries[i].0 == k && fetch(entries[i].1).Some?;
      if i < n {
        assert p[i] == entries[i];
      }
    }
    if Fetched(p, fetch, k) {
      var i :| 0 <= i < |p| && p[i].0 == k && fetch(p[i].1).Some?;
      assert entries[i] == p[i];
    }
  }

  /** A name is a key of the result iff the fetch of one of its entries
      succeeded. */
  lemma {:induction false} CollectedKeys<A, V>(entries: seq<(string, A)>, fetch: A --> Option<V>, k: string)
    requires forall i :: 0 <= i < |entries| ==> fetch.requires(entries[i].1)
    ensures k in Keys(Collected(entries, fetch)) <==> Fetched(entries, fetch, k)
    decreases |entries|
  {
    if entries != [] {
      var n := |entries| - 1;
      var p := entries[..n];
      assert forall i :: 0 <= i < n ==> p[i] == entries[i];
      CollectedKeys(p, fetch, k);
      FetchedSnoc(entries, fetch, k);
    }
  }

  /** With distinct names, the value under a name is what the fetch of its
      entry returned (a failed fetch leaves the name out). */
  lemma {:induction false} CollectedValue<A, V>(entries: seq<(string, A)>, fetch: A --> Option<V>, k: int)
    requires forall i :: 0 <= i < |entries| ==> fetch.requires(entries[i].1)
    requires forall i, j :: 0 <= i < j < |entries| ==> entries[i].0 != entries[j].0
    requires 0 <= k < |entries|
    ensures Get(Collected(entries, fetch), entries[k].0) == fetch(entries[k].1)
    decreases |entries|, 1
  {
    if k < |entries| - 1 {
      StepEarlier(entries, fetch, k);
    } else {
      StepLast(entries, fetch);
    }
  }

  /** The value of an earlier entry, found in the prefix, survives the last
      entry. */
  lemma {:induction false} StepEarlier<A, V>(entries: seq<(string, A)>, fetch: A --> Option<V>, k: int)
    requires forall i :: 0 <= i < |entries| ==> fetch.requires(entries[i].1)
    requires forall i, j :: 0 <= i < j < |entries| ==> entries[i].0 != entries[j].0
    requires 0 <= k < |entries| - 1
    ensures Get(Collected(entries, fetch), entries[k].0) == fetch(entries[k].1)
    decreases |entries|, 0
  {
    var p := entries[..|entries| - 1];
    PrefixDistinct(entries, p, fetch);
    CollectedValue(p, fetch, k);
    assert p[k] == entries[k];
    StepOther(entries, fetch, entries[k].0);
  }

  lemma PrefixDistinct<A, V>(entries: seq<(string, A)>, p: seq<(string, A)>, fetch: A --> Option<V>)
    requires entries != [] && p == entries[..|entries| - 1]
    requires forall i :: 0 <= i < |entries| ==> fetch.requires(entries[i].1)
    requires forall i, j :: 0 <= i < j < |entries| ==> entries[i].0 != entries[j].0
    ensures forall i :: 0 <= i < |p| ==> fetch.requires(p[i].1)
    ensures forall i, j :: 0 <= i < j < |p| ==> p[i].0 != p[j].0
  {
    assert forall i :: 0 <= i < |p| ==> p[i] == entries[i];
  }

  /** The last entry does not disturb the value of another name. */
  lemma StepOther<A, V>(entries: seq<(string, A)>, fetch: A --> Option<V>, name: string)
    requires entries != []
    requires forall i :: 0 <= i < |entries| ==> fetch.requires(entries[i].1)
    requires name != entries[|entries| - 1].0
    ensures Get(Collected(entries, fetch), name) == Get(Collected(entries[..|entries| - 1], fetch), name)
  {
    var last := entries[|entries| - 1];
    var d := Collected(entries[..|entries| - 1], fetch);
    if fetch(last.1).Some? {
      PutGet(d, last.0, fetch(last.1).value, name);
    }
  }

  /** The last entry's name, when it occurs nowhere else, maps to its fetch. */
  lemma StepLast<A, V>(entries: seq<(string, A)>, fetch: A --> Option<V>)
    requires entries != []
    requires forall i :: 0 <= i < |entries| ==> fetch.requires(entries[i].1)
    requires forall j :: 0 <= j < |entries| - 1 ==> entries[j].0 != entries[|entries| - 1].0
    ensures Get(Collected(entries, fetch), entries[|entries| - 1].0) == fetch(entries[|entries| - 1].1)
  {
    var n := |entries| - 1;
    var p := entries[..n];
    var last := entries[n];
    var d := Collected(p, fetch);
    if fetch(last.1).Some? {
      PutGet(d, last.0, fetch(last.1).value, last.0);
    } else {
      CollectedKeys(p, fetch, last.0);
      assert forall j :: 0 <= j < |p| ==> p[j] == entries[j];
    }
  }

  /** The collecting loop of the `get_all_*` functions. */
  method Collect<A, V>(entries: seq<(string, A)>, fetch: A --> Option<V>) returns (d: Dict<V>)
    requires forall i :: 0 <= i < |entries| ==> fetch.requires(entries[i].1)
    ensures d == Collected(entries, fetch)
  {
    d := [];
    var i := 0;
    while i < |entries|
      invariant 0 <= i <= |entries|
      invariant d == Collected(entries[..i], fetch)
    {
      assert entries[..i + 1][..i] == entries[..i];
      var data := fetch(entries[i].1);
      if data.Some? {
        d := Put(d, entries[i].0, data.value);
      }
      i := i + 1;
    }
    assert entries[..i] == entries;
  }
}
