/**
 * A .NET Dictionary<string, V> as the modelled code uses it: entries enumerate in insertion order,
 * the indexer setter overwrites the value in place and keeps the key first inserted, and keys
 * compare either ordinally or, with ignoreCase, with StringComparer.OrdinalIgnoreCase restricted to
 * the ASCII letters.
 */
module OrderedDict {
  import opened Wrappers
  import Text

  type Entries<V> = seq<(string, V)>

  /** The form under which the comparer sees a key. */
  function KeyOf(k: string, ignoreCase: bool): string
  {
    if ignoreCase then Text.Fold(k) else k
  }

  predicate SameKey(a: string, b: string, ignoreCase: bool)
  {
    KeyOf(a, ignoreCase) == KeyOf(b, ignoreCase)
  }

  /** No two entries whose keys the comparer considers equal. */
  ghost predicate UniqueKeys<V>(d: Entries<V>, ignoreCase: bool)
  {
    forall i, j :: 0 <= i < j < |d| ==> !SameKey(d[i].0, d[j].0, ignoreCase)
  }

  /** Position of the entry for k, searching from position from onwards. */
  function IndexFrom<V>(d: Entries<V>, k: string, ignoreCase: bool, from: nat): (r: Option<nat>)
    requires from <= |d|
    ensures r.Some? ==> from <= r.value < |d| && SameKey(d[r.value].0, k, ignoreCase)
    ensures r.Some? ==> forall j :: from <= j < r.value ==> !SameKey(d[j].0, k, ignoreCase)
    ensures r.None? ==> forall j :: from <= j < |d| ==> !SameKey(d[j].0, k, ignoreCase)
    decreases |d| - from
  {
    if from == |d| then None
    else if SameKey(d[from].0, k, ignoreCase) then Some(from)
    else IndexFrom(d, k, ignoreCase, from + 1)
  }

  /** Position of the entry for k: the first whose key the comparer finds equal to k. */
  function IndexOf<V>(d: Entries<V>, k: string, ignoreCase: bool): (r: Option<nat>)
    ensures r.Some? ==> r.value < |d| && SameKey(d[r.value].0, k, ignoreCase)
    ensures r.None? <==> forall j :: 0 <= j < |d| ==> !SameKey(d[j].0, k, ignoreCase)
  {
    IndexFrom(d, k, ignoreCase, 0)
  }

  predicate ContainsKey<V>(d: Entries<V>, k: string, ignoreCase: bool)
  {
    IndexOf(d, k, ignoreCase).Some?
  }

  /** TryGetValue. */
  function Get<V>(d: Entries<V>, k: string, ignoreCase: bool): (r: Option<V>)
    ensures r.Some? <==> ContainsKey(d, k, ignoreCase)
    ensures r.Some? ==> exists i :: 0 <= i < |d| && SameKey(d[i].0, k, ignoreCase) && d[i].1 == r.value
  {
    match IndexOf(d, k, ignoreCase)
    case None => None
    case Some(i) => Some(d[i].1)
  }

  /** The indexer setter d[k] = v. */
  function Put<V>(d: Entries<V>, k: string, v: V, ignoreCase: bool): (r: Entries<V>)
    ensures ContainsKey(d, k, ignoreCase) ==> |r| == |d|
    ensures !ContainsKey(d, k, ignoreCase) ==> r == d + [(k, v)]
  {
    match IndexOf(d, k, ignoreCase)
    case None => d + [(k, v)]
    case Some(i) => d[i := (d[i].0, v)]
  }

  function Keys<V>(d: Entries<V>): (r: seq<string>)
    ensures |r| == |d| && forall i :: 0 <= i < |d| ==> r[i] == d[i].0
  {
    seq(|d|, i requires 0 <= i < |d| => d[i].0)
  }

  function Values<V>(d: Entries<V>): (r: seq<V>)
    ensures |r| == |d| && forall i :: 0 <= i < |d| ==> r[i] == d[i].1
  {
    seq(|d|, i requires 0 <= i < |d| => d[i].1)
  }

  /** After d[k] = v, reading any key the comparer equates with k gives v. */
  lemma PutThenGet<V>(d: Entries<V>, k: string, k2: string, v: V, ignoreCase: bool)
    requires SameKey(k, k2, ignoreCase)
    ensures Get(Put(d, k, v, ignoreCase), k2, ignoreCase) == Some(v)
  {
    var r := Put(d, k, v, ignoreCase);
    match IndexOf(d, k, ignoreCase)
    case None =>
      assert r == d + [(k, v)];
      assert forall j :: 0 <= j < |d| ==> r[j] == d[j] && !SameKey(r[j].0, k2, ignoreCase);
      assert SameKey(r[|d|].0, k2, ignoreCase);
      assert IndexOf(r, k2, ignoreCase).Some?;
    case Some(i) =>
      assert IndexOf(r, k2, ignoreCase) == Some(i) by {
        assert forall j :: 0 <= j < i ==> !SameKey(r[j].0, k2, ignoreCase);
        assert r[i].0 == d[i].0;
        assert IndexOf(r, k2, ignoreCase).Some?;
      }
  }

  /** The first entry the comparer matches is the one IndexOf finds. */
  lemma IndexOfFirst<V>(d: Entries<V>, k: string, ignoreCase: bool, i: nat)
    requires i < |d| && SameKey(d[i].0, k, ignoreCase)
    requires forall j :: 0 <= j < i ==> !SameKey(d[j].0, k, ignoreCase)
    ensures IndexOf(d, k, ignoreCase) == Some(i)
  {
  }

  /** d[k] = v leaves every other key's value as it was. */
  lemma PutKeepsOthers<V>(d: Entries<V>, k: string, k2: string, v: V, ignoreCase: bool)
    requires !SameKey(k, k2, ignoreCase)
    ensures Get(Put(d, k, v, ignoreCase), k2, ignoreCase) == Get(d, k2, ignoreCase)
  {
    var r := Put(d, k, v, ignoreCase);
    assert |r| == |d| || |r| == |d| + 1;
    assert forall j :: 0 <= j < |d| ==> r[j].0 == d[j].0 && (SameKey(r[j].0, k2, ignoreCase) ==> r[j].1 == d[j].1);
    assert |r| == |d| + 1 ==> !SameKey(r[|d|].0, k2, ignoreCase);
    match IndexOf(d, k2, ignoreCase)
    case None =>
      assert forall j :: 0 <= j < |r| ==> !SameKey(r[j].0, k2, ignoreCase);
    case Some(i) =>
      IndexOfFirst(r, k2, ignoreCase, i);
  }

  /** d[k] = v never introduces a second entry for a key. */
  lemma PutKeepsUnique<V>(d: Entries<V>, k: string, v: V, ignoreCase: bool)
    requires UniqueKeys(d, ignoreCase)
    ensures UniqueKeys(Put(d, k, v, ignoreCase), ignoreCase)
  {
  }

  /** d[k] = v keeps the enumeration order: an existing key keeps its slot and its original spelling, a new key comes last. */
  lemma PutKeys<V>(d: Entries<V>, k: string, v: V, ignoreCase: bool)
    ensures Keys(Put(d, k, v, ignoreCase)) == if ContainsKey(d, k, ignoreCase) then Keys(d) else Keys(d) + [k]
  {
  }

  /** Reading from an empty dictionary finds nothing. */
  lemma EmptyGet<V>(k: string, ignoreCase: bool)
    ensures Get<V>([], k, ignoreCase) == None
  {
  }
}
