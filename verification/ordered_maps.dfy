/** Python's `dict[str, V]`: lookups by key, and iteration in first-insertion
    order. Assigning to an existing key replaces its value in place; deleting
    a key closes the gap. */
module OrderedMaps {
  import opened Wrappers

  type OMap<V> = seq<(string, V)>

  predicate UniqueKeys<V>(m: OMap<V>) {
    forall i, j :: 0 <= i < j < |m| ==> m[i].0 != m[j].0
  }

  function Keys<V>(m: OMap<V>): (ks: seq<string>)
    ensures |ks| == |m|
    ensures forall i :: 0 <= i < |m| ==> ks[i] == m[i].0
  {
    if |m| == 0 then [] else [m[0].0] + Keys(m[1..])
  }

  function Values<V>(m: OMap<V>): (vs: seq<V>)
    ensures |vs| == |m|
    ensures forall i :: 0 <= i < |m| ==> vs[i] == m[i].1
  {
    if |m| == 0 then [] else [m[0].1] + Values(m[1..])
  }

  function IndexFrom<V>(m: OMap<V>, k: string, from: nat): (r: Option<nat>)
    decreases |m| - from
    ensures r.Some? ==> from <= r.value < |m| && m[r.value].0 == k
    ensures r.Some? ==> forall i :: from <= i < r.value ==> m[i].0 != k
    ensures r.None? ==> forall i :: from <= i < |m| ==> m[i].0 != k
  {
    if from >= |m| then None
    else if m[from].0 == k then Some(from)
    else IndexFrom(m, k, from + 1)
  }

  /** Position of `k` in iteration order. */
  function IndexOf<V>(m: OMap<V>, k: string): Option<nat> {
    IndexFrom(m, k, 0)
  }

  predicate HasKey<V>(m: OMap<V>, k: string) {
    IndexOf(m, k).Some?
  }

  /** Python's `d.get(k)`. */
  function Get<V>(m: OMap<V>, k: string): Option<V> {
    match IndexOf(m, k)
    case Some(i) => Some(m[i].1)
    case None => None
  }

  lemma IndexOfIs<V>(m: OMap<V>, k: string, j: nat)
    requires j < |m| && m[j].0 == k
    requires forall i :: 0 <= i < j ==> m[i].0 != k
    ensures IndexOf(m, k) == Some(j)
  {
  }

  lemma HasKeyIffInKeys<V>(m: OMap<V>, k: string)
    ensures HasKey(m, k) <==> k in Keys(m)
  {
    if k in Keys(m) {
      var i :| 0 <= i < |Keys(m)| && Keys(m)[i] == k;
      assert m[i].0 == k;
    }
  }

  /** Python's `d[k] = v`. */
  function Put<V>(m: OMap<V>, k: string, v: V): (r: OMap<V>)
    ensures UniqueKeys(m) ==> UniqueKeys(r)
    ensures Get(r, k) == Some(v)
    ensures forall k' :: k' != k ==> Get(r, k') == Get(m, k')
    ensures HasKey(m, k) ==> Keys(r) == Keys(m)
    ensures !HasKey(m, k) ==> Keys(r) == Keys(m) + [k]
  {
    match IndexOf(m, k)
    case Some(i) =>
      ReplaceAtEffect(m, i, v);
      m[i := (k, v)]
    case None =>
      AppendEffect(m, k, v);
      m + [(k, v)]
  }

  /** Assigning to a present key replaces its entry in place. */
  lemma ReplaceAtEffect<V>(m: OMap<V>, i: nat, v: V)
    requires i < |m| && IndexOf(m, m[i].0) == Some(i)
    ensures var r := m[i := (m[i].0, v)];
            && (UniqueKeys(m) ==> UniqueKeys(r))
            && Get(r, m[i].0) == Some(v)
            && (forall k' :: k' != m[i].0 ==> Get(r, k') == Get(m, k'))
            && Keys(r) == Keys(m)
  {
    var k := m[i].0;
    var r := m[i := (k, v)];
    forall k' | k' != k
      ensures IndexOf(r, k') == IndexOf(m, k')
    {
      if IndexOf(m, k').Some? {
        IndexOfIs(r, k', IndexOf(m, k').value);
      }
    }
    IndexOfIs(r, k, i);
  }

  /** Assigning to an absent key appends an entry. */
  lemma AppendEffect<V>(m: OMap<V>, k: string, v: V)
    requires IndexOf(m, k).None?
    ensures var r := m + [(k, v)];
            && (UniqueKeys(m) ==> UniqueKeys(r))
            && Get(r, k) == Some(v)
            && (forall k' :: k' != k ==> Get(r, k') == Get(m, k'))
            && Keys(r) == Keys(m) + [k]
  {
    var r := m + [(k, v)];
    forall k' | k' != k
      ensures IndexOf(r, k') == IndexOf(m, k')
    {
      if IndexOf(m, k').Some? {
        IndexOfIs(r, k', IndexOf(m, k').value);
      }
    }
    IndexOfIs(r, k, |m|);
  }

  /** Deleting the entry at `i` keeps every other key's value. */
  lemma RemoveAtKeepsOthers<V>(m: OMap<V>, i: nat, k': string)
    requires UniqueKeys(m) && i < |m| && m[i].0 != k'
    ensures Get(m[..i] + m[i + 1..], k') == Get(m, k')
  {
    var r := m[..i] + m[i + 1..];
    assert forall j :: 0 <= j < |r| ==> r[j] == (if j < i then m[j] else m[j + 1]);
    if IndexOf(m, k').Some? {
      var j := IndexOf(m, k').value;
      if j < i {
        IndexOfIs(r, k', j);
      } else {
        IndexOfIs(r, k', j - 1);
      }
    } else {
      assert forall t :: 0 <= t < |r| ==> r[t].0 != k';
    }
  }

  /** Deleting the entry at `i` shifts the later entries down by one. */
  lemma RemoveAtIndex<V>(m: OMap<V>, i: nat)
    requires i < |m|
    ensures forall j :: 0 <= j < |m| - 1 ==> (m[..i] + m[i + 1..])[j] == (if j < i then m[j] else m[j + 1])
  {
  }

  /** Deleting the entry at `i` of a map with unique keys. */
  lemma RemoveAtEffect<V>(m: OMap<V>, i: nat)
    requires UniqueKeys(m) && i < |m|
    ensures var r := m[..i] + m[i + 1..];
            && UniqueKeys(r)
            && Get(r, m[i].0).None?
            && (forall k' :: k' != m[i].0 ==> Get(r, k') == Get(m, k'))
            && Keys(r) == Keys(m)[..i] + Keys(m)[i + 1..]
  {
    var r := m[..i] + m[i + 1..];
    RemoveAtIndex(m, i);
    forall k' | k' != m[i].0
      ensures Get(r, k') == Get(m, k')
    {
      RemoveAtKeepsOthers(m, i, k');
    }
    assert UniqueKeys(r) by {
      forall a, b | 0 <= a < b < |r| ensures r[a].0 != r[b].0 {
        assert r[a] == m[if a < i then a else a + 1];
        assert r[b] == m[if b < i then b else b + 1];
      }
    }
    assert forall t :: 0 <= t < |r| ==> r[t].0 != m[i].0;
    var ks := Keys(m)[..i] + Keys(m)[i + 1..];
    assert |Keys(r)| == |ks|;
    assert forall t :: 0 <= t < |r| ==> Keys(r)[t] == ks[t];
  }

  /** Python's `del d[k]` on a present key, and a no-op otherwise. */
  function Remove<V>(m: OMap<V>, k: string): (r: OMap<V>)
    requires UniqueKeys(m)
    ensures UniqueKeys(r)
    ensures Get(r, k).None?
    ensures forall k' :: k' != k ==> Get(r, k') == Get(m, k')
    ensures HasKey(m, k) ==> Keys(r) == Keys(m)[..IndexOf(m, k).value] + Keys(m)[IndexOf(m, k).value + 1..]
    ensures !HasKey(m, k) ==> r == m
  {
    match IndexOf(m, k)
    case Some(i) =>
      RemoveAtEffect(m, i);
      m[..i] + m[i + 1..]
    case None => m
  }

  /** The first entry answers for its own key. */
  lemma GetHead<V>(m: OMap<V>, k: string)
    requires |m| > 0 && m[0].0 == k
    ensures Get(m, k) == Some(m[0].1)
  {
    IndexOfIs(m, k, 0);
  }

  /** Looking past a first entry whose key differs. */
  lemma GetTail<V>(m: OMap<V>, k: string)
    requires |m| > 0 && m[0].0 != k
    ensures Get(m, k) == Get(m[1..], k)
  {
    var t := m[1..];
    if IndexOf(t, k).Some? {
      IndexOfIs(m, k, IndexOf(t, k).value + 1);
    } else {
      assert forall i :: 0 <= i < |m| ==> m[i].0 != k by {
        forall i | 0 <= i < |m|
          ensures m[i].0 != k
        {
          if i > 0 {
            assert m[i] == t[i - 1];
          }
        }
      }
    }
  }

  /** Python's `a.update(b)`: each entry of `b`, in order, assigned into `a`. */
  function Merge<V>(a: OMap<V>, b: OMap<V>): (r: OMap<V>)
    decreases |b|
    ensures UniqueKeys(a) ==> UniqueKeys(r)
  {
    if |b| == 0 then a else Merge(Put(a, b[0].0, b[0].1), b[1..])
  }

  /** After a merge, a key takes its value from `b` when `b` has it, and
      keeps its value from `a` otherwise. */
  lemma {:induction false} MergeGet<V>(a: OMap<V>, b: OMap<V>, k: string)
    requires UniqueKeys(b)
    ensures Get(Merge(a, b), k) == if HasKey(b, k) then Get(b, k) else Get(a, k)
    decreases |b|
  {
    if |b| > 0 {
      var t := b[1..];
      assert UniqueKeys(t) by {
        forall i, j | 0 <= i < j < |t|
          ensures t[i].0 != t[j].0
        {
          assert t[i] == b[i + 1] && t[j] == b[j + 1];
        }
      }
      MergeGet(Put(a, b[0].0, b[0].1), t, k);
      if b[0].0 != k {
        GetTail(b, k);
      } else {
        IndexOfIs(b, k, 0);
        assert !HasKey(t, k) by {
          forall i | 0 <= i < |t|
            ensures t[i].0 != k
          {
            assert t[i] == b[i + 1];
          }
        }
      }
    }
  }

  /** A lookup in a concatenation answers from the left part first. */
  lemma GetConcat<V>(a: OMap<V>, b: OMap<V>, k: string)
    ensures Get(a + b, k) == if HasKey(a, k) then Get(a, k) else Get(b, k)
  {
    var m := a + b;
    if IndexOf(a, k).Some? {
      IndexOfIs(m, k, IndexOf(a, k).value);
    } else if IndexOf(b, k).Some? {
      var j := IndexOf(b, k).value;
      assert m[|a| + j] == b[j];
      IndexOfIs(m, k, |a| + j);
    } else {
      assert forall i :: 0 <= i < |m| ==> m[i].0 != k by {
        forall i | 0 <= i < |m|
          ensures m[i].0 != k
        {
          if i >= |a| {
            assert m[i] == b[i - |a|];
          }
        }
      }
    }
  }
}
