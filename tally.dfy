/**
 * Dictionaries of counts, `Dict[str, int]`, as the export summaries keep
 * them: `dict.get(k, 0)`, merging two tallies key by key, and the sum of
 * the values, which does not depend on the order the keys are visited in.
 */
module Tally {

  type Counts = map<string, int>

  /** `counts.get(k, 0)`. */
  function Get(m: Counts, k: string): int {
    if k in m then m[k] else 0
  }

  /** The sum of the values stored at `keys`, visiting the keys in any order. */
  ghost function SumAt(m: Counts, keys: set<string>): int
    requires keys <= m.Keys
  {
    if keys == {} then 0
    else
      var k :| k in keys;
      m[k] + SumAt(m, keys - {k})
  }

  /** `sum(counts.values())`. */
  ghost function Total(m: Counts): int {
    SumAt(m, m.Keys)
  }

  /** Any key may be taken out first: the sum is the same. */
  lemma {:induction false} SumAtRemove(m: Counts, keys: set<string>, x: string)
    requires keys <= m.Keys && x in keys
    ensures SumAt(m, keys) == m[x] + SumAt(m, keys - {x})
    decreases |keys|
  {
    var y :| y in keys && SumAt(m, keys) == m[y] + SumAt(m, keys - {y});
    if y != x {
      SumAtRemove(m, keys - {y}, x);
      SumAtRemove(m, keys - {x}, y);
      assert keys - {y} - {x} == keys - {x} - {y};
    }
  }

  /** Two tallies that agree on `keys` sum to the same there. */
  lemma {:induction false} SumAtAgree(m: Counts, n: Counts, keys: set<string>)
    requires keys <= m.Keys && keys <= n.Keys
    requires forall k :: k in keys ==> m[k] == n[k]
    ensures SumAt(m, keys) == SumAt(n, keys)
    decreases |keys|
  {
    if keys != {} {
      var x :| x in keys;
      SumAtRemove(m, keys, x);
      SumAtRemove(n, keys, x);
      SumAtAgree(m, n, keys - {x});
    }
  }

  /** Storing `v` at `k` changes the total by `v` minus what was there. */
  lemma TotalUpdate(m: Counts, k: string, v: int)
    ensures Total(m[k := v]) == Total(m) - Get(m, k) + v
  {
    var n := m[k := v];
    if k in m {
      SumAtRemove(n, n.Keys, k);
      SumAtRemove(m, m.Keys, k);
      assert n.Keys - {k} == m.Keys - {k};
      SumAtAgree(m, n, m.Keys - {k});
    } else {
      SumAtRemove(n, n.Keys, k);
      assert n.Keys - {k} == m.Keys;
      SumAtAgree(m, n, m.Keys);
    }
  }

  /** Adding one more occurrence of `k` adds one to the total. */
  lemma TotalIncrement(m: Counts, k: string)
    ensures Total(m[k := Get(m, k) + 1]) == Total(m) + 1
  {
    TotalUpdate(m, k, Get(m, k) + 1);
  }

  /** The key-by-key sum of two tallies. */
  function Merge(a: Counts, b: Counts): (r: Counts)
    ensures r.Keys == a.Keys + b.Keys
    ensures forall k :: Get(r, k) == Get(a, k) + Get(b, k)
  {
    map k | k in a.Keys + b.Keys :: Get(a, k) + Get(b, k)
  }

  /** Merging adds the totals. */
  lemma {:induction false} TotalMerge(a: Counts, b: Counts)
    ensures Total(Merge(a, b)) == Total(a) + Total(b)
    decreases |b.Keys|
  {
    if b.Keys == {} {
      MergeNothing(a, b);
    } else {
      var x :| x in b.Keys;
      var rest := b - {x};
      assert rest.Keys == b.Keys - {x};
      TotalMerge(a, rest);
      MergeOneTotal(a, b, x);
      RemoveOne(b, x);
    }
  }

  lemma MergeOneTotal(a: Counts, b: Counts, x: string)
    requires x in b
    ensures Total(Merge(a, b)) == Total(Merge(a, b - {x})) + b[x]
  {
    var smaller := Merge(a, b - {x});
    var v := Get(a, x) + b[x];
    MergeOneMore(a, b, x);
    TotalUpdate(smaller, x, v);
  }

  lemma MergeNothing(a: Counts, b: Counts)
    requires b.Keys == {}
    ensures Total(Merge(a, b)) == Total(a) + Total(b)
  {
    assert Merge(a, b) == a;
  }

  lemma MergeOneMore(a: Counts, b: Counts, x: string)
    requires x in b
    ensures Merge(a, b) == Merge(a, b - {x})[x := Get(a, x) + b[x]]
    ensures Get(Merge(a, b - {x}), x) == Get(a, x)
  {
    var l := Merge(a, b);
    var r := Merge(a, b - {x})[x := Get(a, x) + b[x]];
    assert l.Keys == r.Keys;
    forall k | k in l.Keys
      ensures l[k] == r[k]
    {
      assert Get(l, k) == Get(a, k) + Get(b, k);
    }
  }

  lemma RemoveOne(b: Counts, x: string)
    requires x in b
    ensures Total(b) == b[x] + Total(b - {x})
  {
    var rest := b - {x};
    SumAtRemove(b, b.Keys, x);
    assert rest.Keys == b.Keys - {x};
    SumAtAgree(b, rest, rest.Keys);
  }
}
