/**
 * Maximal runs of equal labels in a label sequence, as both the
 * minimum-duration enforcer and the range aggregator scan them, together
 * with the boundary count that measures how fragmented a labelling is.
 */
module LabelRuns {

  /** A run of frames `first..last` (both inclusive) that share one label. */
  datatype Run = Run(first: nat, last: nat)

  /**
   * The scan of `enforce_min_duration`: `start` opens the current run, `i`
   * is the next frame to look at; a label change closes the run at `i - 1`.
   */
  function RunsFrom(l: seq<string>, start: nat, i: nat): seq<Run>
    requires start < i <= |l|
    decreases |l| - i
  {
    if i == |l| then [Run(start, |l| - 1)]
    else if l[i] != l[start] then [Run(start, i - 1)] + RunsFrom(l, i, i + 1)
    else RunsFrom(l, start, i + 1)
  }

  /** The maximal runs of a non-empty labelling. */
  function Runs(l: seq<string>): seq<Run>
    requires |l| >= 1
  {
    RunsFrom(l, 0, 1)
  }

  /** The label of a run: the label of its first frame. */
  function LabelOf(l: seq<string>, r: Run): string
    requires r.first < |l|
  {
    l[r.first]
  }

  /** The label of run `k` of `l`. */
  function RunLabel(l: seq<string>, k: nat): string
    requires |l| >= 1 && k < |Runs(l)|
  {
    RunsPartition(l);
    l[Runs(l)[k].first]
  }

  /** `runs` cut frames `start..n-1` into consecutive non-empty runs. */
  ghost predicate Tiles(runs: seq<Run>, start: nat, n: nat) {
    && |runs| >= 1
    && runs[0].first == start
    && runs[|runs| - 1].last == n - 1
    && (forall k :: 0 <= k < |runs| ==> runs[k].first <= runs[k].last < n)
    && (forall k :: 0 <= k < |runs| - 1 ==> runs[k + 1].first == runs[k].last + 1)
  }

  /** Every run carries one label throughout. */
  ghost predicate Uniform(l: seq<string>, runs: seq<Run>) {
    forall k, p :: 0 <= k < |runs| && runs[k].first <= p <= runs[k].last && p < |l| ==> l[p] == l[runs[k].first]
  }

  /** Neighbouring runs carry different labels, so every run is maximal. */
  ghost predicate Alternates(l: seq<string>, runs: seq<Run>) {
    forall k :: 0 <= k < |runs| - 1 && runs[k].first < |l| && runs[k + 1].first < |l| ==>
      l[runs[k + 1].first] != l[runs[k].first]
  }

  ghost predicate IsPartition(l: seq<string>, runs: seq<Run>, start: nat) {
    Tiles(runs, start, |l|) && Uniform(l, runs) && Alternates(l, runs)
  }

  /** One more run in front of a partition of the rest. */
  lemma ConsPartition(l: seq<string>, start: nat, i: nat, rest: seq<Run>)
    requires start < i < |l| && IsPartition(l, rest, i)
    requires forall p :: start <= p < i ==> l[p] == l[start]
    requires l[i] != l[start]
    ensures IsPartition(l, [Run(start, i - 1)] + rest, start)
  {
    var runs := [Run(start, i - 1)] + rest;
    assert forall k :: 1 <= k < |runs| ==> runs[k] == rest[k - 1];
    ConsTiles(start, i, |l|, rest);
    forall k, p | 0 <= k < |runs| && runs[k].first <= p <= runs[k].last && p < |l|
      ensures l[p] == l[runs[k].first]
    {
      if k > 0 {
        assert runs[k] == rest[k - 1];
      }
    }
    forall k | 0 <= k < |runs| - 1 && runs[k].first < |l| && runs[k + 1].first < |l|
      ensures l[runs[k + 1].first] != l[runs[k].first]
    {
      if k > 0 {
        assert runs[k] == rest[k - 1] && runs[k + 1] == rest[k];
      }
    }
  }

  lemma ConsTiles(start: nat, i: nat, n: nat, rest: seq<Run>)
    requires start < i && Tiles(rest, i, n)
    ensures Tiles([Run(start, i - 1)] + rest, start, n)
  {
    var runs := [Run(start, i - 1)] + rest;
    assert forall k :: 1 <= k < |runs| ==> runs[k] == rest[k - 1];
    assert runs[|runs| - 1] == rest[|rest| - 1];
  }

  lemma {:induction false} RunsFromPartition(l: seq<string>, start: nat, i: nat)
    requires start < i <= |l|
    requires forall p :: start <= p < i ==> l[p] == l[start]
    ensures IsPartition(l, RunsFrom(l, start, i), start)
    decreases |l| - i
  {
    if i == |l| {
    } else if l[i] != l[start] {
      RunsFromPartition(l, i, i + 1);
      ConsPartition(l, start, i, RunsFrom(l, i, i + 1));
    } else {
      RunsFromPartition(l, start, i + 1);
    }
  }

  /** The maximal runs partition the whole labelling. */
  lemma RunsPartition(l: seq<string>)
    requires |l| >= 1
    ensures IsPartition(l, Runs(l), 0)
  {
    RunsFromPartition(l, 0, 1);
  }

  // ---------------------------------------------------------------------
  // Boundaries

  /** Frames `q` and `q + 1` carry different labels. */
  predicate IsBoundary(l: seq<string>, q: int) {
    0 <= q && q + 1 < |l| && l[q] != l[q + 1]
  }

  /** The number of boundaries among the first `p` positions. */
  function BoundariesBelow(l: seq<string>, p: nat): nat
    requires p <= |l|
  {
    if p == 0 then 0 else BoundariesBelow(l, p - 1) + (if IsBoundary(l, p - 1) then 1 else 0)
  }

  /** The number of label changes in a labelling: one less than its number of runs. */
  function Boundaries(l: seq<string>): nat {
    BoundariesBelow(l, |l|)
  }

  /** Boundaries only in places where `a` has them: `b` has no more of them. */
  lemma {:induction false} BoundariesBelowLe(a: seq<string>, b: seq<string>, p: nat)
    requires |a| == |b| && p <= |a|
    requires forall q :: 0 <= q < p && IsBoundary(b, q) ==> IsBoundary(a, q)
    ensures BoundariesBelow(b, p) <= BoundariesBelow(a, p)
  {
    if p > 0 {
      BoundariesBelowLe(a, b, p - 1);
    }
  }

  /** ... and one boundary of `a` missing from `b` makes `b`'s count smaller. */
  lemma {:induction false} BoundariesBelowLt(a: seq<string>, b: seq<string>, p: nat, w: nat)
    requires |a| == |b| && w < p <= |a|
    requires forall q :: 0 <= q < p && IsBoundary(b, q) ==> IsBoundary(a, q)
    requires IsBoundary(a, w) && !IsBoundary(b, w)
    ensures BoundariesBelow(b, p) < BoundariesBelow(a, p)
  {
    if w < p - 1 {
      BoundariesBelowLt(a, b, p - 1, w);
    } else {
      BoundariesBelowLe(a, b, p - 1);
    }
  }

  // ---------------------------------------------------------------------
  // Relabelling a run

  /** The labelling with every frame of run `r` given label `m`. */
  function Relabel(l: seq<string>, r: Run, m: string): (l': seq<string>)
    ensures |l'| == |l|
    ensures forall p :: 0 <= p < |l| ==> l'[p] == (if r.first <= p <= r.last then m else l[p])
  {
    seq(|l|, p requires 0 <= p < |l| => if r.first <= p <= r.last then m else l[p])
  }

  /**
   * Giving run `k` the label of one of its neighbours removes the boundary
   * between them and creates none, so the boundary count strictly drops.
   */
  lemma RelabelLowersBoundaries(l: seq<string>, runs: seq<Run>, k: nat, m: string)
    requires IsPartition(l, runs, 0) && k < |runs|
    requires (k > 0 && m == l[runs[k - 1].first]) || (k + 1 < |runs| && m == l[runs[k + 1].first])
    ensures Boundaries(Relabel(l, runs[k], m)) < Boundaries(l)
  {
    var r := runs[k];
    var l' := Relabel(l, r, m);
    forall q | 0 <= q < |l| && IsBoundary(l', q)
      ensures IsBoundary(l, q)
    {
      if q + 1 == r.first {
        assert runs[k - 1].last == q;
        assert l[q] == l[runs[k - 1].first];
      } else if q == r.last {
        assert runs[k + 1].first == q + 1;
      }
    }
    if k > 0 && m == l[runs[k - 1].first] {
      var w := r.first - 1;
      assert runs[k - 1].last == w;
      assert l[w] == l[runs[k - 1].first];
      BoundariesBelowLt(l, l', |l|, w);
    } else {
      var w := r.last;
      assert runs[k + 1].first == w + 1;
      BoundariesBelowLt(l, l', |l|, w);
    }
  }

  /** A relabelling with a label already present keeps every label within `l0`. */
  lemma RelabelKeepsLabels(l0: seq<string>, l: seq<string>, r: Run, m: string)
    requires forall p :: 0 <= p < |l| ==> l[p] in l0
    requires m in l0
    ensures forall p :: 0 <= p < |l| ==> Relabel(l, r, m)[p] in l0
  {
  }
}
