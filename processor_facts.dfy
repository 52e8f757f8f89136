/**
 * Properties of the Converter's pools and columns: the accuracy pool stays
 * paired with the Kendall tau pool and inside [0, 100], a week's pool is the
 * concatenation of its seven days, and a pool holds exactly the defining
 * metrics of the trials of the selected source.
 */
module ProcessorFacts {
  import opened Wrappers
  import opened Document
  import opened Numeric
  import opened Processor
  import Explorer

  // ------------------------------------------------------------ accuracy

  /** Every accuracy in the pool is the clamped accuracy of the tau beside it. */
  predicate Paired(p: Pools) {
    |p.distance| == |p.kendallTau| && forall k :: 0 <= k < |p.distance| ==> p.distance[k] == ClampedAccuracy(p.kendallTau[k])
  }

  lemma ConcatPaired(a: Pools, b: Pools)
    requires Paired(a) && Paired(b)
    ensures Paired(a.Concat(b))
  {
    var c := a.Concat(b);
    forall k | 0 <= k < |c.distance|
      ensures c.distance[k] == ClampedAccuracy(c.kendallTau[k])
    {
      if k >= |a.distance| {
        assert c.distance[k] == b.distance[k - |a.distance|];
        assert c.kendallTau[k] == b.kendallTau[k - |a.kendallTau|];
      }
    }
  }

  lemma {:induction false} TrialsPoolsPaired(ts: seq<Trial>, tt: TaskType, src: string)
    ensures Paired(TrialsPools(ts, tt, src))
    decreases |ts|
  {
    if ts != [] {
      var last := ts[|ts| - 1];
      TrialsPoolsPaired(ts[..|ts| - 1], tt, src);
      ConcatPaired(TrialsPools(ts[..|ts| - 1], tt, src), if last.Dict? then TrialPools(last.fields, tt, src) else NoPools);
    }
  }

  lemma {:induction false} SourcePoolsPaired(s: SourceFields, k: nat, src: string)
    requires k <= |TaskTypes|
    ensures Paired(SourcePools(s, k, src))
  {
    if k > 0 {
      var tt := TaskTypes[k - 1];
      SourcePoolsPaired(s, k - 1, src);
      TrialsPoolsPaired(ListOrEmpty(TrialsOf(s, tt)), tt, src);
      ConcatPaired(SourcePools(s, k - 1, src), TrialsPools(ListOrEmpty(TrialsOf(s, tt)), tt, src));
    }
  }

  lemma {:induction false} SourcesPoolsPaired(ss: seq<SourceEntry>, src: string)
    ensures Paired(SourcesPools(ss, src))
    decreases |ss|
  {
    if ss != [] {
      var last := ss[|ss| - 1];
      SourcesPoolsPaired(ss[..|ss| - 1], src);
      if last.Dict? {
        SourcePoolsPaired(last.fields, |TaskTypes|, src);
      }
      ConcatPaired(SourcesPools(ss[..|ss| - 1], src), if last.Dict? then SourcePools(last.fields, |TaskTypes|, src) else NoPools);
    }
  }

  lemma EntryPoolsPaired(e: DailyEntry, src: string)
    ensures Paired(EntryPools(e, src))
  {
    if e.Dict? {
      SourcesPoolsPaired(ListOrEmpty(e.fields.resultsBySource), src);
    }
  }

  /** `trial_data`: the overall accuracy pool is the clamped image of the overall tau pool. */
  lemma {:induction false} DaysPoolsPaired(ds: seq<DailyEntry>, src: string)
    ensures Paired(DaysPools(ds, src))
    decreases |ds|
  {
    if ds != [] {
      DaysPoolsPaired(ds[..|ds| - 1], src);
      EntryPoolsPaired(ds[|ds| - 1], src);
      ConcatPaired(DaysPools(ds[..|ds| - 1], src), EntryPools(ds[|ds| - 1], src));
    }
  }

  predicate Percentages(xs: seq<real>) {
    forall i :: 0 <= i < |xs| ==> 0.0 <= xs[i] <= 100.0
  }

  lemma PairedPercentages(p: Pools)
    requires Paired(p)
    ensures Percentages(p.distance)
  {
  }

  lemma {:induction false} WeekAccuracyPercentages(ds: seq<DailyEntry>, w: int, src: string)
    ensures Percentages(WeekPool(ds, w, DistanceAccuracy, src))
    decreases |ds|
  {
    if ds != [] {
      WeekAccuracyPercentages(ds[..|ds| - 1], w, src);
      EntryPoolsPaired(ds[|ds| - 1], src);
      PairedPercentages(EntryPools(ds[|ds| - 1], src));
      var a := WeekPool(ds[..|ds| - 1], w, DistanceAccuracy, src);
      var b := if WeekOf(|ds| - 1) == w then EntryPools(ds[|ds| - 1], src).distance else [];
      PercentagesAppend(a, b);
    }
  }

  lemma PercentagesAppend(a: seq<real>, b: seq<real>)
    requires Percentages(a) && Percentages(b)
    ensures Percentages(a + b)
  {
    assert forall i :: |a| <= i < |a + b| ==> (a + b)[i] == b[i - |a|];
  }

  /**
   * Unlike the Explorer's unclamped `distance_accuracy`, every
   * `Distance_Accuracy` column of a summary row (overall, daily and weekly)
   * lies between 0 and 100.
   */
  lemma AccuracyColumnsArePercentages(ds: seq<DailyEntry>, src: string, overall: map<Metric, Option<real>>, columns: map<Column, real>)
    requires AreMetricsOf(ds, src, overall, columns)
    ensures overall[DistanceAccuracy].Some? ==> 0.0 <= overall[DistanceAccuracy].value <= 100.0
    ensures forall c :: c in columns && c.m == DistanceAccuracy ==> 0.0 <= columns[c] <= 100.0
  {
    if overall[DistanceAccuracy].Some? {
      DaysPoolsPaired(ds, src);
      MeanBounds(DaysPools(ds, src).distance, 0.0, 100.0);
    }
    forall c | c in columns && c.m == DistanceAccuracy
      ensures 0.0 <= columns[c] <= 100.0
    {
      ColumnAccuracyIsPercentage(ds, src, columns, c);
    }
  }

  lemma ColumnAccuracyIsPercentage(ds: seq<DailyEntry>, src: string, columns: map<Column, real>, c: Column)
    requires ColumnsAreMeans(ds, src, columns)
    requires c in columns && c.m == DistanceAccuracy
    ensures 0.0 <= columns[c] <= 100.0
  {
    if c.Day? {
      EntryPoolsPaired(ds[c.n - 1], src);
      MeanBounds(DayPool(ds, c.n, c.m, src), 0.0, 100.0);
    } else {
      assert Week(c.n, c.m) in columns;
      WeekAccuracyPercentages(ds, c.n, src);
      MeanBounds(WeekPool(ds, c.n, c.m, src), 0.0, 100.0);
    }
  }

  /** The same trial, tau = 1.2: the Explorer reports an accuracy of 110, the Converter pools 100. */
  lemma ClampDiffersFromExplorer(t: TrialFields, src: string)
    requires t.taskSource == Some(src) && t.kendallTau == Some(1.2)
    ensures Explorer.RowAccuracy(t.kendallTau) == Some(110.0)
    ensures TrialPools(t, Distance, src).distance == [100.0]
    ensures TrialPools(t, Distance, src).kendallTau == [1.2]
  {
  }

  // ------------------------------------------------------------ weeks

  /** The first and one-past-last position of week `w` (days `7(w-1)+1` to `7w`) within `n` entries. */
  function WeekStart(w: nat, n: nat): nat {
    if w == 0 then 0 else if 7 * (w - 1) <= n then 7 * (w - 1) else n
  }

  function WeekEnd(w: nat, n: nat): nat {
    if w == 0 then 0 else if 7 * w <= n then 7 * w else n
  }

  /** How week `w`'s range moves when one more daily entry, at position `n`, is added. */
  lemma WeekRangeStep(n: nat, w: nat)
    ensures WeekStart(w, n) <= WeekEnd(w, n) <= n
    ensures WeekOf(n) == w ==> WeekStart(w, n + 1) == WeekStart(w, n) && WeekEnd(w, n) == n && WeekEnd(w, n + 1) == n + 1
    ensures WeekOf(n) != w ==>
      || (WeekStart(w, n + 1) == WeekEnd(w, n + 1) && WeekStart(w, n) == WeekEnd(w, n))
      || (WeekStart(w, n + 1) == WeekStart(w, n) && WeekEnd(w, n + 1) == WeekEnd(w, n))
  {
    var q := n / 7;
    assert 7 * q <= n < 7 * q + 7;
  }

  lemma SliceOfPrefix<T>(s: seq<T>, n: nat, lo: nat, hi: nat)
    requires lo <= hi <= n <= |s|
    ensures s[..n][lo..hi] == s[lo..hi]
  {
  }

  /** The inductive step of `WeekIsItsDays`: from the entries before position `n` to those up to it. */
  lemma WeekStep(ds: seq<DailyEntry>, w: nat, m: Metric, src: string)
    requires ds != []
    requires WeekPool(ds[..|ds| - 1], w, m, src) == DaysPools(ds[..|ds| - 1][WeekStart(w, |ds| - 1)..WeekEnd(w, |ds| - 1)], src).Get(m)
    ensures WeekStart(w, |ds|) <= WeekEnd(w, |ds|) <= |ds|
    ensures WeekPool(ds, w, m, src) == DaysPools(ds[WeekStart(w, |ds|)..WeekEnd(w, |ds|)], src).Get(m)
  {
    var n := |ds| - 1;
    WeekRangeStep(n, w);
    if WeekOf(n) == w {
      WeekGains(ds, w, m, src);
    } else {
      WeekKeeps(ds, w, m, src);
    }
  }

  /** Position `n` lies in week `w`: its pool joins the end of the week's. */
  lemma WeekGains(ds: seq<DailyEntry>, w: nat, m: Metric, src: string)
    requires ds != [] && WeekOf(|ds| - 1) == w
    requires WeekStart(w, |ds| - 1) <= WeekEnd(w, |ds| - 1) <= |ds| - 1
    requires WeekStart(w, |ds|) == WeekStart(w, |ds| - 1) && WeekEnd(w, |ds| - 1) == |ds| - 1 && WeekEnd(w, |ds|) == |ds|
    requires WeekPool(ds[..|ds| - 1], w, m, src) == DaysPools(ds[..|ds| - 1][WeekStart(w, |ds| - 1)..WeekEnd(w, |ds| - 1)], src).Get(m)
    ensures WeekPool(ds, w, m, src) == DaysPools(ds[WeekStart(w, |ds|)..WeekEnd(w, |ds|)], src).Get(m)
  {
    var n := |ds| - 1;
    var lo := WeekStart(w, n);
    var before := WeekPool(ds[..n], w, m, src);
    SliceOfPrefix(ds, n, lo, n);
    assert WeekPool(ds, w, m, src) == before + EntryPools(ds[n], src).Get(m);
    DayJoinsWeek(ds, lo, before, m, src);
  }

  /** Position `n` lies outside week `w`: the week's pool and range stay as they were. */
  lemma WeekKeeps(ds: seq<DailyEntry>, w: nat, m: Metric, src: string)
    requires ds != [] && WeekOf(|ds| - 1) != w
    requires WeekStart(w, |ds| - 1) <= WeekEnd(w, |ds| - 1) <= |ds| - 1
    requires WeekStart(w, |ds|) <= WeekEnd(w, |ds|) <= |ds|
    requires || (WeekStart(w, |ds|) == WeekEnd(w, |ds|) && WeekStart(w, |ds| - 1) == WeekEnd(w, |ds| - 1))
             || (WeekStart(w, |ds|) == WeekStart(w, |ds| - 1) && WeekEnd(w, |ds|) == WeekEnd(w, |ds| - 1))
    requires WeekPool(ds[..|ds| - 1], w, m, src) == DaysPools(ds[..|ds| - 1][WeekStart(w, |ds| - 1)..WeekEnd(w, |ds| - 1)], src).Get(m)
    ensures WeekPool(ds, w, m, src) == DaysPools(ds[WeekStart(w, |ds|)..WeekEnd(w, |ds|)], src).Get(m)
  {
    var n := |ds| - 1;
    var lo, hi := WeekStart(w, n), WeekEnd(w, n);
    var before := WeekPool(ds[..n], w, m, src);
    SliceOfPrefix(ds, n, lo, hi);
    assert WeekPool(ds, w, m, src) == before + [];
    DayOutsideWeek(ds, lo, hi, WeekStart(w, n + 1), WeekEnd(w, n + 1), before, m, src);
  }

  lemma DayJoinsWeek(ds: seq<DailyEntry>, lo: nat, before: seq<real>, m: Metric, src: string)
    requires lo < |ds|
    requires before == DaysPools(ds[lo..|ds| - 1], src).Get(m)
    ensures before + EntryPools(ds[|ds| - 1], src).Get(m) == DaysPools(ds[lo..|ds|], src).Get(m)
  {
    var xs := ds[lo..|ds|];
    SliceLast(ds, lo);
    DaysPoolsLast(xs, src);
    var p, e := DaysPools(ds[lo..|ds| - 1], src), EntryPools(ds[|ds| - 1], src);
    assert p.Concat(e).Get(m) == p.Get(m) + e.Get(m);
  }

  lemma SliceLast<T>(s: seq<T>, lo: nat)
    requires lo < |s|
    ensures s[lo..|s|][..|s| - lo - 1] == s[lo..|s| - 1]
    ensures s[lo..|s|][|s| - lo - 1] == s[|s| - 1]
  {
  }

  lemma DaysPoolsLast(xs: seq<DailyEntry>, src: string)
    requires xs != []
    ensures DaysPools(xs, src) == DaysPools(xs[..|xs| - 1], src).Concat(EntryPools(xs[|xs| - 1], src))
  {
  }

  lemma DayOutsideWeek(ds: seq<DailyEntry>, lo: nat, hi: nat, lo': nat, hi': nat, before: seq<real>, m: Metric, src: string)
    requires ds != [] && lo <= hi < |ds| && lo' <= hi' <= |ds|
    requires (lo' == hi' && lo == hi) || (lo' == lo && hi' == hi)
    requires before == DaysPools(ds[lo..hi], src).Get(m)
    ensures before + [] == DaysPools(ds[lo'..hi'], src).Get(m)
  {
    if lo' == hi' {
      assert ds[lo'..hi'] == [] && ds[lo..hi] == [];
    }
  }

  /**
   * The pool of week `w` is the concatenation, in day order, of the pools of
   * days `7(w-1)+1` to `7w`; there is no week 0.
   */
  lemma {:induction false} WeekIsItsDays(ds: seq<DailyEntry>, w: nat, m: Metric, src: string)
    ensures WeekStart(w, |ds|) <= WeekEnd(w, |ds|) <= |ds|
    ensures WeekPool(ds, w, m, src) == DaysPools(ds[WeekStart(w, |ds|)..WeekEnd(w, |ds|)], src).Get(m)
    decreases |ds|
  {
    if ds == [] {
      WeekRangeStep(0, w);
    } else {
      WeekIsItsDays(ds[..|ds| - 1], w, m, src);
      WeekStep(ds, w, m, src);
    }
  }

  // ------------------------------------------------------------ what a pool holds

  /** Trial `t`, listed under task type `tt`, has `x` as the defining metric of quantity `m` for source `src`. */
  predicate Contributes(t: Trial, tt: TaskType, src: string, m: Metric, x: real) {
    t.Dict? && t.fields.taskSource == Some(src) && TaskOf(m) == tt && Contribution(t.fields, m) == Some(x)
  }

  lemma TrialContributes(t: Trial, tt: TaskType, src: string, m: Metric, x: real)
    ensures x in (if t.Dict? then TrialPools(t.fields, tt, src) else NoPools).Get(m) <==> Contributes(t, tt, src, m, x)
  {
  }

  /**
   * A trial list contributes `x` to a quantity's pool exactly when some
   * dictionary trial of the selected source, listed under that quantity's
   * task type, has `x` as its defining metric.
   */
  lemma {:induction false} TrialsPoolsMembers(ts: seq<Trial>, tt: TaskType, src: string, m: Metric, x: real)
    ensures x in TrialsPools(ts, tt, src).Get(m) <==> exists k :: 0 <= k < |ts| && Contributes(ts[k], tt, src, m, x)
    decreases |ts|
  {
    if ts != [] {
      var init := ts[..|ts| - 1];
      TrialsPoolsMembers(init, tt, src, m, x);
      if x in TrialsPools(ts, tt, src).Get(m) {
        PooledHasContributor(ts, init, tt, src, m, x);
      }
      if exists k :: 0 <= k < |ts| && Contributes(ts[k], tt, src, m, x) {
        var k :| 0 <= k < |ts| && Contributes(ts[k], tt, src, m, x);
        ContributorIsPooled(ts, init, tt, src, m, x, k);
      }
    }
  }

  /** The pool of a non-empty trial list: that of all but the last trial, then the last trial's. */
  lemma TrialsPoolsLast(ts: seq<Trial>, tt: TaskType, src: string, m: Metric)
    requires ts != []
    ensures TrialsPools(ts, tt, src).Get(m) ==
      TrialsPools(ts[..|ts| - 1], tt, src).Get(m) + (if ts[|ts| - 1].Dict? then TrialPools(ts[|ts| - 1].fields, tt, src) else NoPools).Get(m)
  {
  }

  lemma PooledHasContributor(ts: seq<Trial>, init: seq<Trial>, tt: TaskType, src: string, m: Metric, x: real)
    requires ts != [] && init == ts[..|ts| - 1] && x in TrialsPools(ts, tt, src).Get(m)
    requires x in TrialsPools(init, tt, src).Get(m) ==> exists k :: 0 <= k < |init| && Contributes(init[k], tt, src, m, x)
    ensures exists k :: 0 <= k < |ts| && Contributes(ts[k], tt, src, m, x)
  {
    var n := |ts| - 1;
    TrialsPoolsLast(ts, tt, src, m);
    if x in TrialsPools(init, tt, src).Get(m) {
      var k :| 0 <= k < |init| && Contributes(init[k], tt, src, m, x);
      assert init[k] == ts[k];
    } else {
      TrialContributes(ts[n], tt, src, m, x);
    }
  }

  lemma ContributorIsPooled(ts: seq<Trial>, init: seq<Trial>, tt: TaskType, src: string, m: Metric, x: real, k: nat)
    requires k < |ts| && init == ts[..|ts| - 1] && Contributes(ts[k], tt, src, m, x)
    requires (exists j :: 0 <= j < |init| && Contributes(init[j], tt, src, m, x)) ==> x in TrialsPools(init, tt, src).Get(m)
    ensures x in TrialsPools(ts, tt, src).Get(m)
  {
    var n := |ts| - 1;
    TrialsPoolsLast(ts, tt, src, m);
    var prev := TrialsPools(init, tt, src).Get(m);
    var last := (if ts[n].Dict? then TrialPools(ts[n].fields, tt, src) else NoPools).Get(m);
    if k < n {
      assert init[k] == ts[k];
      assert Contributes(init[k], tt, src, m, x);
      InLeft(prev, last, x);
    } else {
      TrialContributes(ts[n], tt, src, m, x);
      InRight(prev, last, x);
    }
  }

  lemma InLeft<T>(a: seq<T>, b: seq<T>, x: T)
    requires x in a
    ensures x in a + b
  {
    var i :| 0 <= i < |a| && a[i] == x;
    assert (a + b)[i] == x;
  }

  lemma InRight<T>(a: seq<T>, b: seq<T>, x: T)
    requires x in b
    ensures x in a + b
  {
    var i :| 0 <= i < |b| && b[i] == x;
    assert (a + b)[|a| + i] == x;
  }
}
