/**
 * The Converter's per-document summariser (`process_file`) and its batch
 * driver (`process_uploaded_files`): base fields, the spatial footprint, the
 * usage statistics and the per-day, per-week and overall means of the four
 * tracked quantities for one task source.
 */
module Processor {
  import opened Wrappers
  import opened Document
  import opened Numeric
  import opened Geo
  import opened Engagement

  /** The four tracked quantities, in the order of `ordered_tasks`. */
  datatype Metric = PointingError | DistanceAccuracy | KendallTau | MappingR2

  const OrderedTasks: seq<Metric> := [PointingError, DistanceAccuracy, KendallTau, MappingR2]

  /** The position of a quantity in the column order. */
  function TaskIndex(m: Metric): (i: nat)
    ensures i < |OrderedTasks| && OrderedTasks[i] == m
    ensures forall k :: 0 <= k < |OrderedTasks| && OrderedTasks[k] == m ==> k == i
  {
    match m
    case PointingError => 0
    case DistanceAccuracy => 1
    case KendallTau => 2
    case MappingR2 => 3
  }

  /** The task type whose trials feed a quantity. */
  function TaskOf(m: Metric): TaskType {
    match m
    case PointingError => Pointing
    case DistanceAccuracy => Distance
    case KendallTau => Distance
    case MappingR2 => Mapping
  }

  /** `max(0, min(100, 50 + 50 * tau))`, the summariser's clamped accuracy. */
  function ClampedAccuracy(tau: real): (a: real)
    ensures 0.0 <= a <= 100.0
    ensures 0.0 <= 50.0 + 50.0 * tau <= 100.0 ==> a == 50.0 + 50.0 * tau
    ensures 50.0 + 50.0 * tau < 0.0 ==> a == 0.0
    ensures 50.0 + 50.0 * tau > 100.0 ==> a == 100.0
  {
    var raw := 50.0 + 50.0 * tau;
    if raw > 100.0 then 100.0 else if raw < 0.0 then 0.0 else raw
  }

  /** The value a trial contributes to a quantity's pool when its defining metric is present. */
  function Contribution(t: TrialFields, m: Metric): (c: Option<real>)
    ensures m == PointingError ==> c == t.error
    ensures m == DistanceAccuracy ==> (c.Some? <==> t.kendallTau.Some?)
    ensures m == DistanceAccuracy && c.Some? ==> c.value == ClampedAccuracy(t.kendallTau.value) && 0.0 <= c.value <= 100.0
    ensures m == KendallTau ==> c == t.kendallTau
    ensures m == MappingR2 ==> c == R2OrRSquared(t)
  {
    match m
    case PointingError => t.error
    case DistanceAccuracy => if t.kendallTau.Some? then Some(ClampedAccuracy(t.kendallTau.value)) else None
    case KendallTau => t.kendallTau
    case MappingR2 => R2OrRSquared(t)
  }

  function OptList(o: Option<real>): seq<real> {
    if o.Some? then [o.value] else []
  }

  /** The four lists of `trial_data` / `day_data`. */
  datatype Pools = Pools(pointing: seq<real>, distance: seq<real>, kendallTau: seq<real>, mapping: seq<real>) {
    function Get(m: Metric): seq<real> {
      match m
      case PointingError => pointing
      case DistanceAccuracy => distance
      case KendallTau => kendallTau
      case MappingR2 => mapping
    }

    function Concat(o: Pools): (r: Pools)
      ensures forall m :: r.Get(m) == Get(m) + o.Get(m)
    {
      Pools(pointing + o.pointing, distance + o.distance, kendallTau + o.kendallTau, mapping + o.mapping)
    }
  }

  const NoPools := Pools([], [], [], [])

  lemma ConcatAssoc(a: Pools, b: Pools, c: Pools)
    ensures a.Concat(b).Concat(c) == a.Concat(b.Concat(c))
  {
    assert a.pointing + b.pointing + c.pointing == a.pointing + (b.pointing + c.pointing);
  }

  /**
   * What one dictionary trial listed under task type `tt` adds: nothing unless
   * its own `taskSource` is the filter; then its defining metric, if present,
   * to the pools of the quantities of that task type.
   */
  function TrialPools(t: TrialFields, tt: TaskType, src: string): (p: Pools)
    ensures forall m :: p.Get(m) == if t.taskSource == Some(src) && TaskOf(m) == tt then OptList(Contribution(t, m)) else []
  {
    if t.taskSource != Some(src) then NoPools
    else
      match tt
      case Pointing => Pools(OptList(t.error), [], [], [])
      case Distance =>
        if t.kendallTau.Some? then Pools([], [ClampedAccuracy(t.kendallTau.value)], [t.kendallTau.value], []) else NoPools
      case Mapping => Pools([], [], [], OptList(R2OrRSquared(t)))
  }

  /** Some element is not a dictionary: reading a field of it raises. */
  predicate AnyNotADict<T>(xs: seq<Entry<T>>) {
    exists i :: 0 <= i < |xs| && xs[i].NotADict?
  }

  function TrialsPools(ts: seq<Trial>, tt: TaskType, src: string): Pools
    decreases |ts|
  {
    if ts == [] then NoPools
    else
      var last := ts[|ts| - 1];
      TrialsPools(ts[..|ts| - 1], tt, src).Concat(if last.Dict? then TrialPools(last.fields, tt, src) else NoPools)
  }

  /** The pools of a dictionary source entry over the first `k` task types of `TaskTypes`. */
  function SourcePools(s: SourceFields, k: nat, src: string): Pools
    requires k <= |TaskTypes|
  {
    if k == 0 then NoPools
    else
      var tt := TaskTypes[k - 1];
      SourcePools(s, k - 1, src).Concat(TrialsPools(ListOrEmpty(TrialsOf(s, tt)), tt, src))
  }

  /** Some trial listed under one of the task types of a source entry is not a dictionary. */
  predicate SourceRaises(s: SourceFields) {
    exists j :: 0 <= j < |TaskTypes| && AnyNotADict(ListOrEmpty(TrialsOf(s, TaskTypes[j])))
  }

  /** The pools of a day's source entries; non-dictionary entries are skipped. */
  function SourcesPools(ss: seq<SourceEntry>, src: string): Pools
    decreases |ss|
  {
    if ss == [] then NoPools
    else
      var last := ss[|ss| - 1];
      SourcesPools(ss[..|ss| - 1], src).Concat(if last.Dict? then SourcePools(last.fields, |TaskTypes|, src) else NoPools)
  }

  predicate SourcesRaise(ss: seq<SourceEntry>) {
    exists j :: 0 <= j < |ss| && ss[j].Dict? && SourceRaises(ss[j].fields)
  }

  /** `day_data` of one daily entry. */
  function DayPools(d: DailyFields, src: string): Pools {
    SourcesPools(ListOrEmpty(d.resultsBySource), src)
  }

  predicate DayRaises(d: DailyFields) {
    SourcesRaise(ListOrEmpty(d.resultsBySource))
  }

  function EntryPools(e: DailyEntry, src: string): Pools {
    if e.Dict? then DayPools(e.fields, src) else NoPools
  }

  /** `trial_data` after the daily entries `ds`. */
  function DaysPools(ds: seq<DailyEntry>, src: string): Pools
    decreases |ds|
  {
    if ds == [] then NoPools else DaysPools(ds[..|ds| - 1], src).Concat(EntryPools(ds[|ds| - 1], src))
  }

  /** The pool of day `n`, counted from 1 by position in `dailyResults`. */
  function DayPool(ds: seq<DailyEntry>, n: int, m: Metric, src: string): seq<real>
    requires 1 <= n <= |ds|
  {
    EntryPools(ds[n - 1], src).Get(m)
  }

  /** The week of the day at (0-based) position `i`: `(day_idx - 1) // 7 + 1`. */
  function WeekOf(i: nat): (w: nat)
    ensures w >= 1 && 7 * (w - 1) <= i < 7 * w
  {
    i / 7 + 1
  }

  /** The pool of week `w`: every value of every day of that week, in day order. */
  function WeekPool(ds: seq<DailyEntry>, w: int, m: Metric, src: string): seq<real>
    decreases |ds|
  {
    if ds == [] then []
    else WeekPool(ds[..|ds| - 1], w, m, src) + (if WeekOf(|ds| - 1) == w then EntryPools(ds[|ds| - 1], src).Get(m) else [])
  }

  // ------------------------------------------------------------ the summary row

  /** A summary column: `Day{n}_{source}_{Label}` or `Week{n}_{source}_{Label}`. */
  datatype Column = Day(n: nat, m: Metric) | Week(n: nat, m: Metric)

  datatype SummaryRow = SummaryRow(
    userID: Option<string>,
    gender: Option<string>,
    age: Option<real>,
    sessionID: Option<string>,
    totalLandmarks: nat,
    deletedLandmarks: int,
    convexHullArea: Option<real>,
    usage: UsageStats,
    sourceFilter: string,
    overall: map<Metric, Option<real>>,
    columns: map<Column, real>)

  /** `data.get("participantInfo", {})`: missing reads as an empty dictionary. */
  function ParticipantOf(doc: Doc): (p: ParticipantFields)
    ensures doc.participantInfo.Some? && doc.participantInfo.value.Dict? ==> p == doc.participantInfo.value.fields
    ensures doc.participantInfo.None? ==> p.userID.None? && p.gender.None? && p.age.None?
  {
    match doc.participantInfo
    case Some(Dict(f)) => f
    case _ => ParticipantFields(None, None, None)
  }

  function LandmarkCoords(lms: seq<Landmark>): (cs: seq<Coord>)
    ensures |cs| == |lms|
    ensures forall i :: 0 <= i < |lms| && lms[i].Dict? ==> cs[i] == (lms[i].fields.longitude, lms[i].fields.latitude)
  {
    seq(|lms|, i requires 0 <= i < |lms| => if lms[i].Dict? then (lms[i].fields.longitude, lms[i].fields.latitude) else (None, None))
  }

  /**
   * The Converter's `calculate_convex_hull_area`: it reads every landmark, so
   * a non-dictionary landmark raises; otherwise null exactly when fewer than
   * three landmarks have both coordinates.
   */
  function HullAreaOf(lms: seq<Landmark>, hullArea: HullArea): (r: Result<Option<real>, Failure>)
    ensures r.Failure? <==> AnyNotADict(lms)
    ensures r.Failure? ==> r.error == AttributeError
    ensures r.Success? ==> (r.value.None? <==> |PresentIndices(LandmarkCoords(lms))| < 3)
    ensures r.Success? ==> r.value == Footprint(PresentPoints(LandmarkCoords(lms)), hullArea)
  {
    PresentPointsCount(LandmarkCoords(lms));
    if AnyNotADict(lms) then Failure(AttributeError) else Success(Footprint(PresentPoints(LandmarkCoords(lms)), hullArea))
  }

  /** The non-null `date` values of the dictionary daily entries, in order. */
  function PresentDates(ds: seq<DailyEntry>): (dates: seq<int>)
    ensures forall d :: d in dates <==> exists i :: 0 <= i < |ds| && ds[i].Dict? && ds[i].fields.date == Some(d)
    decreases |ds|
  {
    if ds == [] then []
    else
      var n := |ds| - 1;
      assert forall i :: 0 <= i < n ==> ds[..n][i] == ds[i];
      PresentDates(ds[..n]) + (if ds[n].Dict? && ds[n].fields.date.Some? then [ds[n].fields.date.value] else [])
  }

  /** Reading the document raises: a non-dictionary participant, landmark, daily entry or listed trial. */
  predicate DocRaises(doc: Doc) {
    || (doc.participantInfo.Some? && doc.participantInfo.value.NotADict?)
    || AnyNotADict(doc.landmarks)
    || DaysRaise(doc.dailyResults)
  }

  /** Reading the daily entries raises: a non-dictionary entry or a non-dictionary listed trial. */
  predicate DaysRaise(ds: seq<DailyEntry>) {
    AnyNotADict(ds) || exists i :: 0 <= i < |ds| && ds[i].Dict? && DayRaises(ds[i].fields)
  }

  /** The base fields: identity, landmark counts, footprint and usage statistics. */
  ghost predicate IsBaseOf(doc: Doc, hullArea: HullArea, row: SummaryRow) {
    && row.userID == ParticipantOf(doc).userID
    && row.gender == ParticipantOf(doc).gender
    && row.age == ParticipantOf(doc).age
    && row.sessionID == doc.sessionID
    && row.totalLandmarks == |doc.landmarks|
    && row.deletedLandmarks == doc.deletedLandmarks.GetOr(0)
    && row.convexHullArea == Footprint(PresentPoints(LandmarkCoords(doc.landmarks)), hullArea)
    && row.usage == UsageOf(PresentDates(doc.dailyResults), |doc.landmarks|)
  }

  /**
   * The metric columns of the daily entries `ds`: `Overall` is null exactly
   * when the pool of all days is empty and otherwise its mean; a `Day`
   * column exists exactly for a day with a non-empty pool and holds its
   * mean; a `Week` column exists exactly for a week with a non-empty pool
   * and holds the mean over that week's trials.
   */
  ghost predicate AreMetricsOf(ds: seq<DailyEntry>, src: string, overall: map<Metric, Option<real>>, columns: map<Column, real>) {
    OverallAreMeans(DaysPools(ds, src), overall) && ColumnsAreMeans(ds, src, columns)
  }

  /** Every metric has an `Overall` value: null when its pool is empty, otherwise the pool's mean. */
  ghost predicate OverallAreMeans(pools: Pools, overall: map<Metric, Option<real>>) {
    && (forall m :: m in overall)
    && (forall m :: overall[m].None? <==> pools.Get(m) == [])
    && (forall m :: overall[m].Some? ==> overall[m].value == Mean(pools.Get(m)))
  }

  ghost predicate ColumnsAreMeans(ds: seq<DailyEntry>, src: string, columns: map<Column, real>) {
    && (forall c :: c in columns && c.Day? ==> 1 <= c.n <= |ds|)
    && (forall n: nat, m :: 1 <= n <= |ds| ==> (Day(n, m) in columns <==> DayPool(ds, n, m, src) != []))
    && (forall c :: c in columns && c.Day? ==> columns[c] == Mean(DayPool(ds, c.n, c.m, src)))
    && (forall n: nat, m :: Week(n, m) in columns <==> WeekPool(ds, n, m, src) != [])
    && (forall c :: c in columns && c.Week? ==> columns[c] == Mean(WeekPool(ds, c.n, c.m, src)))
  }

  ghost predicate IsMetricsOf(doc: Doc, src: string, row: SummaryRow) {
    AreMetricsOf(doc.dailyResults, src, row.overall, row.columns)
  }

  ghost predicate IsSummaryOf(doc: Doc, src: string, hullArea: HullArea, row: SummaryRow) {
    row.sourceFilter == src && IsBaseOf(doc, hullArea, row) && IsMetricsOf(doc, src, row)
  }

  // ------------------------------------------------------------ process_file

  /**
   * The trial loop of `process_file` for one trial list: skip trials of
   * another source, append the defining metric when present. Reading a
   * non-dictionary trial raises.
   */
  method CollectTrials(pools: Pools, trials: seq<Trial>, tt: TaskType, src: string) returns (r: Result<Pools, Failure>)
    ensures r.Failure? <==> AnyNotADict(trials)
    ensures r.Failure? ==> r.error == AttributeError
    ensures r.Success? ==> r.value == pools.Concat(TrialsPools(trials, tt, src))
  {
    var acc := pools;
    var l := 0;
    while l < |trials|
      invariant 0 <= l <= |trials|
      invariant forall k :: 0 <= k < l ==> trials[k].Dict?
      invariant acc == pools.Concat(TrialsPools(trials[..l], tt, src))
    {
      var trial := trials[l];
      if trial.NotADict? {
        return Failure(AttributeError);
      }
      var t := trial.fields;
      ghost var before := acc;
      if t.taskSource == Some(src) {
        match tt
        case Pointing =>
          if t.error.Some? {
            acc := acc.(pointing := acc.pointing + [t.error.value]);
          }
        case Distance =>
          if t.kendallTau.Some? {
            var accuracy := ClampedAccuracy(t.kendallTau.value);
            acc := acc.(distance := acc.distance + [accuracy], kendallTau := acc.kendallTau + [t.kendallTau.value]);
          }
        case Mapping =>
          var r2 := R2OrRSquared(t);
          if r2.Some? {
            acc := acc.(mapping := acc.mapping + [r2.value]);
          }
      }
      TrialStep(before, acc, t, tt, src);
      TrialsPoolsSnoc(pools, before, acc, trials, l, tt, src);
      l := l + 1;
    }
    assert trials[..l] == trials;
    return Success(acc);
  }

  /** The branches of the trial loop add exactly `TrialPools` of the trial. */
  lemma TrialStep(before: Pools, after: Pools, t: TrialFields, tt: TaskType, src: string)
    requires t.taskSource != Some(src) ==> after == before
    requires t.taskSource == Some(src) && tt == Pointing ==>
      after == before.(pointing := before.pointing + OptList(t.error))
    requires t.taskSource == Some(src) && tt == Distance && t.kendallTau.Some? ==>
      after == before.(distance := before.distance + [ClampedAccuracy(t.kendallTau.value)], kendallTau := before.kendallTau + [t.kendallTau.value])
    requires t.taskSource == Some(src) && tt == Distance && t.kendallTau.None? ==> after == before
    requires t.taskSource == Some(src) && tt == Mapping ==>
      after == before.(mapping := before.mapping + OptList(R2OrRSquared(t)))
    ensures after == before.Concat(TrialPools(t, tt, src))
  {
    assert before.pointing + [] == before.pointing;
    assert before.distance + [] == before.distance;
    assert before.kendallTau + [] == before.kendallTau;
    assert before.mapping + [] == before.mapping;
  }

  lemma TrialsPoolsSnoc(pools: Pools, before: Pools, after: Pools, ts: seq<Trial>, l: nat, tt: TaskType, src: string)
    requires l < |ts| && ts[l].Dict?
    requires before == pools.Concat(TrialsPools(ts[..l], tt, src))
    requires after == before.Concat(TrialPools(ts[l].fields, tt, src))
    ensures after == pools.Concat(TrialsPools(ts[..l + 1], tt, src))
  {
    assert ts[..l + 1][..l] == ts[..l];
    ConcatAssoc(pools, TrialsPools(ts[..l], tt, src), TrialPools(ts[l].fields, tt, src));
  }

  /** The task-type loop of `process_file` over one dictionary source entry. */
  method CollectSource(pools: Pools, s: SourceFields, src: string) returns (r: Result<Pools, Failure>)
    ensures r.Failure? <==> SourceRaises(s)
    ensures r.Failure? ==> r.error == AttributeError
    ensures r.Success? ==> r.value == pools.Concat(SourcePools(s, |TaskTypes|, src))
  {
    var acc := pools;
    var k := 0;
    while k < |TaskTypes|
      invariant 0 <= k <= |TaskTypes|
      invariant forall j :: 0 <= j < k ==> !AnyNotADict(ListOrEmpty(TrialsOf(s, TaskTypes[j])))
      invariant acc == pools.Concat(SourcePools(s, k, src))
    {
      var taskType := TaskTypes[k];
      var trials := ListOrEmpty(TrialsOf(s, taskType));
      var next := CollectTrials(acc, trials, taskType, src);
      if next.Failure? {
        assert 0 <= k < |TaskTypes| && AnyNotADict(ListOrEmpty(TrialsOf(s, TaskTypes[k])));
        return next;
      }
      SourcePoolsSnoc(pools, acc, next.value, s, k, src);
      acc := next.value;
      k := k + 1;
    }
    assert !SourceRaises(s);
    return Success(acc);
  }

  lemma SourcePoolsSnoc(pools: Pools, before: Pools, after: Pools, s: SourceFields, k: nat, src: string)
    requires k < |TaskTypes|
    requires before == pools.Concat(SourcePools(s, k, src))
    requires after == before.Concat(TrialsPools(ListOrEmpty(TrialsOf(s, TaskTypes[k])), TaskTypes[k], src))
    ensures after == pools.Concat(SourcePools(s, k + 1, src))
  {
    ConcatAssoc(pools, SourcePools(s, k, src), TrialsPools(ListOrEmpty(TrialsOf(s, TaskTypes[k])), TaskTypes[k], src));
  }

  /** `day_data` of one daily entry: the loop over its source entries, skipping non-dictionaries. */
  method CollectDay(d: DailyFields, src: string) returns (r: Result<Pools, Failure>)
    ensures r.Failure? <==> DayRaises(d)
    ensures r.Failure? ==> r.error == AttributeError
    ensures r.Success? ==> r.value == DayPools(d, src)
  {
    var resultsBySource := ListOrEmpty(d.resultsBySource);
    var acc := NoPools;
    var j := 0;
    while j < |resultsBySource|
      invariant 0 <= j <= |resultsBySource|
      invariant forall i :: 0 <= i < j && resultsBySource[i].Dict? ==> !SourceRaises(resultsBySource[i].fields)
      invariant acc == SourcesPools(resultsBySource[..j], src)
    {
      var next := CollectNextSource(acc, resultsBySource, j, src);
      if next.Failure? {
        assert SourcesRaise(resultsBySource) by {
          assert 0 <= j < |resultsBySource| && resultsBySource[j].Dict? && SourceRaises(resultsBySource[j].fields);
        }
        return next;
      }
      acc := next.value;
      j := j + 1;
    }
    assert resultsBySource[..j] == resultsBySource;
    assert !SourcesRaise(resultsBySource);
    return Success(acc);
  }

  /** One source entry of the day: a dictionary adds its pools, anything else is skipped. */
  method CollectNextSource(acc: Pools, ss: seq<SourceEntry>, j: nat, src: string) returns (r: Result<Pools, Failure>)
    requires j < |ss| && acc == SourcesPools(ss[..j], src)
    ensures r.Failure? <==> ss[j].Dict? && SourceRaises(ss[j].fields)
    ensures r.Failure? ==> r.error == AttributeError
    ensures r.Success? ==> r.value == SourcesPools(ss[..j + 1], src)
  {
    var sourceEntry := ss[j];
    var after := acc;
    if sourceEntry.Dict? {
      var next := CollectSource(acc, sourceEntry.fields, src);
      if next.Failure? {
        return next;
      }
      after := next.value;
    }
    SourcesPoolsSnoc(acc, after, ss, j, src);
    return Success(after);
  }

  lemma SourcesPoolsSnoc(before: Pools, after: Pools, ss: seq<SourceEntry>, j: nat, src: string)
    requires j < |ss|
    requires before == SourcesPools(ss[..j], src)
    requires ss[j].Dict? ==> after == before.Concat(SourcePools(ss[j].fields, |TaskTypes|, src))
    requires ss[j].NotADict? ==> after == before
    ensures after == SourcesPools(ss[..j + 1], src)
  {
    assert ss[..j + 1][..j] == ss[..j];
    if ss[j].NotADict? {
      assert before.Concat(NoPools).Get(PointingError) == before.pointing + [];
      assert before.Concat(NoPools) == before;
    }
  }

  /** The `Day` columns that day `n` adds: the mean of each of its non-empty pools. */
  function DayMeans(n: nat, p: Pools): (cols: map<Column, real>)
    ensures forall c :: c in cols <==> c.Day? && c.n == n && p.Get(c.m) != []
    ensures forall c :: c in cols ==> cols[c] == Mean(p.Get(c.m))
  {
    DayMean(n, p, PointingError) + DayMean(n, p, DistanceAccuracy) + DayMean(n, p, KendallTau) + DayMean(n, p, MappingR2)
  }

  function DayMean(n: nat, p: Pools, m: Metric): (cols: map<Column, real>)
    ensures forall c :: c in cols <==> c.Day? && c.n == n && c.m == m && p.Get(m) != []
    ensures forall c :: c in cols ==> cols[c] == Mean(p.Get(c.m))
  {
    if p.Get(m) != [] then map[Day(n, m) := Mean(p.Get(m))] else map[]
  }

  /** `daily_metrics` after the daily entries `ds`. */
  function DayColumnsOf(ds: seq<DailyEntry>, src: string): map<Column, real>
    decreases |ds|
  {
    if ds == [] then map[]
    else DayColumnsOf(ds[..|ds| - 1], src) + DayMeans(|ds|, EntryPools(ds[|ds| - 1], src))
  }

  /** `weekly_metrics` extended by one day of week `w`: each non-empty pool is appended to the week's pool. */
  function WeekAdd(wm: map<Column, seq<real>>, w: nat, p: Pools): (out: map<Column, seq<real>>)
    ensures forall c :: c in out <==> c in wm || (c.Week? && c.n == w && p.Get(c.m) != [])
    ensures forall c :: c in out ==> out[c] == (if c in wm then wm[c] else []) + (if c.Week? && c.n == w then p.Get(c.m) else [])
  {
    var added := set m | m in OrderedTasks && p.Get(m) != [] :: Week(w, m);
    assert forall c: Column :: c in added <==> c.Week? && c.n == w && p.Get(c.m) != [] by {
      forall c: Column | c.Week? && c.n == w && p.Get(c.m) != []
        ensures c in added
      {
        assert c == Week(w, OrderedTasks[TaskIndex(c.m)]);
      }
    }
    map c | c in wm.Keys + added :: (if c in wm then wm[c] else []) + (if c.Week? && c.n == w then p.Get(c.m) else [])
  }

  /** `weekly_metrics` after the daily entries `ds`. */
  function WeekPoolsOf(ds: seq<DailyEntry>, src: string): map<Column, seq<real>>
    decreases |ds|
  {
    if ds == [] then map[]
    else WeekAdd(WeekPoolsOf(ds[..|ds| - 1], src), WeekOf(|ds| - 1), EntryPools(ds[|ds| - 1], src))
  }

  /** The `daily_metrics` loop: a `Day` column, holding the mean, for each non-empty pool of the day. */
  method RecordDayMeans(dailyMetrics: map<Column, real>, dayIdx: nat, dayData: Pools) returns (out: map<Column, real>)
    ensures out == dailyMetrics + DayMeans(dayIdx, dayData)
  {
    out := dailyMetrics;
    for k := 0 to |OrderedTasks|
      invariant forall c :: c in out <==> c in dailyMetrics || (c.Day? && c.n == dayIdx && TaskIndex(c.m) < k && dayData.Get(c.m) != [])
      invariant forall c :: c in out && c.Day? && c.n == dayIdx && TaskIndex(c.m) < k && dayData.Get(c.m) != [] ==> out[c] == Mean(dayData.Get(c.m))
      invariant forall c :: c in out && !(c.Day? && c.n == dayIdx && TaskIndex(c.m) < k && dayData.Get(c.m) != []) ==> out[c] == dailyMetrics[c]
    {
      var task := OrderedTasks[k];
      assert TaskIndex(task) == k;
      if dayData.Get(task) != [] {
        out := out[Day(dayIdx, task) := Mean(dayData.Get(task))];
      }
    }
    RecordedDayMeans(dailyMetrics, out, dayIdx, dayData);
  }

  lemma RecordedDayMeans(before: map<Column, real>, after: map<Column, real>, n: nat, p: Pools)
    requires forall c :: c in after <==> c in before || (c.Day? && c.n == n && p.Get(c.m) != [])
    requires forall c :: c in after && c.Day? && c.n == n && p.Get(c.m) != [] ==> after[c] == Mean(p.Get(c.m))
    requires forall c :: c in after && !(c.Day? && c.n == n && p.Get(c.m) != []) ==> after[c] == before[c]
    ensures after == before + DayMeans(n, p)
  {
    var spec := before + DayMeans(n, p);
    forall c
      ensures c in after <==> c in spec
      ensures c in after ==> after[c] == spec[c]
    {
      RecordedDayMeanAt(before, after, n, p, c);
    }
  }

  lemma RecordedDayMeanAt(before: map<Column, real>, after: map<Column, real>, n: nat, p: Pools, c: Column)
    requires c in after <==> c in before || (c.Day? && c.n == n && p.Get(c.m) != [])
    requires c in after && c.Day? && c.n == n && p.Get(c.m) != [] ==> after[c] == Mean(p.Get(c.m))
    requires c in after && !(c.Day? && c.n == n && p.Get(c.m) != []) ==> after[c] == before[c]
    ensures c in after <==> c in before + DayMeans(n, p)
    ensures c in after ==> after[c] == (before + DayMeans(n, p))[c]
  {
  }

  /** The `weekly_metrics` loop: extend the week's pool of each quantity by the day's non-empty pool. */
  method PoolIntoWeek(weeklyMetrics: map<Column, seq<real>>, week: nat, dayData: Pools) returns (out: map<Column, seq<real>>)
    ensures out == WeekAdd(weeklyMetrics, week, dayData)
  {
    out := weeklyMetrics;
    for k := 0 to |OrderedTasks|
      invariant forall c :: c in out <==> c in weeklyMetrics || (c.Week? && c.n == week && TaskIndex(c.m) < k && dayData.Get(c.m) != [])
      invariant forall c :: c in out ==>
        out[c] == (if c in weeklyMetrics then weeklyMetrics[c] else []) + (if c.Week? && c.n == week && TaskIndex(c.m) < k then dayData.Get(c.m) else [])
    {
      var key := OrderedTasks[k];
      assert TaskIndex(key) == k;
      if dayData.Get(key) != [] {
        var weekKey := Week(week, key);
        var existing := if weekKey in out then out[weekKey] else [];
        out := out[weekKey := existing + dayData.Get(key)];
      }
    }
    assert out.Keys == WeekAdd(weeklyMetrics, week, dayData).Keys;
  }

  /** Every `Day` column after `ds` is the mean of that day's non-empty pool, and every such pool has its column. */
  lemma {:induction false} DayColumnsOfMeans(ds: seq<DailyEntry>, src: string)
    ensures DayColumnsAreMeans(ds, src, DayColumnsOf(ds, src))
    ensures forall n: nat, m :: 1 <= n <= |ds| ==> (Day(n, m) in DayColumnsOf(ds, src) <==> DayPool(ds, n, m, src) != [])
    decreases |ds|
  {
    if ds != [] {
      DayColumnsOfMeans(ds[..|ds| - 1], src);
      DayMeansStep(ds, src);
      DayKeysStep(ds, src);
    }
  }

  /** Every column of `cols` is the `Day` column of a day of `ds` with a non-empty pool, holding its mean. */
  ghost predicate DayColumnsAreMeans(ds: seq<DailyEntry>, src: string, cols: map<Column, real>) {
    forall c :: c in cols ==>
      c.Day? && 1 <= c.n <= |ds| && DayPool(ds, c.n, c.m, src) != [] && cols[c] == Mean(DayPool(ds, c.n, c.m, src))
  }

  lemma DayMeansStep(ds: seq<DailyEntry>, src: string)
    requires ds != [] && DayColumnsAreMeans(ds[..|ds| - 1], src, DayColumnsOf(ds[..|ds| - 1], src))
    ensures DayColumnsAreMeans(ds, src, DayColumnsOf(ds, src))
  {
    forall c | c in DayColumnsOf(ds, src)
      ensures c.Day? && 1 <= c.n <= |ds| && DayPool(ds, c.n, c.m, src) != [] && DayColumnsOf(ds, src)[c] == Mean(DayPool(ds, c.n, c.m, src))
    {
      DayMeanAt(ds, src, c);
    }
  }

  lemma DayMeanAt(ds: seq<DailyEntry>, src: string, c: Column)
    requires ds != [] && DayColumnsAreMeans(ds[..|ds| - 1], src, DayColumnsOf(ds[..|ds| - 1], src))
    requires c in DayColumnsOf(ds, src)
    ensures c.Day? && 1 <= c.n <= |ds| && DayPool(ds, c.n, c.m, src) != [] && DayColumnsOf(ds, src)[c] == Mean(DayPool(ds, c.n, c.m, src))
  {
    var init := ds[..|ds| - 1];
    var prev, added := DayColumnsOf(init, src), DayMeans(|ds|, EntryPools(ds[|ds| - 1], src));
    assert DayColumnsOf(ds, src) == prev + added;
    if c in added {
      assert DayPool(ds, c.n, c.m, src) == EntryPools(ds[|ds| - 1], src).Get(c.m);
    } else {
      assert c in prev;
      DayPoolOfPrefix(ds, |ds| - 1, c.n, c.m, src);
    }
  }

  lemma DayPoolOfPrefix(ds: seq<DailyEntry>, k: nat, n: nat, m: Metric, src: string)
    requires 1 <= n <= k <= |ds|
    ensures DayPool(ds[..k], n, m, src) == DayPool(ds, n, m, src)
  {
    assert ds[..k][n - 1] == ds[n - 1];
  }

  lemma DayKeysStep(ds: seq<DailyEntry>, src: string)
    requires ds != [] && DayColumnsAreMeans(ds[..|ds| - 1], src, DayColumnsOf(ds[..|ds| - 1], src))
    requires forall n: nat, m :: 1 <= n < |ds| ==> (Day(n, m) in DayColumnsOf(ds[..|ds| - 1], src) <==> DayPool(ds[..|ds| - 1], n, m, src) != [])
    ensures forall n: nat, m :: 1 <= n <= |ds| ==> (Day(n, m) in DayColumnsOf(ds, src) <==> DayPool(ds, n, m, src) != [])
  {
    var init := ds[..|ds| - 1];
    var prev, added := DayColumnsOf(init, src), DayMeans(|ds|, EntryPools(ds[|ds| - 1], src));
    var cols := DayColumnsOf(ds, src);
    assert cols == prev + added;
    forall n: nat, m | 1 <= n <= |ds|
      ensures Day(n, m) in cols <==> DayPool(ds, n, m, src) != []
    {
      if n == |ds| {
        assert Day(n, m) !in prev;
      } else {
        assert Day(n, m) !in added;
        DayPoolOfPrefix(ds, |ds| - 1, n, m, src);
      }
    }
  }

  /** Every `Week` column after `ds` holds that week's pool, present exactly when the pool is non-empty. */
  lemma {:induction false} WeekPoolsOfPools(ds: seq<DailyEntry>, src: string)
    ensures forall c :: c in WeekPoolsOf(ds, src) ==> c.Week? && WeekPoolsOf(ds, src)[c] == WeekPool(ds, c.n, c.m, src)
    ensures forall n: nat, m :: Week(n, m) in WeekPoolsOf(ds, src) <==> WeekPool(ds, n, m, src) != []
    decreases |ds|
  {
    if ds != [] {
      var init := ds[..|ds| - 1];
      WeekPoolsOfPools(init, src);
    }
  }

  /**
   * The loop of `process_file` over the daily entries: `trial_data`,
   * `daily_metrics` and `weekly_metrics` after every entry.
   */
  method DailyLoop(ds: seq<DailyEntry>, src: string) returns (r: Result<(Pools, map<Column, real>, map<Column, seq<real>>), Failure>)
    ensures r.Failure? <==> DaysRaise(ds)
    ensures r.Failure? ==> r.error == AttributeError
    ensures r.Success? ==> r.value == (DaysPools(ds, src), DayColumnsOf(ds, src), WeekPoolsOf(ds, src))
  {
    var trialData := NoPools;
    var dailyMetrics: map<Column, real> := map[];
    var weeklyMetrics: map<Column, seq<real>> := map[];
    var i := 0;
    while i < |ds|
      invariant 0 <= i <= |ds|
      invariant forall k :: 0 <= k < i ==> ds[k].Dict? && !DayRaises(ds[k].fields)
      invariant trialData == DaysPools(ds[..i], src)
      invariant dailyMetrics == DayColumnsOf(ds[..i], src)
      invariant weeklyMetrics == WeekPoolsOf(ds[..i], src)
    {
      var raises, pools, days, weeks := ProcessDay(ds, i, src, trialData, dailyMetrics, weeklyMetrics);
      if raises {
        EntryRaises(ds, i);
        return Failure(AttributeError);
      }
      forall k | 0 <= k <= i
        ensures ds[k].Dict? && !DayRaises(ds[k].fields)
      {
      }
      trialData, dailyMetrics, weeklyMetrics := pools, days, weeks;
      i := i + 1;
    }
    assert ds[..i] == ds;
    NoEntryRaises(ds);
    return Success((trialData, dailyMetrics, weeklyMetrics));
  }

  /** One daily entry that raises makes the whole loop raise. */
  lemma EntryRaises(ds: seq<DailyEntry>, i: nat)
    requires i < |ds| && (ds[i].NotADict? || DayRaises(ds[i].fields))
    ensures DaysRaise(ds)
  {
    if ds[i].NotADict? {
      assert AnyNotADict(ds);
    }
  }

  lemma NoEntryRaises(ds: seq<DailyEntry>)
    requires forall k :: 0 <= k < |ds| ==> ds[k].Dict? && !DayRaises(ds[k].fields)
    ensures !DaysRaise(ds)
  {
  }

  /**
   * One daily entry: its pools join `trial_data`, its means `daily_metrics`
   * and its pools those of its week; `raises` when reading it raises.
   */
  method ProcessDay(ds: seq<DailyEntry>, i: nat, src: string, trialData: Pools, dailyMetrics: map<Column, real>, weeklyMetrics: map<Column, seq<real>>)
    returns (raises: bool, pools: Pools, days: map<Column, real>, weeks: map<Column, seq<real>>)
    requires i < |ds|
    requires trialData == DaysPools(ds[..i], src)
    requires dailyMetrics == DayColumnsOf(ds[..i], src)
    requires weeklyMetrics == WeekPoolsOf(ds[..i], src)
    ensures raises <==> ds[i].NotADict? || DayRaises(ds[i].fields)
    ensures !raises ==> pools == DaysPools(ds[..i + 1], src)
    ensures !raises ==> days == DayColumnsOf(ds[..i + 1], src)
    ensures !raises ==> weeks == WeekPoolsOf(ds[..i + 1], src)
  {
    raises, pools, days, weeks := true, trialData, dailyMetrics, weeklyMetrics;
    var entry := ds[i];
    if entry.NotADict? {
      return;
    }
    var dayIdx := i + 1;
    var currentWeek := WeekOf(i);
    var day := CollectDay(entry.fields, src);
    if day.Failure? {
      return;
    }
    var dayData := day.value;
    DailyStep(ds, i, src);
    raises := false;
    pools := trialData.Concat(dayData);
    days := RecordDayMeans(dailyMetrics, dayIdx, dayData);
    weeks := PoolIntoWeek(weeklyMetrics, currentWeek, dayData);
  }

  /**
   * The daily loop of `process_file` with the final averaging of the weekly
   * pools and the `Overall` columns.
   */
  method DailyMetrics(ds: seq<DailyEntry>, src: string) returns (r: Result<(map<Metric, Option<real>>, map<Column, real>), Failure>)
    ensures r.Failure? <==> DaysRaise(ds)
    ensures r.Failure? ==> r.error == AttributeError
    ensures r.Success? ==> AreMetricsOf(ds, src, r.value.0, r.value.1)
  {
    var loop := DailyLoop(ds, src);
    if loop.Failure? {
      return Failure(loop.error);
    }
    var (trialData, dailyMetrics, weeklyMetrics) := loop.value;
    var overall, columns := Summarise(ds, src, trialData, dailyMetrics, weeklyMetrics);
    return Success((overall, columns));
  }

  /** How `trial_data`, `daily_metrics` and `weekly_metrics` grow with the daily entry at position `i`. */
  lemma DailyStep(ds: seq<DailyEntry>, i: nat, src: string)
    requires i < |ds|
    ensures DaysPools(ds[..i + 1], src) == DaysPools(ds[..i], src).Concat(EntryPools(ds[i], src))
    ensures DayColumnsOf(ds[..i + 1], src) == DayColumnsOf(ds[..i], src) + DayMeans(i + 1, EntryPools(ds[i], src))
    ensures WeekPoolsOf(ds[..i + 1], src) == WeekAdd(WeekPoolsOf(ds[..i], src), WeekOf(i), EntryPools(ds[i], src))
  {
    assert ds[..i + 1][..i] == ds[..i];
  }

  /** After the daily loop: average each weekly pool, and fill the `Overall` columns from `trial_data`. */
  method Summarise(ds: seq<DailyEntry>, src: string, trialData: Pools, dailyMetrics: map<Column, real>, weeklyMetrics: map<Column, seq<real>>)
    returns (overall: map<Metric, Option<real>>, columns: map<Column, real>)
    requires trialData == DaysPools(ds, src)
    requires dailyMetrics == DayColumnsOf(ds, src)
    requires weeklyMetrics == WeekPoolsOf(ds, src)
    ensures AreMetricsOf(ds, src, overall, columns)
  {
    WeekPoolsOfPools(ds, src);
    var weekAvgMetrics := WeekMeans(weeklyMetrics);
    overall := OverallMeans(trialData);
    columns := dailyMetrics + weekAvgMetrics;
    MetricColumns(ds, src);
  }

  /** `week_avg_metrics`: the mean of each weekly pool. */
  function WeekMeans(weeklyMetrics: map<Column, seq<real>>): (means: map<Column, real>)
    requires forall c :: c in weeklyMetrics ==> weeklyMetrics[c] != []
    ensures means.Keys == weeklyMetrics.Keys
    ensures forall c :: c in means ==> means[c] == Mean(weeklyMetrics[c])
  {
    map c | c in weeklyMetrics :: Mean(weeklyMetrics[c])
  }

  /** The daily columns together with the averaged weekly pools are the day and week means of `ds`. */
  lemma MetricColumns(ds: seq<DailyEntry>, src: string)
    requires forall c :: c in WeekPoolsOf(ds, src) ==> WeekPoolsOf(ds, src)[c] != []
    ensures ColumnsAreMeans(ds, src, DayColumnsOf(ds, src) + WeekMeans(WeekPoolsOf(ds, src)))
  {
    DayColumnsOfMeans(ds, src);
    WeekPoolsOfPools(ds, src);
    var days, weeks := DayColumnsOf(ds, src), WeekMeans(WeekPoolsOf(ds, src));
    var columns := days + weeks;
    forall c: Column | c in columns && c.Day?
      ensures c in days && columns[c] == days[c]
    {
    }
    forall c: Column | c in columns && c.Week?
      ensures c in weeks && columns[c] == weeks[c]
    {
    }
  }

  /** The `Overall` columns: the mean of each pool of `trial_data`, null when it is empty. */
  method OverallMeans(trialData: Pools) returns (overall: map<Metric, Option<real>>)
    ensures forall m :: m in overall
    ensures forall m :: overall[m].None? <==> trialData.Get(m) == []
    ensures forall m :: overall[m].Some? ==> overall[m].value == Mean(trialData.Get(m))
  {
    overall := map[];
    for k := 0 to |OrderedTasks|
      invariant forall m :: m in overall <==> TaskIndex(m) < k
      invariant forall m :: m in overall ==> overall[m] == if trialData.Get(m) != [] then Some(Mean(trialData.Get(m))) else None
    {
      var task := OrderedTasks[k];
      assert TaskIndex(task) == k;
      overall := overall[task := if trialData.Get(task) != [] then Some(Mean(trialData.Get(task))) else None];
    }
  }

  /**
   * `process_file`: one summary row per document. An invalid document raises
   * `JSONDecodeError`; reading a field of a value that is not a dictionary
   * raises `AttributeError`.
   */
  method ProcessFile(p: Parsed, src: string, hullArea: HullArea) returns (r: Result<SummaryRow, Failure>)
    ensures p.Malformed? ==> r == Failure(JsonDecodeError)
    ensures p.NotAnObject? ==> r == Failure(AttributeError)
    ensures p.Object? ==> (r.Failure? <==> DocRaises(p.doc))
    ensures p.Object? && r.Failure? ==> r.error == AttributeError
    ensures r.Success? ==> p.Object? && IsSummaryOf(p.doc, src, hullArea, r.value)
  {
    if p.Malformed? {
      return Failure(JsonDecodeError);
    }
    if p.NotAnObject? {
      return Failure(AttributeError);
    }
    var data := p.doc;
    if data.participantInfo.Some? && data.participantInfo.value.NotADict? {
      return Failure(AttributeError);
    }
    var pInfo := ParticipantOf(data);
    var landmarks := data.landmarks;
    var totalLandmarks := |landmarks|;
    var deletedLandmarks := data.deletedLandmarks.GetOr(0);
    var convexHullArea := HullAreaOf(landmarks, hullArea);
    if convexHullArea.Failure? {
      return Failure(AttributeError);
    }
    var dailyResults := data.dailyResults;
    if AnyNotADict(dailyResults) {
      return Failure(AttributeError);
    }
    var usage := Usage(PresentDates(dailyResults), totalLandmarks);
    var metrics := DailyMetrics(dailyResults, src);
    if metrics.Failure? {
      return Failure(AttributeError);
    }
    var row := SummaryRow(pInfo.userID, pInfo.gender, pInfo.age, data.sessionID, totalLandmarks, deletedLandmarks,
                          convexHullArea.value, usage, src, metrics.value.0, metrics.value.1);
    return Success(row);
  }

  /** The documents that parse, in upload order: files with invalid JSON are skipped. */
  function ParsedDocs(ps: seq<Parsed>): (docs: seq<Doc>)
    ensures |docs| <= |ps|
    ensures forall d :: d in docs <==> Object(d) in ps
    decreases |ps|
  {
    if ps == [] then []
    else
      var n := |ps| - 1;
      assert forall q :: q in ps <==> q in ps[..n] || q == ps[n];
      ParsedDocs(ps[..n]) + (if ps[n].Object? then [ps[n].doc] else [])
  }

  /** Processing this file raises something other than `JSONDecodeError`. */
  predicate FileRaises(p: Parsed) {
    p.NotAnObject? || (p.Object? && DocRaises(p.doc))
  }

  /** `rows` holds, in order, one summary row of each document of `docs`. */
  ghost predicate AreSummariesOf(docs: seq<Doc>, src: string, hullArea: HullArea, rows: seq<SummaryRow>) {
    |rows| == |docs| && forall k :: 0 <= k < |rows| ==> IsSummaryOf(docs[k], src, hullArea, rows[k])
  }

  lemma SummariesSnoc(docs: seq<Doc>, src: string, hullArea: HullArea, rows: seq<SummaryRow>, d: Doc, row: SummaryRow)
    requires AreSummariesOf(docs, src, hullArea, rows) && IsSummaryOf(d, src, hullArea, row)
    ensures AreSummariesOf(docs + [d], src, hullArea, rows + [row])
  {
    forall k | 0 <= k < |rows| + 1
      ensures IsSummaryOf((docs + [d])[k], src, hullArea, (rows + [row])[k])
    {
      if k < |rows| {
        assert (docs + [d])[k] == docs[k] && (rows + [row])[k] == rows[k];
      }
    }
  }

  lemma ParsedDocsSnoc(ps: seq<Parsed>, i: nat)
    requires i < |ps|
    ensures ParsedDocs(ps[..i + 1]) == ParsedDocs(ps[..i]) + (if ps[i].Object? then [ps[i].doc] else [])
  {
    assert ps[..i + 1][..i] == ps[..i];
  }

  /** One file of the batch: its row is appended, a file with invalid JSON is skipped, any other error is returned. */
  method ProcessNext(ps: seq<Parsed>, i: nat, src: string, hullArea: HullArea, results: seq<SummaryRow>) returns (r: Result<seq<SummaryRow>, Failure>)
    requires i < |ps| && AreSummariesOf(ParsedDocs(ps[..i]), src, hullArea, results)
    ensures r.Failure? <==> FileRaises(ps[i])
    ensures r.Failure? ==> r.error == AttributeError
    ensures r.Success? ==> AreSummariesOf(ParsedDocs(ps[..i + 1]), src, hullArea, r.value)
  {
    var df := ProcessFile(ps[i], src, hullArea);
    ParsedDocsSnoc(ps, i);
    if df.Failure? {
      if df.error == JsonDecodeError {
        return Success(results);
      }
      return Failure(df.error);
    }
    SummariesSnoc(ParsedDocs(ps[..i]), src, hullArea, results, ps[i].doc, df.value);
    return Success(results + [df.value]);
  }

  /**
   * `process_uploaded_files`: one row per file that parses, in order; a file
   * with invalid JSON is skipped, any other error ends the batch.
   */
  method ProcessUploadedFiles(ps: seq<Parsed>, src: string, hullArea: HullArea) returns (r: Result<seq<SummaryRow>, Failure>)
    ensures r.Failure? <==> exists i :: 0 <= i < |ps| && FileRaises(ps[i])
    ensures r.Failure? ==> r.error == AttributeError
    ensures r.Success? ==> AreSummariesOf(ParsedDocs(ps), src, hullArea, r.value)
  {
    var results: seq<SummaryRow> := [];
    var i := 0;
    while i < |ps|
      invariant 0 <= i <= |ps|
      invariant forall j :: 0 <= j < i ==> !FileRaises(ps[j])
      invariant AreSummariesOf(ParsedDocs(ps[..i]), src, hullArea, results)
    {
      var next := ProcessNext(ps, i, src, hullArea, results);
      if next.Failure? {
        assert 0 <= i < |ps| && FileRaises(ps[i]);
        return Failure(next.error);
      }
      results := next.value;
      i := i + 1;
    }
    assert ps[..i] == ps;
    return Success(results);
  }
}
