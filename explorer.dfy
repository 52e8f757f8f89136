/**
 * The Explorer dashboard's extraction: landmark rows, trial rows with the
 * optional source and task filters, and the per-user convex-hull table.
 */
module Explorer {
  import opened Wrappers
  import opened Document
  import opened Geo

  /** `safe_extract`: the field of a dictionary; null for a non-dictionary. */
  function SafeExtract<T, V>(obj: Entry<T>, field: T -> Option<V>): (r: Option<V>)
    ensures obj.NotADict? ==> r.None?
    ensures obj.Dict? ==> r == field(obj.fields)
  {
    match obj
    case Dict(f) => field(f)
    case NotADict => None
  }

  /** `participantInfo.userID`, null when either level is missing or not a dictionary. */
  function UserID(doc: Doc): (uid: Option<string>)
    ensures doc.participantInfo.None? || doc.participantInfo.value.NotADict? ==> uid.None?
    ensures doc.participantInfo.Some? && doc.participantInfo.value.Dict? ==> uid == doc.participantInfo.value.fields.userID
  {
    match doc.participantInfo
    case None => None
    case Some(p) => SafeExtract(p, (f: ParticipantFields) => f.userID)
  }

  // ---------------------------------------------------------------- landmarks

  datatype LandmarkRow = LandmarkRow(userID: Option<string>, latitude: Option<real>, longitude: Option<real>, timestamp: Option<string>)

  function LandmarkRowOf(uid: Option<string>, lm: Landmark): LandmarkRow {
    LandmarkRow(uid,
      SafeExtract(lm, (f: LandmarkFields) => f.latitude),
      SafeExtract(lm, (f: LandmarkFields) => f.longitude),
      SafeExtract(lm, (f: LandmarkFields) => f.timestamp))
  }

  /**
   * `extract_landmark_data`: one row per landmark, in order, each tagged with
   * the document's user; a non-dictionary landmark gives a row of nulls.
   */
  method ExtractLandmarkData(p: Parsed) returns (r: Result<seq<LandmarkRow>, Failure>)
    ensures p.Malformed? ==> r == Failure(JsonDecodeError)
    ensures p.NotAnObject? ==> r == Failure(AttributeError)
    ensures p.Object? ==> r.Success? && |r.value| == |p.doc.landmarks|
    ensures p.Object? ==> forall i :: 0 <= i < |r.value| ==>
      && r.value[i].userID == UserID(p.doc)
      && (p.doc.landmarks[i].Dict? ==> r.value[i] == LandmarkRow(UserID(p.doc),
            p.doc.landmarks[i].fields.latitude, p.doc.landmarks[i].fields.longitude, p.doc.landmarks[i].fields.timestamp))
      && (p.doc.landmarks[i].NotADict? ==> r.value[i] == LandmarkRow(UserID(p.doc), None, None, None))
  {
    if p.Malformed? {
      return Failure(JsonDecodeError);
    }
    if p.NotAnObject? {
      return Failure(AttributeError);
    }
    var doc := p.doc;
    var userID := UserID(doc);
    var landmarks := doc.landmarks;
    var records: seq<LandmarkRow> := [];
    var i := 0;
    while i < |landmarks|
      invariant 0 <= i <= |landmarks|
      invariant |records| == i
      invariant forall k :: 0 <= k < i ==> records[k] == LandmarkRowOf(userID, landmarks[k])
    {
      records := records + [LandmarkRowOf(userID, landmarks[i])];
      i := i + 1;
    }
    return Success(records);
  }

  // ------------------------------------------------------------------ trials

  datatype TrialRow = TrialRow(
    userID: Option<string>,
    sessionID: Option<string>,
    taskSource: Option<string>,
    taskType: TaskType,
    error: Option<real>,
    kendallTau: Option<real>,
    distanceAccuracy: Option<real>,
    r2: Option<real>,
    timestamp: Option<string>)

  /** A filter takes effect only when it is truthy: given, and not the empty string. */
  predicate Active(filter: Option<string>)
    ensures filter.None? ==> !Active(filter)
    ensures filter == Some("") ==> !Active(filter)
    ensures filter.Some? && |filter.value| > 0 ==> Active(filter)
  {
    filter.Some? && filter.value != ""
  }

  function TaskSourceOf(t: Trial): Option<string> {
    SafeExtract(t, (f: TrialFields) => f.taskSource)
  }

  /** `source_filter and safe_extract(trial, "taskSource") != source_filter` skips the trial. */
  predicate PassesSource(sourceFilter: Option<string>, t: Trial)
    ensures !Active(sourceFilter) ==> PassesSource(sourceFilter, t)
    ensures Active(sourceFilter) ==>
      (PassesSource(sourceFilter, t) <==> t.Dict? && t.fields.taskSource == Some(sourceFilter.value))
  {
    !(Active(sourceFilter) && TaskSourceOf(t) != Some(sourceFilter.value))
  }

  /** `task_filter and task_type != task_filter` skips the task type. */
  predicate PassesTask(taskFilter: Option<string>, tt: TaskType)
    ensures !Active(taskFilter) ==> PassesTask(taskFilter, tt)
    ensures Active(taskFilter) ==> (PassesTask(taskFilter, tt) <==> TaskName(tt) == taskFilter.value)
  {
    !(Active(taskFilter) && TaskName(tt) != taskFilter.value)
  }

  /** The unclamped row-level accuracy `50 + 50 * tau`. */
  function RowAccuracy(tau: Option<real>): (a: Option<real>)
    ensures a.Some? <==> tau.Some?
    ensures a.Some? ==> a.value - 50.0 == 50.0 * tau.value
    ensures a.Some? && tau.value > 1.0 ==> a.value > 100.0
    ensures a.Some? && tau.value < -1.0 ==> a.value < 0.0
  {
    if tau.Some? then Some(50.0 + 50.0 * tau.value) else None
  }

  /**
   * The record of one trial: the document's user and session, the task type
   * being walked, and the trial's own fields; a trial that is not a
   * dictionary gives nulls.
   */
  function RowOf(uid: Option<string>, sid: Option<string>, tt: TaskType, t: Trial): (r: TrialRow)
    ensures r.userID == uid && r.sessionID == sid && r.taskType == tt
    ensures t.Dict? ==> && r.taskSource == t.fields.taskSource && r.error == t.fields.error
                        && r.kendallTau == t.fields.kendallTau && r.r2 == R2OrRSquared(t.fields)
                        && r.timestamp == t.fields.timestamp
    ensures t.NotADict? ==> r == TrialRow(uid, sid, None, tt, None, None, None, None, None)
    ensures r.distanceAccuracy == RowAccuracy(r.kendallTau)
  {
    var tau := SafeExtract(t, (f: TrialFields) => f.kendallTau);
    TrialRow(uid, sid, TaskSourceOf(t), tt,
      SafeExtract(t, (f: TrialFields) => f.error),
      tau,
      RowAccuracy(tau),
      SafeExtract(t, R2OrRSquared),
      SafeExtract(t, (f: TrialFields) => f.timestamp))
  }

  /** The rows of one trial list, in order, for trials that pass the source filter. */
  function TrialRows(uid: Option<string>, sid: Option<string>, tt: TaskType, ts: seq<Trial>, sf: Option<string>): seq<TrialRow>
    decreases |ts|
  {
    if ts == [] then []
    else
      var t := ts[|ts| - 1];
      TrialRows(uid, sid, tt, ts[..|ts| - 1], sf) + (if PassesSource(sf, t) then [RowOf(uid, sid, tt, t)] else [])
  }

  /** The rows of a dictionary source entry for the first `k` task types of `TaskTypes`, in that order. */
  function TaskRows(uid: Option<string>, sid: Option<string>, s: SourceFields, k: nat, sf: Option<string>, tf: Option<string>): seq<TrialRow>
    requires k <= |TaskTypes|
  {
    if k == 0 then []
    else TaskRows(uid, sid, s, k - 1, sf, tf) + TaskTypeRows(uid, sid, s, TaskTypes[k - 1], sf, tf)
  }

  /** The rows of one task type of a source entry: none when the task filter excludes it. */
  function TaskTypeRows(uid: Option<string>, sid: Option<string>, s: SourceFields, tt: TaskType, sf: Option<string>, tf: Option<string>): seq<TrialRow> {
    if PassesTask(tf, tt) then TrialRows(uid, sid, tt, ListOrEmpty(TrialsOf(s, tt)), sf) else []
  }

  lemma AppendAssoc<X>(a: seq<X>, b: seq<X>, c: seq<X>)
    ensures a + b + c == a + (b + c)
  {
  }

  function SourceRows(uid: Option<string>, sid: Option<string>, s: SourceEntry, sf: Option<string>, tf: Option<string>): seq<TrialRow> {
    match s
    case NotADict => []
    case Dict(f) => TaskRows(uid, sid, f, |TaskTypes|, sf, tf)
  }

  function SourcesRows(uid: Option<string>, sid: Option<string>, ss: seq<SourceEntry>, sf: Option<string>, tf: Option<string>): seq<TrialRow>
    decreases |ss|
  {
    if ss == [] then []
    else SourcesRows(uid, sid, ss[..|ss| - 1], sf, tf) + SourceRows(uid, sid, ss[|ss| - 1], sf, tf)
  }

  function ResultsBySource(e: DailyEntry): seq<SourceEntry> {
    ListOrEmpty(SafeExtract(e, (f: DailyFields) => f.resultsBySource))
  }

  function DaysRows(uid: Option<string>, sid: Option<string>, ds: seq<DailyEntry>, sf: Option<string>, tf: Option<string>): seq<TrialRow>
    decreases |ds|
  {
    if ds == [] then []
    else DaysRows(uid, sid, ds[..|ds| - 1], sf, tf) + SourcesRows(uid, sid, ResultsBySource(ds[|ds| - 1]), sf, tf)
  }

  lemma DaysRowsSnoc(uid: Option<string>, sid: Option<string>, ds: seq<DailyEntry>, i: nat, sf: Option<string>, tf: Option<string>)
    requires i < |ds|
    ensures DaysRows(uid, sid, ds[..i + 1], sf, tf) == DaysRows(uid, sid, ds[..i], sf, tf) + SourcesRows(uid, sid, ResultsBySource(ds[i]), sf, tf)
  {
    assert ds[..i + 1][..i] == ds[..i];
  }

  /**
   * All trial rows of a document: by daily entry, then source entry, then task
   * type (pointing, distance, mapping), then trial.
   */
  function DocRows(doc: Doc, sf: Option<string>, tf: Option<string>): seq<TrialRow> {
    DaysRows(UserID(doc), doc.sessionID, doc.dailyResults, sf, tf)
  }

  /** One step of the task-type loop: the rows appended for task type `k` extend the rows of the types before it. */
  lemma TaskRowsSnoc(records: seq<TrialRow>, before: seq<TrialRow>, after: seq<TrialRow>, uid: Option<string>, sid: Option<string>,
                     s: SourceFields, k: nat, sf: Option<string>, tf: Option<string>)
    requires k < |TaskTypes|
    requires before == records + TaskRows(uid, sid, s, k, sf, tf)
    requires PassesTask(tf, TaskTypes[k]) ==> after == before + TrialRows(uid, sid, TaskTypes[k], ListOrEmpty(TrialsOf(s, TaskTypes[k])), sf)
    requires !PassesTask(tf, TaskTypes[k]) ==> after == before
    ensures after == records + TaskRows(uid, sid, s, k + 1, sf, tf)
  {
    if !PassesTask(tf, TaskTypes[k]) {
      assert TaskTypeRows(uid, sid, s, TaskTypes[k], sf, tf) == [];
      assert after == before + [];
    }
    AppendAssoc(records, TaskRows(uid, sid, s, k, sf, tf), TaskTypeRows(uid, sid, s, TaskTypes[k], sf, tf));
  }

  /** One step of the source-entry loop: the rows appended for `ss[j]` extend the prefix's rows. */
  lemma SourcesRowsSnoc(records: seq<TrialRow>, before: seq<TrialRow>, after: seq<TrialRow>, uid: Option<string>, sid: Option<string>,
                        ss: seq<SourceEntry>, j: nat, sf: Option<string>, tf: Option<string>)
    requires j < |ss|
    requires before == records + SourcesRows(uid, sid, ss[..j], sf, tf)
    requires ss[j].Dict? ==> after == before + TaskRows(uid, sid, ss[j].fields, |TaskTypes|, sf, tf)
    requires ss[j].NotADict? ==> after == before
    ensures after == records + SourcesRows(uid, sid, ss[..j + 1], sf, tf)
  {
    assert ss[..j + 1][..j] == ss[..j];
    if ss[j].NotADict? {
      assert SourceRows(uid, sid, ss[j], sf, tf) == [];
      assert after == before + [];
    }
    AppendAssoc(records, SourcesRows(uid, sid, ss[..j], sf, tf), SourceRows(uid, sid, ss[j], sf, tf));
  }

  /** The innermost loop of `extract_trial_data`: append the rows of one trial list. */
  method AppendTrialRows(records: seq<TrialRow>, uid: Option<string>, sid: Option<string>, tt: TaskType,
                         trials: seq<Trial>, sourceFilter: Option<string>)
    returns (out: seq<TrialRow>)
    ensures out == records + TrialRows(uid, sid, tt, trials, sourceFilter)
  {
    out := records;
    var l := 0;
    while l < |trials|
      invariant 0 <= l <= |trials|
      invariant out == records + TrialRows(uid, sid, tt, trials[..l], sourceFilter)
    {
      var trial := trials[l];
      if PassesSource(sourceFilter, trial) {
        out := out + [RowOf(uid, sid, tt, trial)];
      }
      assert trials[..l + 1][..l] == trials[..l];
      l := l + 1;
    }
    assert trials[..l] == trials;
  }

  /** The task-type loop of `extract_trial_data` over one dictionary source entry. */
  method AppendSourceRows(records: seq<TrialRow>, uid: Option<string>, sid: Option<string>, s: SourceFields,
                          sourceFilter: Option<string>, taskFilter: Option<string>)
    returns (out: seq<TrialRow>)
    ensures out == records + TaskRows(uid, sid, s, |TaskTypes|, sourceFilter, taskFilter)
  {
    out := records;
    var k := 0;
    while k < |TaskTypes|
      invariant 0 <= k <= |TaskTypes|
      invariant out == records + TaskRows(uid, sid, s, k, sourceFilter, taskFilter)
    {
      var taskType := TaskTypes[k];
      ghost var before := out;
      if PassesTask(taskFilter, taskType) {
        out := AppendTrialRows(out, uid, sid, taskType, ListOrEmpty(TrialsOf(s, taskType)), sourceFilter);
      }
      TaskRowsSnoc(records, before, out, uid, sid, s, k, sourceFilter, taskFilter);
      k := k + 1;
    }
  }

  /** The source-entry loop of `extract_trial_data` over one day; non-dictionary entries are skipped. */
  method AppendDayRows(records: seq<TrialRow>, uid: Option<string>, sid: Option<string>, resultsBySource: seq<SourceEntry>,
                       sourceFilter: Option<string>, taskFilter: Option<string>)
    returns (out: seq<TrialRow>)
    ensures out == records + SourcesRows(uid, sid, resultsBySource, sourceFilter, taskFilter)
  {
    out := records;
    var j := 0;
    while j < |resultsBySource|
      invariant 0 <= j <= |resultsBySource|
      invariant out == records + SourcesRows(uid, sid, resultsBySource[..j], sourceFilter, taskFilter)
    {
      var sourceEntry := resultsBySource[j];
      ghost var before := out;
      if sourceEntry.Dict? {
        out := AppendSourceRows(out, uid, sid, sourceEntry.fields, sourceFilter, taskFilter);
      }
      SourcesRowsSnoc(records, before, out, uid, sid, resultsBySource, j, sourceFilter, taskFilter);
      j := j + 1;
    }
    assert resultsBySource[..j] == resultsBySource;
  }

  /**
   * `extract_trial_data`: the walk over daily entries and their source
   * entries, with the inner loops in the three methods above.
   */
  method ExtractTrialData(p: Parsed, sourceFilter: Option<string>, taskFilter: Option<string>)
    returns (r: Result<seq<TrialRow>, Failure>)
    ensures p.Malformed? ==> r == Failure(JsonDecodeError)
    ensures p.NotAnObject? ==> r == Failure(AttributeError)
    ensures p.Object? ==> r == Success(DocRows(p.doc, sourceFilter, taskFilter))
  {
    if p.Malformed? {
      return Failure(JsonDecodeError);
    }
    if p.NotAnObject? {
      return Failure(AttributeError);
    }
    var doc := p.doc;
    var userID := UserID(doc);
    var sessionID := doc.sessionID;
    var dailyResults := doc.dailyResults;
    var records: seq<TrialRow> := [];
    var i := 0;
    while i < |dailyResults|
      invariant 0 <= i <= |dailyResults|
      invariant records == DaysRows(userID, sessionID, dailyResults[..i], sourceFilter, taskFilter)
    {
      records := AppendDayRows(records, userID, sessionID, ResultsBySource(dailyResults[i]), sourceFilter, taskFilter);
      DaysRowsSnoc(userID, sessionID, dailyResults, i, sourceFilter, taskFilter);
      i := i + 1;
    }
    assert dailyResults[..i] == dailyResults;
    return Success(records);
  }

  // ------------------------------------------------------ trial-row properties

  /** What every emitted trial row satisfies. */
  ghost predicate Admitted(r: TrialRow, uid: Option<string>, sid: Option<string>, sf: Option<string>, tf: Option<string>) {
    && r.userID == uid
    && r.sessionID == sid
    && PassesTask(tf, r.taskType)
    && (Active(sf) ==> r.taskSource == Some(sf.value))
    && r.distanceAccuracy == RowAccuracy(r.kendallTau)
  }

  lemma {:induction false} TrialRowsAdmitted(uid: Option<string>, sid: Option<string>, tt: TaskType, ts: seq<Trial>, sf: Option<string>, tf: Option<string>)
    requires PassesTask(tf, tt)
    ensures forall r :: r in TrialRows(uid, sid, tt, ts, sf) ==> Admitted(r, uid, sid, sf, tf)
    decreases |ts|
  {
    if ts != [] {
      TrialRowsAdmitted(uid, sid, tt, ts[..|ts| - 1], sf, tf);
    }
  }

  lemma {:induction false} TaskRowsAdmitted(uid: Option<string>, sid: Option<string>, s: SourceFields, k: nat, sf: Option<string>, tf: Option<string>)
    requires k <= |TaskTypes|
    ensures forall r :: r in TaskRows(uid, sid, s, k, sf, tf) ==> Admitted(r, uid, sid, sf, tf)
  {
    if k > 0 {
      var tt := TaskTypes[k - 1];
      TaskRowsAdmitted(uid, sid, s, k - 1, sf, tf);
      if PassesTask(tf, tt) {
        TrialRowsAdmitted(uid, sid, tt, ListOrEmpty(TrialsOf(s, tt)), sf, tf);
      }
    }
  }

  lemma {:induction false} SourcesRowsAdmitted(uid: Option<string>, sid: Option<string>, ss: seq<SourceEntry>, sf: Option<string>, tf: Option<string>)
    ensures forall r :: r in SourcesRows(uid, sid, ss, sf, tf) ==> Admitted(r, uid, sid, sf, tf)
    decreases |ss|
  {
    if ss != [] {
      SourcesRowsAdmitted(uid, sid, ss[..|ss| - 1], sf, tf);
      if ss[|ss| - 1].Dict? {
        TaskRowsAdmitted(uid, sid, ss[|ss| - 1].fields, |TaskTypes|, sf, tf);
      }
    }
  }

  lemma {:induction false} DaysRowsAdmitted(uid: Option<string>, sid: Option<string>, ds: seq<DailyEntry>, sf: Option<string>, tf: Option<string>)
    ensures forall r :: r in DaysRows(uid, sid, ds, sf, tf) ==> Admitted(r, uid, sid, sf, tf)
    decreases |ds|
  {
    if ds != [] {
      DaysRowsAdmitted(uid, sid, ds[..|ds| - 1], sf, tf);
      SourcesRowsAdmitted(uid, sid, ResultsBySource(ds[|ds| - 1]), sf, tf);
    }
  }

  /**
   * Every row carries the document's user and session; with a task filter its
   * task type is the filter; with a source filter its trial's own `taskSource`
   * is the filter; its accuracy is `50 + 50 * kendallTau`, unclamped, or null.
   */
  lemma DocRowsFiltered(doc: Doc, sf: Option<string>, tf: Option<string>)
    ensures forall r :: r in DocRows(doc, sf, tf) ==>
      && r.userID == UserID(doc)
      && r.sessionID == doc.sessionID
      && (Active(tf) ==> TaskName(r.taskType) == tf.value)
      && (Active(sf) ==> r.taskSource == Some(sf.value))
      && (r.kendallTau.Some? ==> r.distanceAccuracy == Some(50.0 + 50.0 * r.kendallTau.value))
      && (r.kendallTau.None? ==> r.distanceAccuracy.None?)
  {
    DaysRowsAdmitted(UserID(doc), doc.sessionID, doc.dailyResults, sf, tf);
  }

  /** A task filter that names no task type matches nothing and yields no rows, not an error. */
  lemma UnknownTaskFilterYieldsNoRows(doc: Doc, sf: Option<string>, tf: Option<string>)
    requires Active(tf) && forall tt :: TaskName(tt) != tf.value
    ensures forall r :: r !in DocRows(doc, sf, tf)
  {
    DocRowsFiltered(doc, sf, tf);
  }

  // ------------------------------------------------- filters select, exactly

  /** Whether a row of the unfiltered table survives the task and source filters. */
  predicate Kept(r: TrialRow, sf: Option<string>, tf: Option<string>) {
    PassesTask(tf, r.taskType) && (Active(sf) ==> r.taskSource == Some(sf.value))
  }

  /** The rows of `rows` that survive the filters, in order. */
  function Select(rows: seq<TrialRow>, sf: Option<string>, tf: Option<string>): seq<TrialRow>
    decreases |rows|
  {
    if rows == [] then []
    else Select(rows[..|rows| - 1], sf, tf) + (if Kept(rows[|rows| - 1], sf, tf) then [rows[|rows| - 1]] else [])
  }

  /** The selection keeps exactly the rows that survive the filters. */
  lemma {:induction false} SelectMembers(rows: seq<TrialRow>, sf: Option<string>, tf: Option<string>)
    ensures forall r :: r in Select(rows, sf, tf) <==> r in rows && Kept(r, sf, tf)
    decreases |rows|
  {
    if rows != [] {
      var n := |rows| - 1;
      SelectMembers(rows[..n], sf, tf);
      assert rows == rows[..n] + [rows[n]];
    }
  }

  lemma {:induction false} SelectAppend(a: seq<TrialRow>, b: seq<TrialRow>, sf: Option<string>, tf: Option<string>)
    ensures Select(a + b, sf, tf) == Select(a, sf, tf) + Select(b, sf, tf)
    decreases |b|
  {
    if b == [] {
      assert a + b == a;
    } else {
      var b', x := b[..|b| - 1], b[|b| - 1];
      var tail := if Kept(x, sf, tf) then [x] else [];
      assert (a + b)[..|a + b| - 1] == a + b';
      assert (a + b)[|a + b| - 1] == x;
      SelectAppend(a, b', sf, tf);
      assert Select(b, sf, tf) == Select(b', sf, tf) + tail;
      assert Select(a + b, sf, tf) == Select(a + b', sf, tf) + tail;
    }
  }

  /** Filtering the rows of one trial list is filtering its trials, or nothing when the task type is excluded. */
  lemma {:induction false} TrialRowsSelect(uid: Option<string>, sid: Option<string>, tt: TaskType, ts: seq<Trial>,
                                           sf: Option<string>, tf: Option<string>)
    ensures Select(TrialRows(uid, sid, tt, ts, None), sf, tf) == if PassesTask(tf, tt) then TrialRows(uid, sid, tt, ts, sf) else []
    decreases |ts|
  {
    if ts != [] {
      var init, t := ts[..|ts| - 1], ts[|ts| - 1];
      TrialRowsSelect(uid, sid, tt, init, sf, tf);
      var row := RowOf(uid, sid, tt, t);
      assert TrialRows(uid, sid, tt, ts, None) == TrialRows(uid, sid, tt, init, None) + [row];
      SelectAppend(TrialRows(uid, sid, tt, init, None), [row], sf, tf);
      assert [row][..0] == [];
      assert Kept(row, sf, tf) <==> PassesTask(tf, tt) && PassesSource(sf, t);
    }
  }

  lemma TaskTypeRowsSelect(uid: Option<string>, sid: Option<string>, f: SourceFields, tt: TaskType, sf: Option<string>, tf: Option<string>)
    ensures Select(TaskTypeRows(uid, sid, f, tt, None, None), sf, tf) == TaskTypeRows(uid, sid, f, tt, sf, tf)
  {
    TrialRowsSelect(uid, sid, tt, ListOrEmpty(TrialsOf(f, tt)), sf, tf);
  }

  lemma SourceRowsSelect(uid: Option<string>, sid: Option<string>, s: SourceEntry, sf: Option<string>, tf: Option<string>)
    ensures Select(SourceRows(uid, sid, s, None, None), sf, tf) == SourceRows(uid, sid, s, sf, tf)
  {
    if s.Dict? {
      var f := s.fields;
      AllTaskRows(uid, sid, f, None, None);
      AllTaskRows(uid, sid, f, sf, tf);
      var p, d, m := TaskTypeRows(uid, sid, f, Pointing, None, None), TaskTypeRows(uid, sid, f, Distance, None, None),
                     TaskTypeRows(uid, sid, f, Mapping, None, None);
      SelectAppend(p + d, m, sf, tf);
      SelectAppend(p, d, sf, tf);
      TaskTypeRowsSelect(uid, sid, f, Pointing, sf, tf);
      TaskTypeRowsSelect(uid, sid, f, Distance, sf, tf);
      TaskTypeRowsSelect(uid, sid, f, Mapping, sf, tf);
    }
  }

  lemma {:induction false} SourcesRowsSelect(uid: Option<string>, sid: Option<string>, ss: seq<SourceEntry>, sf: Option<string>, tf: Option<string>)
    ensures Select(SourcesRows(uid, sid, ss, None, None), sf, tf) == SourcesRows(uid, sid, ss, sf, tf)
    decreases |ss|
  {
    if ss != [] {
      var init, last := ss[..|ss| - 1], ss[|ss| - 1];
      SourcesRowsSelect(uid, sid, init, sf, tf);
      SourceRowsSelect(uid, sid, last, sf, tf);
      SelectAppend(SourcesRows(uid, sid, init, None, None), SourceRows(uid, sid, last, None, None), sf, tf);
    }
  }

  lemma {:induction false} DaysRowsSelect(uid: Option<string>, sid: Option<string>, ds: seq<DailyEntry>, sf: Option<string>, tf: Option<string>)
    ensures Select(DaysRows(uid, sid, ds, None, None), sf, tf) == DaysRows(uid, sid, ds, sf, tf)
    decreases |ds|
  {
    if ds != [] {
      var init, rbs := ds[..|ds| - 1], ResultsBySource(ds[|ds| - 1]);
      DaysRowsSelect(uid, sid, init, sf, tf);
      SourcesRowsSelect(uid, sid, rbs, sf, tf);
      SelectAppend(DaysRows(uid, sid, init, None, None), SourcesRows(uid, sid, rbs, None, None), sf, tf);
    }
  }

  /**
   * The filtered table is the unfiltered table with exactly the rows whose
   * task type passes the task filter and whose trial's own `taskSource`
   * passes the source filter, in the same order: a trial is skipped if and
   * only if a filter excludes it.
   */
  lemma DocRowsSelect(doc: Doc, sf: Option<string>, tf: Option<string>)
    ensures DocRows(doc, sf, tf) == Select(DocRows(doc, None, None), sf, tf)
  {
    DaysRowsSelect(UserID(doc), doc.sessionID, doc.dailyResults, sf, tf);
  }

  /** A source filter that no trial of the document names yields no rows, not an error. */
  lemma UnmatchedSourceFilterYieldsNoRows(doc: Doc, sf: Option<string>, tf: Option<string>)
    requires Active(sf) && forall r :: r in DocRows(doc, None, None) ==> r.taskSource != Some(sf.value)
    ensures DocRows(doc, sf, tf) == []
  {
    DocRowsSelect(doc, sf, tf);
    SelectNone(DocRows(doc, None, None), sf, tf);
  }

  lemma {:induction false} SelectNone(rows: seq<TrialRow>, sf: Option<string>, tf: Option<string>)
    requires forall r :: r in rows ==> !Kept(r, sf, tf)
    ensures Select(rows, sf, tf) == []
    decreases |rows|
  {
    if rows != [] {
      var n := |rows| - 1;
      assert forall r :: r in rows[..n] ==> r in rows;
      SelectNone(rows[..n], sf, tf);
      assert rows[n] in rows;
    }
  }

  /** The row-level accuracy is not clamped: tau = 1.2 gives 110 and tau = -1.5 gives -25. */
  lemma RowAccuracyUnclamped()
    ensures RowAccuracy(Some(1.2)) == Some(110.0)
    ensures RowAccuracy(Some(1.0)) == Some(100.0)
    ensures RowAccuracy(Some(-1.5)) == Some(-25.0)
    ensures RowAccuracy(None) == None
  {
  }

  // ---------------------------------------------------------- trial counting

  /** Trials listed in a source entry; a non-dictionary entry has none. */
  function SourceTrialCount(s: SourceEntry): nat {
    match s
    case NotADict => 0
    case Dict(f) => |ListOrEmpty(f.pointing)| + |ListOrEmpty(f.distance)| + |ListOrEmpty(f.mapping)|
  }

  function SourcesTrialCount(ss: seq<SourceEntry>): nat
    decreases |ss|
  {
    if ss == [] then 0 else SourcesTrialCount(ss[..|ss| - 1]) + SourceTrialCount(ss[|ss| - 1])
  }

  /** The number of trials in a document's daily entries. */
  function DaysTrialCount(ds: seq<DailyEntry>): nat
    decreases |ds|
  {
    if ds == [] then 0 else DaysTrialCount(ds[..|ds| - 1]) + SourcesTrialCount(ResultsBySource(ds[|ds| - 1]))
  }

  lemma {:induction false} UnfilteredTrialRowsCount(uid: Option<string>, sid: Option<string>, tt: TaskType, ts: seq<Trial>, sf: Option<string>)
    requires !Active(sf)
    ensures |TrialRows(uid, sid, tt, ts, sf)| == |ts|
    decreases |ts|
  {
    if ts != [] {
      UnfilteredTrialRowsCount(uid, sid, tt, ts[..|ts| - 1], sf);
    }
  }

  /** A source entry's rows are those of pointing, then distance, then mapping. */
  lemma AllTaskRows(uid: Option<string>, sid: Option<string>, f: SourceFields, sf: Option<string>, tf: Option<string>)
    ensures TaskRows(uid, sid, f, |TaskTypes|, sf, tf)
      == TaskTypeRows(uid, sid, f, Pointing, sf, tf) + TaskTypeRows(uid, sid, f, Distance, sf, tf) + TaskTypeRows(uid, sid, f, Mapping, sf, tf)
  {
    assert TaskRows(uid, sid, f, 1, sf, tf) == TaskTypeRows(uid, sid, f, Pointing, sf, tf);
  }

  lemma UnfilteredSourceRowsCount(uid: Option<string>, sid: Option<string>, s: SourceEntry, sf: Option<string>, tf: Option<string>)
    requires !Active(sf) && !Active(tf)
    ensures |SourceRows(uid, sid, s, sf, tf)| == SourceTrialCount(s)
  {
    if s.Dict? {
      var f := s.fields;
      AllTaskRows(uid, sid, f, sf, tf);
      UnfilteredTaskTypeRowsCount(uid, sid, f, Pointing, sf, tf);
      UnfilteredTaskTypeRowsCount(uid, sid, f, Distance, sf, tf);
      UnfilteredTaskTypeRowsCount(uid, sid, f, Mapping, sf, tf);
    }
  }

  lemma UnfilteredTaskTypeRowsCount(uid: Option<string>, sid: Option<string>, f: SourceFields, tt: TaskType, sf: Option<string>, tf: Option<string>)
    requires !Active(sf) && !Active(tf)
    ensures |TaskTypeRows(uid, sid, f, tt, sf, tf)| == |ListOrEmpty(TrialsOf(f, tt))|
  {
    UnfilteredTrialRowsCount(uid, sid, tt, ListOrEmpty(TrialsOf(f, tt)), sf);
  }

  lemma {:induction false} UnfilteredSourcesRowsCount(uid: Option<string>, sid: Option<string>, ss: seq<SourceEntry>, sf: Option<string>, tf: Option<string>)
    requires !Active(sf) && !Active(tf)
    ensures |SourcesRows(uid, sid, ss, sf, tf)| == SourcesTrialCount(ss)
    decreases |ss|
  {
    if ss != [] {
      UnfilteredSourcesRowsCount(uid, sid, ss[..|ss| - 1], sf, tf);
      UnfilteredSourceRowsCount(uid, sid, ss[|ss| - 1], sf, tf);
    }
  }

  lemma {:induction false} UnfilteredDaysRowsCount(uid: Option<string>, sid: Option<string>, ds: seq<DailyEntry>, sf: Option<string>, tf: Option<string>)
    requires !Active(sf) && !Active(tf)
    ensures |DaysRows(uid, sid, ds, sf, tf)| == DaysTrialCount(ds)
    decreases |ds|
  {
    if ds != [] {
      UnfilteredDaysRowsCount(uid, sid, ds[..|ds| - 1], sf, tf);
      UnfilteredSourcesRowsCount(uid, sid, ResultsBySource(ds[|ds| - 1]), sf, tf);
    }
  }

  /** Without filters there is exactly one row per trial, non-dictionary trials included. */
  lemma UnfilteredRowPerTrial(doc: Doc, sf: Option<string>, tf: Option<string>)
    requires !Active(sf) && !Active(tf)
    ensures |DocRows(doc, sf, tf)| == DaysTrialCount(doc.dailyResults)
  {
    UnfilteredDaysRowsCount(UserID(doc), doc.sessionID, doc.dailyResults, sf, tf);
  }

  // ------------------------------------------------------- convex-hull table

  datatype HullRow = HullRow(userID: Option<string>, convexHullAreaKm2: Option<real>, numLandmarks: nat)

  /** `landmarks_df['userID'].unique()`: each user once, in order of first appearance. */
  function DistinctUsers(rows: seq<LandmarkRow>): (us: seq<Option<string>>)
    ensures forall i, j :: 0 <= i < j < |us| ==> us[i] != us[j]
    ensures forall u :: u in us <==> exists k :: 0 <= k < |rows| && rows[k].userID == u
    decreases |rows|
  {
    if rows == [] then []
    else
      var init := DistinctUsers(rows[..|rows| - 1]);
      var u := rows[|rows| - 1].userID;
      assert forall k :: 0 <= k < |rows| - 1 ==> rows[..|rows| - 1][k] == rows[k];
      if u in init then init else init + [u]
  }

  /**
   * The `(longitude, latitude)` pairs of the rows selected by
   * `landmarks_df['userID'] == user`; pandas compares every value unequal to a
   * null `user`, so a null user selects no rows.
   */
  function UserCoords(rows: seq<LandmarkRow>, u: Option<string>): (cs: seq<Coord>)
    ensures forall c :: c in cs ==> exists k :: 0 <= k < |rows| && rows[k].userID == u && c == (rows[k].longitude, rows[k].latitude)
    ensures u.Some? ==> forall k :: 0 <= k < |rows| && rows[k].userID == u ==> (rows[k].longitude, rows[k].latitude) in cs
    decreases |rows|
  {
    if rows == [] then []
    else
      var last := rows[|rows| - 1];
      assert forall k :: 0 <= k < |rows| - 1 ==> rows[..|rows| - 1][k] == rows[k];
      UserCoords(rows[..|rows| - 1], u) + (if Selects(u, last) then [(last.longitude, last.latitude)] else [])
  }

  /** `landmarks_df['userID'] == u` selects the row; a null `u` selects none. */
  predicate Selects(u: Option<string>, r: LandmarkRow) {
    u.Some? && r.userID == u
  }

  /** The positions of the rows selected for `u`. */
  function SelectedRows(rows: seq<LandmarkRow>, u: Option<string>): set<int> {
    set k | 0 <= k < |rows| && Selects(u, rows[k])
  }

  /** The positions of the rows selected for `u` whose longitude and latitude are both present. */
  function SelectedPresentRows(rows: seq<LandmarkRow>, u: Option<string>): set<int> {
    set k | 0 <= k < |rows| && Selects(u, rows[k]) && rows[k].longitude.Some? && rows[k].latitude.Some?
  }

  lemma SelectedRowsSnoc(rows: seq<LandmarkRow>, u: Option<string>)
    requires rows != []
    ensures var n := |rows| - 1;
      && SelectedRows(rows, u) == SelectedRows(rows[..n], u) + (if Selects(u, rows[n]) then {n} else {})
      && n !in SelectedRows(rows[..n], u)
  {
    var n := |rows| - 1;
    assert forall k :: 0 <= k < n ==> rows[..n][k] == rows[k];
  }

  lemma SelectedPresentRowsSnoc(rows: seq<LandmarkRow>, u: Option<string>)
    requires rows != []
    ensures var n := |rows| - 1; var r := rows[n];
      && SelectedPresentRows(rows, u)
           == SelectedPresentRows(rows[..n], u) + (if Selects(u, r) && r.longitude.Some? && r.latitude.Some? then {n} else {})
      && n !in SelectedPresentRows(rows[..n], u)
  {
    var n := |rows| - 1;
    assert forall k :: 0 <= k < n ==> rows[..n][k] == rows[k];
  }

  /** One coordinate pair per selected row: duplicates are kept, as `zip` over the selection does. */
  lemma {:induction false} UserCoordsCount(rows: seq<LandmarkRow>, u: Option<string>)
    ensures |UserCoords(rows, u)| == |SelectedRows(rows, u)|
    decreases |rows|
  {
    if rows != [] {
      UserCoordsCount(rows[..|rows| - 1], u);
      SelectedRowsSnoc(rows, u);
    }
  }

  /** One point per selected row with both coordinates present. */
  lemma {:induction false} UserPointsCount(rows: seq<LandmarkRow>, u: Option<string>)
    ensures |UserPoints(rows, u)| == |SelectedPresentRows(rows, u)|
    decreases |rows|
  {
    if rows != [] {
      var n := |rows| - 1;
      var init, last := rows[..n], rows[n];
      UserPointsCount(init, u);
      SelectedPresentRowsSnoc(rows, u);
      var tail: seq<Coord> := if Selects(u, last) then [(last.longitude, last.latitude)] else [];
      assert UserCoords(rows, u) == UserCoords(init, u) + tail;
      PresentPointsAppend(UserCoords(init, u), tail);
      if tail != [] {
        assert tail[..0] == [];
      }
    }
  }

  function UserPoints(rows: seq<LandmarkRow>, u: Option<string>): seq<Point> {
    PresentPoints(UserCoords(rows, u))
  }

  lemma {:induction false} NullUserHasNoCoords(rows: seq<LandmarkRow>)
    ensures UserCoords(rows, None) == []
    decreases |rows|
  {
    if rows != [] {
      NullUserHasNoCoords(rows[..|rows| - 1]);
    }
  }

  /** A user whose id is null gets a row with no points, hence no area, however many landmarks it has. */
  lemma NullUserHasNoPoints(rows: seq<LandmarkRow>, hullArea: HullArea)
    ensures UserPoints(rows, None) == []
    ensures Footprint(UserPoints(rows, None), hullArea).None?
  {
    NullUserHasNoCoords(rows);
  }

  /** The row of one user: its valid points, counted, and their footprint. */
  function HullRowOf(rows: seq<LandmarkRow>, u: Option<string>, hullArea: HullArea): (h: HullRow)
    ensures h.userID == u && h.numLandmarks == |UserPoints(rows, u)|
    ensures h.numLandmarks == |SelectedPresentRows(rows, u)|
    ensures h.convexHullAreaKm2.None? <==> h.numLandmarks < 3
  {
    UserPointsCount(rows, u);
    var pts := UserPoints(rows, u);
    HullRow(u, Footprint(pts, hullArea), |pts|)
  }

  /**
   * `calculate_convex_hull_area` over the landmark table: one row per distinct
   * user, counting only points with both coordinates, with a null (NaN) area
   * below three points. A table without rows has no `userID` column.
   */
  method CalculateConvexHullArea(rows: seq<LandmarkRow>, hullArea: HullArea) returns (r: Result<seq<HullRow>, Failure>)
    ensures rows == [] ==> r == Failure(MissingColumn)
    ensures rows != [] ==> r.Success? && |r.value| == |DistinctUsers(rows)|
    ensures r.Success? ==> forall i :: 0 <= i < |r.value| ==> r.value[i] == HullRowOf(rows, DistinctUsers(rows)[i], hullArea)
    ensures r.Success? ==> forall i, j :: 0 <= i < j < |r.value| ==> r.value[i].userID != r.value[j].userID
    ensures r.Success? ==> forall k :: 0 <= k < |rows| ==> exists i :: 0 <= i < |r.value| && r.value[i].userID == rows[k].userID
  {
    if rows == [] {
      return Failure(MissingColumn);
    }
    var users := DistinctUsers(rows);
    var results := HullRows(rows, users, hullArea);
    forall k | 0 <= k < |rows|
      ensures exists i :: 0 <= i < |results| && results[i].userID == rows[k].userID
    {
      var u := rows[k].userID;
      assert u in users;
      var i :| 0 <= i < |users| && users[i] == u;
      assert results[i].userID == u;
    }
    return Success(results);
  }

  /** The loop of `calculate_convex_hull_area` over the users, one row each. */
  method HullRows(rows: seq<LandmarkRow>, users: seq<Option<string>>, hullArea: HullArea) returns (results: seq<HullRow>)
    ensures |results| == |users|
    ensures forall i :: 0 <= i < |users| ==> results[i] == HullRowOf(rows, users[i], hullArea)
  {
    results := [];
    for i := 0 to |users|
      invariant |results| == i
      invariant forall k :: 0 <= k < i ==> results[k] == HullRowOf(rows, users[k], hullArea)
    {
      var user := users[i];
      var coords := UserPoints(rows, user);
      results := results + [HullRow(user, Footprint(coords, hullArea), |coords|)];
    }
  }
}
