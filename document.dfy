/**
 * A parsed Landmark Hunt session document.
 *
 * A position where the code expects a dictionary (the participant, a
 * landmark, a daily entry, a source entry, a trial) holds an `Entry`:
 * `NotADict` stands for `null` and for any other non-object value there. So
 * an explicit `null` for `participantInfo` is `Some(NotADict)`, on which the
 * Converter raises, while a missing `participantInfo` is `None`.
 *
 * A scalar field read with `safe_extract` is `None` when its key is missing
 * or its value is `null`; the code cannot tell the two apart. The keys read
 * with a default (`landmarks`, `dailyResults`, `deletedLandmarks`) have no
 * null case in this model: an explicit `null` for them is read as a missing
 * key, so absent `landmarks` and `dailyResults` lists are the empty sequence
 * that `data.get(key, [])` yields.
 */
module Document {
  import opened Wrappers

  datatype Entry<T> = Dict(fields: T) | NotADict

  datatype ParticipantFields = ParticipantFields(userID: Option<string>, gender: Option<string>, age: Option<real>)

  datatype LandmarkFields = LandmarkFields(latitude: Option<real>, longitude: Option<real>, timestamp: Option<string>)

  datatype TrialFields = TrialFields(
    taskSource: Option<string>,
    error: Option<real>,
    kendallTau: Option<real>,
    r2: Option<real>,
    rSquared: Option<real>,
    timestamp: Option<string>)

  type Participant = Entry<ParticipantFields>
  type Landmark = Entry<LandmarkFields>
  type Trial = Entry<TrialFields>

  datatype SourceFields = SourceFields(
    taskSource: Option<string>,
    pointing: Option<seq<Trial>>,
    distance: Option<seq<Trial>>,
    mapping: Option<seq<Trial>>)

  type SourceEntry = Entry<SourceFields>

  /** One element of `dailyResults`; `date` is a calendar day number. */
  datatype DailyFields = DailyFields(date: Option<int>, resultsBySource: Option<seq<SourceEntry>>)

  type DailyEntry = Entry<DailyFields>

  datatype Doc = Doc(
    participantInfo: Option<Participant>,
    sessionID: Option<string>,
    landmarks: seq<Landmark>,
    deletedLandmarks: Option<int>,
    dailyResults: seq<DailyEntry>)

  /** The outcome of `json.loads` on one document's text. */
  datatype Parsed = Malformed | NotAnObject | Object(doc: Doc)

  /**
   * The exceptions this model represents. The code can also raise a
   * `TypeError` on a `null` or non-list value where a list is read, and
   * date-parsing errors; those inputs are not modelled.
   */
  datatype Failure = JsonDecodeError | AttributeError | MissingColumn

  /** The three task types, iterated in this fixed order by both dashboards. */
  datatype TaskType = Pointing | Distance | Mapping

  const TaskTypes: seq<TaskType> := [Pointing, Distance, Mapping]

  /** The name a task type has in the document and in a task filter. */
  function TaskName(t: TaskType): string {
    match t
    case Pointing => "pointing"
    case Distance => "distance"
    case Mapping => "mapping"
  }

  function TrialsOf(s: SourceFields, t: TaskType): Option<seq<Trial>> {
    match t
    case Pointing => s.pointing
    case Distance => s.distance
    case Mapping => s.mapping
  }

  /** `if xs: for x in xs` visits the elements of a present list and nothing otherwise. */
  function ListOrEmpty<T>(xs: Option<seq<T>>): (r: seq<T>)
    ensures xs.None? ==> r == []
    ensures xs.Some? ==> r == xs.value
  {
    match xs
    case None => []
    case Some(v) => v
  }

  /**
   * Python's `r2 or rSquared`: a falsy `r2` (absent or zero) falls back to
   * `rSquared`, whatever that is.
   */
  function R2OrRSquared(t: TrialFields): (r: Option<real>)
    ensures t.r2.Some? && t.r2.value != 0.0 ==> r == t.r2
    ensures t.r2.None? || t.r2 == Some(0.0) ==> r == t.rSquared
    ensures r.Some? ==> r == t.r2 || r == t.rSquared
  {
    if t.r2.Some? && t.r2.value != 0.0 then t.r2 else t.rSquared
  }

  /** An `r2` of zero is indistinguishable from a missing `r2`. */
  lemma R2ZeroCountsAsAbsent(t: TrialFields)
    requires t.r2 == Some(0.0)
    ensures R2OrRSquared(t) == R2OrRSquared(t.(r2 := None)) == t.rSquared
  {
  }
}
