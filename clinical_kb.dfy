/** The lookups of `ClinicalKnowledgeBase` (knowledge_base/clinical_kb.py): four
    tables of JSON documents, keyed by disorder, assessment instrument, protocol
    and risk type, read with Python's `dict.get(key, default)`. Loading the tables
    from files and saving them back are outside the model; a table's contents are
    whatever was loaded. */
module Knowledge {
  import opened Text

  /** A JSON document as `json.load` produces it. */
  datatype Json =
    | JNull
    | JBool(b: bool)
    | JNumber(n: real)
    | JString(s: string)
    | JArray(items: seq<Json>)
    | JObject(members: map<string, Json>)

  const EmptyObject := JObject(map[])
  const EmptyArray := JArray([])

  /** The four tables. Each assessment instrument is a JSON object. */
  datatype KnowledgeBase = KnowledgeBase(
    dsmCriteria: map<string, Json>,
    assessmentInstruments: map<string, map<string, Json>>,
    interventionProtocols: map<string, Json>,
    riskFactors: map<string, Json>)

  /** The tables a new instance holds before anything is loaded. */
  function Fresh(): (kb: KnowledgeBase)
    ensures |kb.dsmCriteria| == 0 && |kb.assessmentInstruments| == 0
    ensures |kb.interventionProtocols| == 0 && |kb.riskFactors| == 0
  {
    KnowledgeBase(map[], map[], map[], map[])
  }

  /** `d.get(key, default)` */
  function Get<V>(d: map<string, V>, key: string, default: V): (v: V)
    ensures key in d ==> v == d[key]
    ensures key !in d ==> v == default
  {
    if key in d then d[key] else default
  }

  /** Python truthiness of an optional string argument: neither `None` nor empty. */
  predicate Given(arg: Option<string>)
  {
    arg.Some? && arg.value != ""
  }

  /** `get_disorder_criteria`: the stored criteria, or an empty object. */
  function DisorderCriteria(kb: KnowledgeBase, disorderId: string): (r: Json)
    ensures disorderId in kb.dsmCriteria ==> r == kb.dsmCriteria[disorderId]
    ensures disorderId !in kb.dsmCriteria ==> r == EmptyObject
  {
    Get(kb.dsmCriteria, disorderId, EmptyObject)
  }

  /** `get_assessment_questions`. With a stage given and a "stages" member present,
      the list stored for that stage, or an empty list; otherwise the instrument's
      "questions", or an empty list. `None` where Python raises: a "stages" member
      that is not an object has no `get`. */
  function AssessmentQuestions(kb: KnowledgeBase, assessmentId: string, stage: Option<string>): (r: Option<Json>)
    ensures var a := Get(kb.assessmentInstruments, assessmentId, map[]);
      && (!(Given(stage) && "stages" in a) ==> r == Some(Get(a, "questions", EmptyArray)))
      && (Given(stage) && "stages" in a && a["stages"].JObject? ==>
            r == Some(Get(a["stages"].members, stage.value, EmptyArray)))
      && (r.None? <==> Given(stage) && "stages" in a && !a["stages"].JObject?)
  {
    var assessment := Get(kb.assessmentInstruments, assessmentId, map[]);
    if Given(stage) && "stages" in assessment then
      match Get(assessment, "stages", EmptyObject)
      case JObject(stages) => Some(Get(stages, stage.value, EmptyArray))
      case _ => None
    else Some(Get(assessment, "questions", EmptyArray))
  }

  /** `get_risk_indicators`: with a type given, that type's entry or an empty list;
      otherwise the whole table. */
  function RiskIndicators(kb: KnowledgeBase, riskType: Option<string>): (r: Json)
    ensures Given(riskType) && riskType.value in kb.riskFactors ==> r == kb.riskFactors[riskType.value]
    ensures Given(riskType) && riskType.value !in kb.riskFactors ==> r == EmptyArray
    ensures !Given(riskType) ==> r == JObject(kb.riskFactors)
  {
    if Given(riskType) then Get(kb.riskFactors, riskType.value, EmptyArray)
    else JObject(kb.riskFactors)
  }

  /** Before anything is loaded every lookup returns its default: an empty object
      for criteria, an empty list for questions of any stage, and an empty list or
      the empty table for risk indicators. */
  lemma FreshDefaults(id: string, stage: Option<string>, riskType: Option<string>)
    ensures DisorderCriteria(Fresh(), id) == EmptyObject
    ensures AssessmentQuestions(Fresh(), id, stage) == Some(EmptyArray)
    ensures RiskIndicators(Fresh(), riskType) == (if Given(riskType) then EmptyArray else EmptyObject)
  {
  }

  /** The typed entry and the whole table agree: the entry for a type is the
      table's member under that name, or an empty list if it has none. */
  lemma RiskIndicatorsAgree(kb: KnowledgeBase, riskType: string)
    requires riskType != ""
    ensures var all := RiskIndicators(kb, None);
      all.JObject? && RiskIndicators(kb, Some(riskType)) == Get(all.members, riskType, EmptyArray)
  {
  }

  /** An instrument without stages gives the same questions whatever stage is asked. */
  lemma StageIgnoredWithoutStages(kb: KnowledgeBase, assessmentId: string, stage: Option<string>)
    requires "stages" !in Get(kb.assessmentInstruments, assessmentId, map[])
    ensures AssessmentQuestions(kb, assessmentId, stage) == AssessmentQuestions(kb, assessmentId, None)
  {
  }

  /** Asking for a stage of an instrument whose stages are an object never fails,
      and an empty stage name counts as no stage. */
  lemma StagedQuestions(kb: KnowledgeBase, assessmentId: string, stage: string)
    requires var a := Get(kb.assessmentInstruments, assessmentId, map[]);
      "stages" in a && a["stages"].JObject?
    ensures AssessmentQuestions(kb, assessmentId, Some(stage)).Some?
    ensures AssessmentQuestions(kb, assessmentId, Some("")) == AssessmentQuestions(kb, assessmentId, None)
  {
  }
}
