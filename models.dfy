/**
  * The value types of the triage service: the five acuity levels, the vital-sign record,
  * the patient record and the triage result, with their defaults and range constraints.
  * Reason lines, which the service renders as Arabic sentences with the measured value
  * spliced in, are represented by the tagged `Reason` values below.
  */
module Models {
  import opened Wrappers

  datatype Gender = Male | Female

  /** ESI acuity levels; `Resuscitation` (1) is the most severe, `NonUrgent` (5) the least. */
  datatype TriageLevel = Resuscitation | Emergent | Urgent | LessUrgent | NonUrgent {

    /** The integer the enumeration carries. */
    function Value(): (n: int)
      ensures 1 <= n <= 5
      ensures n == 1 <==> this == Resuscitation
    {
      match this
      case Resuscitation => 1
      case Emergent => 2
      case Urgent => 3
      case LessUrgent => 4
      case NonUrgent => 5
    }
  }

  /** The enumeration member carrying `n`, if there is one. */
  function LevelOf(n: int): (r: Option<TriageLevel>)
    ensures r.Some? <==> 1 <= n <= 5
    ensures r.Some? ==> r.value.Value() == n
  {
    if n == 1 then Some(Resuscitation)
    else if n == 2 then Some(Emergent)
    else if n == 3 then Some(Urgent)
    else if n == 4 then Some(LessUrgent)
    else if n == 5 then Some(NonUrgent)
    else None
  }

  /** Each level is recovered from its integer, so the five values are distinct. */
  lemma LevelValueRoundTrip(l: TriageLevel)
    ensures LevelOf(l.Value()) == Some(l)
  {
  }

  /**
    * Vital signs. `None` means "not measured". `gcs` defaults to 15 (fully alert) and
    * `painScore` to 0; both may still be explicitly absent.
    */
  datatype Vitals = Vitals(
    hr: Option<int>,       // heart rate, bpm
    rr: Option<int>,       // respiratory rate, breaths/min
    spo2: Option<real>,    // oxygen saturation, %
    temp: Option<real>,    // temperature, degrees C
    sbp: Option<int>,      // systolic blood pressure, mmHg
    dbp: Option<int>,      // diastolic blood pressure, mmHg
    gcs: Option<int>,      // Glasgow Coma Scale
    painScore: Option<int> // pain scale
  )

  /** The record the service builds when no vital is given. */
  const DefaultVitals := Vitals(None, None, None, None, None, None, Some(15), Some(0))

  /** The vital signs the threshold checks inspect. */
  datatype Vital = RespiratoryRate | HeartRate | OxygenSaturation | Consciousness | SystolicPressure | Temperature

  /** The measured value of vital `x`, as a real number; integer readings are converted exactly. */
  function Reading(v: Vitals, x: Vital): (r: Option<real>)
    ensures r.None? <==>
      match x
      case RespiratoryRate => v.rr.None?
      case HeartRate => v.hr.None?
      case OxygenSaturation => v.spo2.None?
      case Consciousness => v.gcs.None?
      case SystolicPressure => v.sbp.None?
      case Temperature => v.temp.None?
  {
    match x
    case RespiratoryRate => if v.rr.Some? then Some(v.rr.value as real) else None
    case HeartRate => if v.hr.Some? then Some(v.hr.value as real) else None
    case OxygenSaturation => v.spo2
    case Consciousness => if v.gcs.Some? then Some(v.gcs.value as real) else None
    case SystolicPressure => if v.sbp.Some? then Some(v.sbp.value as real) else None
    case Temperature => v.temp
  }

  /** Age is a real number of years; fractions encode infants (0.25 is three months). */
  datatype PatientInput = PatientInput(
    age: real,
    gender: Gender,
    chiefComplaintText: string,
    vitals: Vitals,
    historyCardiac: bool,
    historyStroke: bool,
    immunoCompromised: bool
  )

  /** A patient record with the three history flags at their default, false. */
  function Patient(age: real, gender: Gender, complaint: string, vitals: Vitals): PatientInput {
    PatientInput(age, gender, complaint, vitals, false, false, false)
  }

  /**
    * Clinical concept identifiers. The first eight are the keys of the keyword lexicon;
    * the rest are tested by the triage rules but no lexicon entry produces them.
    */
  datatype Concept =
    | ChestPain | Sob | Trauma | Abdominal | Neuro | Fever | Psych | Allergy
    | Stroke | Cardiac | Diabetic | Pregnancy | Laceration | Uti | Burn | BiteSting

  /** Whether a vital lies below or above its band. */
  datatype Direction = Low | High

  /** The threshold family a reason line was produced by, which selects its wording. */
  datatype Band =
    | AllAges    // one threshold for every age
    | Adult      // age 14 and over
    | Pediatric  // under 14
    | Infant     // under 1
    | UnderFive  // under 5

  /** One line of `reasoning` or `red_flags`. */
  datatype Reason =
    | CriticalVital(vital: Vital, dir: Direction, band: Band, value: real)  // life-threatening reading
    | AbnormalVital(vital: Vital, dir: Direction, band: Band, value: real)  // danger-zone reading
    | CriticalKeywords(terms: seq<string>)   // reasoning line naming the danger phrases shown
    | CriticalCondition(terms: seq<string>)  // red flag naming the danger phrases shown
    | SeverePain(score: int)
    | AlteredConsciousness(gcs: int)
    | AbnormalVitalsFlag                     // the single red flag for danger-zone vitals
    | HighRiskSymptoms(triggers: seq<Concept>)
    | ResourcesNeeded(count: int)
    | OneResourceNeeded
    | NoAcuteResources

  /** The outcome of one evaluation. */
  datatype TriageResult = TriageResult(
    level: TriageLevel,
    colorCode: string,
    labelAr: string,
    labelEn: string,
    description: string,
    recommendedAction: string,
    timeToPhysician: string,
    redFlags: seq<Reason>,
    reasoning: seq<Reason>,
    confidence: string
  )

  /** The confidence marker a result carries unless told otherwise. */
  const DefaultConfidence: string := "High"

  /** A result built from the level's display fields alone, every other field at its default. */
  function NewTriageResult(level: TriageLevel, colorCode: string, labelAr: string, labelEn: string,
                           description: string, recommendedAction: string,
                           timeToPhysician: string): (r: TriageResult)
    ensures r.level == level
    ensures r.redFlags == [] && r.reasoning == [] && r.confidence == "High"
  {
    TriageResult(level, colorCode, labelAr, labelEn, description, recommendedAction,
                 timeToPhysician, [], [], DefaultConfidence)
  }
}
