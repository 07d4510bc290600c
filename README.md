# Emergency-department triage classifier, modelled in Dafny

The project models the core of an emergency-department triage service. The service follows the
Emergency Severity Index (ESI v5). It takes one patient record: age, gender, a free-text chief
complaint in English or Egyptian Arabic, and a set of optional vital signs. From that record it
returns a level from 1 (resuscitation) to 5 (non-urgent), together with red flags and reasoning.

The model has these parts:

- **Value types** (`models.dfy`, module `Models`): the triage levels and their numeric values, the
  vital-sign record with its defaults, the patient record and the triage result. Reason lines are
  not free text here. They are tags (`Reason`) that carry the data the source formats into text.
- **Complaint analysis** (`processor.dfy`, module `Processor`):
  - the concept lexicon and the list of danger phrases;
  - `ExtractSymptoms` and `DetectDangerKeywords`, written as the source's loops;
  - each loop is proved equal to a specification function (`Symptoms`, `DangerKeywords`);
  - the functions are characterised by lemmas: exact membership, lexicon order, no duplicates,
    case insensitivity, monotonicity under extension of the text, and that negations are ignored.
- **Triage engine** (`engine.dfy`, module `TriageEngine`):
  - the critical-vitals check and the danger-zone check, vital by vital, in the source's if/elif
    form;
  - the resource estimate and the list of high-risk triggers;
  - the level decision, as the method `Evaluate`;
  - every method is proved equal to a specification function (`CriticalReasons`,
    `DangerZoneReasons`, `ResourceScore`, `HighRiskTriggers`, `Triage`).
- **Properties** (`triage_properties.dfy`, module `TriageProperties`):
  - exact age-band thresholds for every vital;
  - a characterisation of every level by independent clinical predicates, in both directions;
  - the shape of red flags and reasoning;
  - bounds and monotonicity of the resource score;
  - the fact that a complaint can only reach a few of the engine's concepts;
  - insensitivity to case and to the history flags.
- **Scenarios** (`scenarios.dfy`, module `TriageScenarios`): worked patients from the
  classifier's own scenario lists, each proved for every value of the inputs it leaves open.
- Helper modules:
  - `wrappers.dfy`: an `Option` type;
  - `sequences.dfy`: subsequences, absence of duplicates and filtering;
  - `text.dfy`: ASCII lower-casing and substring search.

Python's `Optional` vitals are `Option` values. Ages and the floating-point readings (SpO2 and
temperature) are `real`; integer readings are `int`. `if x` tests on a pain score or a GCS that
may be `None` become "present and non-zero".

Two behaviours of the code deserve a note, and the model keeps both:

- **Substring matching.** `extract_symptoms` and `detect_danger_keywords` test plain substring
  containment (`kw in text`, backend/nlp/processor.py:53 and :73), with no word boundaries. The
  model uses substring containment.
- **Infant thresholds.** The pediatric branches write `elif age < 5 and x > limit` after the
  infant test, with no lower age bound. An infant is therefore already flagged above the under-5
  limits:
  - respiratory rate above 50 and pulse above 160 in the critical check;
  - respiratory rate above 40 and pulse above 140 in the danger zone.

  The higher infant limits (60 and 180, or 50 and 160) only choose which wording is reported.
  `PediatricCriticalBands`, `InfantCriticalWording` and `PediatricDangerZoneBands` state this.

Wherever the scenario files' expectations or comments disagree with the code, the model follows
the code. The infant scenario in validate_scenarios.py:48-55 (2 months, pulse 190, 60 breaths a
minute) expects level 2, and its comment calls a pulse above 180 a danger-zone finding. The code
gives level 1 instead, because the critical check fires first: `age < 1 and hr > 180` at
backend/logic/triage_engine.py:82-83. The scenario therefore fails against the code.
`InfantTachycardiaScenario` proves level 1.

## Model

| member | source | states |
|---|---|---|
| Models.TriageLevel.Value | backend/models.py:17-22 | each level's number lies in 1..5, and the number is 1 exactly for resuscitation |
| Models.LevelOf | backend/models.py:17-22 | a number names a level exactly when it is in 1..5, and the level found has that number |
| Models.LevelValueRoundTrip | backend/models.py:17-22 | converting a level to its number and back gives the same level |
| Models.Reading | backend/models.py:24-30 | the reading of a vital is absent exactly when that field of the record is absent |
| Models.NewTriageResult | backend/models.py:48-58 | a new result has the given level, no red flags, no reasoning and confidence "High" |
| Text.Lower | backend/nlp/processor.py:48 | lower-casing keeps the length and maps every character through the ASCII case map |
| Text.LowerIdempotent | backend/nlp/processor.py:71 | lower-casing a lower-cased text changes nothing |
| Text.ContainsExtended | backend/nlp/processor.py:73 | a phrase found in a text is still found after text is added before or after it |
| Processor.ExtractSymptoms | backend/nlp/processor.py:44-59 | the loop over the lexicon returns exactly the concepts listed by the specification function `Symptoms` |
| Processor.DetectDangerKeywords | backend/nlp/processor.py:61-76 | the loop over the danger phrases returns exactly `DangerKeywords` |
| Processor.MatchedConceptsMembership | backend/nlp/processor.py:51-57 | a concept is reported exactly when one of its patterns occurs in the text |
| Processor.MatchedConceptsInOrder | backend/nlp/processor.py:51-57 | the concepts come out in lexicon order, each at most once |
| Processor.ConceptKeysDistinct | backend/nlp/processor.py:6-39 | the lexicon names eight distinct concepts, in this order: chest pain, shortness of breath, trauma, abdominal, neuro, fever, psych, allergy |
| Processor.SymptomIff | backend/nlp/processor.py:44-59 | a concept is extracted exactly when one of its patterns occurs in the lower-cased complaint |
| Processor.SymptomsInLexiconOrder | backend/nlp/processor.py:51-57 | the extracted concepts keep lexicon order and contain no repeats |
| Processor.SymptomsWithinLexicon | backend/nlp/processor.py:6-39 | every extracted concept is one of the eight lexicon concepts |
| Processor.MatchedTermsMembership | backend/nlp/processor.py:72-74 | a phrase is reported exactly when it is in the list and occurs in the text |
| Processor.MatchedTermsInOrder | backend/nlp/processor.py:72-74 | matched phrases keep the order of the phrase list |
| Processor.DangerTermsDistinct | backend/nlp/processor.py:65-68 | the thirteen danger phrases are distinct |
| Processor.DangerKeywordsExact | backend/nlp/processor.py:61-76 | a phrase is reported exactly when it occurs in the lower-cased complaint; the result follows list order and has no repeats |
| Processor.MatchingIgnoresCase | backend/nlp/processor.py:48 | extracting from a lower-cased complaint gives the same concepts and phrases as extracting from the original |
| Processor.PatternsNonEmpty | backend/nlp/processor.py:6-39 | no lexicon pattern and no danger phrase is empty |
| Processor.EmptyComplaintReportsNothing | backend/nlp/processor.py:44-76 | an empty complaint yields no concept and no danger phrase |
| Processor.ExtendingComplaintKeepsFindings | backend/nlp/processor.py:44-76 | adding text before or after a complaint never removes a finding |
| Processor.NegationIgnored | backend/nlp/processor.py:42-57 | a negation word placed in front removes nothing, so "no chest pain" still yields chest pain |
| TriageEngine.Take | backend/logic/triage_engine.py:240 | keeping the first three phrases gives a prefix of at most three, which is the whole list when it is shorter |
| TriageEngine.Display | backend/logic/triage_engine.py:244-254 | each level's display fields, with no red flags, no reasoning and the default confidence |
| TriageEngine.CriticalRespiratoryRateSteps | backend/logic/triage_engine.py:58-70 | the respiratory-rate finding, written as the source's branches over age and rate |
| TriageEngine.CriticalHeartRateSteps | backend/logic/triage_engine.py:73-85 | the pulse finding, written as the source's branches over age and rate |
| TriageEngine.CriticalOxygenSaturationSteps | backend/logic/triage_engine.py:88-89 | SpO2 below 90 is critical at every age |
| TriageEngine.CriticalConsciousnessSteps | backend/logic/triage_engine.py:92-93 | GCS below 9 is critical at every age |
| TriageEngine.CriticalSystolicPressureSteps | backend/logic/triage_engine.py:96-100 | systolic pressure below 80 or above 220 is critical, the low test first |
| TriageEngine.CriticalTemperatureSteps | backend/logic/triage_engine.py:103-107 | temperature below 35 or above 41 is critical, the low test first |
| TriageEngine.DangerHeartRateSteps | backend/logic/triage_engine.py:120-157 | the danger-zone pulse finding for adults (above 100, else below 50) and children (infant above 160, else under 5 above 140) |
| TriageEngine.DangerRespiratoryRateSteps | backend/logic/triage_engine.py:127-163 | the danger-zone respiratory finding for adults (above 24, else below 10) and children (infant above 50, else under 5 above 40) |
| TriageEngine.DangerOxygenSaturationSteps | backend/logic/triage_engine.py:134-166 | SpO2 in 90..94 (adults) or below 94 (children) is in the danger zone |
| TriageEngine.DangerSystolicPressureSteps | backend/logic/triage_engine.py:138-142 | systolic pressure above 180, else below 90, is in the danger zone for adults only |
| TriageEngine.DangerTemperatureSteps | backend/logic/triage_engine.py:145-169 | temperature above 39, else below 36 for adults, is in the danger zone |
| TriageEngine.CheckCriticalRespiratoryRate | backend/logic/triage_engine.py:58-70 | the respiratory-rate block appends exactly the respiratory finding of `CriticalReasons` |
| TriageEngine.CheckCriticalHeartRate | backend/logic/triage_engine.py:73-85 | the pulse block appends exactly the pulse finding |
| TriageEngine.CheckCriticalOxygenSaturation | backend/logic/triage_engine.py:88-89 | the SpO2 block appends exactly the SpO2 finding |
| TriageEngine.CheckCriticalConsciousness | backend/logic/triage_engine.py:92-93 | the GCS block appends exactly the GCS finding |
| TriageEngine.CheckCriticalSystolicPressure | backend/logic/triage_engine.py:96-100 | the blood-pressure block appends exactly the blood-pressure finding |
| TriageEngine.CheckCriticalTemperature | backend/logic/triage_engine.py:103-107 | the temperature block appends exactly the temperature finding |
| TriageEngine.CheckCriticalVitals | backend/logic/triage_engine.py:48-109 | the reasons are `CriticalReasons` (one finding per breached vital, in the source's order), and the flag is set exactly when there is a reason |
| TriageEngine.CheckAdultHeartRate | backend/logic/triage_engine.py:120-124 | from age 14, the pulse block appends exactly the danger-zone pulse finding |
| TriageEngine.CheckAdultRespiratoryRate | backend/logic/triage_engine.py:127-131 | from age 14, the respiratory block appends exactly the danger-zone respiratory finding |
| TriageEngine.CheckAdultOxygenSaturation | backend/logic/triage_engine.py:134-135 | from age 14, the SpO2 block appends exactly the danger-zone SpO2 finding |
| TriageEngine.CheckAdultSystolicPressure | backend/logic/triage_engine.py:138-142 | from age 14, the blood-pressure block appends exactly the danger-zone blood-pressure finding |
| TriageEngine.CheckAdultTemperature | backend/logic/triage_engine.py:145-149 | from age 14, the temperature block appends exactly the danger-zone temperature finding |
| TriageEngine.CheckPediatricHeartRate | backend/logic/triage_engine.py:153-157 | below age 14, the pulse block appends exactly the danger-zone pulse finding |
| TriageEngine.CheckPediatricRespiratoryRate | backend/logic/triage_engine.py:159-163 | below age 14, the respiratory block appends exactly the danger-zone respiratory finding |
| TriageEngine.CheckPediatricOxygenSaturation | backend/logic/triage_engine.py:165-166 | below age 14, the SpO2 block appends exactly the danger-zone SpO2 finding |
| TriageEngine.CheckPediatricTemperature | backend/logic/triage_engine.py:168-169 | below age 14, the temperature block appends exactly the danger-zone temperature finding |
| TriageEngine.CheckVitalsDangerZone | backend/logic/triage_engine.py:111-171 | the reasons are `DangerZoneReasons`, and the flag is set exactly when there is a reason |
| TriageEngine.CalculateResources | backend/logic/triage_engine.py:173-213 | the running total equals `ResourceScore`, the sum of the weights of the rules whose concepts occur |
| TriageEngine.CollectHighRiskTriggers | backend/logic/triage_engine.py:278-286 | the triggers are `HighRiskTriggers`: the high-risk concepts present, in the source's order |
| TriageEngine.AssessResuscitation | backend/logic/triage_engine.py:228-242 | level 1 holds exactly when a vital is critical or a danger phrase was found; the critical reasons and keyword lines are appended to reasoning and red flags |
| TriageEngine.AssessEmergent | backend/logic/triage_engine.py:257-290 | level 2 holds exactly when pain is 7 or more, GCS is in 9..14, a vital is in the danger zone or a high-risk concept is present; the matching lines are appended |
| TriageEngine.Evaluate | backend/logic/triage_engine.py:215-345 | the result is `Triage(patient)`, whose levels, reasons and red flags are characterised in `TriageProperties` |
| TriageProperties.FirstBreachNone | backend/logic/triage_engine.py:58-85 | an if/elif chain reports nothing exactly when no limit in it is breached |
| TriageProperties.FindingIff | backend/logic/triage_engine.py:56-169 | a vital yields at most one reason; it yields one exactly when a limit is breached, and that reason carries the vital, the measured value and a band covering the age |
| TriageProperties.ReportsAppend | backend/logic/triage_engine.py:56-109 | a vital is reported in two joined lists exactly when it is reported in one of them |
| TriageProperties.FindingReports | backend/logic/triage_engine.py:56-169 | one vital's block never reports another vital |
| TriageProperties.CriticalReasonsExact | backend/logic/triage_engine.py:48-109 | a vital appears among the critical reasons exactly when it breaches a critical limit |
| TriageProperties.DangerZoneReasonsExact | backend/logic/triage_engine.py:111-171 | a vital appears among the danger-zone reasons exactly when it breaches a danger-zone limit, and GCS is never one of them |
| TriageProperties.CriticalReasonsCarryReadings | backend/logic/triage_engine.py:48-109 | every critical reason names a measured vital and its actual value |
| TriageProperties.DangerZoneReasonsCarryReadings | backend/logic/triage_engine.py:111-171 | every danger-zone reason names a measured vital and its actual value |
| TriageProperties.AbsentVitalSilent | backend/logic/triage_engine.py:58-169 | a vital that was not measured is never reported |
| TriageProperties.AdultCriticalBands | backend/logic/triage_engine.py:58-85 | from age 14, breathing is critical when below 8 or above 36, and pulse when below 40 or above 150 |
| TriageProperties.PediatricCriticalBands | backend/logic/triage_engine.py:64-85 | below age 14, breathing is critical when below 10 or (under 5) above 50, and pulse when below 60 or (under 5) above 160 |
| TriageProperties.InfantCriticalWording | backend/logic/triage_engine.py:66-85 | under age 1, a high rate is reported with the infant band only above 60 breaths or 180 beats, and with the under-5 band otherwise |
| TriageProperties.AllAgesCriticalBands | backend/logic/triage_engine.py:88-107 | at every age, SpO2 below 90, GCS below 9, systolic pressure outside 80..220 and temperature outside 35..41 are critical |
| TriageProperties.AdultDangerZoneBands | backend/logic/triage_engine.py:118-149 | the five adult danger-zone bands, each in both directions |
| TriageProperties.PediatricDangerZoneBands | backend/logic/triage_engine.py:151-169 | the pediatric danger-zone bands in both directions; blood pressure never enters them |
| TriageProperties.DefaultVitalsRaiseNothing | backend/models.py:24-32 | an empty vitals record (GCS 15, pain 0) raises no critical, danger-zone, pain or GCS finding |
| TriageProperties.ScoreAtMostTotal | backend/logic/triage_engine.py:178-211 | the score never exceeds the sum of all rule weights |
| TriageProperties.ScoreMonotone | backend/logic/triage_engine.py:178-211 | more concepts never lower the score |
| TriageProperties.ScoreIgnoresCovered | backend/logic/triage_engine.py:178-211 | adding a concept whose rules already fired leaves the score unchanged |
| TriageProperties.NoSymptomsNoResources | backend/logic/triage_engine.py:178-213 | no concepts means no resources |
| TriageProperties.SingleRuleWeight | backend/logic/triage_engine.py:181-211 | a one-concept rule adds its weight exactly when that concept is present |
| TriageProperties.ChestRuleWeight | backend/logic/triage_engine.py:184-185 | the chest-pain rule adds 2 exactly when chest pain or a cardiac complaint is present |
| TriageProperties.ResourceRuleWeights | backend/logic/triage_engine.py:181-211 | each of the eleven table rules adds its weight exactly under the source's test for it |
| TriageProperties.ResourceScoreByRule | backend/logic/triage_engine.py:173-213 | the estimate equals the sum of the source's eleven conditional additions (2 for abdominal, chest pain or cardiac, sob, trauma, stroke; 1 for fever, laceration, allergy, UTI, burn, bite/sting) |
| TriageProperties.ResourceScoreRange | backend/logic/triage_engine.py:173-213 | the estimate lies in 0..16 |
| TriageProperties.ResourceScoreMonotone | backend/logic/triage_engine.py:173-213 | the estimate grows with the concept set |
| TriageProperties.ResourceScoreByMembership | backend/logic/triage_engine.py:173-213 | the estimate depends only on which concepts are present, not on order or repeats |
| TriageProperties.ChestPainAndCardiacCountOnce | backend/logic/triage_engine.py:184-185 | chest pain and cardiac share one rule, so adding the second adds nothing |
| TriageProperties.ScoreIgnoresRepeatsAndNonResourceConcepts | backend/logic/triage_engine.py:173-213 | a repeated concept, or a neuro, psych, diabetic or pregnancy concept, adds nothing |
| TriageProperties.ComplaintResourceBound | backend/logic/triage_engine.py:173-213 | the concepts extracted from any complaint need at most 10 resources |
| TriageProperties.LexiconResourceScore | backend/logic/triage_engine.py:178-211 | all eight lexicon concepts together need exactly 10 resources: the stroke, laceration, UTI, burn and bite rules never apply |
| TriageProperties.TriggersUpToFilter | backend/logic/triage_engine.py:278-286 | the triggers are the high-risk list filtered by presence |
| TriageProperties.NoHighRiskConceptNoTriggers | backend/logic/triage_engine.py:278-286 | with none of the first k high-risk concepts present, the first k tests add nothing |
| TriageProperties.NoTriggersWithoutHighRiskConcept | backend/logic/triage_engine.py:278-288 | without any of the seven high-risk concepts there is no trigger |
| TriageProperties.HighRiskTriggersExact | backend/logic/triage_engine.py:278-286 | a concept is a trigger exactly when it is high-risk and present; triggers follow the list order without repeats |
| TriageProperties.ComplaintTriggers | backend/logic/triage_engine.py:278-286 | a complaint can only trigger chest pain, psych or shortness of breath |
| TriageProperties.CriticalReasonsNonEmptyIff | backend/logic/triage_engine.py:48-109 | there is a critical reason exactly when some vital breaches a critical limit |
| TriageProperties.DangerZoneReasonsNonEmptyIff | backend/logic/triage_engine.py:111-171 | there is a danger-zone reason exactly when some vital breaches a danger-zone limit |
| TriageProperties.DecisionInputs | backend/logic/triage_engine.py:223-288 | each input the decision tests is non-empty exactly when its clinical predicate holds |
| TriageProperties.DecideLevels | backend/logic/triage_engine.py:228-345 | the decision yields each of the five levels exactly under its condition |
| TriageProperties.DecideDisplay | backend/logic/triage_engine.py:244-345 | the decision always gives reasoning and shows the display fields of its level |
| TriageProperties.TriageLevels | backend/logic/triage_engine.py:215-345 | level 1 iff a critical vital or danger phrase; level 2 iff not 1 and (pain ≥ 7, GCS 9..14, danger-zone vital or high-risk concept); levels 3, 4 and 5 iff neither and the estimate is ≥ 2, 1 or 0 |
| TriageProperties.TriageDisplay | backend/logic/triage_engine.py:244-345 | every result has reasoning, confidence "High" and the display fields of its level |
| TriageProperties.TriageRedFlags | backend/logic/triage_engine.py:232-345 | level-1 red flags are critical readings or one keyword flag of at most three detected phrases; level 2 has a single abnormal-vitals flag exactly when a vital is in the danger zone; levels 3 to 5 have no red flag and one reasoning line |
| TriageProperties.QuietPatientByResources | backend/logic/triage_engine.py:305-345 | with nothing at levels 1 and 2, the result depends only on the resource estimate |
| TriageProperties.TriageIgnoresCase | backend/nlp/processor.py:48-71 | lower-casing the complaint does not change the result |
| TriageProperties.TriageIgnoresHistory | backend/models.py:43-46 | gender and the three history flags do not change the result |
| TriageScenarios.CriticalVitalGivesLevel1 | backend/logic/triage_engine.py:230-234 | a critical vital gives level 1, and its reasons are among the red flags |
| TriageScenarios.DangerPhraseGivesLevel1 | backend/logic/triage_engine.py:238-242 | a danger phrase in the complaint gives level 1, with a critical-condition flag |
| TriageScenarios.BradycardiaScenario | backend/tests/test_triage_scenarios.py:82-86 | age 70 with pulse 35 is level 1, whatever the complaint |
| TriageScenarios.RespiratoryDepressionScenario | backend/tests/test_triage_scenarios.py:88-92 | age 50 breathing 4 a minute is level 1 |
| TriageScenarios.HypoxiaScenario | backend/tests/test_triage_scenarios.py:94-98 | age 65 with SpO2 85 is level 1 |
| TriageScenarios.TachycardiaScenario | backend/tests/test_triage_scenarios.py:100-104 | age 45 with pulse 180 is level 1 |
| TriageScenarios.HypotensionScenario | backend/tests/test_triage_scenarios.py:106-110 | age 35 with systolic pressure 70 is level 1 |
| TriageScenarios.InfantTachycardiaScenario | validate_scenarios.py:48-55 | a two-month-old with pulse 190 and 60 breaths a minute is level 1, whatever the complaint and the GCS |
| TriageScenarios.OpeningDangerPhrase | backend/nlp/processor.py:61-76 | a complaint with no capital letters that begins with a danger phrase is level 1 |
| TriageScenarios.CardiacArrestScenario | backend/tests/test_triage_scenarios.py:33-37 | "cardiac arrest, no pulse" is level 1 at any age and vitals |
| TriageScenarios.GunshotScenario | backend/tests/test_triage_scenarios.py:51-55 | "gunshot to abdomen" is level 1 |
| TriageScenarios.NotBreathingScenario | backend/tests/test_triage_scenarios.py:39-43 | "not breathing, blue lips" is level 1 |
| TriageScenarios.ArabicStabbingScenario | backend/tests/test_triage_scenarios.py:137-141 | the Arabic stabbing complaint is level 1 |
| TriageScenarios.SeverePainScenario | backend/tests/test_triage_scenarios.py:202-206 | at age 40, pain 8 as the only reading gives exactly level 2 for any complaint without a danger phrase |
| TriageScenarios.ConfusionScenario | backend/tests/test_triage_scenarios.py:208-212 | at age 75, GCS 12 as the only reading gives exactly level 2 for any complaint without a danger phrase |
| TriageScenarios.QuietAdultVitals | backend/tests/test_triage_scenarios.py:261-265 | the adult vitals of the abdominal-pain case raise nothing |
| TriageScenarios.AbdominalPainWithFeverScenario | backend/tests/test_triage_scenarios.py:261-265 | with abdominal pain and fever extracted and no danger phrase, the case is level 3 needing 3 resources, with no red flag |
| TriageScenarios.AbdominalFeverScore | backend/logic/triage_engine.py:180-197 | abdominal pain and fever need 3 resources |
| TriageScenarios.FeverScenario | backend/tests/test_triage_scenarios.py:296-300 | with fever alone extracted and temperature 38.2, the case is level 4 |
| TriageScenarios.UnmeasuredExceptTemperature | backend/logic/triage_engine.py:103-149 | from age 14, a temperature in 36..39 as the only reading raises nothing |
| TriageScenarios.FeverScore | backend/logic/triage_engine.py:196-197 | fever alone needs one resource |
| TriageScenarios.UnmeasuredVitals | backend/logic/triage_engine.py:48-171 | a record holding at most a GCS of 9 or more and a pain score raises nothing at either level, at any age |
| TriageScenarios.RunnyNoseScenario | backend/tests/test_triage_scenarios.py:325-329 | with nothing extracted and no vitals, the case is level 5 |

## Left out

- The HTTP API, database records, speech recognition and the AI assistant are outside the classifier and are not modelled. The frontend and the scenario-printing scripts are not modelled either.
- The Arabic and English wording of reason lines and red flags is not modelled. Each line is a `Reason` tag carrying the vital, the direction, the age band and the measured value that the source formats into the text.
- Lower-casing covers ASCII letters only. Python's `str.lower` also maps some non-ASCII capitals to ASCII letters. For example, U+212A KELVIN SIGN lowercases to `k`, so "\u212AILL MYSELF" matches the psych pattern "kill myself" in the source but not in the model.
- `NLPProcessor` and `TriageEngine` are Python classes, but they hold no state that changes after construction. They are modelled as modules with constant tables and methods.
- `Evaluate` delegates its level-1 and level-2 phases to `AssessResuscitation` and `AssessEmergent`. The two vital checks delegate each vital's if/elif block to its own method. The order in which lines are appended is the source's order.
- `PainScale`, the negation list and the history flags are declared in the source but never read by the classifier. They appear in the model only where a lemma shows they make no difference.
- The concepts stroke, cardiac, diabetic, pregnancy, laceration, UTI, burn and bite/sting are tested by the engine, but no lexicon pattern produces them. The engine rules for them are modelled. `ComplaintResourceBound` and `ComplaintTriggers` state the consequence.
- AbdominalPainWithFeverScenario, FeverScenario, RunnyNoseScenario, SeverePainScenario, ConfusionScenario: these take the extractor's output for the complaint (the concepts found, and no danger phrase) as a precondition. They do not derive it from the literal complaint text. Proving that a literal text contains none of the other patterns is beyond what the verifier does within its limits.
- Some test scenarios expect a level that the code does not produce. These are not stated, and the list below is not exhaustive:
  - "unconscious" and "seizure" are not danger phrases;
  - "choking on food, can't breathe" matches nothing, because the pattern is "cant breathe": level 5, not 1;
  - "overdose, took whole bottle of pills" matches nothing: level 5, not 1;
  - "anaphylaxis, throat swelling, ate peanuts" yields only allergy: level 4, not 1;
  - "cut on hand" matches the trauma pattern "cut", which needs two resources: level 3, not 4;
  - "fell off bike, ankle swollen" matches no trauma pattern: level 5, not 3;
  - "need refill of blood pressure medication" matches the chest-pain pattern "pressure": level 2, not 5.
- Integer widths are not modelled: Python integers are unbounded, as are Dafny's.
- NaN and infinite values of `age`, `spo2` and `temp` are not modelled. They are Python floats, and the model uses `real`. In the source every comparison with NaN is false. A NaN `spo2` or `temp` therefore behaves as an absent vital. A NaN `age` fails `age >= 14`, so the patient takes the pediatric branches with the limits for ages 5 to 13 (backend/logic/triage_engine.py:64-85 and :151-169).
- Pydantic's field bounds (GCS 3..15, pain 0..10) are checked before the classifier runs. The classifier accepts any reading, and so does the model.
