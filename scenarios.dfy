/**
  * Worked scenarios from the classifier's own scenario list: each fixes the parts of a
  * patient record that decide the outcome and proves the level for every value of the rest.
  */
module TriageScenarios {
  import opened Wrappers
  import opened Models
  import opened Text
  import opened TriageEngine
  import opened TriageProperties
  import Processor

  /** A vital that breaches a critical limit makes the patient level 1 and heads the red flags. */
  lemma CriticalVitalGivesLevel1(p: PatientInput, x: Vital)
    requires Reports(CriticalReasons(p.age, p.vitals), x)
    ensures Triage(p).level == Resuscitation
    ensures CriticalReasons(p.age, p.vitals) <= Triage(p).redFlags
  {
    CriticalReasonsExact(p.age, p.vitals, x);
    TriageLevels(p);
  }

  /** A danger phrase in the complaint makes the patient level 1 with a critical-condition flag. */
  lemma DangerPhraseGivesLevel1(p: PatientInput, t: string)
    requires t in Processor.DangerTerms && Contains(Lower(p.chiefComplaintText), t)
    ensures Triage(p).level == Resuscitation
    ensures exists r :: r in Triage(p).redFlags && r.CriticalCondition? && t in Processor.DangerKeywords(p.chiefComplaintText)
  {
    TriageLevels(p);
    Processor.DangerKeywordsExact(p.chiefComplaintText);
    var danger := Processor.DangerKeywords(p.chiefComplaintText);
    var flag := CriticalCondition(Take(danger, 3));
    assert flag in Triage(p).redFlags;
  }

  // ===== Level 1 from the vitals, whatever the complaint =====

  /** A 70-year-old with a pulse of 35. */
  lemma BradycardiaScenario(text: string)
    ensures Triage(Patient(70.0, Male, text, Vitals(Some(35), Some(16), Some(95.0), None, None, None, None, Some(0)))).level
            == Resuscitation
  {
    var p := Patient(70.0, Male, text, Vitals(Some(35), Some(16), Some(95.0), None, None, None, None, Some(0)));
    AdultCriticalBands(p.age, p.vitals);
    CriticalVitalGivesLevel1(p, HeartRate);
  }

  /** A 50-year-old breathing 4 times a minute. */
  lemma RespiratoryDepressionScenario(text: string)
    ensures Triage(Patient(50.0, Female, text, Vitals(Some(60), Some(4), Some(88.0), None, None, None, None, Some(0)))).level
            == Resuscitation
  {
    var p := Patient(50.0, Female, text, Vitals(Some(60), Some(4), Some(88.0), None, None, None, None, Some(0)));
    AdultCriticalBands(p.age, p.vitals);
    CriticalVitalGivesLevel1(p, RespiratoryRate);
  }

  /** A 65-year-old with oxygen saturation 85. */
  lemma HypoxiaScenario(text: string)
    ensures Triage(Patient(65.0, Male, text, Vitals(Some(110), Some(28), Some(85.0), None, None, None, None, Some(0)))).level
            == Resuscitation
  {
    var p := Patient(65.0, Male, text, Vitals(Some(110), Some(28), Some(85.0), None, None, None, None, Some(0)));
    AllAgesCriticalBands(p.age, p.vitals);
    CriticalVitalGivesLevel1(p, OxygenSaturation);
  }

  /** A 45-year-old with a pulse of 180. */
  lemma TachycardiaScenario(text: string)
    ensures Triage(Patient(45.0, Male, text, Vitals(Some(180), Some(22), Some(94.0), None, None, None, None, Some(0)))).level
            == Resuscitation
  {
    var p := Patient(45.0, Male, text, Vitals(Some(180), Some(22), Some(94.0), None, None, None, None, Some(0)));
    AdultCriticalBands(p.age, p.vitals);
    CriticalVitalGivesLevel1(p, HeartRate);
  }

  /** A 35-year-old with systolic pressure 70. */
  lemma HypotensionScenario(text: string)
    ensures Triage(Patient(35.0, Female, text, Vitals(Some(130), None, None, None, Some(70), Some(40), None, Some(0)))).level
            == Resuscitation
  {
    var p := Patient(35.0, Female, text, Vitals(Some(130), None, None, None, Some(70), Some(40), None, Some(0)));
    AllAgesCriticalBands(p.age, p.vitals);
    CriticalVitalGivesLevel1(p, SystolicPressure);
  }

  /** A two-month-old with a pulse of 190 and 60 breaths a minute: the critical check already fires. */
  lemma InfantTachycardiaScenario(text: string, gcs: Option<int>)
    ensures Triage(Patient(0.2, Male, text, Vitals(Some(190), Some(60), Some(95.0), Some(39.0), None, None, gcs, Some(0)))).level
            == Resuscitation
  {
    var p := Patient(0.2, Male, text, Vitals(Some(190), Some(60), Some(95.0), Some(39.0), None, None, gcs, Some(0)));
    PediatricCriticalBands(p.age, p.vitals);
    CriticalVitalGivesLevel1(p, HeartRate);
  }

  // ===== Level 1 from the complaint, whatever the age and vitals =====

  /** A complaint without capital letters that opens with a danger phrase is level 1. */
  lemma OpeningDangerPhrase(p: PatientInput, t: string)
    requires t in Processor.DangerTerms && t <= p.chiefComplaintText
    requires forall i :: 0 <= i < |p.chiefComplaintText| ==> !('A' <= p.chiefComplaintText[i] <= 'Z')
    ensures Triage(p).level == Resuscitation
  {
    LowerNoCapitals(p.chiefComplaintText);
    assert OccursAt(p.chiefComplaintText, t, 0);
    DangerPhraseGivesLevel1(p, t);
  }

  /** "cardiac arrest, no pulse" */
  lemma CardiacArrestScenario(age: real, v: Vitals)
    ensures Triage(Patient(age, Male, "cardiac arrest, no pulse", v)).level == Resuscitation
  {
    OpeningDangerPhrase(Patient(age, Male, "cardiac arrest, no pulse", v), "cardiac arrest");
  }

  /** "not breathing, blue lips" */
  lemma NotBreathingScenario(age: real, v: Vitals)
    ensures Triage(Patient(age, Male, "not breathing, blue lips", v)).level == Resuscitation
  {
    OpeningDangerPhrase(Patient(age, Male, "not breathing, blue lips", v), "not breathing");
  }

  /** "gunshot to abdomen" */
  lemma GunshotScenario(age: real, v: Vitals)
    ensures Triage(Patient(age, Male, "gunshot to abdomen", v)).level == Resuscitation
  {
    OpeningDangerPhrase(Patient(age, Male, "gunshot to abdomen", v), "gunshot");
  }

  /** A stabbing reported in Arabic: "اتطعن بسكينة في بطنه". */
  lemma ArabicStabbingScenario(age: real, v: Vitals)
    ensures Triage(Patient(age, Male, "اتطعن بسكينة في بطنه", v)).level == Resuscitation
  {
    var text := "اتطعن بسكينة في بطنه";
    LowerNoCapitals(text);
    assert OccursAt(text, "طعن", 2);
    DangerPhraseGivesLevel1(Patient(age, Male, text, v), "طعن");
  }

  // ===== Level 2 from pain or consciousness =====

  /** "severe back pain" with pain 8 as the only reading, at 40: no danger phrase, so level 2. */
  lemma SeverePainScenario(text: string)
    requires Processor.DangerKeywords(text) == []
    ensures Triage(Patient(40.0, Female, text, Vitals(None, None, None, None, None, None, None, Some(8)))).level
            == Emergent
  {
    var p := Patient(40.0, Female, text, Vitals(None, None, None, None, None, None, None, Some(8)));
    UnmeasuredVitals(p.age, None, Some(8));
    DecisionInputs(p);
    TriageLevels(p);
  }

  /** "confused, not making sense" with GCS 12 as the only reading, at 75: level 2. */
  lemma ConfusionScenario(text: string)
    requires Processor.DangerKeywords(text) == []
    ensures Triage(Patient(75.0, Male, text, Vitals(None, None, None, None, None, None, Some(12), Some(0)))).level
            == Emergent
  {
    var p := Patient(75.0, Male, text, Vitals(None, None, None, None, None, None, Some(12), Some(0)));
    UnmeasuredVitals(p.age, Some(12), Some(0));
    DecisionInputs(p);
    TriageLevels(p);
  }

  // ===== Levels 3 to 5, given what the extractor reports =====

  /**
    * Adult vitals inside every band (pulse 85, breathing 16, temperature 38.5, pain 5) raise
    * nothing at either level.
    */
  lemma QuietAdultVitals(age: real)
    requires age >= 14.0
    ensures CriticalReasons(age, Vitals(Some(85), Some(16), None, Some(38.5), None, None, None, Some(5))) == []
    ensures DangerZoneReasons(age, Vitals(Some(85), Some(16), None, Some(38.5), None, None, None, Some(5))) == []
  {
    var v := Vitals(Some(85), Some(16), None, Some(38.5), None, None, None, Some(5));
    CriticalRespiratoryRateSteps(age, v);
    CriticalHeartRateSteps(age, v);
    CriticalOxygenSaturationSteps(age, v);
    CriticalConsciousnessSteps(age, v);
    CriticalSystolicPressureSteps(age, v);
    CriticalTemperatureSteps(age, v);
    DangerHeartRateSteps(age, v);
    DangerRespiratoryRateSteps(age, v);
    DangerOxygenSaturationSteps(age, v);
    DangerSystolicPressureSteps(age, v);
    DangerTemperatureSteps(age, v);
  }

  /**
    * "stomach pain and fever for 2 days" at 35 with quiet vitals: the extractor finds
    * abdominal pain and fever only, which need 2 + 1 resources, so the level is 3.
    */
  lemma AbdominalPainWithFeverScenario(text: string)
    requires forall c :: c in Processor.Symptoms(text) <==> c in [Abdominal, Fever]
    requires Processor.DangerKeywords(text) == []
    ensures var r := Triage(Patient(35.0, Female, text, Vitals(Some(85), Some(16), None, Some(38.5), None, None, None, Some(5))));
            r.level == Urgent && r.reasoning == [ResourcesNeeded(3)] && r.redFlags == []
  {
    var symptoms := Processor.Symptoms(text);
    QuietAdultVitals(35.0);
    NoTriggersWithoutHighRiskConcept(symptoms);
    ResourceScoreByMembership(symptoms, [Abdominal, Fever]);
    AbdominalFeverScore();
    QuietPatientByResources(Patient(35.0, Female, text, Vitals(Some(85), Some(16), None, Some(38.5), None, None, None, Some(5))));
  }

  /** Abdominal pain (2) and fever (1) need three resources. */
  lemma AbdominalFeverScore()
    ensures ResourceScore([Abdominal, Fever]) == 3
  {
    var s := [Abdominal, Fever];
    ResourceScoreByRule(s);
    assert Abdominal in s && Fever in s;
    assert ChestPain !in s && Cardiac !in s && Sob !in s && Trauma !in s && Stroke !in s;
    assert Laceration !in s && Allergy !in s && Uti !in s && Burn !in s && BiteSting !in s;
  }

  /**
    * "fever and sore throat" at 25 with a temperature of 38.2: fever alone needs one
    * resource, so the level is 4.
    */
  lemma FeverScenario(text: string)
    requires forall c :: c in Processor.Symptoms(text) <==> c == Fever
    requires Processor.DangerKeywords(text) == []
    ensures var r := Triage(Patient(25.0, Female, text, Vitals(None, None, None, Some(38.2), None, None, None, Some(0))));
            r.level == LessUrgent && r.reasoning == [OneResourceNeeded] && r.redFlags == []
  {
    var symptoms := Processor.Symptoms(text);
    var v := Vitals(None, None, None, Some(38.2), None, None, None, Some(0));
    UnmeasuredExceptTemperature(25.0, 38.2);
    NoTriggersWithoutHighRiskConcept(symptoms);
    ResourceScoreByMembership(symptoms, [Fever]);
    FeverScore();
    QuietPatientByResources(Patient(25.0, Female, text, v));
  }

  /** A temperature within 36..39 as the only reading raises nothing at either level, from age 14. */
  lemma UnmeasuredExceptTemperature(age: real, temp: real)
    requires age >= 14.0 && 36.0 <= temp <= 39.0
    ensures CriticalReasons(age, Vitals(None, None, None, Some(temp), None, None, None, Some(0))) == []
    ensures DangerZoneReasons(age, Vitals(None, None, None, Some(temp), None, None, None, Some(0))) == []
  {
    var v := Vitals(None, None, None, Some(temp), None, None, None, Some(0));
    CriticalRespiratoryRateSteps(age, v);
    CriticalHeartRateSteps(age, v);
    CriticalOxygenSaturationSteps(age, v);
    CriticalConsciousnessSteps(age, v);
    CriticalSystolicPressureSteps(age, v);
    CriticalTemperatureSteps(age, v);
    DangerHeartRateSteps(age, v);
    DangerRespiratoryRateSteps(age, v);
    DangerOxygenSaturationSteps(age, v);
    DangerSystolicPressureSteps(age, v);
    DangerTemperatureSteps(age, v);
  }

  /** Fever alone needs one resource. */
  lemma FeverScore()
    ensures ResourceScore([Fever]) == 1
  {
    var s := [Fever];
    ResourceScoreByRule(s);
    assert Fever in s;
    assert Abdominal !in s && ChestPain !in s && Cardiac !in s && Sob !in s && Trauma !in s && Stroke !in s;
    assert Laceration !in s && Allergy !in s && Uti !in s && Burn !in s && BiteSting !in s;
  }

  /**
    * A record holding at most a GCS of 9 or more and a pain score raises nothing at either
    * level, at any age.
    */
  lemma UnmeasuredVitals(age: real, gcs: Option<int>, pain: Option<int>)
    requires gcs.None? || gcs.value >= 9
    ensures CriticalReasons(age, Vitals(None, None, None, None, None, None, gcs, pain)) == []
    ensures DangerZoneReasons(age, Vitals(None, None, None, None, None, None, gcs, pain)) == []
  {
    var v := Vitals(None, None, None, None, None, None, gcs, pain);
    CriticalRespiratoryRateSteps(age, v);
    CriticalHeartRateSteps(age, v);
    CriticalOxygenSaturationSteps(age, v);
    CriticalConsciousnessSteps(age, v);
    CriticalSystolicPressureSteps(age, v);
    CriticalTemperatureSteps(age, v);
    DangerHeartRateSteps(age, v);
    DangerRespiratoryRateSteps(age, v);
    DangerOxygenSaturationSteps(age, v);
    DangerSystolicPressureSteps(age, v);
    DangerTemperatureSteps(age, v);
  }

  /**
    * "runny nose for 3 days" at 30 with no vitals given: nothing is extracted, no resource is
    * needed, and the level is 5.
    */
  lemma RunnyNoseScenario(text: string)
    requires Processor.Symptoms(text) == [] && Processor.DangerKeywords(text) == []
    ensures var r := Triage(Patient(30.0, Female, text, Vitals(None, None, None, None, None, None, None, Some(0))));
            r.level == NonUrgent && r.reasoning == [NoAcuteResources] && r.redFlags == []
  {
    UnmeasuredVitals(30.0, None, Some(0));
    NoSymptomsNoResources(ResourceTable, |ResourceTable|);
    NoTriggersWithoutHighRiskConcept([]);
    QuietPatientByResources(Patient(30.0, Female, text, Vitals(None, None, None, None, None, None, None, Some(0))));
  }
}
