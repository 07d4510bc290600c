/**
  * What the triage classifier guarantees, stated over the specification functions of
  * `TriageEngine`: which vitals produce reasons, the age bands of every threshold, the
  * resource estimate's range and monotonicity, and the precedence of the five levels.
  */
module TriageProperties {
  import opened Wrappers
  import opened Models
  import opened Text
  import opened Sequences
  import opened TriageEngine
  import Processor

  // ===== Which vitals produce reasons =====

  /** Vital `x` has a reading that breaches one of the limits that apply at `age`. */
  predicate Breach(critical: bool, x: Vital, age: real, v: Vitals) {
    Reading(v, x).Some? && exists limit :: limit in Limits(critical, x) && Hits(limit, age, Reading(v, x).value)
  }

  /** Some reason in `reasons` is about vital `x`. */
  predicate Reports(reasons: seq<Reason>, x: Vital) {
    exists r :: r in reasons && (r.CriticalVital? || r.AbnormalVital?) && r.vital == x
  }

  /** The first-match search finds nothing exactly when no limit of the table is hit. */
  lemma {:induction false} FirstBreachNone(limits: seq<(Band, Test)>, age: real, value: real)
    ensures FirstBreach(limits, age, value).None? <==> forall limit :: limit in limits ==> !Hits(limit, age, value)
  {
    if limits != [] {
      FirstBreachNone(limits[1..], age, value);
      assert forall limit :: limit in limits ==> limit == limits[0] || limit in limits[1..];
    }
  }

  /**
    * A vital gives a reason exactly when its reading breaches an applicable limit; the
    * reason names that vital, carries the measured value, and is at most one.
    */
  lemma FindingIff(critical: bool, x: Vital, age: real, v: Vitals)
    ensures Finding(critical, x, age, v) != [] <==> Breach(critical, x, age, v)
    ensures |Finding(critical, x, age, v)| <= 1
    ensures forall r :: r in Finding(critical, x, age, v) ==>
              (if critical then r.CriticalVital? else r.AbnormalVital?)
              && r.vital == x && Reading(v, x) == Some(r.value)
              && Covers(r.band, age)
  {
    if Reading(v, x).Some? {
      FirstBreachNone(Limits(critical, x), age, Reading(v, x).value);
    }
  }

  /** A reason list built from findings reports vital `x` exactly when `x`'s finding is non-empty. */
  lemma ReportsAppend(a: seq<Reason>, b: seq<Reason>, x: Vital)
    ensures Reports(a + b, x) <==> Reports(a, x) || Reports(b, x)
  {
    if Reports(a + b, x) {
      var r :| r in a + b && (r.CriticalVital? || r.AbnormalVital?) && r.vital == x;
      assert r in a || r in b;
    }
    if Reports(a, x) {
      var r :| r in a && (r.CriticalVital? || r.AbnormalVital?) && r.vital == x;
      assert r in a + b;
    }
    if Reports(b, x) {
      var r :| r in b && (r.CriticalVital? || r.AbnormalVital?) && r.vital == x;
      assert r in a + b;
    }
  }

  /** Vital `y`'s finding reports `x` exactly when `x` is `y` and `y` breaches. */
  lemma FindingReports(critical: bool, y: Vital, x: Vital, age: real, v: Vitals)
    ensures Reports(Finding(critical, y, age, v), x) <==> x == y && Breach(critical, y, age, v)
  {
    FindingIff(critical, y, age, v);
    var f := Finding(critical, y, age, v);
    if x == y && Breach(critical, y, age, v) {
      assert f[0] in f;
    }
  }

  /**
    * The critical check is exhaustive and sound: it reports a vital exactly when that vital
    * breaches a life-threatening limit for the patient's age, whatever the other vitals are.
    */
  lemma CriticalReasonsExact(age: real, v: Vitals, x: Vital)
    ensures Reports(CriticalReasons(age, v), x) <==> Breach(true, x, age, v)
  {
    var f1, f2, f3 := Finding(true, RespiratoryRate, age, v), Finding(true, HeartRate, age, v),
                      Finding(true, OxygenSaturation, age, v);
    var f4, f5, f6 := Finding(true, Consciousness, age, v), Finding(true, SystolicPressure, age, v),
                      Finding(true, Temperature, age, v);
    ReportsAppend(f1 + f2 + f3 + f4 + f5, f6, x);
    ReportsAppend(f1 + f2 + f3 + f4, f5, x);
    ReportsAppend(f1 + f2 + f3, f4, x);
    ReportsAppend(f1 + f2, f3, x);
    ReportsAppend(f1, f2, x);
    FindingReports(true, RespiratoryRate, x, age, v);
    FindingReports(true, HeartRate, x, age, v);
    FindingReports(true, OxygenSaturation, x, age, v);
    FindingReports(true, Consciousness, x, age, v);
    FindingReports(true, SystolicPressure, x, age, v);
    FindingReports(true, Temperature, x, age, v);
  }

  /**
    * The danger-zone check is exhaustive and sound in the same way; consciousness is never
    * part of it.
    */
  lemma DangerZoneReasonsExact(age: real, v: Vitals, x: Vital)
    ensures Reports(DangerZoneReasons(age, v), x) <==> Breach(false, x, age, v)
    ensures !Breach(false, Consciousness, age, v)
  {
    var f1, f2, f3 := Finding(false, HeartRate, age, v), Finding(false, RespiratoryRate, age, v),
                      Finding(false, OxygenSaturation, age, v);
    var f4, f5 := Finding(false, SystolicPressure, age, v), Finding(false, Temperature, age, v);
    ReportsAppend(f1 + f2 + f3 + f4, f5, x);
    ReportsAppend(f1 + f2 + f3, f4, x);
    ReportsAppend(f1 + f2, f3, x);
    ReportsAppend(f1, f2, x);
    FindingReports(false, HeartRate, x, age, v);
    FindingReports(false, RespiratoryRate, x, age, v);
    FindingReports(false, OxygenSaturation, x, age, v);
    FindingReports(false, SystolicPressure, x, age, v);
    FindingReports(false, Temperature, x, age, v);
    FindingIff(false, Consciousness, age, v);
  }

  /** Every reason of the critical check is about a measured vital and carries its reading. */
  lemma CriticalReasonsCarryReadings(age: real, v: Vitals, r: Reason)
    requires r in CriticalReasons(age, v)
    ensures r.CriticalVital? && Reading(v, r.vital) == Some(r.value) && Covers(r.band, age)
  {
    FindingIff(true, RespiratoryRate, age, v);
    FindingIff(true, HeartRate, age, v);
    FindingIff(true, OxygenSaturation, age, v);
    FindingIff(true, Consciousness, age, v);
    FindingIff(true, SystolicPressure, age, v);
    FindingIff(true, Temperature, age, v);
  }

  /** Every reason of the danger-zone check is about a measured vital and carries its reading. */
  lemma DangerZoneReasonsCarryReadings(age: real, v: Vitals, r: Reason)
    requires r in DangerZoneReasons(age, v)
    ensures r.AbnormalVital? && Reading(v, r.vital) == Some(r.value) && Covers(r.band, age)
  {
    FindingIff(false, HeartRate, age, v);
    FindingIff(false, RespiratoryRate, age, v);
    FindingIff(false, OxygenSaturation, age, v);
    FindingIff(false, SystolicPressure, age, v);
    FindingIff(false, Temperature, age, v);
  }

  /** A vital that was not measured never produces a reason in either check. */
  lemma AbsentVitalSilent(age: real, v: Vitals, x: Vital)
    requires Reading(v, x).None?
    ensures !Reports(CriticalReasons(age, v), x)
    ensures !Reports(DangerZoneReasons(age, v), x)
  {
    CriticalReasonsExact(age, v, x);
    DangerZoneReasonsExact(age, v, x);
  }

  // ===== The age bands of every threshold =====

  /** From age 14 the critical respiratory and heart-rate limits are 8/36 and 40/150. */
  lemma AdultCriticalBands(age: real, v: Vitals)
    requires age >= 14.0
    ensures Reports(CriticalReasons(age, v), RespiratoryRate) <==> v.rr.Some? && (v.rr.value < 8 || v.rr.value > 36)
    ensures Reports(CriticalReasons(age, v), HeartRate) <==> v.hr.Some? && (v.hr.value < 40 || v.hr.value > 150)
  {
    CriticalReasonsExact(age, v, RespiratoryRate);
    FindingIff(true, RespiratoryRate, age, v);
    CriticalRespiratoryRateSteps(age, v);
    CriticalReasonsExact(age, v, HeartRate);
    FindingIff(true, HeartRate, age, v);
    CriticalHeartRateSteps(age, v);
  }

  /**
    * Under 14 the critical low limits are 10 breaths and 60 beats; the high limits 50 and 160
    * apply under 5, infants included, so the infant limits 60 and 180 never change whether a
    * reason is raised. From 5 to 13 only the low limits apply.
    */
  lemma PediatricCriticalBands(age: real, v: Vitals)
    requires age < 14.0
    ensures Reports(CriticalReasons(age, v), RespiratoryRate) <==>
            v.rr.Some? && (v.rr.value < 10 || (age < 5.0 && v.rr.value > 50))
    ensures Reports(CriticalReasons(age, v), HeartRate) <==>
            v.hr.Some? && (v.hr.value < 60 || (age < 5.0 && v.hr.value > 160))
  {
    CriticalReasonsExact(age, v, RespiratoryRate);
    FindingIff(true, RespiratoryRate, age, v);
    CriticalRespiratoryRateSteps(age, v);
    CriticalReasonsExact(age, v, HeartRate);
    FindingIff(true, HeartRate, age, v);
    CriticalHeartRateSteps(age, v);
  }

  /**
    * For an infant with a fast rate the infant limit only selects the wording: above 50
    * breaths (160 beats) the reason is raised, tagged as an infant reason only above 60 (180).
    */
  lemma InfantCriticalWording(age: real, v: Vitals)
    requires age < 1.0
    ensures v.rr.Some? && v.rr.value > 50 ==>
            Finding(true, RespiratoryRate, age, v)
              == [CriticalVital(RespiratoryRate, High, if v.rr.value > 60 then Infant else UnderFive, v.rr.value as real)]
    ensures v.hr.Some? && v.hr.value > 160 ==>
            Finding(true, HeartRate, age, v)
              == [CriticalVital(HeartRate, High, if v.hr.value > 180 then Infant else UnderFive, v.hr.value as real)]
  {
    CriticalRespiratoryRateSteps(age, v);
    CriticalHeartRateSteps(age, v);
  }

  /** Oxygen, consciousness, blood pressure and temperature have one critical band for all ages. */
  lemma AllAgesCriticalBands(age: real, v: Vitals)
    ensures Reports(CriticalReasons(age, v), OxygenSaturation) <==> v.spo2.Some? && v.spo2.value < 90.0
    ensures Reports(CriticalReasons(age, v), Consciousness) <==> v.gcs.Some? && v.gcs.value < 9
    ensures Reports(CriticalReasons(age, v), SystolicPressure) <==> v.sbp.Some? && (v.sbp.value < 80 || v.sbp.value > 220)
    ensures Reports(CriticalReasons(age, v), Temperature) <==> v.temp.Some? && (v.temp.value < 35.0 || v.temp.value > 41.0)
  {
    CriticalReasonsExact(age, v, OxygenSaturation);
    FindingIff(true, OxygenSaturation, age, v);
    CriticalOxygenSaturationSteps(age, v);
    CriticalReasonsExact(age, v, Consciousness);
    FindingIff(true, Consciousness, age, v);
    CriticalConsciousnessSteps(age, v);
    CriticalReasonsExact(age, v, SystolicPressure);
    FindingIff(true, SystolicPressure, age, v);
    CriticalSystolicPressureSteps(age, v);
    CriticalReasonsExact(age, v, Temperature);
    FindingIff(true, Temperature, age, v);
    CriticalTemperatureSteps(age, v);
  }

  /** The adult danger zone: pulse 50..100, breathing 10..24, oxygen below 94 down to 90, pressure 90..180, temperature 36..39. */
  lemma AdultDangerZoneBands(age: real, v: Vitals)
    requires age >= 14.0
    ensures Reports(DangerZoneReasons(age, v), HeartRate) <==> v.hr.Some? && (v.hr.value > 100 || v.hr.value < 50)
    ensures Reports(DangerZoneReasons(age, v), RespiratoryRate) <==> v.rr.Some? && (v.rr.value > 24 || v.rr.value < 10)
    ensures Reports(DangerZoneReasons(age, v), OxygenSaturation) <==> v.spo2.Some? && 90.0 <= v.spo2.value < 94.0
    ensures Reports(DangerZoneReasons(age, v), SystolicPressure) <==> v.sbp.Some? && (v.sbp.value > 180 || v.sbp.value < 90)
    ensures Reports(DangerZoneReasons(age, v), Temperature) <==> v.temp.Some? && (v.temp.value > 39.0 || v.temp.value < 36.0)
  {
    DangerZoneReasonsExact(age, v, HeartRate);
    FindingIff(false, HeartRate, age, v);
    DangerHeartRateSteps(age, v);
    DangerZoneReasonsExact(age, v, RespiratoryRate);
    FindingIff(false, RespiratoryRate, age, v);
    DangerRespiratoryRateSteps(age, v);
    DangerZoneReasonsExact(age, v, OxygenSaturation);
    FindingIff(false, OxygenSaturation, age, v);
    DangerOxygenSaturationSteps(age, v);
    DangerZoneReasonsExact(age, v, SystolicPressure);
    FindingIff(false, SystolicPressure, age, v);
    DangerSystolicPressureSteps(age, v);
    DangerZoneReasonsExact(age, v, Temperature);
    FindingIff(false, Temperature, age, v);
    DangerTemperatureSteps(age, v);
  }

  /**
    * The reduced danger zone under 14: fast pulse (above 140) and breathing (above 40) only
    * under 5, oxygen below 94, fever above 39, and no blood-pressure or low-side checks.
    */
  lemma PediatricDangerZoneBands(age: real, v: Vitals)
    requires age < 14.0
    ensures Reports(DangerZoneReasons(age, v), HeartRate) <==> v.hr.Some? && age < 5.0 && v.hr.value > 140
    ensures Reports(DangerZoneReasons(age, v), RespiratoryRate) <==> v.rr.Some? && age < 5.0 && v.rr.value > 40
    ensures Reports(DangerZoneReasons(age, v), OxygenSaturation) <==> v.spo2.Some? && v.spo2.value < 94.0
    ensures !Reports(DangerZoneReasons(age, v), SystolicPressure)
    ensures Reports(DangerZoneReasons(age, v), Temperature) <==> v.temp.Some? && v.temp.value > 39.0
  {
    DangerZoneReasonsExact(age, v, HeartRate);
    FindingIff(false, HeartRate, age, v);
    DangerHeartRateSteps(age, v);
    DangerZoneReasonsExact(age, v, RespiratoryRate);
    FindingIff(false, RespiratoryRate, age, v);
    DangerRespiratoryRateSteps(age, v);
    DangerZoneReasonsExact(age, v, OxygenSaturation);
    FindingIff(false, OxygenSaturation, age, v);
    DangerOxygenSaturationSteps(age, v);
    DangerZoneReasonsExact(age, v, SystolicPressure);
    FindingIff(false, SystolicPressure, age, v);
    DangerSystolicPressureSteps(age, v);
    DangerZoneReasonsExact(age, v, Temperature);
    FindingIff(false, Temperature, age, v);
    DangerTemperatureSteps(age, v);
  }

  /** A record with every vital at its default (unmeasured, GCS 15, pain 0) raises nothing. */
  lemma DefaultVitalsRaiseNothing(age: real)
    ensures CriticalReasons(age, DefaultVitals) == []
    ensures DangerZoneReasons(age, DefaultVitals) == []
    ensures !SeverePainScore(DefaultVitals) && !AlteredGcs(DefaultVitals)
  {
    CriticalRespiratoryRateSteps(age, DefaultVitals);
    CriticalHeartRateSteps(age, DefaultVitals);
    CriticalOxygenSaturationSteps(age, DefaultVitals);
    CriticalConsciousnessSteps(age, DefaultVitals);
    CriticalSystolicPressureSteps(age, DefaultVitals);
    CriticalTemperatureSteps(age, DefaultVitals);
  }

  // ===== The resource estimate =====

  /** The sum of the weights of the first `k` rules: what they add when every rule applies. */
  function TotalWeight(table: seq<(set<Concept>, nat)>, k: nat): nat
    requires k <= |table|
  {
    if k == 0 then 0 else TotalWeight(table, k - 1) + table[k - 1].1
  }

  /** No set of symptoms scores more than the rules' total weight. */
  lemma {:induction false} ScoreAtMostTotal(table: seq<(set<Concept>, nat)>, k: nat, symptoms: seq<Concept>)
    requires k <= |table|
    ensures ScoreUpTo(table, k, symptoms) <= TotalWeight(table, k)
  {
    if k > 0 {
      ScoreAtMostTotal(table, k - 1, symptoms);
    }
  }

  /** More symptoms never lower the score. */
  lemma {:induction false} ScoreMonotone(table: seq<(set<Concept>, nat)>, k: nat, fewer: seq<Concept>, more: seq<Concept>)
    requires k <= |table|
    requires forall c :: c in fewer ==> c in more
    ensures ScoreUpTo(table, k, fewer) <= ScoreUpTo(table, k, more)
  {
    if k > 0 {
      ScoreMonotone(table, k - 1, fewer, more);
    }
  }

  /**
    * A symptom adds nothing when every rule that mentions it already applies through
    * another of its concepts.
    */
  lemma {:induction false} ScoreIgnoresCovered(table: seq<(set<Concept>, nat)>, k: nat, symptoms: seq<Concept>, c: Concept)
    requires k <= |table|
    requires forall i :: 0 <= i < k && c in table[i].0 ==> exists d :: d in table[i].0 && d in symptoms
    ensures ScoreUpTo(table, k, symptoms + [c]) == ScoreUpTo(table, k, symptoms)
  {
    if k > 0 {
      ScoreIgnoresCovered(table, k - 1, symptoms, c);
      var rule := table[k - 1];
      if exists e :: e in rule.0 && e in symptoms + [c] {
        var e :| e in rule.0 && e in symptoms + [c];
        if e !in symptoms {
          assert e == c;
          var d :| d in rule.0 && d in symptoms;
        }
      }
      assert RuleWeight(rule, symptoms + [c]) == RuleWeight(rule, symptoms);
    }
  }

  /** Without symptoms no rule applies. */
  lemma {:induction false} NoSymptomsNoResources(table: seq<(set<Concept>, nat)>, k: nat)
    requires k <= |table|
    ensures ScoreUpTo(table, k, []) == 0
  {
    if k > 0 {
      NoSymptomsNoResources(table, k - 1);
    }
  }

  /** The estimate lies between 0 and 16, the weight of all eleven rules. */
  lemma ResourceScoreRange(symptoms: seq<Concept>)
    ensures 0 <= ResourceScore(symptoms) <= 16
  {
    var t := ResourceTable;
    ScoreAtMostTotal(t, |t|, symptoms);
    assert TotalWeight(t, 1) == 2;
    assert TotalWeight(t, 2) == 4;
    assert TotalWeight(t, 3) == 6;
    assert TotalWeight(t, 4) == 8;
    assert TotalWeight(t, 5) == 10;
    assert TotalWeight(t, 6) == 11;
    assert TotalWeight(t, 7) == 12;
    assert TotalWeight(t, 8) == 13;
    assert TotalWeight(t, 9) == 14;
    assert TotalWeight(t, 10) == 15;
    assert TotalWeight(t, 11) == 16;
  }

  /** A rule over one concept adds its weight exactly when that concept is present. */
  lemma SingleRuleWeight(c: Concept, w: nat, symptoms: seq<Concept>)
    ensures RuleWeight(({c}, w), symptoms) == if c in symptoms then w else 0
  {
    if c in symptoms {
      assert c in {c};
    }
  }

  /** The chest-pain rule adds 2 exactly when chest pain or a cardiac complaint is present. */
  lemma ChestRuleWeight(symptoms: seq<Concept>)
    ensures RuleWeight(({ChestPain, Cardiac}, 2), symptoms) == if ChestPain in symptoms || Cardiac in symptoms then 2 else 0
  {
    if ChestPain in symptoms {
      assert ChestPain in {ChestPain, Cardiac};
    } else if Cardiac in symptoms {
      assert Cardiac in {ChestPain, Cardiac};
    }
  }

  /** What each of the eleven rules of the table adds, as a test on the symptoms. */
  lemma ResourceRuleWeights(s: seq<Concept>)
    ensures RuleWeight(ResourceTable[0], s) == if Abdominal in s then 2 else 0
    ensures RuleWeight(ResourceTable[1], s) == if ChestPain in s || Cardiac in s then 2 else 0
    ensures RuleWeight(ResourceTable[2], s) == if Sob in s then 2 else 0
    ensures RuleWeight(ResourceTable[3], s) == if Trauma in s then 2 else 0
    ensures RuleWeight(ResourceTable[4], s) == if Stroke in s then 2 else 0
    ensures RuleWeight(ResourceTable[5], s) == if Fever in s then 1 else 0
    ensures RuleWeight(ResourceTable[6], s) == if Laceration in s then 1 else 0
    ensures RuleWeight(ResourceTable[7], s) == if Allergy in s then 1 else 0
    ensures RuleWeight(ResourceTable[8], s) == if Uti in s then 1 else 0
    ensures RuleWeight(ResourceTable[9], s) == if Burn in s then 1 else 0
    ensures RuleWeight(ResourceTable[10], s) == if BiteSting in s then 1 else 0
  {
    var t := ResourceTable;
    assert t[0] == ({Abdominal}, 2);
    assert t[1] == ({ChestPain, Cardiac}, 2);
    assert t[2] == ({Sob}, 2);
    assert t[3] == ({Trauma}, 2);
    assert t[4] == ({Stroke}, 2);
    assert t[5] == ({Fever}, 1);
    assert t[6] == ({Laceration}, 1);
    assert t[7] == ({Allergy}, 1);
    assert t[8] == ({Uti}, 1);
    assert t[9] == ({Burn}, 1);
    assert t[10] == ({BiteSting}, 1);
    SingleRuleWeight(Abdominal, 2, s);
    ChestRuleWeight(s);
    SingleRuleWeight(Sob, 2, s);
    SingleRuleWeight(Trauma, 2, s);
    SingleRuleWeight(Stroke, 2, s);
    SingleRuleWeight(Fever, 1, s);
    SingleRuleWeight(Laceration, 1, s);
    SingleRuleWeight(Allergy, 1, s);
    SingleRuleWeight(Uti, 1, s);
    SingleRuleWeight(Burn, 1, s);
    SingleRuleWeight(BiteSting, 1, s);
  }

  /**
    * The estimate is the sum of the eleven tests of the source, each adding its weight when
    * one of its concepts is present.
    */
  lemma ResourceScoreByRule(s: seq<Concept>)
    ensures ResourceScore(s) ==
              (if Abdominal in s then 2 else 0)
            + (if ChestPain in s || Cardiac in s then 2 else 0)
            + (if Sob in s then 2 else 0)
            + (if Trauma in s then 2 else 0)
            + (if Stroke in s then 2 else 0)
            + (if Fever in s then 1 else 0)
            + (if Laceration in s then 1 else 0)
            + (if Allergy in s then 1 else 0)
            + (if Uti in s then 1 else 0)
            + (if Burn in s then 1 else 0)
            + (if BiteSting in s then 1 else 0)
  {
    var t := ResourceTable;
    ResourceRuleWeights(s);
    assert ScoreUpTo(t, 1, s) == RuleWeight(t[0], s);
    assert ScoreUpTo(t, 2, s) == ScoreUpTo(t, 1, s) + RuleWeight(t[1], s);
    assert ScoreUpTo(t, 3, s) == ScoreUpTo(t, 2, s) + RuleWeight(t[2], s);
    assert ScoreUpTo(t, 4, s) == ScoreUpTo(t, 3, s) + RuleWeight(t[3], s);
    assert ScoreUpTo(t, 5, s) == ScoreUpTo(t, 4, s) + RuleWeight(t[4], s);
    assert ScoreUpTo(t, 6, s) == ScoreUpTo(t, 5, s) + RuleWeight(t[5], s);
    assert ScoreUpTo(t, 7, s) == ScoreUpTo(t, 6, s) + RuleWeight(t[6], s);
    assert ScoreUpTo(t, 8, s) == ScoreUpTo(t, 7, s) + RuleWeight(t[7], s);
    assert ScoreUpTo(t, 9, s) == ScoreUpTo(t, 8, s) + RuleWeight(t[8], s);
    assert ScoreUpTo(t, 10, s) == ScoreUpTo(t, 9, s) + RuleWeight(t[9], s);
  }

  /** The estimate never drops when a symptom is added. */
  lemma ResourceScoreMonotone(fewer: seq<Concept>, more: seq<Concept>)
    requires forall c :: c in fewer ==> c in more
    ensures ResourceScore(fewer) <= ResourceScore(more)
  {
    ScoreMonotone(ResourceTable, |ResourceTable|, fewer, more);
  }

  /** The estimate depends only on which concepts are present, not on order or repetition. */
  lemma ResourceScoreByMembership(s1: seq<Concept>, s2: seq<Concept>)
    requires forall c :: c in s1 <==> c in s2
    ensures ResourceScore(s1) == ResourceScore(s2)
  {
    ResourceScoreMonotone(s1, s2);
    ResourceScoreMonotone(s2, s1);
  }

  /** Chest pain and a cardiac complaint share one rule: having both costs as much as having one. */
  lemma ChestPainAndCardiacCountOnce(symptoms: seq<Concept>)
    ensures ChestPain in symptoms ==> ResourceScore(symptoms + [Cardiac]) == ResourceScore(symptoms)
    ensures Cardiac in symptoms ==> ResourceScore(symptoms + [ChestPain]) == ResourceScore(symptoms)
  {
    if ChestPain in symptoms {
      ScoreIgnoresCovered(ResourceTable, |ResourceTable|, symptoms, Cardiac);
    }
    if Cardiac in symptoms {
      ScoreIgnoresCovered(ResourceTable, |ResourceTable|, symptoms, ChestPain);
    }
  }

  /** A repeated symptom and a neurological, psychiatric, diabetic or pregnancy complaint add no resources. */
  lemma ScoreIgnoresRepeatsAndNonResourceConcepts(symptoms: seq<Concept>, c: Concept)
    requires c in symptoms || c in {Neuro, Psych, Diabetic, Pregnancy}
    ensures ResourceScore(symptoms + [c]) == ResourceScore(symptoms)
  {
    ScoreIgnoresCovered(ResourceTable, |ResourceTable|, symptoms, c);
  }

  /**
    * Through the lexicon the estimate never exceeds 10: chest pain, shortness of breath,
    * trauma and abdominal pain give 2 each, fever and allergy 1 each, and the remaining
    * rules name concepts the lexicon does not produce.
    */
  lemma ComplaintResourceBound(text: string)
    ensures ResourceScore(Processor.Symptoms(text)) <= 10
  {
    var all := [ChestPain, Sob, Trauma, Abdominal, Neuro, Fever, Psych, Allergy];
    forall c | c in Processor.Symptoms(text) ensures c in all {
      Processor.SymptomsWithinLexicon(text, c);
    }
    ResourceScoreMonotone(Processor.Symptoms(text), all);
    LexiconResourceScore();
  }

  /** Every concept of the lexicon at once scores 10: the stroke rule and the last four never apply. */
  lemma LexiconResourceScore()
    ensures ResourceScore([ChestPain, Sob, Trauma, Abdominal, Neuro, Fever, Psych, Allergy]) == 10
  {
    var all := [ChestPain, Sob, Trauma, Abdominal, Neuro, Fever, Psych, Allergy];
    ResourceScoreByRule(all);
    assert Abdominal in all && ChestPain in all && Sob in all && Trauma in all && Fever in all && Allergy in all;
    assert Stroke !in all && Laceration !in all && Uti !in all && Burn !in all && BiteSting !in all;
  }

  // ===== The high-risk triggers =====

  /** The triggers among the first `k` concepts are those concepts filtered by presence. */
  lemma {:induction false} TriggersUpToFilter(k: nat, symptoms: seq<Concept>)
    requires k <= |HighRiskOrder|
    ensures TriggersUpTo(k, symptoms) == Filter(HighRiskOrder[..k], c => c in symptoms)
  {
    if k > 0 {
      TriggersUpToFilter(k - 1, symptoms);
      assert HighRiskOrder[..k][..k - 1] == HighRiskOrder[..k - 1];
    }
  }

  /** Without any high-risk concept among the symptoms there is no trigger. */
  lemma {:induction false} NoHighRiskConceptNoTriggers(k: nat, symptoms: seq<Concept>)
    requires k <= |HighRiskOrder|
    requires forall i :: 0 <= i < k ==> HighRiskOrder[i] !in symptoms
    ensures TriggersUpTo(k, symptoms) == []
  {
    if k > 0 {
      NoHighRiskConceptNoTriggers(k - 1, symptoms);
    }
  }

  /** Symptoms naming none of the seven high-risk concepts give no trigger. */
  lemma NoTriggersWithoutHighRiskConcept(symptoms: seq<Concept>)
    requires ChestPain !in symptoms && Stroke !in symptoms && Psych !in symptoms && Sob !in symptoms
    requires Cardiac !in symptoms && Diabetic !in symptoms && Pregnancy !in symptoms
    ensures HighRiskTriggers(symptoms) == []
  {
    NoHighRiskConceptNoTriggers(|HighRiskOrder|, symptoms);
  }

  /**
    * The triggers are exactly the high-risk concepts among the symptoms, each once, in the
    * order chest pain, stroke, psychiatric, shortness of breath, cardiac, diabetic, pregnancy.
    */
  lemma HighRiskTriggersExact(symptoms: seq<Concept>)
    ensures forall c :: c in HighRiskTriggers(symptoms) <==> c in HighRiskOrder && c in symptoms
    ensures NoDuplicates(HighRiskTriggers(symptoms))
    ensures IsSubsequence(HighRiskTriggers(symptoms), HighRiskOrder)
  {
    TriggersUpToFilter(|HighRiskOrder|, symptoms);
    assert HighRiskOrder[..|HighRiskOrder|] == HighRiskOrder;
    FilterExact(HighRiskOrder, c => c in symptoms);
  }

  /** Through the lexicon only chest pain, psychiatric complaints and shortness of breath can trigger. */
  lemma ComplaintTriggers(text: string)
    ensures forall c :: c in HighRiskTriggers(Processor.Symptoms(text)) ==> c in {ChestPain, Psych, Sob}
  {
    HighRiskTriggersExact(Processor.Symptoms(text));
    forall c | c in HighRiskTriggers(Processor.Symptoms(text)) ensures c in {ChestPain, Psych, Sob} {
      Processor.SymptomsWithinLexicon(text, c);
    }
  }

  // ===== The level of a patient =====

  /** Some vital breaches a life-threatening limit for the patient's age. */
  predicate LifeThreateningVital(p: PatientInput) {
    exists x :: Breach(true, x, p.age, p.vitals)
  }

  /** Some danger phrase occurs in the lower-cased complaint. */
  predicate DangerPhrase(p: PatientInput) {
    exists t :: t in Processor.DangerTerms && Contains(Lower(p.chiefComplaintText), t)
  }

  /** Some vital lies in the danger zone for the patient's age. */
  predicate DangerZoneVital(p: PatientInput) {
    exists x :: Breach(false, x, p.age, p.vitals)
  }

  /** The complaint names a high-risk concept. */
  predicate HighRiskComplaint(p: PatientInput) {
    exists c :: c in HighRiskOrder && c in Processor.Symptoms(p.chiefComplaintText)
  }

  /** Any of the level-2 criteria: severe pain, altered consciousness, danger-zone vitals, high-risk complaint. */
  predicate EmergentCriteria(p: PatientInput) {
    SeverePainScore(p.vitals) || AlteredGcs(p.vitals) || DangerZoneVital(p) || HighRiskComplaint(p)
  }

  /** The critical check raises something exactly when some vital breaches a critical limit. */
  lemma CriticalReasonsNonEmptyIff(age: real, v: Vitals)
    ensures CriticalReasons(age, v) != [] <==> exists x :: Breach(true, x, age, v)
  {
    var reasons := CriticalReasons(age, v);
    if reasons != [] {
      CriticalReasonsCarryReadings(age, v, reasons[0]);
      CriticalReasonsExact(age, v, reasons[0].vital);
    }
    if exists x :: Breach(true, x, age, v) {
      var x :| Breach(true, x, age, v);
      CriticalReasonsExact(age, v, x);
    }
  }

  /** The danger-zone check raises something exactly when some vital is in the danger zone. */
  lemma DangerZoneReasonsNonEmptyIff(age: real, v: Vitals)
    ensures DangerZoneReasons(age, v) != [] <==> exists x :: Breach(false, x, age, v)
  {
    var reasons := DangerZoneReasons(age, v);
    if reasons != [] {
      DangerZoneReasonsCarryReadings(age, v, reasons[0]);
      DangerZoneReasonsExact(age, v, reasons[0].vital);
    }
    if exists x :: Breach(false, x, age, v) {
      var x :| Breach(false, x, age, v);
      DangerZoneReasonsExact(age, v, x);
    }
  }

  /** What each check contributes to the decision, in terms of the patient record. */
  lemma DecisionInputs(p: PatientInput)
    ensures CriticalReasons(p.age, p.vitals) != [] <==> LifeThreateningVital(p)
    ensures Processor.DangerKeywords(p.chiefComplaintText) != [] <==> DangerPhrase(p)
    ensures DangerZoneReasons(p.age, p.vitals) != [] <==> DangerZoneVital(p)
    ensures HighRiskTriggers(Processor.Symptoms(p.chiefComplaintText)) != [] <==> HighRiskComplaint(p)
  {
    var text := p.chiefComplaintText;
    CriticalReasonsNonEmptyIff(p.age, p.vitals);
    DangerZoneReasonsNonEmptyIff(p.age, p.vitals);
    Processor.DangerKeywordsExact(text);
    var danger := Processor.DangerKeywords(text);
    if danger != [] {
      assert danger[0] in danger;
    }
    HighRiskTriggersExact(Processor.Symptoms(text));
    var triggers := HighRiskTriggers(Processor.Symptoms(text));
    if triggers != [] {
      assert triggers[0] in triggers;
    }
  }

  /** The level `Decide` picks, in terms of what the checks found. */
  lemma DecideLevels(critical: seq<Reason>, danger: seq<string>, zone: seq<Reason>,
                     triggers: seq<Concept>, count: nat, v: Vitals)
    ensures var level := Decide(critical, danger, zone, triggers, count, v).level;
            var l1 := critical != [] || danger != [];
            var l2 := EmergentCondition(v, zone, triggers);
            (level == Resuscitation <==> l1)
            && (level == Emergent <==> !l1 && l2)
            && (level == Urgent <==> !l1 && !l2 && count >= 2)
            && (level == LessUrgent <==> !l1 && !l2 && count == 1)
            && (level == NonUrgent <==> !l1 && !l2 && count == 0)
  {
  }

  /** `Decide` always gives a reason and keeps the level's display fields. */
  lemma DecideDisplay(critical: seq<Reason>, danger: seq<string>, zone: seq<Reason>,
                      triggers: seq<Concept>, count: nat, v: Vitals)
    ensures var r := Decide(critical, danger, zone, triggers, count, v);
            r.reasoning != [] && r.(redFlags := [], reasoning := []) == Display(r.level)
  {
  }

  /**
    * The precedence of the five levels: level 1 on a life-threatening vital or a danger
    * phrase; otherwise level 2 on any emergent criterion; otherwise 3, 4 or 5 by whether
    * the complaint calls for two or more, one or no resources.
    */
  lemma TriageLevels(p: PatientInput)
    ensures Triage(p).level == Resuscitation <==> LifeThreateningVital(p) || DangerPhrase(p)
    ensures Triage(p).level == Emergent <==>
            !LifeThreateningVital(p) && !DangerPhrase(p) && EmergentCriteria(p)
    ensures Triage(p).level == Urgent <==>
            !LifeThreateningVital(p) && !DangerPhrase(p) && !EmergentCriteria(p)
            && ResourceScore(Processor.Symptoms(p.chiefComplaintText)) >= 2
    ensures Triage(p).level == LessUrgent <==>
            !LifeThreateningVital(p) && !DangerPhrase(p) && !EmergentCriteria(p)
            && ResourceScore(Processor.Symptoms(p.chiefComplaintText)) == 1
    ensures Triage(p).level == NonUrgent <==>
            !LifeThreateningVital(p) && !DangerPhrase(p) && !EmergentCriteria(p)
            && ResourceScore(Processor.Symptoms(p.chiefComplaintText)) == 0
  {
    DecisionInputs(p);
    var symptoms := Processor.Symptoms(p.chiefComplaintText);
    DecideLevels(CriticalReasons(p.age, p.vitals), Processor.DangerKeywords(p.chiefComplaintText),
                 DangerZoneReasons(p.age, p.vitals), HighRiskTriggers(symptoms), ResourceScore(symptoms), p.vitals);
  }

  /**
    * Every result explains itself and keeps its level's display: the reasoning is never empty,
    * the confidence is the default, and every field but the two lists is the level's own.
    */
  lemma TriageDisplay(p: PatientInput)
    ensures Triage(p).reasoning != []
    ensures Triage(p).confidence == DefaultConfidence
    ensures Triage(p).(redFlags := [], reasoning := []) == Display(Triage(p).level)
  {
    var symptoms := Processor.Symptoms(p.chiefComplaintText);
    DecideDisplay(CriticalReasons(p.age, p.vitals), Processor.DangerKeywords(p.chiefComplaintText),
                  DangerZoneReasons(p.age, p.vitals), HighRiskTriggers(symptoms), ResourceScore(symptoms), p.vitals);
  }

  /**
    * The red flags of each level: at level 1 the critical vital reasons, each carrying its
    * reading, then possibly one line naming up to three of the danger phrases found; at level
    * 2 the abnormal-vitals marker exactly when a vital is in the danger zone; none below.
    */
  lemma TriageRedFlags(p: PatientInput)
    ensures Triage(p).level == Resuscitation ==>
            forall r :: r in Triage(p).redFlags ==>
              (r.CriticalVital? && Reading(p.vitals, r.vital) == Some(r.value))
              || (r.CriticalCondition? && 1 <= |r.terms| <= 3 && r.terms <= Processor.DangerKeywords(p.chiefComplaintText))
    ensures Triage(p).level == Emergent ==>
            Triage(p).redFlags == (if DangerZoneVital(p) then [AbnormalVitalsFlag] else [])
    ensures Triage(p).level in {Urgent, LessUrgent, NonUrgent} ==>
            Triage(p).redFlags == [] && |Triage(p).reasoning| == 1
  {
    DecisionInputs(p);
    var critical := CriticalReasons(p.age, p.vitals);
    var danger := Processor.DangerKeywords(p.chiefComplaintText);
    if Triage(p).level == Resuscitation {
      forall r | r in Triage(p).redFlags
        ensures (r.CriticalVital? && Reading(p.vitals, r.vital) == Some(r.value))
                || (r.CriticalCondition? && 1 <= |r.terms| <= 3 && r.terms <= danger)
      {
        assert Triage(p).redFlags == critical + KeywordFlags(danger);
        if r in critical {
          CriticalReasonsCarryReadings(p.age, p.vitals, r);
        }
      }
    }
  }

  /**
    * A patient with no level-1 or level-2 finding is classified by the resource estimate
    * alone: levels 3, 4 and 5 carry one reasoning line and no red flag.
    */
  lemma QuietPatientByResources(p: PatientInput)
    requires CriticalReasons(p.age, p.vitals) == [] && DangerZoneReasons(p.age, p.vitals) == []
    requires Processor.DangerKeywords(p.chiefComplaintText) == []
    requires HighRiskTriggers(Processor.Symptoms(p.chiefComplaintText)) == []
    requires !SeverePainScore(p.vitals) && !AlteredGcs(p.vitals)
    ensures Triage(p) == ResourceOutcome(ResourceScore(Processor.Symptoms(p.chiefComplaintText)))
  {
  }

  /** The classification reads the complaint case-insensitively. */
  lemma TriageIgnoresCase(p: PatientInput)
    ensures Triage(p.(chiefComplaintText := Lower(p.chiefComplaintText))) == Triage(p)
  {
    Processor.MatchingIgnoresCase(p.chiefComplaintText);
  }

  /** Gender and the three history flags do not influence the classification. */
  lemma TriageIgnoresHistory(p: PatientInput, g: Gender, cardiac: bool, stroke: bool, immuno: bool)
    ensures Triage(p.(gender := g, historyCardiac := cardiac, historyStroke := stroke, immunoCompromised := immuno))
            == Triage(p)
  {
  }
}
