/**
  * The rule-based triage classifier. Two age-banded vital-sign checks (life-threatening
  * and danger-zone readings), an additive resource estimate, and a strict precedence
  * pipeline: level 1, else level 2, else a resource-based choice among levels 3, 4 and 5.
  *
  * The imperative checks below follow the service's `if`/`elif` chains step by step; each
  * is proved equal to a specification that reads the same thresholds from a table.
  */
module TriageEngine {
  import opened Wrappers
  import opened Models
  import opened Sequences
  import Processor

  // ===== Threshold tables =====

  /** A threshold test on one reading. `Within(lo, hi)` is the half-open range [lo, hi). */
  datatype Test = Below(limit: real) | Above(limit: real) | Within(lo: real, hi: real) {

    predicate Breached(value: real) {
      match this
      case Below(t) => value < t
      case Above(t) => value > t
      case Within(lo, hi) => lo <= value < hi
    }

    /** The side of the normal range a breach lies on. */
    function Dir(): Direction {
      if Above? then High else Low
    }
  }

  /** Whether the patient's age falls in the band a threshold applies to. */
  predicate Covers(band: Band, age: real) {
    match band
    case AllAges => true
    case Adult => age >= 14.0
    case Pediatric => age < 14.0
    case Infant => age < 1.0
    case UnderFive => age < 5.0
  }

  /** The order in which the critical check inspects the vitals. */
  const CriticalOrder: seq<Vital> :=
    [RespiratoryRate, HeartRate, OxygenSaturation, Consciousness, SystolicPressure, Temperature]

  /** Life-threatening limits per vital, tried in order; the first that applies and is breached wins. */
  function CriticalLimits(x: Vital): seq<(Band, Test)> {
    match x
    case RespiratoryRate =>
      [(Adult, Below(8.0)), (Adult, Above(36.0)),
       (Pediatric, Below(10.0)), (Infant, Above(60.0)), (UnderFive, Above(50.0))]
    case HeartRate =>
      [(Adult, Below(40.0)), (Adult, Above(150.0)),
       (Pediatric, Below(60.0)), (Infant, Above(180.0)), (UnderFive, Above(160.0))]
    case OxygenSaturation => [(AllAges, Below(90.0))]
    case Consciousness => [(AllAges, Below(9.0))]
    case SystolicPressure => [(AllAges, Below(80.0)), (AllAges, Above(220.0))]
    case Temperature => [(AllAges, Below(35.0)), (AllAges, Above(41.0))]
  }

  /** The order in which the danger-zone check inspects the vitals; consciousness is not among them. */
  const DangerZoneOrder: seq<Vital> :=
    [HeartRate, RespiratoryRate, OxygenSaturation, SystolicPressure, Temperature]

  /** Danger-zone limits per vital, tried in order; the first that applies and is breached wins. */
  function DangerZoneLimits(x: Vital): seq<(Band, Test)> {
    match x
    case HeartRate =>
      [(Adult, Above(100.0)), (Adult, Below(50.0)), (Infant, Above(160.0)), (UnderFive, Above(140.0))]
    case RespiratoryRate =>
      [(Adult, Above(24.0)), (Adult, Below(10.0)), (Infant, Above(50.0)), (UnderFive, Above(40.0))]
    case OxygenSaturation => [(Adult, Within(90.0, 94.0)), (Pediatric, Below(94.0))]
    case Consciousness => []
    case SystolicPressure => [(Adult, Above(180.0)), (Adult, Below(90.0))]
    case Temperature => [(Adult, Above(39.0)), (Adult, Below(36.0)), (Pediatric, Above(39.0))]
  }

  /** Limit `limit` covers `age` and `value` breaches it. */
  predicate Hits(limit: (Band, Test), age: real, value: real) {
    Covers(limit.0, age) && limit.1.Breached(value)
  }

  /** The limits of vital `x` in the critical table, or else in the danger-zone table. */
  function Limits(critical: bool, x: Vital): seq<(Band, Test)> {
    if critical then CriticalLimits(x) else DangerZoneLimits(x)
  }

  /** The first limit of `limits` that covers `age` and that `value` breaches. */
  function FirstBreach(limits: seq<(Band, Test)>, age: real, value: real): (r: Option<(Band, Test)>)
    ensures r.Some? ==> r.value in limits && Hits(r.value, age, value)
  {
    if limits == [] then None
    else if Hits(limits[0], age, value) then Some(limits[0])
    else FirstBreach(limits[1..], age, value)
  }

  /** `FirstBreach` written out as the chain of tests it performs on a table of at most five limits. */
  lemma {:induction false} FirstBreachUnrolled(limits: seq<(Band, Test)>, age: real, value: real)
    requires |limits| <= 5
    ensures FirstBreach(limits, age, value) ==
      if |limits| > 0 && Hits(limits[0], age, value) then Some(limits[0])
      else if |limits| > 1 && Hits(limits[1], age, value) then Some(limits[1])
      else if |limits| > 2 && Hits(limits[2], age, value) then Some(limits[2])
      else if |limits| > 3 && Hits(limits[3], age, value) then Some(limits[3])
      else if |limits| > 4 && Hits(limits[4], age, value) then Some(limits[4])
      else None
  {
    if limits != [] {
      FirstBreachUnrolled(limits[1..], age, value);
    }
  }

  /** The one reason a vital contributes, or none: absent readings and readings within limits give none. */
  function Finding(critical: bool, x: Vital, age: real, v: Vitals): seq<Reason> {
    match Reading(v, x)
    case None => []
    case Some(value) =>
      match FirstBreach(Limits(critical, x), age, value)
      case None => []
      case Some(limit) =>
        if critical then [CriticalVital(x, limit.1.Dir(), limit.0, value)]
        else [AbnormalVital(x, limit.1.Dir(), limit.0, value)]
  }

  /** What the critical check reports: each vital's finding, in the order of `CriticalOrder`. */
  function CriticalReasons(age: real, v: Vitals): seq<Reason> {
    Finding(true, RespiratoryRate, age, v) + Finding(true, HeartRate, age, v)
      + Finding(true, OxygenSaturation, age, v) + Finding(true, Consciousness, age, v)
      + Finding(true, SystolicPressure, age, v) + Finding(true, Temperature, age, v)
  }

  /** What the danger-zone check reports: each vital's finding, in the order of `DangerZoneOrder`. */
  function DangerZoneReasons(age: real, v: Vitals): seq<Reason> {
    Finding(false, HeartRate, age, v) + Finding(false, RespiratoryRate, age, v)
      + Finding(false, OxygenSaturation, age, v) + Finding(false, SystolicPressure, age, v)
      + Finding(false, Temperature, age, v)
  }

  // ===== The critical table read vital by vital =====
  // Each lemma writes one vital's `Finding` out as the chain of comparisons the table implies.

  lemma CriticalRespiratoryRateSteps(age: real, v: Vitals)
    ensures Finding(true, RespiratoryRate, age, v) ==
      if v.rr.None? then [] else
      var rr := v.rr.value as real;
      if age >= 14.0 then
        if rr < 8.0 then [CriticalVital(RespiratoryRate, Low, Adult, rr)]
        else if rr > 36.0 then [CriticalVital(RespiratoryRate, High, Adult, rr)]
        else []
      else if rr < 10.0 then [CriticalVital(RespiratoryRate, Low, Pediatric, rr)]
      else if age < 1.0 && rr > 60.0 then [CriticalVital(RespiratoryRate, High, Infant, rr)]
      else if age < 5.0 && rr > 50.0 then [CriticalVital(RespiratoryRate, High, UnderFive, rr)]
      else []
  {
    FirstBreachUnrolled(CriticalLimits(RespiratoryRate), age, Reading(v, RespiratoryRate).GetOr(0.0));
  }

  lemma CriticalHeartRateSteps(age: real, v: Vitals)
    ensures Finding(true, HeartRate, age, v) ==
      if v.hr.None? then [] else
      var hr := v.hr.value as real;
      if age >= 14.0 then
        if hr < 40.0 then [CriticalVital(HeartRate, Low, Adult, hr)]
        else if hr > 150.0 then [CriticalVital(HeartRate, High, Adult, hr)]
        else []
      else if hr < 60.0 then [CriticalVital(HeartRate, Low, Pediatric, hr)]
      else if age < 1.0 && hr > 180.0 then [CriticalVital(HeartRate, High, Infant, hr)]
      else if age < 5.0 && hr > 160.0 then [CriticalVital(HeartRate, High, UnderFive, hr)]
      else []
  {
    FirstBreachUnrolled(CriticalLimits(HeartRate), age, Reading(v, HeartRate).GetOr(0.0));
  }

  lemma CriticalOxygenSaturationSteps(age: real, v: Vitals)
    ensures Finding(true, OxygenSaturation, age, v) ==
      if v.spo2.Some? && v.spo2.value < 90.0
      then [CriticalVital(OxygenSaturation, Low, AllAges, v.spo2.value)]
      else []
  {
    FirstBreachUnrolled(CriticalLimits(OxygenSaturation), age, Reading(v, OxygenSaturation).GetOr(0.0));
  }

  lemma CriticalConsciousnessSteps(age: real, v: Vitals)
    ensures Finding(true, Consciousness, age, v) ==
      if v.gcs.Some? && v.gcs.value < 9
      then [CriticalVital(Consciousness, Low, AllAges, v.gcs.value as real)]
      else []
  {
    FirstBreachUnrolled(CriticalLimits(Consciousness), age, Reading(v, Consciousness).GetOr(0.0));
  }

  lemma CriticalSystolicPressureSteps(age: real, v: Vitals)
    ensures Finding(true, SystolicPressure, age, v) ==
      if v.sbp.None? then [] else
      var sbp := v.sbp.value as real;
      if sbp < 80.0 then [CriticalVital(SystolicPressure, Low, AllAges, sbp)]
      else if sbp > 220.0 then [CriticalVital(SystolicPressure, High, AllAges, sbp)]
      else []
  {
    FirstBreachUnrolled(CriticalLimits(SystolicPressure), age, Reading(v, SystolicPressure).GetOr(0.0));
  }

  lemma CriticalTemperatureSteps(age: real, v: Vitals)
    ensures Finding(true, Temperature, age, v) ==
      if v.temp.None? then [] else
      var temp := v.temp.value;
      if temp < 35.0 then [CriticalVital(Temperature, Low, AllAges, temp)]
      else if temp > 41.0 then [CriticalVital(Temperature, High, AllAges, temp)]
      else []
  {
    FirstBreachUnrolled(CriticalLimits(Temperature), age, Reading(v, Temperature).GetOr(0.0));
  }

  // ===== The danger-zone table read vital by vital =====

  lemma DangerHeartRateSteps(age: real, v: Vitals)
    ensures Finding(false, HeartRate, age, v) ==
      if v.hr.None? then [] else
      var hr := v.hr.value as real;
      if age >= 14.0 then
        if hr > 100.0 then [AbnormalVital(HeartRate, High, Adult, hr)]
        else if hr < 50.0 then [AbnormalVital(HeartRate, Low, Adult, hr)]
        else []
      else if age < 1.0 && hr > 160.0 then [AbnormalVital(HeartRate, High, Infant, hr)]
      else if age < 5.0 && hr > 140.0 then [AbnormalVital(HeartRate, High, UnderFive, hr)]
      else []
  {
    FirstBreachUnrolled(DangerZoneLimits(HeartRate), age, Reading(v, HeartRate).GetOr(0.0));
  }

  lemma DangerRespiratoryRateSteps(age: real, v: Vitals)
    ensures Finding(false, RespiratoryRate, age, v) ==
      if v.rr.None? then [] else
      var rr := v.rr.value as real;
      if age >= 14.0 then
        if rr > 24.0 then [AbnormalVital(RespiratoryRate, High, Adult, rr)]
        else if rr < 10.0 then [AbnormalVital(RespiratoryRate, Low, Adult, rr)]
        else []
      else if age < 1.0 && rr > 50.0 then [AbnormalVital(RespiratoryRate, High, Infant, rr)]
      else if age < 5.0 && rr > 40.0 then [AbnormalVital(RespiratoryRate, High, UnderFive, rr)]
      else []
  {
    FirstBreachUnrolled(DangerZoneLimits(RespiratoryRate), age, Reading(v, RespiratoryRate).GetOr(0.0));
  }

  lemma DangerOxygenSaturationSteps(age: real, v: Vitals)
    ensures Finding(false, OxygenSaturation, age, v) ==
      if v.spo2.None? then [] else
      var spo2 := v.spo2.value;
      if age >= 14.0 then
        if 90.0 <= spo2 < 94.0 then [AbnormalVital(OxygenSaturation, Low, Adult, spo2)] else []
      else if spo2 < 94.0 then [AbnormalVital(OxygenSaturation, Low, Pediatric, spo2)]
      else []
  {
    FirstBreachUnrolled(DangerZoneLimits(OxygenSaturation), age, Reading(v, OxygenSaturation).GetOr(0.0));
  }

  lemma DangerSystolicPressureSteps(age: real, v: Vitals)
    ensures Finding(false, SystolicPressure, age, v) ==
      if v.sbp.None? || age < 14.0 then [] else
      var sbp := v.sbp.value as real;
      if sbp > 180.0 then [AbnormalVital(SystolicPressure, High, Adult, sbp)]
      else if sbp < 90.0 then [AbnormalVital(SystolicPressure, Low, Adult, sbp)]
      else []
  {
    FirstBreachUnrolled(DangerZoneLimits(SystolicPressure), age, Reading(v, SystolicPressure).GetOr(0.0));
  }

  lemma DangerTemperatureSteps(age: real, v: Vitals)
    ensures Finding(false, Temperature, age, v) ==
      if v.temp.None? then [] else
      var temp := v.temp.value;
      if age >= 14.0 then
        if temp > 39.0 then [AbnormalVital(Temperature, High, Adult, temp)]
        else if temp < 36.0 then [AbnormalVital(Temperature, Low, Adult, temp)]
        else []
      else if temp > 39.0 then [AbnormalVital(Temperature, High, Pediatric, temp)]
      else []
  {
    FirstBreachUnrolled(DangerZoneLimits(Temperature), age, Reading(v, Temperature).GetOr(0.0));
  }

  // ===== The two checks, as the service performs them =====

  // Each vital's block of the two checks is a method of its own; the checks run them in the
  // service's order and collect what they find.

  /** The critical respiratory-rate block: adult limits from 14, child limits below. */
  method CheckCriticalRespiratoryRate(age: real, vitals: Vitals) returns (finding: seq<Reason>)
    ensures finding == Finding(true, RespiratoryRate, age, vitals)
  {
    finding := [];
    if vitals.rr.Some? {
      var rr := vitals.rr.value;
      if age >= 14.0 {
        if rr < 8 {
          finding := [CriticalVital(RespiratoryRate, Low, Adult, rr as real)];
        } else if rr > 36 {
          finding := [CriticalVital(RespiratoryRate, High, Adult, rr as real)];
        }
      } else {
        if rr < 10 {
          finding := [CriticalVital(RespiratoryRate, Low, Pediatric, rr as real)];
        } else if age < 1.0 && rr > 60 {
          finding := [CriticalVital(RespiratoryRate, High, Infant, rr as real)];
        } else if age < 5.0 && rr > 50 {
          finding := [CriticalVital(RespiratoryRate, High, UnderFive, rr as real)];
        }
      }
    }
    CriticalRespiratoryRateSteps(age, vitals);
  }

  /** The critical heart-rate block: adult limits from 14, child limits below. */
  method CheckCriticalHeartRate(age: real, vitals: Vitals) returns (finding: seq<Reason>)
    ensures finding == Finding(true, HeartRate, age, vitals)
  {
    finding := [];
    if vitals.hr.Some? {
      var hr := vitals.hr.value;
      if age >= 14.0 {
        if hr < 40 {
          finding := [CriticalVital(HeartRate, Low, Adult, hr as real)];
        } else if hr > 150 {
          finding := [CriticalVital(HeartRate, High, Adult, hr as real)];
        }
      } else {
        if hr < 60 {
          finding := [CriticalVital(HeartRate, Low, Pediatric, hr as real)];
        } else if age < 1.0 && hr > 180 {
          finding := [CriticalVital(HeartRate, High, Infant, hr as real)];
        } else if age < 5.0 && hr > 160 {
          finding := [CriticalVital(HeartRate, High, UnderFive, hr as real)];
        }
      }
    }
    CriticalHeartRateSteps(age, vitals);
  }

  /** The critical oxygen block. */
  method CheckCriticalOxygenSaturation(age: real, vitals: Vitals) returns (finding: seq<Reason>)
    ensures finding == Finding(true, OxygenSaturation, age, vitals)
  {
    finding := [];
    if vitals.spo2.Some? && vitals.spo2.value < 90.0 {
      finding := [CriticalVital(OxygenSaturation, Low, AllAges, vitals.spo2.value)];
    }
    CriticalOxygenSaturationSteps(age, vitals);
  }

  /** The critical consciousness block. */
  method CheckCriticalConsciousness(age: real, vitals: Vitals) returns (finding: seq<Reason>)
    ensures finding == Finding(true, Consciousness, age, vitals)
  {
    finding := [];
    if vitals.gcs.Some? && vitals.gcs.value < 9 {
      finding := [CriticalVital(Consciousness, Low, AllAges, vitals.gcs.value as real)];
    }
    CriticalConsciousnessSteps(age, vitals);
  }

  /** The critical blood-pressure block. */
  method CheckCriticalSystolicPressure(age: real, vitals: Vitals) returns (finding: seq<Reason>)
    ensures finding == Finding(true, SystolicPressure, age, vitals)
  {
    finding := [];
    if vitals.sbp.Some? {
      var sbp := vitals.sbp.value;
      if sbp < 80 {
        finding := [CriticalVital(SystolicPressure, Low, AllAges, sbp as real)];
      } else if sbp > 220 {
        finding := [CriticalVital(SystolicPressure, High, AllAges, sbp as real)];
      }
    }
    CriticalSystolicPressureSteps(age, vitals);
  }

  /** The critical temperature block. */
  method CheckCriticalTemperature(age: real, vitals: Vitals) returns (finding: seq<Reason>)
    ensures finding == Finding(true, Temperature, age, vitals)
  {
    finding := [];
    if vitals.temp.Some? {
      var temp := vitals.temp.value;
      if temp < 35.0 {
        finding := [CriticalVital(Temperature, Low, AllAges, temp)];
      } else if temp > 41.0 {
        finding := [CriticalVital(Temperature, High, AllAges, temp)];
      }
    }
    CriticalTemperatureSteps(age, vitals);
  }

  /**
    * Checks every vital against its life-threatening limits and records one reason per
    * breached vital; it does not stop at the first breach.
    */
  method CheckCriticalVitals(age: real, vitals: Vitals) returns (isCritical: bool, reasons: seq<Reason>)
    ensures reasons == CriticalReasons(age, vitals)
    ensures isCritical <==> reasons != []
  {
    reasons := [];
    var finding := CheckCriticalRespiratoryRate(age, vitals);
    reasons := reasons + finding;
    finding := CheckCriticalHeartRate(age, vitals);
    reasons := reasons + finding;
    finding := CheckCriticalOxygenSaturation(age, vitals);
    reasons := reasons + finding;
    finding := CheckCriticalConsciousness(age, vitals);
    reasons := reasons + finding;
    finding := CheckCriticalSystolicPressure(age, vitals);
    reasons := reasons + finding;
    finding := CheckCriticalTemperature(age, vitals);
    reasons := reasons + finding;
    assert [] + Finding(true, RespiratoryRate, age, vitals) == Finding(true, RespiratoryRate, age, vitals);
    isCritical := |reasons| > 0;
  }

  /** The adult danger-zone heart-rate block. */
  method CheckAdultHeartRate(age: real, vitals: Vitals) returns (finding: seq<Reason>)
    requires age >= 14.0
    ensures finding == Finding(false, HeartRate, age, vitals)
  {
    finding := [];
    if vitals.hr.Some? {
      var hr := vitals.hr.value;
      if hr > 100 {
        finding := [AbnormalVital(HeartRate, High, Adult, hr as real)];
      } else if hr < 50 {
        finding := [AbnormalVital(HeartRate, Low, Adult, hr as real)];
      }
    }
    DangerHeartRateSteps(age, vitals);
  }

  /** The adult danger-zone respiratory-rate block. */
  method CheckAdultRespiratoryRate(age: real, vitals: Vitals) returns (finding: seq<Reason>)
    requires age >= 14.0
    ensures finding == Finding(false, RespiratoryRate, age, vitals)
  {
    finding := [];
    if vitals.rr.Some? {
      var rr := vitals.rr.value;
      if rr > 24 {
        finding := [AbnormalVital(RespiratoryRate, High, Adult, rr as real)];
      } else if rr < 10 {
        finding := [AbnormalVital(RespiratoryRate, Low, Adult, rr as real)];
      }
    }
    DangerRespiratoryRateSteps(age, vitals);
  }

  /** The adult danger-zone oxygen block. */
  method CheckAdultOxygenSaturation(age: real, vitals: Vitals) returns (finding: seq<Reason>)
    requires age >= 14.0
    ensures finding == Finding(false, OxygenSaturation, age, vitals)
  {
    finding := [];
    if vitals.spo2.Some? && 90.0 <= vitals.spo2.value < 94.0 {
      finding := [AbnormalVital(OxygenSaturation, Low, Adult, vitals.spo2.value)];
    }
    DangerOxygenSaturationSteps(age, vitals);
  }

  /** The adult danger-zone blood-pressure block. */
  method CheckAdultSystolicPressure(age: real, vitals: Vitals) returns (finding: seq<Reason>)
    requires age >= 14.0
    ensures finding == Finding(false, SystolicPressure, age, vitals)
  {
    finding := [];
    if vitals.sbp.Some? {
      var sbp := vitals.sbp.value;
      if sbp > 180 {
        finding := [AbnormalVital(SystolicPressure, High, Adult, sbp as real)];
      } else if sbp < 90 {
        finding := [AbnormalVital(SystolicPressure, Low, Adult, sbp as real)];
      }
    }
    DangerSystolicPressureSteps(age, vitals);
  }

  /** The adult danger-zone temperature block. */
  method CheckAdultTemperature(age: real, vitals: Vitals) returns (finding: seq<Reason>)
    requires age >= 14.0
    ensures finding == Finding(false, Temperature, age, vitals)
  {
    finding := [];
    if vitals.temp.Some? {
      var temp := vitals.temp.value;
      if temp > 39.0 {
        finding := [AbnormalVital(Temperature, High, Adult, temp)];
      } else if temp < 36.0 {
        finding := [AbnormalVital(Temperature, Low, Adult, temp)];
      }
    }
    DangerTemperatureSteps(age, vitals);
  }

  /** The child danger-zone heart-rate block. */
  method CheckPediatricHeartRate(age: real, vitals: Vitals) returns (finding: seq<Reason>)
    requires age < 14.0
    ensures finding == Finding(false, HeartRate, age, vitals)
  {
    finding := [];
    if vitals.hr.Some? {
      var hr := vitals.hr.value;
      if age < 1.0 && hr > 160 {
        finding := [AbnormalVital(HeartRate, High, Infant, hr as real)];
      } else if age < 5.0 && hr > 140 {
        finding := [AbnormalVital(HeartRate, High, UnderFive, hr as real)];
      }
    }
    DangerHeartRateSteps(age, vitals);
  }

  /** The child danger-zone respiratory-rate block. */
  method CheckPediatricRespiratoryRate(age: real, vitals: Vitals) returns (finding: seq<Reason>)
    requires age < 14.0
    ensures finding == Finding(false, RespiratoryRate, age, vitals)
  {
    finding := [];
    if vitals.rr.Some? {
      var rr := vitals.rr.value;
      if age < 1.0 && rr > 50 {
        finding := [AbnormalVital(RespiratoryRate, High, Infant, rr as real)];
      } else if age < 5.0 && rr > 40 {
        finding := [AbnormalVital(RespiratoryRate, High, UnderFive, rr as real)];
      }
    }
    DangerRespiratoryRateSteps(age, vitals);
  }

  /** The child danger-zone oxygen block. */
  method CheckPediatricOxygenSaturation(age: real, vitals: Vitals) returns (finding: seq<Reason>)
    requires age < 14.0
    ensures finding == Finding(false, OxygenSaturation, age, vitals)
  {
    finding := [];
    if vitals.spo2.Some? && vitals.spo2.value < 94.0 {
      finding := [AbnormalVital(OxygenSaturation, Low, Pediatric, vitals.spo2.value)];
    }
    DangerOxygenSaturationSteps(age, vitals);
  }

  /** The child danger-zone temperature block. */
  method CheckPediatricTemperature(age: real, vitals: Vitals) returns (finding: seq<Reason>)
    requires age < 14.0
    ensures finding == Finding(false, Temperature, age, vitals)
  {
    finding := [];
    if vitals.temp.Some? && vitals.temp.value > 39.0 {
      finding := [AbnormalVital(Temperature, High, Pediatric, vitals.temp.value)];
    }
    DangerTemperatureSteps(age, vitals);
  }

  /**
    * Checks the vitals against the danger-zone limits: the full adult set from age 14, a
    * reduced set (no blood pressure, fever only) below it. One reason per vital out of range.
    */
  method CheckVitalsDangerZone(age: real, vitals: Vitals) returns (inDanger: bool, reasons: seq<Reason>)
    ensures reasons == DangerZoneReasons(age, vitals)
    ensures inDanger <==> reasons != []
  {
    reasons := [];
    var finding: seq<Reason>;
    if age >= 14.0 {
      finding := CheckAdultHeartRate(age, vitals);
      reasons := reasons + finding;
      finding := CheckAdultRespiratoryRate(age, vitals);
      reasons := reasons + finding;
      finding := CheckAdultOxygenSaturation(age, vitals);
      reasons := reasons + finding;
      finding := CheckAdultSystolicPressure(age, vitals);
      reasons := reasons + finding;
      finding := CheckAdultTemperature(age, vitals);
      reasons := reasons + finding;
    } else {
      finding := CheckPediatricHeartRate(age, vitals);
      reasons := reasons + finding;
      finding := CheckPediatricRespiratoryRate(age, vitals);
      reasons := reasons + finding;
      finding := CheckPediatricOxygenSaturation(age, vitals);
      reasons := reasons + finding;
      finding := CheckPediatricTemperature(age, vitals);
      reasons := reasons + finding;
      DangerSystolicPressureSteps(age, vitals);
    }
    assert [] + Finding(false, HeartRate, age, vitals) == Finding(false, HeartRate, age, vitals);
    inDanger := |reasons| > 0;
  }

  // ===== Resource estimate =====

  /**
    * The resource rules in the order the estimate applies them: a rule adds its weight once
    * when any of its concepts is among the symptoms.
    */
  const ResourceTable: seq<(set<Concept>, nat)> :=
    [({Abdominal}, 2), ({ChestPain, Cardiac}, 2), ({Sob}, 2), ({Trauma}, 2), ({Stroke}, 2)]
    + [({Fever}, 1), ({Laceration}, 1), ({Allergy}, 1), ({Uti}, 1), ({Burn}, 1), ({BiteSting}, 1)]

  /** What one rule adds for the given symptoms. */
  function RuleWeight(rule: (set<Concept>, nat), symptoms: seq<Concept>): nat {
    if exists c | c in rule.0 :: c in symptoms then rule.1 else 0
  }

  /** The total the first `k` rules of `table` add. */
  function ScoreUpTo(table: seq<(set<Concept>, nat)>, k: nat, symptoms: seq<Concept>): nat
    requires k <= |table|
  {
    if k == 0 then 0
    else ScoreUpTo(table, k - 1, symptoms) + RuleWeight(table[k - 1], symptoms)
  }

  /** The estimated number of resources: every rule of the table applied once. */
  function ResourceScore(symptoms: seq<Concept>): nat {
    ScoreUpTo(ResourceTable, |ResourceTable|, symptoms)
  }

  /**
    * Adds up the resources the symptoms call for. The patient record is passed but not read.
    */
  method CalculateResources(patient: PatientInput, symptoms: seq<Concept>) returns (resources: int)
    ensures resources == ResourceScore(symptoms)
  {
    resources := 0;
    if Abdominal in symptoms {
      resources := resources + 2;
    }
    assert resources == ScoreUpTo(ResourceTable, 1, symptoms);
    if ChestPain in symptoms || Cardiac in symptoms {
      resources := resources + 2;
    }
    assert resources == ScoreUpTo(ResourceTable, 2, symptoms);
    if Sob in symptoms {
      resources := resources + 2;
    }
    assert resources == ScoreUpTo(ResourceTable, 3, symptoms);
    if Trauma in symptoms {
      resources := resources + 2;
    }
    assert resources == ScoreUpTo(ResourceTable, 4, symptoms);
    if Stroke in symptoms {
      resources := resources + 2;
    }
    assert resources == ScoreUpTo(ResourceTable, 5, symptoms);
    if Fever in symptoms {
      resources := resources + 1;
    }
    assert resources == ScoreUpTo(ResourceTable, 6, symptoms);
    if Laceration in symptoms {
      resources := resources + 1;
    }
    assert resources == ScoreUpTo(ResourceTable, 7, symptoms);
    if Allergy in symptoms {
      resources := resources + 1;
    }
    assert resources == ScoreUpTo(ResourceTable, 8, symptoms);
    if Uti in symptoms {
      resources := resources + 1;
    }
    assert resources == ScoreUpTo(ResourceTable, 9, symptoms);
    if Burn in symptoms {
      resources := resources + 1;
    }
    assert resources == ScoreUpTo(ResourceTable, 10, symptoms);
    if BiteSting in symptoms {
      resources := resources + 1;
    }
    assert resources == ScoreUpTo(ResourceTable, 11, symptoms);
  }

  // ===== High-risk symptoms =====

  /** The concepts that make a presentation high-risk, in the order the reasoning line lists them. */
  const HighRiskOrder: seq<Concept> := [ChestPain, Stroke, Psych, Sob, Cardiac, Diabetic, Pregnancy]

  /** The concepts among the first `k` of `HighRiskOrder` that are present among the symptoms. */
  function TriggersUpTo(k: nat, symptoms: seq<Concept>): seq<Concept>
    requires k <= |HighRiskOrder|
  {
    if k == 0 then []
    else TriggersUpTo(k - 1, symptoms)
         + (if HighRiskOrder[k - 1] in symptoms then [HighRiskOrder[k - 1]] else [])
  }

  /** The high-risk concepts present among the symptoms, in `HighRiskOrder`. */
  function HighRiskTriggers(symptoms: seq<Concept>): seq<Concept> {
    TriggersUpTo(|HighRiskOrder|, symptoms)
  }

  /** Lists the high-risk concepts present among the symptoms, one test per concept. */
  method CollectHighRiskTriggers(symptoms: seq<Concept>) returns (triggers: seq<Concept>)
    ensures triggers == HighRiskTriggers(symptoms)
  {
    triggers := [];
    if ChestPain in symptoms {
      triggers := triggers + [ChestPain];
    }
    assert triggers == TriggersUpTo(1, symptoms);
    if Stroke in symptoms {
      triggers := triggers + [Stroke];
    }
    assert triggers == TriggersUpTo(2, symptoms);
    if Psych in symptoms {
      triggers := triggers + [Psych];
    }
    assert triggers == TriggersUpTo(3, symptoms);
    if Sob in symptoms {
      triggers := triggers + [Sob];
    }
    assert triggers == TriggersUpTo(4, symptoms);
    if Cardiac in symptoms {
      triggers := triggers + [Cardiac];
    }
    assert triggers == TriggersUpTo(5, symptoms);
    if Diabetic in symptoms {
      triggers := triggers + [Diabetic];
    }
    assert triggers == TriggersUpTo(6, symptoms);
    if Pregnancy in symptoms {
      triggers := triggers + [Pregnancy];
    }
    assert triggers == TriggersUpTo(7, symptoms);
  }

  // ===== Level-2 conditions read directly from the record =====

  /** Pain counts when the score is present, non-zero and at least 7. */
  predicate SeverePainScore(v: Vitals) {
    v.painScore.Some? && v.painScore.value != 0 && v.painScore.value >= 7
  }

  /** Consciousness counts as altered when GCS is present, non-zero and in 9..14. */
  predicate AlteredGcs(v: Vitals) {
    v.gcs.Some? && v.gcs.value != 0 && 9 <= v.gcs.value < 15
  }

  // ===== The result of each level =====

  /** The fixed display fields of each level, with empty lists and the default confidence. */
  function Display(level: TriageLevel): (r: TriageResult)
    ensures r.level == level && r.redFlags == [] && r.reasoning == [] && r.confidence == DefaultConfidence
  {
    match level
    case Resuscitation =>
      NewTriageResult(Resuscitation,
        "#ef4444",
        "إنعاش (مستوى ١)",
        "Resuscitation (Level 1)",
        "يتطلب تدخل فوري لإنقاذ الحياة",
        "تفعيل فريق الإنعاش فوراً",
        "فوري")
    case Emergent =>
      NewTriageResult(Emergent,
        "#f97316",
        "طوارئ (مستوى ٢)",
        "Emergent (Level 2)",
        "خطورة عالية، احتمال تدهور سريع",
        "غرفة العناية المركزة، مراقبة مستمرة",
        "< 15 دقيقة")
    case Urgent =>
      NewTriageResult(Urgent,
        "#eab308",
        "عاجل (مستوى ٣)",
        "Urgent (Level 3)",
        "مستقر، يحتاج موارد متعددة",
        "غرفة فحص، طلب تحاليل/أشعة",
        "< 60 دقيقة")
    case LessUrgent =>
      NewTriageResult(LessUrgent,
        "#22c55e",
        "أقل إلحاحاً (مستوى ٤)",
        "Less Urgent (Level 4)",
        "مستقر، يحتاج مورد واحد",
        "العيادة السريعة",
        "يمكن الانتظار")
    case NonUrgent =>
      NewTriageResult(NonUrgent,
        "#3b82f6",
        "غير عاجل (مستوى ٥)",
        "Non-Urgent (Level 5)",
        "لا يحتاج موارد",
        "إعادة الروشتة أو الطمأنينة",
        "يمكن الانتظار / تحويل للعيادة")
  }

  /** A result of the given level with its fixed display fields and the given lists. */
  function Outcome(level: TriageLevel, redFlags: seq<Reason>, reasoning: seq<Reason>): TriageResult {
    Display(level).(redFlags := redFlags, reasoning := reasoning)
  }

  /** The first `n` elements of `s`, or all of `s` when it is shorter (a slice `s[:n]`). */
  function Take<T>(s: seq<T>, n: nat): (r: seq<T>)
    ensures |r| <= n && r <= s
    ensures |r| == n || r == s
  {
    if |s| <= n then s else s[..n]
  }

  // ===== The whole evaluation =====

  /** The reasoning line naming the danger phrases, at most three of them, when there are any. */
  function KeywordLines(danger: seq<string>): seq<Reason> {
    if danger != [] then [CriticalKeywords(Take(danger, 3))] else []
  }

  /** The red flag naming the danger phrases, at most three of them, when there are any. */
  function KeywordFlags(danger: seq<string>): seq<Reason> {
    if danger != [] then [CriticalCondition(Take(danger, 3))] else []
  }

  /** Whether any level-2 condition holds. */
  predicate EmergentCondition(v: Vitals, zone: seq<Reason>, triggers: seq<Concept>) {
    SeverePainScore(v) || AlteredGcs(v) || zone != [] || triggers != []
  }

  /** The level-2 reasoning lines: pain, consciousness, danger-zone vitals, high-risk concepts. */
  function EmergentReasoning(v: Vitals, zone: seq<Reason>, triggers: seq<Concept>): seq<Reason> {
    (if SeverePainScore(v) then [SeverePain(v.painScore.value)] else [])
    + (if AlteredGcs(v) then [AlteredConsciousness(v.gcs.value)] else [])
    + zone
    + (if triggers != [] then [HighRiskSymptoms(triggers)] else [])
  }

  /** The level-2 red flags: the single abnormal-vitals marker when the danger-zone check fired. */
  function EmergentFlags(zone: seq<Reason>): seq<Reason> {
    if zone != [] then [AbnormalVitalsFlag] else []
  }

  /** The level the resource estimate selects, with its one reasoning line. */
  function ResourceOutcome(count: nat): TriageResult {
    if count >= 2 then Outcome(Urgent, [], [ResourcesNeeded(count)])
    else if count == 1 then Outcome(LessUrgent, [], [OneResourceNeeded])
    else Outcome(NonUrgent, [], [NoAcuteResources])
  }

  /**
    * The precedence of the levels, given what the checks found: level 1 on a critical vital or
    * a danger phrase, else level 2 on any emergent condition, else the resource-based level.
    */
  function Decide(critical: seq<Reason>, danger: seq<string>, zone: seq<Reason>,
                  triggers: seq<Concept>, count: nat, v: Vitals): TriageResult {
    if critical != [] || danger != [] then
      Outcome(Resuscitation, critical + KeywordFlags(danger), critical + KeywordLines(danger))
    else if EmergentCondition(v, zone, triggers) then
      Outcome(Emergent, EmergentFlags(zone), EmergentReasoning(v, zone, triggers))
    else
      ResourceOutcome(count)
  }

  /** The classification the service computes for a patient record. */
  function Triage(p: PatientInput): TriageResult {
    var symptoms := Processor.Symptoms(p.chiefComplaintText);
    Decide(CriticalReasons(p.age, p.vitals), Processor.DangerKeywords(p.chiefComplaintText),
           DangerZoneReasons(p.age, p.vitals), HighRiskTriggers(symptoms), ResourceScore(symptoms),
           p.vitals)
  }

  /**
    * The level-1 block of the evaluation: critical vitals, then danger phrases, each adding
    * its lines to the reasoning and red flags collected so far.
    */
  method AssessResuscitation(patient: PatientInput, dangerKeywords: seq<string>,
                             reasoning: seq<Reason>, redFlags: seq<Reason>)
    returns (isLevel1: bool, reasoning': seq<Reason>, redFlags': seq<Reason>)
    ensures isLevel1 <==> CriticalReasons(patient.age, patient.vitals) != [] || dangerKeywords != []
    ensures reasoning' == reasoning + CriticalReasons(patient.age, patient.vitals) + KeywordLines(dangerKeywords)
    ensures redFlags' == redFlags + CriticalReasons(patient.age, patient.vitals) + KeywordFlags(dangerKeywords)
  {
    reasoning', redFlags' := reasoning, redFlags;
    isLevel1 := false;
    var vitalsCritical, vitalsReasons := CheckCriticalVitals(patient.age, patient.vitals);
    if vitalsCritical {
      isLevel1 := true;
      reasoning' := reasoning' + vitalsReasons;
      redFlags' := redFlags' + vitalsReasons;
    }
    if dangerKeywords != [] {
      isLevel1 := true;
      var shown := Take(dangerKeywords, 3);
      reasoning' := reasoning' + [CriticalKeywords(shown)];
      redFlags' := redFlags' + [CriticalCondition(shown)];
    }
  }

  /**
    * The level-2 block of the evaluation: severe pain, altered consciousness, danger-zone
    * vitals and high-risk concepts, each adding its lines to what was collected so far.
    */
  method AssessEmergent(patient: PatientInput, symptoms: seq<Concept>,
                        reasoning: seq<Reason>, redFlags: seq<Reason>)
    returns (isLevel2: bool, reasoning': seq<Reason>, redFlags': seq<Reason>)
    ensures isLevel2 <==> EmergentCondition(patient.vitals, DangerZoneReasons(patient.age, patient.vitals),
                                            HighRiskTriggers(symptoms))
    ensures reasoning' == reasoning + EmergentReasoning(patient.vitals, DangerZoneReasons(patient.age, patient.vitals),
                                                        HighRiskTriggers(symptoms))
    ensures redFlags' == redFlags + EmergentFlags(DangerZoneReasons(patient.age, patient.vitals))
  {
    reasoning', redFlags' := reasoning, redFlags;
    isLevel2 := false;
    var vitals := patient.vitals;
    ghost var painLines := if SeverePainScore(vitals) then [SeverePain(vitals.painScore.value)] else [];
    ghost var gcsLines := if AlteredGcs(vitals) then [AlteredConsciousness(vitals.gcs.value)] else [];
    if vitals.painScore.Some? && vitals.painScore.value != 0 && vitals.painScore.value >= 7 {
      isLevel2 := true;
      reasoning' := reasoning' + [SeverePain(vitals.painScore.value)];
    }
    assert reasoning' == reasoning + painLines;
    if vitals.gcs.Some? && vitals.gcs.value != 0 && 9 <= vitals.gcs.value < 15 {
      isLevel2 := true;
      reasoning' := reasoning' + [AlteredConsciousness(vitals.gcs.value)];
    }
    assert reasoning' == reasoning + painLines + gcsLines;
    var dangerZone, dangerReasons := CheckVitalsDangerZone(patient.age, vitals);
    if dangerZone {
      isLevel2 := true;
      reasoning' := reasoning' + dangerReasons;
      redFlags' := redFlags' + [AbnormalVitalsFlag];
    }
    assert reasoning' == reasoning + painLines + gcsLines + dangerReasons;

    var triggers := CollectHighRiskTriggers(symptoms);
    ghost var triggerLines := if triggers != [] then [HighRiskSymptoms(triggers)] else [];
    if triggers != [] {
      isLevel2 := true;
      reasoning' := reasoning' + [HighRiskSymptoms(triggers)];
    }
    assert reasoning' == reasoning + painLines + gcsLines + dangerReasons + triggerLines;
    AppendAssociative4(reasoning, painLines, gcsLines, dangerReasons, triggerLines);
  }

  /**
    * Evaluates one patient as the service does: symptom and danger-phrase extraction, the
    * level-1 block, the level-2 block, then the resource estimate; each level returns at once.
    */
  method Evaluate(patient: PatientInput) returns (result: TriageResult)
    ensures result == Triage(patient)
  {
    var reasoning: seq<Reason> := [];
    var redFlags: seq<Reason> := [];

    var symptoms := Processor.ExtractSymptoms(patient.chiefComplaintText);
    var dangerKeywords := Processor.DetectDangerKeywords(patient.chiefComplaintText);

    ghost var critical := CriticalReasons(patient.age, patient.vitals);
    ghost var zone := DangerZoneReasons(patient.age, patient.vitals);
    ghost var triggers := HighRiskTriggers(symptoms);
    ghost var decided := Decide(critical, dangerKeywords, zone, triggers, ResourceScore(symptoms), patient.vitals);
    assert Triage(patient) == decided;

    var isLevel1;
    isLevel1, reasoning, redFlags := AssessResuscitation(patient, dangerKeywords, reasoning, redFlags);
    if isLevel1 {
      assert [] + critical == critical;
      result := Outcome(Resuscitation, redFlags, reasoning);
      assert result == decided;
      return;
    }

    var isLevel2;
    isLevel2, reasoning, redFlags := AssessEmergent(patient, symptoms, reasoning, redFlags);
    if isLevel2 {
      result := Outcome(Emergent, redFlags, reasoning);
      assert result == decided;
      return;
    }

    var resourceCount := CalculateResources(patient, symptoms);
    if resourceCount >= 2 {
      result := Outcome(Urgent, redFlags, [ResourcesNeeded(resourceCount)]);
    } else if resourceCount == 1 {
      result := Outcome(LessUrgent, redFlags, [OneResourceNeeded]);
    } else {
      result := Outcome(NonUrgent, redFlags, [NoAcuteResources]);
    }
    assert result == decided;
  }
}
