/** The health score read back: what each figure, line, cap and explanation of a unit says about its facts. */
module HealthExplained {
  import opened Wrappers
  import opened HealthScore
  import Andon
  import Texts

  // -- The maintenance axes -------------------------------------------------------------

  /** Fresh 100, at the warning window 90, just used up 35, over by the window 15, used twice over 0. */
  lemma Landmarks()
    ensures ScoreFromRatio(1.0) == 100.0 && ScoreFromRatio(0.15) == 90.0 && ScoreFromRatio(0.0) == 35.0
    ensures ScoreFromRatio(-0.15) == 15.0 && ScoreFromRatio(-1.0) == 0.0
    ensures forall r :: r >= 1.0 ==> ScoreFromRatio(r) == 100.0
    ensures forall r :: r <= -1.0 ==> ScoreFromRatio(r) == 0.0
  {
  }

  predicate SamePiece(r: real, s: real) {
    (0.15 <= r <= 1.0 && 0.15 <= s <= 1.0) || (0.0 <= r <= 0.15 && 0.0 <= s <= 0.15)
    || (-0.15 <= r <= 0.0 && -0.15 <= s <= 0.0) || (-1.0 <= r <= -0.15 && -1.0 <= s <= -0.15)
  }

  /** Between two landmarks the score goes straight: halfway there it is halfway. */
  lemma StraightBetweenLandmarks(r: real, s: real)
    requires SamePiece(r, s)
    ensures ScoreFromRatio((r + s) / 2.0) == (ScoreFromRatio(r) + ScoreFromRatio(s)) / 2.0
  {
    Landmarks();
  }

  /** An axis of an interval: nothing used 100, all of it 35, twice as much or no interval at all 0. */
  lemma AxisLandmarks(used: int, interval: int)
    ensures interval <= 0 ==> AxisScore(Remaining(used, interval), interval) == 0.0
    ensures interval > 0 && used <= 0 ==> AxisScore(Remaining(used, interval), interval) == 100.0
    ensures interval > 0 && used == interval ==> AxisScore(Remaining(used, interval), interval) == 35.0
    ensures interval > 0 && used >= 2 * interval ==> AxisScore(Remaining(used, interval), interval) == 0.0
  {
    Landmarks();
    if interval > 0 {
      Ratio(interval - used, interval);
    }
  }

  lemma Ratio(left: int, interval: int)
    requires interval > 0
    ensures left >= interval ==> left as real / interval as real >= 1.0
    ensures left == 0 ==> left as real / interval as real == 0.0
    ensures left <= -interval ==> left as real / interval as real <= -1.0
  {
    if left >= interval {
      Quotients(interval, left, interval);
    }
    if left <= -interval {
      Quotients(left, -interval, interval);
      assert -interval as real / interval as real == -1.0;
    }
  }

  /** What has been used since the last visit: kilometres up to the present reading, if there is one, and whole days. */
  lemma AxesMeasureUse(input: Input)
    requires input.lastClosed.Some?
    ensures var last := input.lastClosed.value;
            && KmAxis(input) == AxisScore(input.tKm - (if input.currentKm.Some? then input.currentKm.value - last.km else 0), input.tKm)
            && TimeAxis(input) == AxisScore(input.tDias - Andon.DiasEntre(last.cerradoAt, input.now), input.tDias)
  {
  }

  /** Told of an axis: how much is left, or by how much it is over. */
  ghost predicate Tells(d: Driver, byKm: bool, used: int, interval: int) {
    if used > interval then d == MaintenanceOverdue(byKm, used - interval) else d == MaintenanceDue(byKm, interval - used)
  }

  /** The worse axis governs, kilometres on a tie: the maintenance line, its score and the first explanation are its own. */
  lemma WorseAxisGoverns(input: Input)
    requires HasVisit(input)
    ensures var h := Health(input);
            && |h.breakdown| == 3 && |h.drivers| >= 2
            && var line := h.breakdown[0];
               && line.id == "maintenance" && line.score.Some? && line.availability == Applicable
               && line.score.value <= KmAxis(input) && line.score.value <= TimeAxis(input)
               && (line.governing == Some(Km) || line.governing == Some(Tiempo))
               && (line.governing == Some(Km) <==> KmAxis(input) <= TimeAxis(input))
               && line.score.value == (if line.governing == Some(Km) then KmAxis(input) else TimeAxis(input))
               && (line.governing == Some(Km) ==> Tells(h.drivers[0], true, UsedKm(input), input.tKm))
               && (line.governing == Some(Tiempo) ==> Tells(h.drivers[0], false, UsedDays(input), input.tDias))
  {
  }

  // -- Ceilings -------------------------------------------------------------------------

  function Least(a: real, b: real): real {
    if a <= b then a else b
  }

  predicate SeverelyOverdue(input: Input)
    requires input.lastClosed.Some?
  {
    KmAxis(input) <= 14.0 || TimeAxis(input) <= 14.0
  }

  /** An open alert of the vehicle's own that is critical for safety. */
  predicate Unsafe(alerts: seq<SourceAlert>) {
    SourceAlert(Source, Critical, SafetyCategory) in alerts
  }

  predicate MaintenanceIsAlerted(alerts: seq<SourceAlert>) {
    exists a :: a in alerts && a.category == MaintenanceCategory
  }

  lemma AlertsAreRead(alerts: seq<SourceAlert>)
    ensures CriticalSafety(alerts) <==> Unsafe(alerts)
    ensures HasMaintenanceAlert(alerts) <==> MaintenanceIsAlerted(alerts)
  {
    if HasMaintenanceAlert(alerts) {
      var i :| 0 <= i < |alerts| && alerts[i].category == MaintenanceCategory;
      assert alerts[i] in alerts;
    }
    if MaintenanceIsAlerted(alerts) {
      var a :| a in alerts && a.category == MaintenanceCategory;
      var i :| 0 <= i < |alerts| && alerts[i] == a;
    }
  }

  /** The final score is the raw one under 30 for a critical safety alert and under 50 for either axis severely overdue; the cap told is the one that lowered it. */
  lemma FinalIsUnderItsCeilings(input: Input)
    requires HasVisit(input)
    ensures var h := Health(input);
            && h.raw.Some? && h.final.Some?
            && h.final.value == (if Unsafe(input.sourceAlerts) then Least(h.raw.value, 30.0)
                                 else if SeverelyOverdue(input) then Least(h.raw.value, 50.0)
                                 else h.raw.value)
            && (h.cap.Some? <==> h.final.value < h.raw.value)
            && (h.cap.Some? ==> h.cap.value.maxScore == h.final.value
                                && (h.cap.value.reason == CriticalSafetyAlert <==> Unsafe(input.sourceAlerts)))
            && (h.cap.Some? <==> |h.drivers| == 3) && (h.cap.Some? ==> h.drivers[2] == CapDriver(h.cap.value))
            && h.drivers[1] == (if MaintenanceIsAlerted(input.sourceAlerts) then AndonOpen else NoCriticalFailures)
  {
    AlertsAreRead(input.sourceAlerts);
  }

  /** However good the rest, a severely overdue axis of either kind shows at most 50, which is poor; twice over its interval is severe. */
  lemma OverdueShowsAtMostFifty(input: Input)
    requires HasVisit(input)
    ensures UsedKm(input) >= 2 * input.tKm || UsedDays(input) >= 2 * input.tDias ==> SeverelyOverdue(input)
    ensures SeverelyOverdue(input) ==>
              var h := Health(input); h.score.Some? && h.score.value <= 50 && h.status in {Some(Poor), Some(CriticalStatus)}
  {
    AxisLandmarks(UsedKm(input), input.tKm);
    AxisLandmarks(UsedDays(input), input.tDias);
    FinalIsUnderItsCeilings(input);
  }

  /** The status goes by the displayed score: 90, 75, 60 and 40 are where it changes. */
  lemma StatusIsByDisplay(input: Input)
    requires HasVisit(input)
    ensures var h := Health(input);
            && h.available && h.final.Some? && h.score == Some(DisplayScore(h.final.value)) && h.status.Some?
            && (h.status.value == Excellent <==> 90 <= h.score.value)
            && (h.status.value == Good <==> 75 <= h.score.value < 90)
            && (h.status.value == Attention <==> 60 <= h.score.value < 75)
            && (h.status.value == Poor <==> 40 <= h.score.value < 60)
            && (h.status.value == CriticalStatus <==> h.score.value < 40)
  {
  }

  // -- The mean -------------------------------------------------------------------------

  /** The weight of a dimension is the one listed for it. */
  lemma {:induction false} WeightIsListed(dims: seq<DimensionWeight>, i: nat)
    requires i < |dims| && forall a, b :: 0 <= a < b < |dims| ==> dims[a].id != dims[b].id
    ensures WeightOf(dims, dims[i].id) == dims[i].weight
  {
    if i > 0 {
      WeightIsListed(dims[1..], i - 1);
    }
  }

  /** An inspection counts when it applies and was scored. */
  predicate Inspected(input: Input) {
    input.inspection.Some? && input.inspection.value.availability == Applicable && input.inspection.value.score.Some?
  }

  /** A raw score from two or three dimensions: times the weights that apply it is each score times its weight. */
  predicate IsMean(raw: real, m: real, mw: real, a: real, aw: real, i: Option<real>, iw: real) {
    var total := mw + aw + if i.Some? then iw else 0.0;
    if total <= 0.0 then raw == 0.0 else raw * total == m * mw + a * aw + if i.Some? then i.value * iw else 0.0
  }

  lemma MeanOfParts(m: real, mw: real, a: real, aw: real, i: Option<real>, iw: real)
    ensures IsMean(WeightedRaw([Part(m, mw), Part(a, aw)] + if i.Some? then [Part(i.value, iw)] else []), m, mw, a, aw, i, iw)
  {
    var parts := [Part(m, mw), Part(a, aw)] + if i.Some? then [Part(i.value, iw)] else [];
    TotalOf(parts);
    if TotalWeight(parts) > 0.0 {
      ShortMean(parts, TotalWeight(parts));
      Scaled(parts, TotalWeight(parts));
    }
  }

  /** The raw score is the mean of each dimension's own score under its own weight, the worse axis standing for maintenance. */
  lemma RawIsWeightedMean(input: Input)
    requires HasVisit(input)
    ensures Health(input).raw.Some?
    ensures IsMean(Health(input).raw.value,
                   Least(KmAxis(input), TimeAxis(input)), WeightOf(input.dimensions, "maintenance"),
                   AlertsScore(input.sourceAlerts), WeightOf(input.dimensions, "alerts"),
                   if Inspected(input) then input.inspection.value.score else None, WeightOf(input.dimensions, "inspections"))
  {
    MeanOfParts(Least(KmAxis(input), TimeAxis(input)), WeightOf(input.dimensions, "maintenance"),
                AlertsScore(input.sourceAlerts), WeightOf(input.dimensions, "alerts"),
                if Inspected(input) then input.inspection.value.score else None, WeightOf(input.dimensions, "inspections"));
  }

  lemma TotalOf(parts: seq<Part>)
    requires 2 <= |parts| <= 3
    ensures TotalWeight(parts) == parts[0].weight + parts[1].weight + if |parts| == 3 then parts[2].weight else 0.0
  {
    var two := parts[..2];
    assert TotalWeight(two[..1][..0]) == 0.0;
    assert TotalWeight(two[..1]) == two[0].weight;
    assert TotalWeight(two) == two[0].weight + two[1].weight;
    if |parts| == 2 {
      assert parts == two;
    }
  }

  lemma Scaled(parts: seq<Part>, total: real)
    requires 2 <= |parts| <= 3 && total > 0.0
    ensures (Share(parts[0], total) + Share(parts[1], total) + if |parts| == 3 then Share(parts[2], total) else 0.0) * total
         == parts[0].score * parts[0].weight + parts[1].score * parts[1].weight + if |parts| == 3 then parts[2].score * parts[2].weight else 0.0
  {
    ScaledShare(parts[0], total);
    ScaledShare(parts[1], total);
    if |parts| == 3 {
      ScaledShare(parts[2], total);
    }
  }

  lemma ScaledShare(part: Part, total: real)
    requires total > 0.0
    ensures Share(part, total) * total == part.score * part.weight
  {
  }

  // -- Alerts ---------------------------------------------------------------------------

  lemma {:induction false} PenaltiesAdd(a: seq<SourceAlert>, b: seq<SourceAlert>)
    ensures Penalties(a + b) == Penalties(a) + Penalties(b)
  {
    if b == [] {
      assert a + b == a;
    } else {
      var n := |b| - 1;
      assert (a + b)[..|a + b| - 1] == a + b[..n];
      PenaltiesAdd(a, b[..n]);
    }
  }

  /** What one alert leaves of the hundred, by its severity; derived alerts cost nothing. */
  lemma OneAlertCosts(a: SourceAlert)
    ensures AlertsScore([a]) == if a.origin == Derived then 100.0
                                else match a.severity
                                     case Info => 98.0
                                     case Low => 95.0
                                     case Medium => 85.0
                                     case High => 70.0
                                     case Critical => 40.0
  {
    assert [a][..0] == [];
    assert Penalties([a]) == Penalty(a);
  }

  /** Alerts add up until nothing is left. */
  lemma AlertsAddUp(a: seq<SourceAlert>, b: seq<SourceAlert>)
    ensures AlertsScore(a + b) == if AlertsScore(a) + AlertsScore(b) <= 100.0 then 0.0 else AlertsScore(a) + AlertsScore(b) - 100.0
  {
    PenaltiesAdd(a, b);
  }

  // -- Without a visit ------------------------------------------------------------------

  /** A unit without a closed visit has no score, but still says what its alerts and inspection are worth. */
  lemma NoVisitNoScore(input: Input)
    ensures var h := Health(input);
            && (h.available <==> input.lastClosed.Some? && !Texts.Blank(input.lastClosed.value.visitaId))
            && (!h.available ==>
                  && h.raw.None? && h.final.None? && h.score.None? && h.status.None? && h.cap.None? && h.drivers == [NoData]
                  && |h.breakdown| == 3 && h.breakdown[0].availability == NoInformation && h.breakdown[0].score.None?
                  && h.breakdown[1].score == Some(AlertsScore(input.sourceAlerts))
                  && forall i :: 0 <= i < 3 ==> h.breakdown[i].contribution.None?)
  {
  }

  /** Every line carries the weight of its own dimension. */
  lemma LinesCarryTheirWeights(input: Input)
    ensures var lines := Health(input).breakdown;
            && |lines| == 3 && lines[0].id == "maintenance" && lines[1].id == "alerts" && lines[2].id == "inspections"
            && (forall i :: 0 <= i < 3 ==> lines[i].weight == WeightOf(input.dimensions, lines[i].id))
            && lines[1].availability == Applicable && lines[1].score == Some(AlertsScore(input.sourceAlerts))
            && lines[2].availability == (if input.inspection.Some? then input.inspection.value.availability else NotApplicable)
            && (lines[2].score.Some? <==> lines[2].availability == Applicable && input.inspection.value.score.Some?)
            && (lines[2].score.Some? ==> lines[2].score == input.inspection.value.score)
  {
  }
}
