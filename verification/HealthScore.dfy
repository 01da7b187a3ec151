/**
 The health score of a unit: a piecewise maintenance axis, penalties for open alerts,
 a weighted mean, caps, and the integer that is displayed. Scores are real numbers.
 */
module HealthScore {
  import opened Wrappers
  import Andon
  import Texts

  type Time = int

  // -- The maintenance axis ---------------------------------------------------------------

  const WINDOW: real := 0.15
  const SLOPE: real := 1100.0 / 3.0

  /** Score of what is left of an interval, as a fraction of it. */
  function ScoreFromRatio(r: real): (score: real)
    ensures 0.0 <= score <= 100.0
  {
    if r >= 1.0 then 100.0
    else if r >= WINDOW then 90.0 + 10.0 * (r - WINDOW) / (1.0 - WINDOW)
    else if r >= 0.0 then 35.0 + 55.0 * r / WINDOW
    else if r >= -WINDOW then 15.0 + 20.0 * (r + WINDOW) / WINDOW
    else if r <= -1.0 then 0.0
    else 15.0 * (r + 1.0) / (1.0 - WINDOW)
  }

  /** The more is left the better the score, and it never moves faster than its steepest piece. */
  lemma NoCliffs(r: real, s: real)
    requires r <= s
    ensures 0.0 <= ScoreFromRatio(s) - ScoreFromRatio(r) <= SLOPE * (s - r)
  {
    OneSide(r, s, -1.0);
    OneSide(r, s, -WINDOW);
    OneSide(r, s, 0.0);
    OneSide(r, s, WINDOW);
    OneSide(r, s, 1.0);
  }

  /** The bound across one breakpoint follows from the bounds on its two sides. */
  lemma OneSide(r: real, s: real, at: real)
    ensures r <= at <= s ==> SLOPE * (s - r) == SLOPE * (s - at) + SLOPE * (at - r)
  {
  }

  /** At each breakpoint the two neighbouring pieces give the same score. */
  lemma PiecesMeet()
    ensures ScoreFromRatio(1.0) == 90.0 + 10.0 * (1.0 - WINDOW) / (1.0 - WINDOW)
    ensures ScoreFromRatio(WINDOW) == 35.0 + 55.0 * WINDOW / WINDOW
    ensures ScoreFromRatio(0.0) == 15.0 + 20.0 * (0.0 + WINDOW) / WINDOW
    ensures ScoreFromRatio(-WINDOW) == 15.0 * (-WINDOW + 1.0) / (1.0 - WINDOW)
    ensures ScoreFromRatio(-1.0) == 15.0 * (-1.0 + 1.0) / (1.0 - WINDOW)
  {
  }

  function AxisScore(remaining: int, interval: int): (score: real)
    ensures 0.0 <= score <= 100.0
  {
    if interval <= 0 then 0.0 else ScoreFromRatio(remaining as real / interval as real)
  }

  function Remaining(used: int, interval: int): int {
    interval - used
  }

  lemma Quotients(a: int, b: int, interval: int)
    requires a <= b && interval > 0
    ensures a as real / interval as real <= b as real / interval as real
    ensures b as real / interval as real - a as real / interval as real == (b - a) as real / interval as real
  {
  }

  /** Using more never raises an axis, and each unit used lowers it by at most 1100/3 over the interval. */
  lemma AxisMoves(used: int, more: int, interval: int)
    requires used <= more
    ensures AxisScore(Remaining(more, interval), interval) <= AxisScore(Remaining(used, interval), interval)
    ensures interval > 0 ==>
              AxisScore(Remaining(used, interval), interval) - AxisScore(Remaining(more, interval), interval)
              <= SLOPE * ((more - used) as real / interval as real)
  {
    if interval > 0 {
      Quotients(interval - more, interval - used, interval);
      NoCliffs((interval - more) as real / interval as real, (interval - used) as real / interval as real);
    }
  }

  // -- Alerts -----------------------------------------------------------------------------

  datatype Origin = Source | Derived
  datatype PenaltySeverity = Info | Low | Medium | High | Critical
  datatype Category = SafetyCategory | MaintenanceCategory | HealthCategory | Uncategorised
  datatype SourceAlert = SourceAlert(origin: Origin, severity: PenaltySeverity, category: Category)

  function Penalty(a: SourceAlert): nat {
    if a.origin != Source then 0
    else
      match a.severity
      case Info => 2
      case Low => 5
      case Medium => 15
      case High => 30
      case Critical => 60
  }

  function Penalties(alerts: seq<SourceAlert>): nat {
    if alerts == [] then 0 else Penalties(alerts[..|alerts| - 1]) + Penalty(alerts[|alerts| - 1])
  }

  function AlertsScore(alerts: seq<SourceAlert>): (score: real)
    ensures 0.0 <= score <= 100.0
  {
    if Penalties(alerts) >= 100 then 0.0 else (100 - Penalties(alerts)) as real
  }

  predicate CriticalSafety(alerts: seq<SourceAlert>) {
    exists i :: 0 <= i < |alerts| && alerts[i].origin == Source && alerts[i].severity == Critical && alerts[i].category == SafetyCategory
  }

  method AlertsScoreFrom(alerts: seq<SourceAlert>) returns (score: real)
    ensures score == AlertsScore(alerts)
  {
    var penalty := 0;
    for i := 0 to |alerts|
      invariant penalty == Penalties(alerts[..i])
    {
      assert alerts[..i + 1][..i] == alerts[..i];
      if alerts[i].origin != Source {
        continue;
      }
      penalty := penalty + Penalty(alerts[i]);
    }
    assert alerts[..|alerts|] == alerts;
    return if penalty >= 100 then 0.0 else (100 - penalty) as real;
  }

  lemma {:induction false} PenaltiesSplit(alerts: seq<SourceAlert>, i: nat)
    requires i < |alerts|
    ensures Penalties(alerts) == Penalties(alerts[..i] + alerts[i + 1..]) + Penalty(alerts[i])
  {
    var n := |alerts| - 1;
    if i == n {
      assert alerts[..i] + alerts[i + 1..] == alerts[..n];
    } else {
      PenaltiesSplit(alerts[..n], i);
      assert alerts[..n][..i] + alerts[..n][i + 1..] == (alerts[..i] + alerts[i + 1..])[..n - 1];
      assert (alerts[..i] + alerts[i + 1..])[n - 1] == alerts[n];
    }
  }

  lemma WithoutOne(alerts: seq<SourceAlert>, i: nat)
    requires i < |alerts|
    ensures multiset(alerts[..i] + alerts[i + 1..]) == multiset(alerts) - multiset{alerts[i]}
  {
    assert alerts == alerts[..i] + [alerts[i]] + alerts[i + 1..];
  }

  /** Alerts in any order: more of them never cost less. */
  lemma {:induction false} MorePenalties(alerts: seq<SourceAlert>, more: seq<SourceAlert>)
    requires multiset(alerts) <= multiset(more)
    ensures Penalties(alerts) <= Penalties(more)
  {
    if alerts != [] {
      var n := |alerts| - 1;
      assert alerts[n] in multiset(alerts);
      assert alerts[n] in multiset(more);
      var i :| 0 <= i < |more| && more[i] == alerts[n];
      PenaltiesSplit(more, i);
      WithoutOne(alerts, n);
      WithoutOne(more, i);
      assert alerts[..n] + alerts[n + 1..] == alerts[..n];
      MorePenalties(alerts[..n], more[..i] + more[i + 1..]);
    }
  }

  lemma MoreSafety(alerts: seq<SourceAlert>, more: seq<SourceAlert>)
    requires multiset(alerts) <= multiset(more) && CriticalSafety(alerts)
    ensures CriticalSafety(more)
  {
    var i :| 0 <= i < |alerts| && alerts[i].origin == Source && alerts[i].severity == Critical && alerts[i].category == SafetyCategory;
    assert alerts[i] in multiset(more);
    var j :| 0 <= j < |more| && more[j] == alerts[i];
  }

  // -- Weights ----------------------------------------------------------------------------

  const MAINTENANCE := "maintenance"
  const ALERTS := "alerts"
  const INSPECTIONS := "inspections"

  datatype DimensionWeight = DimensionWeight(id: string, weight: real)

  datatype WeightError = NoWeights | UnknownDimension(id: string) | RepeatedDimension | WeightOutOfRange | MissingDimension | WrongSum(sum: real)

  predicate Known(id: string) {
    id == MAINTENANCE || id == ALERTS || id == INSPECTIONS
  }

  predicate IsPercent(w: real) {
    w == w.Floor as real && 0.0 <= w <= 100.0
  }

  predicate Mentions(dims: seq<DimensionWeight>, id: string) {
    exists i :: 0 <= i < |dims| && dims[i].id == id
  }

  function SumWeights(dims: seq<DimensionWeight>): real {
    if dims == [] then 0.0 else SumWeights(dims[..|dims| - 1]) + dims[|dims| - 1].weight
  }

  /** Known dimensions, none twice, whole percentages. */
  predicate EntriesOk(dims: seq<DimensionWeight>) {
    && (forall i :: 0 <= i < |dims| ==> Known(dims[i].id) && IsPercent(dims[i].weight))
    && (forall i, j :: 0 <= i < j < |dims| ==> dims[i].id != dims[j].id)
  }

  predicate Complete(dims: seq<DimensionWeight>) {
    Mentions(dims, MAINTENANCE) && Mentions(dims, ALERTS) && Mentions(dims, INSPECTIONS)
  }

  predicate WeightsOk(dims: seq<DimensionWeight>) {
    EntriesOk(dims) && Complete(dims) && SumWeights(dims) == 100.0
  }

  /** Accepts exactly the complete sets of weights, and names the actual sum when only that is wrong. */
  method ValidateWeights(dims: seq<DimensionWeight>) returns (error: Option<WeightError>)
    ensures error.None? <==> WeightsOk(dims)
    ensures error.Some? && error.value.WrongSum? ==> EntriesOk(dims) && Complete(dims) && error.value.sum == SumWeights(dims) != 100.0
    ensures error == Some(MissingDimension) ==> EntriesOk(dims) && !Complete(dims)
    ensures dims == [] <==> error == Some(NoWeights)
    ensures error.Some? && error.value.UnknownDimension? ==> Mentions(dims, error.value.id) && !Known(error.value.id)
    ensures error == Some(RepeatedDimension) ==> exists i, j :: 0 <= i < j < |dims| && dims[i].id == dims[j].id
    ensures error == Some(WeightOutOfRange) ==> exists i :: 0 <= i < |dims| && !IsPercent(dims[i].weight)
  {
    if dims == [] {
      return Some(NoWeights);
    }
    var seen: set<string> := {};
    var sum := 0.0;
    for i := 0 to |dims|
      invariant EntriesOk(dims[..i]) && sum == SumWeights(dims[..i])
      invariant seen == Ids(dims[..i])
    {
      OneMoreEntry(dims, i);
      var dim := dims[i];
      if !Known(dim.id) {
        return Some(UnknownDimension(dim.id));
      }
      if dim.id in seen {
        return Some(RepeatedDimension);
      }
      seen := seen + {dim.id};
      if !IsPercent(dim.weight) {
        return Some(WeightOutOfRange);
      }
      sum := sum + dim.weight;
    }
    assert dims[..|dims|] == dims;
    if MAINTENANCE !in seen || ALERTS !in seen || INSPECTIONS !in seen {
      return Some(MissingDimension);
    }
    if sum != 100.0 {
      return Some(WrongSum(sum));
    }
    return None;
  }

  function Ids(dims: seq<DimensionWeight>): (ids: set<string>)
    ensures forall id :: id in ids <==> Mentions(dims, id)
  {
    set i | 0 <= i < |dims| :: dims[i].id
  }

  /** What the entries read so far are worth once one more is read. */
  lemma OneMoreEntry(dims: seq<DimensionWeight>, i: nat)
    requires i < |dims| && EntriesOk(dims[..i])
    ensures SumWeights(dims[..i + 1]) == SumWeights(dims[..i]) + dims[i].weight
    ensures Ids(dims[..i + 1]) == Ids(dims[..i]) + {dims[i].id}
    ensures EntriesOk(dims[..i + 1]) <==> Known(dims[i].id) && IsPercent(dims[i].weight) && dims[i].id !in Ids(dims[..i])
    ensures EntriesOk(dims) ==> EntriesOk(dims[..i + 1])
  {
    assert dims[..i + 1] == dims[..i] + [dims[i]];
    AppendedEntry(dims[..i], dims[i]);
  }

  lemma AppendedEntry(dims: seq<DimensionWeight>, last: DimensionWeight)
    requires EntriesOk(dims)
    ensures SumWeights(dims + [last]) == SumWeights(dims) + last.weight
    ensures Ids(dims + [last]) == Ids(dims) + {last.id}
    ensures EntriesOk(dims + [last]) <==> Known(last.id) && IsPercent(last.weight) && last.id !in Ids(dims)
  {
    var all := dims + [last];
    assert all[..|dims|] == dims && all[|dims|] == last;
    assert forall i :: 0 <= i < |dims| ==> all[i] == dims[i];
    if last.id in Ids(dims) {
      var j :| 0 <= j < |dims| && dims[j].id == last.id;
      assert all[j].id == all[|dims|].id;
    }
  }

  function WeightOf(dims: seq<DimensionWeight>, id: string): real {
    if dims == [] then 0.0
    else if dims[0].id == id then dims[0].weight
    else WeightOf(dims[1..], id)
  }

  lemma {:induction false} WeightsArePercents(dims: seq<DimensionWeight>, id: string)
    requires EntriesOk(dims)
    ensures 0.0 <= WeightOf(dims, id) <= 100.0
  {
    if dims != [] {
      WeightsArePercents(dims[1..], id);
    }
  }

  predicate AlertThresholdsOk(alert: real, recovery: real) {
    IsPercent(alert) && IsPercent(recovery) && recovery > alert
  }

  // -- The weighted mean, the caps, the display -------------------------------------------

  datatype Part = Part(score: real, weight: real)

  function TotalWeight(parts: seq<Part>): real {
    if parts == [] then 0.0 else TotalWeight(parts[..|parts| - 1]) + parts[|parts| - 1].weight
  }

  function Mean(parts: seq<Part>, total: real): real
    requires total > 0.0
  {
    if parts == [] then 0.0
    else Mean(parts[..|parts| - 1], total) + parts[|parts| - 1].score * parts[|parts| - 1].weight / total
  }

  function WeightedRaw(parts: seq<Part>): real {
    if TotalWeight(parts) <= 0.0 then 0.0 else Mean(parts, TotalWeight(parts))
  }

  /** Raising scores, with the weights kept, never lowers the mean. */
  lemma {:induction false} MeanIsMonotone(low: seq<Part>, high: seq<Part>, total: real)
    requires total > 0.0 && |low| == |high|
    requires forall i :: 0 <= i < |low| ==> low[i].weight == high[i].weight >= 0.0 && low[i].score <= high[i].score
    ensures Mean(low, total) <= Mean(high, total) && TotalWeight(low) == TotalWeight(high)
  {
    if low != [] {
      var n := |low| - 1;
      MeanIsMonotone(low[..n], high[..n], total);
      ShareIsMonotone(low[n].score, high[n].score, low[n].weight, total);
    }
  }

  lemma ShareIsMonotone(a: real, b: real, weight: real, total: real)
    requires a <= b && weight >= 0.0 && total > 0.0
    ensures a * weight / total <= b * weight / total
  {
    assert (b - a) * weight >= 0.0;
    assert b * weight / total - a * weight / total == (b - a) * weight / total;
  }

  /** A mean of equal scores is that score, scaled by the weight it covers. */
  lemma {:induction false} MeanOfEqual(parts: seq<Part>, score: real, total: real)
    requires total > 0.0 && forall i :: 0 <= i < |parts| ==> parts[i].score == score
    ensures Mean(parts, total) == score * TotalWeight(parts) / total
  {
    if parts != [] {
      var n := |parts| - 1;
      MeanOfEqual(parts[..n], score, total);
      var w, t := parts[n].weight, TotalWeight(parts[..n]);
      assert score * (t + w) == score * t + score * w;
    }
  }

  lemma RawIsPercent(parts: seq<Part>)
    requires forall i :: 0 <= i < |parts| ==> parts[i].weight >= 0.0 && 0.0 <= parts[i].score <= 100.0
    ensures 0.0 <= WeightedRaw(parts) <= 100.0
  {
    var total := TotalWeight(parts);
    if total > 0.0 {
      var none := seq(|parts|, i requires 0 <= i < |parts| => Part(0.0, parts[i].weight));
      var full := seq(|parts|, i requires 0 <= i < |parts| => Part(100.0, parts[i].weight));
      MeanIsMonotone(none, parts, total);
      MeanIsMonotone(parts, full, total);
      MeanOfEqual(none, 0.0, total);
      MeanOfEqual(full, 100.0, total);
      WholeShare(0.0, total);
      WholeShare(100.0, total);
    }
  }

  lemma WholeShare(score: real, total: real)
    requires total > 0.0
    ensures score * total / total == score
  {
  }

  lemma RawIsMonotone(low: seq<Part>, high: seq<Part>)
    requires |low| == |high|
    requires forall i :: 0 <= i < |low| ==> low[i].weight == high[i].weight >= 0.0 && low[i].score <= high[i].score
    ensures WeightedRaw(low) <= WeightedRaw(high)
  {
    MeanIsMonotone(low, high, if TotalWeight(low) > 0.0 then TotalWeight(low) else 1.0);
    if TotalWeight(low) > 0.0 {
      MeanIsMonotone(low, high, TotalWeight(low));
    }
  }

  const CAP_CRITICAL_SAFETY: real := 30.0
  const CAP_SEVERELY_OVERDUE: real := 50.0
  const SEVERE_MAINTENANCE_SCORE: real := 14.0

  datatype CapReason = CriticalSafetyAlert | SeverelyOverdueMaintenance
  datatype Cap = Cap(maxScore: real, reason: CapReason)
  datatype Capped = Capped(final: real, cap: Option<Cap>)

  /** The lowest ceiling that applies. */
  function Ceiling(maintenance: real, criticalSafety: bool): Option<Cap> {
    if criticalSafety then Some(Cap(CAP_CRITICAL_SAFETY, CriticalSafetyAlert))
    else if maintenance <= SEVERE_MAINTENANCE_SCORE then Some(Cap(CAP_SEVERELY_OVERDUE, SeverelyOverdueMaintenance))
    else None
  }

  function UnderCaps(raw: real, maintenance: real, criticalSafety: bool): Capped {
    var cap := Ceiling(maintenance, criticalSafety);
    if cap.Some? && cap.value.maxScore < raw then Capped(cap.value.maxScore, cap) else Capped(raw, None)
  }

  function Lowest(caps: seq<Cap>): Cap
    requires caps != []
  {
    if |caps| == 1 then caps[0]
    else
      var a, b := Lowest(caps[..|caps| - 1]), caps[|caps| - 1];
      if a.maxScore <= b.maxScore then a else b
  }

  /** The caps that apply are collected, the lowest is kept, and it is reported only if it lowered the score. */
  method ApplyCaps(raw: real, maintenance: real, criticalSafety: bool) returns (r: Capped)
    ensures r == UnderCaps(raw, maintenance, criticalSafety)
  {
    var caps: seq<Cap> := [];
    if criticalSafety {
      caps := caps + [Cap(CAP_CRITICAL_SAFETY, CriticalSafetyAlert)];
    }
    if maintenance <= SEVERE_MAINTENANCE_SCORE {
      caps := caps + [Cap(CAP_SEVERELY_OVERDUE, SeverelyOverdueMaintenance)];
    }
    if |caps| == 0 {
      return Capped(raw, None);
    }
    assert |caps| == 2 ==> Lowest(caps[..|caps| - 1]) == caps[0];
    assert |caps| == 2 ==> caps[0].maxScore <= caps[1].maxScore;
    var cap := Lowest(caps);
    var final := if raw <= cap.maxScore then raw else cap.maxScore;
    return if final < raw then Capped(final, Some(cap)) else Capped(raw, None);
  }

  /** Rounded to the nearest whole score, halves up, within 0 to 100. */
  function DisplayScore(final: real): (score: int)
    ensures 0 <= score <= 100
    ensures 0.0 <= final <= 100.0 ==> final - 0.5 < score as real <= final + 0.5
  {
    var rounded := (final + 0.5).Floor;
    if rounded < 0 then 0 else if rounded > 100 then 100 else rounded
  }

  datatype Status = Excellent | Good | Attention | Poor | CriticalStatus

  function StatusFromDisplay(score: int): Status {
    if score >= 90 then Excellent
    else if score >= 75 then Good
    else if score >= 60 then Attention
    else if score >= 40 then Poor
    else CriticalStatus
  }

  function Rank(s: Status): nat {
    match s
    case CriticalStatus => 0
    case Poor => 1
    case Attention => 2
    case Good => 3
    case Excellent => 4
  }

  // -- The whole computation --------------------------------------------------------------

  datatype Availability = Applicable | NotApplicable | NoInformation
  datatype Inspection = Inspection(availability: Availability, score: Option<real>)

  datatype Input = Input(
    dimensions: seq<DimensionWeight>, lastClosed: Option<Andon.LastClosed>, currentKm: Option<int>, now: Time,
    tKm: int, tDias: int, sourceAlerts: seq<SourceAlert>, inspection: Option<Inspection>)

  datatype Driver =
    | MaintenanceDue(byKm: bool, amount: nat)
    | MaintenanceOverdue(byKm: bool, amount: nat)
    | AndonOpen | NoCriticalFailures | NoData
    | CapDriver(cap: Cap)

  datatype Axis = Km | Tiempo
  datatype Line = Line(
    id: string, availability: Availability, score: Option<real>, weight: real, contribution: Option<real>, governing: Option<Axis>)

  datatype Computation = Computation(
    available: bool, raw: Option<real>, final: Option<real>, score: Option<int>, status: Option<Status>,
    breakdown: seq<Line>, cap: Option<Cap>, drivers: seq<Driver>)

  predicate HasVisit(input: Input) {
    input.lastClosed.Some? && !Texts.Blank(input.lastClosed.value.visitaId)
  }

  function InspectionScore(input: Input): Option<real> {
    if InspectionAvailability(input) == Applicable then input.inspection.value.score else None
  }

  function InspectionAvailability(input: Input): Availability {
    if input.inspection.Some? then input.inspection.value.availability else NotApplicable
  }

  function UsedKm(input: Input): int
    requires input.lastClosed.Some?
  {
    (if input.currentKm.Some? then input.currentKm.value else input.lastClosed.value.km) - input.lastClosed.value.km
  }

  function UsedDays(input: Input): int
    requires input.lastClosed.Some?
  {
    Andon.DiasEntre(input.lastClosed.value.cerradoAt, input.now)
  }

  function KmAxis(input: Input): real
    requires input.lastClosed.Some?
  {
    AxisScore(Remaining(UsedKm(input), input.tKm), input.tKm)
  }

  function TimeAxis(input: Input): real
    requires input.lastClosed.Some?
  {
    AxisScore(Remaining(UsedDays(input), input.tDias), input.tDias)
  }

  function MaintenanceScore(input: Input): real
    requires input.lastClosed.Some?
  {
    if KmAxis(input) <= TimeAxis(input) then KmAxis(input) else TimeAxis(input)
  }

  /** The dimensions that count, in the order they are listed. */
  function Parts(input: Input): seq<Part>
    requires input.lastClosed.Some?
  {
    [Part(MaintenanceScore(input), WeightOf(input.dimensions, MAINTENANCE)),
     Part(AlertsScore(input.sourceAlerts), WeightOf(input.dimensions, ALERTS))]
    + if InspectionScore(input).Some? then [Part(InspectionScore(input).value, WeightOf(input.dimensions, INSPECTIONS))] else []
  }

  function LineOf(id: string, availability: Availability, score: Option<real>, weight: real, total: real, governing: Option<Axis>): Line {
    Line(id, availability, score, weight, if score.Some? && total > 0.0 then Some(score.value * weight / total) else None, governing)
  }

  /** Without a closed visit there are no contributions and no maintenance to speak of. */
  function BareLine(id: string, availability: Availability, score: Option<real>, weight: real): Line {
    Line(id, availability, score, weight, None, None)
  }

  function UsageDriver(byKm: bool, remaining: int): Driver {
    if remaining < 0 then MaintenanceOverdue(byKm, -remaining) else MaintenanceDue(byKm, remaining)
  }

  predicate HasMaintenanceAlert(alerts: seq<SourceAlert>) {
    exists i :: 0 <= i < |alerts| && alerts[i].category == MaintenanceCategory
  }

  function Health(input: Input): Computation {
    var dims := input.dimensions;
    if !HasVisit(input) then
      Computation(false, None, None, None, None,
                  [BareLine(MAINTENANCE, NoInformation, None, WeightOf(dims, MAINTENANCE)),
                   BareLine(ALERTS, Applicable, Some(AlertsScore(input.sourceAlerts)), WeightOf(dims, ALERTS)),
                   BareLine(INSPECTIONS, InspectionAvailability(input), InspectionScore(input), WeightOf(dims, INSPECTIONS))],
                  None, [NoData])
    else
      var raw := WeightedRaw(Parts(input));
      var total := TotalWeight(Parts(input));
      var capped := UnderCaps(raw, MaintenanceScore(input), CriticalSafety(input.sourceAlerts));
      var score := DisplayScore(capped.final);
      var byKm := KmAxis(input) <= TimeAxis(input);
      Computation(true, Some(raw), Some(capped.final), Some(score), Some(StatusFromDisplay(score)),
                  [LineOf(MAINTENANCE, Applicable, Some(MaintenanceScore(input)), WeightOf(dims, MAINTENANCE), total, Some(if byKm then Km else Tiempo)),
                   LineOf(ALERTS, Applicable, Some(AlertsScore(input.sourceAlerts)), WeightOf(dims, ALERTS), total, None),
                   LineOf(INSPECTIONS, InspectionAvailability(input), InspectionScore(input), WeightOf(dims, INSPECTIONS), total, None)],
                  capped.cap,
                  [UsageDriver(byKm, if byKm then Remaining(UsedKm(input), input.tKm) else Remaining(UsedDays(input), input.tDias)),
                   if HasMaintenanceAlert(input.sourceAlerts) then AndonOpen else NoCriticalFailures]
                  + if capped.cap.Some? then [CapDriver(capped.cap.value)] else [])
  }

  /** The same, by collecting the dimensions that apply and then the explanations. */
  method ComputeUnitHealth(input: Input) returns (h: Computation)
    ensures h == Health(input)
  {
    var dims := input.dimensions;
    var mw, aw, iw := WeightOf(dims, MAINTENANCE), WeightOf(dims, ALERTS), WeightOf(dims, INSPECTIONS);
    var alertsScore := AlertsScoreFrom(input.sourceAlerts);
    var inspection := InspectionScore(input);
    if !HasVisit(input) {
      return Computation(false, None, None, None, None,
                         [BareLine(MAINTENANCE, NoInformation, None, mw), BareLine(ALERTS, Applicable, Some(alertsScore), aw),
                          BareLine(INSPECTIONS, InspectionAvailability(input), inspection, iw)],
                         None, [NoData]);
    }
    var kmAxis, timeAxis := KmAxis(input), TimeAxis(input);
    var byKm := kmAxis <= timeAxis;
    var maintenance := if byKm then kmAxis else timeAxis;
    var applicable := [Part(maintenance, mw), Part(alertsScore, aw)];
    if inspection.Some? {
      applicable := applicable + [Part(inspection.value, iw)];
    }
    assert applicable == Parts(input);
    var total, raw := TotalWeight(applicable), WeightedRaw(applicable);
    var capped := ApplyCaps(raw, maintenance, CriticalSafety(input.sourceAlerts));
    var score := DisplayScore(capped.final);
    var drivers := [UsageDriver(byKm, if byKm then Remaining(UsedKm(input), input.tKm) else Remaining(UsedDays(input), input.tDias))];
    drivers := drivers + [if HasMaintenanceAlert(input.sourceAlerts) then AndonOpen else NoCriticalFailures];
    if capped.cap.Some? {
      drivers := drivers + [CapDriver(capped.cap.value)];
    }
    return Computation(true, Some(raw), Some(capped.final), Some(score), Some(StatusFromDisplay(score)),
                       [LineOf(MAINTENANCE, Applicable, Some(maintenance), mw, total, Some(if byKm then Km else Tiempo)),
                        LineOf(ALERTS, Applicable, Some(alertsScore), aw, total, None),
                        LineOf(INSPECTIONS, InspectionAvailability(input), inspection, iw, total, None)],
                       capped.cap, drivers);
  }

  // -- Theorems -----------------------------------------------------------------------------

  predicate InspectionOk(input: Input) {
    InspectionScore(input).Some? ==> 0.0 <= InspectionScore(input).value <= 100.0
  }

  lemma PartsAreOk(input: Input)
    requires input.lastClosed.Some? && WeightsOk(input.dimensions)
    ensures forall i :: 0 <= i < |Parts(input)| ==> Parts(input)[i].weight >= 0.0
  {
    WeightsArePercents(input.dimensions, MAINTENANCE);
    WeightsArePercents(input.dimensions, ALERTS);
    WeightsArePercents(input.dimensions, INSPECTIONS);
  }

  /** The score is a percentage, and obeys the ceilings of 30 and 50 whatever the weights. */
  lemma ScoreObeysCaps(input: Input)
    requires HasVisit(input) && WeightsOk(input.dimensions) && InspectionOk(input)
    ensures var h := Health(input);
            && 0.0 <= h.final.value <= h.raw.value <= 100.0
            && (CriticalSafety(input.sourceAlerts) ==> h.score.value <= 30)
            && (MaintenanceScore(input) <= SEVERE_MAINTENANCE_SCORE ==> h.score.value <= 50)
            && (h.cap.Some? <==> h.final.value < h.raw.value)
            && h.final.value - 0.5 < h.score.value as real <= h.final.value + 0.5
  {
    PartsAreOk(input);
    RawIsPercent(Parts(input));
  }

  function Contributed(line: Line): real {
    if line.contribution.Some? then line.contribution.value else 0.0
  }

  /** Whenever some weight applies, the breakdown adds up to the raw score, and a line contributes when it applies and has a score. */
  lemma ContributionsAddUp(input: Input)
    requires HasVisit(input) && TotalWeight(Parts(input)) > 0.0
    ensures var h := Health(input);
            |h.breakdown| == 3
            && (forall i :: 0 <= i < 3 ==>
                  (h.breakdown[i].contribution.Some? <==> h.breakdown[i].availability == Applicable && h.breakdown[i].score.Some?))
            && Contributed(h.breakdown[0]) + Contributed(h.breakdown[1]) + Contributed(h.breakdown[2]) == h.raw.value
  {
    LinesAddUp(MaintenanceScore(input), WeightOf(input.dimensions, MAINTENANCE),
               AlertsScore(input.sourceAlerts), WeightOf(input.dimensions, ALERTS),
               InspectionScore(input), WeightOf(input.dimensions, INSPECTIONS), InspectionAvailability(input), Health(input).breakdown[0].governing);
  }

  lemma LinesAddUp(m: real, mw: real, a: real, aw: real, i: Option<real>, iw: real, v: Availability, g: Option<Axis>)
    requires TotalWeight([Part(m, mw), Part(a, aw)] + if i.Some? then [Part(i.value, iw)] else []) > 0.0
    ensures var parts := [Part(m, mw), Part(a, aw)] + if i.Some? then [Part(i.value, iw)] else [];
            var total := TotalWeight(parts);
            Contributed(LineOf(MAINTENANCE, Applicable, Some(m), mw, total, g)) + Contributed(LineOf(ALERTS, Applicable, Some(a), aw, total, None))
            + Contributed(LineOf(INSPECTIONS, v, i, iw, total, None)) == WeightedRaw(parts)
  {
    var parts := [Part(m, mw), Part(a, aw)] + if i.Some? then [Part(i.value, iw)] else [];
    ShortMean(parts, TotalWeight(parts));
  }

  function Share(part: Part, total: real): real
    requires total > 0.0
  {
    part.score * part.weight / total
  }

  lemma ShortMean(parts: seq<Part>, total: real)
    requires 2 <= |parts| <= 3 && total > 0.0
    ensures Mean(parts, total) == Share(parts[0], total) + Share(parts[1], total) + if |parts| == 3 then Share(parts[2], total) else 0.0
  {
    var two := parts[..2];
    assert Mean(two[..1][..0], total) == 0.0;
    assert Mean(two[..1], total) == Share(parts[0], total);
    assert Mean(two, total) == Mean(two[..1], total) + Share(parts[1], total);
    if |parts| == 2 {
      assert parts == two;
    }
  }

  /** The same unit later, further, or with more alerts. */
  ghost predicate WornBy(input: Input, worn: Input) {
    && worn.dimensions == input.dimensions && worn.lastClosed == input.lastClosed
    && worn.tKm == input.tKm && worn.tDias == input.tDias && worn.inspection == input.inspection
    && (HasVisit(input) ==> UsedKm(input) <= UsedKm(worn))
    && input.now <= worn.now
    && multiset(input.sourceAlerts) <= multiset(worn.sourceAlerts)
  }

  lemma DaysGrow(from: Time, a: Time, b: Time)
    requires a <= b
    ensures Andon.DiasEntre(from, a) <= Andon.DiasEntre(from, b)
  {
  }

  lemma WearLowersParts(input: Input, worn: Input)
    requires HasVisit(input) && WornBy(input, worn) && WeightsOk(input.dimensions)
    ensures MaintenanceScore(worn) <= MaintenanceScore(input)
    ensures WeightedRaw(Parts(worn)) <= WeightedRaw(Parts(input))
  {
    AxisMoves(UsedKm(input), UsedKm(worn), input.tKm);
    DaysGrow(input.lastClosed.value.cerradoAt, input.now, worn.now);
    AxisMoves(UsedDays(input), UsedDays(worn), input.tDias);
    MorePenalties(input.sourceAlerts, worn.sourceAlerts);
    PartsAreOk(input);
    RawIsMonotone(Parts(worn), Parts(input));
  }

  /** Lower parts under at least the same ceilings give a lower final score. */
  lemma CapsAreMonotone(raw: real, maintenance: real, safety: bool, raw': real, maintenance': real, safety': bool)
    requires raw' <= raw && maintenance' <= maintenance && (safety ==> safety')
    ensures UnderCaps(raw', maintenance', safety').final <= UnderCaps(raw, maintenance, safety).final
  {
  }

  /** More kilometres, more days or more alerts never raise the raw score, the displayed score or the status. */
  lemma WearNeverHelps(input: Input, worn: Input)
    requires WornBy(input, worn) && WeightsOk(input.dimensions)
    ensures var h, w := Health(input), Health(worn);
            && w.available == h.available
            && (h.available ==>
                  w.raw.value <= h.raw.value && w.final.value <= h.final.value && w.score.value <= h.score.value
                  && Rank(w.status.value) <= Rank(h.status.value))
  {
    if HasVisit(input) {
      WearLowersParts(input, worn);
      if CriticalSafety(input.sourceAlerts) {
        MoreSafety(input.sourceAlerts, worn.sourceAlerts);
      }
      CapsAreMonotone(WeightedRaw(Parts(input)), MaintenanceScore(input), CriticalSafety(input.sourceAlerts),
                      WeightedRaw(Parts(worn)), MaintenanceScore(worn), CriticalSafety(worn.sourceAlerts));
      DisplayIsMonotone(Health(worn).final.value, Health(input).final.value);
    }
  }

  lemma DisplayIsMonotone(a: real, b: real)
    requires a <= b
    ensures DisplayScore(a) <= DisplayScore(b)
  {
  }

  /** One more kilometre costs the kilometre axis at most 1100/3 of one interval. */
  lemma OneKilometre(input: Input, worn: Input)
    requires HasVisit(input) && WornBy(input, worn) && UsedKm(worn) == UsedKm(input) + 1 && input.tKm > 0
    ensures 0.0 <= KmAxis(input) - KmAxis(worn) <= SLOPE / input.tKm as real
  {
    AxisMoves(UsedKm(input), UsedKm(worn), input.tKm);
    OneShare(input.tKm as real);
  }

  lemma OneShare(interval: real)
    requires interval > 0.0
    ensures SLOPE * (1.0 / interval) == SLOPE / interval
  {
  }
}
