/**
 Health alerts: versioned configurations, one stored score per unit, and an alert that opens
 below one threshold and resolves only at a higher one.
 */
module Salud {
  import opened Wrappers
  import Andon
  import HealthScore
  import Inbox

  type Id = nat
  type Time = int

  datatype Config = Config(
    id: Id, version: nat, dimensions: seq<HealthScore.DimensionWeight>, alertEnabled: bool,
    alertThreshold: real, recoveryThreshold: real, severity: Inbox.Severity, isActive: bool,
    createdAt: Time, createdBy: Option<string>)

  datatype Snapshot = Snapshot(score: Option<int>, raw: Option<real>, status: Option<HealthScore.Status>, computedAt: Time, configVersion: nat)

  datatype Estado = Abierta | Resuelta
  datatype HealthAlert = HealthAlert(
    id: Id, unidadId: Id, estado: Estado, scoreAtOpen: int, thresholdAtOpen: real, openedAt: Time, resolvedAt: Option<Time>)

  datatype Store = Store(configs: seq<Config>, snapshots: map<Id, Snapshot>, alerts: seq<HealthAlert>, nextId: Id)

  /** What the other modules know of a unit: its last visit, its odometer, its intervals, whether it has a notice. */
  datatype UnitFacts = UnitFacts(lastClosed: Option<Andon.LastClosed>, flotaKm: Option<int>, tKm: int, tDias: int, hasNotice: bool)

  function FactsOf(facts: map<Id, UnitFacts>, u: Id): UnitFacts {
    if u in facts then facts[u] else UnitFacts(None, None, Andon.DEFAULT_T_KM, Andon.DEFAULT_T_DIAS, false)
  }

  // -- The alert rule -------------------------------------------------------------------

  datatype Decision = Create | Keep | Resolve | Nothing

  function Decide(config: Config, previous: Option<int>, current: Option<int>, hasActive: bool, reevaluate: bool): Decision {
    if hasActive then
      if current.Some? && current.value as real >= config.recoveryThreshold then Resolve else Keep
    else if !config.alertEnabled || current.None? || current.value as real >= config.alertThreshold then Nothing
    else if reevaluate then Create
    else if previous.None? || previous.value as real >= config.alertThreshold then Create
    else Nothing
  }

  // -- The store ------------------------------------------------------------------------

  function ActiveConfig(configs: seq<Config>): (r: Option<Config>)
    ensures r.Some? ==> r.value in configs && r.value.isActive
    ensures r.None? ==> forall i :: 0 <= i < |configs| ==> !configs[i].isActive
  {
    if configs == [] then None
    else if configs[0].isActive then Some(configs[0])
    else ActiveConfig(configs[1..])
  }

  function ActiveAlert(alerts: seq<HealthAlert>, u: Id): (r: Option<HealthAlert>)
    ensures r.Some? ==> r.value in alerts && r.value.unidadId == u && r.value.estado == Abierta
    ensures r.None? ==> forall i :: 0 <= i < |alerts| ==> alerts[i].unidadId != u || alerts[i].estado != Abierta
  {
    if alerts == [] then None
    else if alerts[0].unidadId == u && alerts[0].estado == Abierta then Some(alerts[0])
    else ActiveAlert(alerts[1..], u)
  }

  function UpdateAlert(alerts: seq<HealthAlert>, alert: HealthAlert): seq<HealthAlert> {
    seq(|alerts|, i requires 0 <= i < |alerts| => if alerts[i].id == alert.id then alert else alerts[i])
  }

  function Deactivated(configs: seq<Config>): seq<Config> {
    seq(|configs|, i requires 0 <= i < |configs| => configs[i].(isActive := false))
  }

  function MaxVersion(configs: seq<Config>): (max: nat)
    ensures forall i :: 0 <= i < |configs| ==> configs[i].version <= max
  {
    if configs == [] then 0
    else
      var max := MaxVersion(configs[..|configs| - 1]);
      if configs[|configs| - 1].version > max then configs[|configs| - 1].version else max
  }

  // -- The engine -----------------------------------------------------------------------

  function DefaultDimensions(): seq<HealthScore.DimensionWeight> {
    [HealthScore.DimensionWeight(HealthScore.MAINTENANCE, 45.0),
     HealthScore.DimensionWeight(HealthScore.ALERTS, 40.0),
     HealthScore.DimensionWeight(HealthScore.INSPECTIONS, 15.0)]
  }

  function DefaultConfig(id: Id, now: Time): Config {
    Config(id, 1, DefaultDimensions(), true, 60.0, 65.0, Inbox.Warning, true, now, Some("seed"))
  }

  function EnsureActiveConfig(s: Store, now: Time): Store {
    if ActiveConfig(s.configs).Some? then s else s.(configs := s.configs + [DefaultConfig(s.nextId, now)], nextId := s.nextId + 1)
  }

  function CurrentKm(f: UnitFacts): Option<int> {
    if f.lastClosed.None? && f.flotaKm.None? then None
    else
      var last := if f.lastClosed.Some? then f.lastClosed.value.km else 0;
      var flota := if f.flotaKm.Some? then f.flotaKm.value else 0;
      Some(if last >= flota then last else flota)
  }

  function Notices(hasNotice: bool): seq<HealthScore.SourceAlert> {
    if hasNotice then [HealthScore.SourceAlert(HealthScore.Source, HealthScore.High, HealthScore.MaintenanceCategory)] else []
  }

  function InputOf(config: Config, f: UnitFacts, now: Time): HealthScore.Input {
    HealthScore.Input(config.dimensions, f.lastClosed, CurrentKm(f), now, f.tKm, f.tDias, Notices(f.hasNotice), None)
  }

  function Key(u: Id): Inbox.DedupeKey {
    Inbox.HealthBelow(u)
  }

  datatype Evaluated = Evaluated(store: Store, box: Inbox.Box)

  function OpenAlert(s: Store, box: Inbox.Box, active: bool, config: Config, u: Id, score: int, now: Time): Evaluated {
    var alert := HealthAlert(s.nextId, u, Abierta, score, config.alertThreshold, now, None);
    Evaluated(s.(alerts := s.alerts + [alert], nextId := s.nextId + 1),
              if active then Inbox.Ingest(box, Inbox.IngestCommand(alert.id, config.severity, Key(u), Some(now)), now) else box)
  }

  function ResolveAlert(s: Store, box: Inbox.Box, alert: HealthAlert, now: Time): Evaluated {
    Evaluated(s.(alerts := UpdateAlert(s.alerts, alert.(estado := Resuelta, resolvedAt := Some(now)))),
              Inbox.ExpireDedupe(box, Key(alert.unidadId), now))
  }

  function PreviousScore(s: Store, u: Id): Option<int> {
    if u in s.snapshots then s.snapshots[u].score else None
  }

  function WithSnapshot(s: Store, u: Id, c: HealthScore.Computation, config: Config, now: Time): Store {
    s.(snapshots := s.snapshots[u := Snapshot(c.score, c.raw, c.status, now, config.version)])
  }

  function Enact(s: Store, box: Inbox.Box, active: bool, config: Config, u: Id, score: Option<int>, decision: Decision, now: Time): Evaluated {
    var alert := ActiveAlert(s.alerts, u);
    if decision == Create && score.Some? then OpenAlert(s, box, active, config, u, score.value, now)
    else if decision == Resolve && alert.Some? && score.Some? then ResolveAlert(s, box, alert.value, now)
    else Evaluated(s, box)
  }

  /** What becomes of the alert of the evaluated unit. */
  function NextAlert(s: Store, config: Config, u: Id, current: Option<int>, decision: Decision, now: Time): Option<HealthAlert> {
    if decision == Create && current.Some? then Some(HealthAlert(s.nextId, u, Abierta, current.value, config.alertThreshold, now, None))
    else if decision == Resolve then None
    else ActiveAlert(s.alerts, u)
  }

  /** What an evaluation answers: the computation, the version it was judged by, and the unit's alert if one is open. */
  datatype UnitHealth = UnitHealth(
    unidadId: Id, computation: HealthScore.Computation, derived: Option<Id>, configVersion: nat, weights: seq<HealthScore.DimensionWeight>)

  function ResultOf(u: Id, config: Config, c: HealthScore.Computation, derived: Option<HealthAlert>): UnitHealth {
    UnitHealth(u, c, if derived.Some? && derived.value.estado == Abierta then Some(derived.value.id) else None, config.version, config.dimensions)
  }

  /** What follows from a computed score: an alert opened or resolved, and the score stored. */
  function Conclude(
    s: Store, box: Inbox.Box, active: bool, config: Config, u: Id, c: HealthScore.Computation, reevaluate: bool, now: Time): Evaluated
  {
    var decision := Decide(config, PreviousScore(s, u), c.score, ActiveAlert(s.alerts, u).Some?, reevaluate);
    var done := Enact(s, box, active, config, u, c.score, decision, now);
    done.(store := WithSnapshot(done.store, u, c, config, now))
  }

  /** The alert that is open for the unit once the computed score has been acted on. */
  function Concluded(s: Store, config: Config, u: Id, c: HealthScore.Computation, reevaluate: bool, now: Time): Option<HealthAlert> {
    NextAlert(s, config, u, c.score, Decide(config, PreviousScore(s, u), c.score, ActiveAlert(s.alerts, u).Some?, reevaluate), now)
  }

  function OpenOnly(alert: Option<HealthAlert>): Option<HealthAlert> {
    if alert.Some? && alert.value.estado == Abierta then alert else None
  }

  /** The answer of an evaluation on tables that have an active configuration. */
  function ResultUnder(s: Store, facts: map<Id, UnitFacts>, u: Id, reevaluate: bool, now: Time): UnitHealth
    requires ActiveConfig(s.configs).Some?
  {
    var config := ActiveConfig(s.configs).value;
    var c := HealthScore.Health(InputOf(config, FactsOf(facts, u), now));
    ResultOf(u, config, c, Concluded(s, config, u, c, reevaluate, now))
  }

  /** Evaluation under a configuration, once there is one. */
  function EvaluateUnder(
    s: Store, box: Inbox.Box, active: bool, config: Config, f: UnitFacts, u: Id, reevaluate: bool, now: Time): Evaluated
  {
    Conclude(s, box, active, config, u, HealthScore.Health(InputOf(config, f, now)), reevaluate, now)
  }

  function EvaluateUnidad(s: Store, box: Inbox.Box, active: bool, facts: map<Id, UnitFacts>, u: Id, reevaluate: bool, now: Time): Evaluated {
    var s1 := EnsureActiveConfig(s, now);
    var config := ActiveConfig(s1.configs);
    if config.None? then Evaluated(s1, box)
    else EvaluateUnder(s1, box, active, config.value, FactsOf(facts, u), u, reevaluate, now)
  }

  function EvaluateAll(s: Store, box: Inbox.Box, active: bool, facts: map<Id, UnitFacts>, units: seq<Id>, reevaluate: bool, now: Time): Evaluated
    decreases units
  {
    if units == [] then Evaluated(s, box)
    else
      var first := EvaluateUnidad(s, box, active, facts, units[0], reevaluate, now);
      EvaluateAll(first.store, first.box, active, facts, units[1..], reevaluate, now)
  }

  datatype ConfigInput = ConfigInput(
    dimensions: seq<HealthScore.DimensionWeight>, alertEnabled: bool, alertThreshold: real, recoveryThreshold: real, severity: string)

  function ParseSeverity(text: string): Option<Inbox.Severity> {
    if text == "LOW" then Some(Inbox.Low)
    else if text == "INFO" then Some(Inbox.Info)
    else if text == "WARNING" then Some(Inbox.Warning)
    else if text == "CRITICAL" then Some(Inbox.Critical)
    else None
  }

  predicate ConfigOk(input: ConfigInput) {
    && HealthScore.WeightsOk(input.dimensions)
    && HealthScore.AlertThresholdsOk(input.alertThreshold, input.recoveryThreshold)
    && ParseSeverity(input.severity).Some?
  }

  function NewConfig(s: Store, input: ConfigInput, createdBy: Option<string>, now: Time): Config
    requires ConfigOk(input)
  {
    Config(s.nextId, MaxVersion(s.configs) + 1, input.dimensions, input.alertEnabled, input.alertThreshold, input.recoveryThreshold,
           ParseSeverity(input.severity).value, true, now, createdBy)
  }

  function Configured(s: Store, config: Config): Store {
    s.(configs := Deactivated(s.configs) + [config], nextId := s.nextId + 1)
  }

  /** A new version replaces the active one and every unit is judged by it at once. */
  function SaveConfig(
    s: Store, box: Inbox.Box, active: bool, facts: map<Id, UnitFacts>, catalog: seq<Id>,
    input: ConfigInput, createdBy: Option<string>, now: Time): Option<Evaluated>
  {
    if !ConfigOk(input) then None
    else Some(EvaluateAll(Configured(s, NewConfig(s, input, createdBy, now)), box, active, facts, catalog, true, now))
  }

  // -- The engine over its in-memory store ------------------------------------------------

  class SaludEngine {
    var configs: seq<Config>
    var snapshots: map<Id, Snapshot>
    var alerts: seq<HealthAlert>
    var nextId: Id
    var active: bool
    const inbox: Inbox.InboxEngine

    ghost function Tables(): Store
      reads this
    {
      Store(configs, snapshots, alerts, nextId)
    }

    constructor (inbox: Inbox.InboxEngine)
      ensures this.inbox == inbox && active && Tables() == Store([], map[], [], 0)
    {
      this.inbox, active := inbox, true;
      configs, snapshots, alerts, nextId := [], map[], [], 0;
    }

    method EnsureActive(now: Time) returns (config: Config)
      modifies `configs, `nextId
      ensures Tables() == EnsureActiveConfig(old(Tables()), now)
      ensures ActiveConfig(configs) == Some(config)
    {
      var existing := ActiveConfig(configs);
      if existing.Some? {
        return existing.value;
      }
      config := DefaultConfig(nextId, now);
      AppendedActive(configs, config);
      configs := configs + [config];
      nextId := nextId + 1;
    }

    /** The result names the alert that is open for the unit afterwards. */
    method Evaluate(facts: map<Id, UnitFacts>, u: Id, reevaluate: bool, now: Time) returns (result: UnitHealth)
      modifies this, inbox
      ensures active == old(active)
      ensures Evaluated(Tables(), inbox.Contents()) == EvaluateUnidad(old(Tables()), old(inbox.Contents()), active, facts, u, reevaluate, now)
      ensures ActiveConfig(EnsureActiveConfig(old(Tables()), now).configs).Some?
      ensures result == ResultUnder(EnsureActiveConfig(old(Tables()), now), facts, u, reevaluate, now)
    {
      var config := EnsureActive(now);
      var c := HealthScore.ComputeUnitHealth(InputOf(config, FactsOf(facts, u), now));
      var derived := Settle(config, u, c, reevaluate, now);
      result := ResultOf(u, config, c, derived);
    }

    method Settle(config: Config, u: Id, c: HealthScore.Computation, reevaluate: bool, now: Time) returns (derived: Option<HealthAlert>)
      modifies `alerts, `nextId, `snapshots, inbox
      ensures Evaluated(Tables(), inbox.Contents()) == Conclude(old(Tables()), old(inbox.Contents()), active, config, u, c, reevaluate, now)
      ensures OpenOnly(derived) == Concluded(old(Tables()), config, u, c, reevaluate, now)
    {
      var previous := if u in snapshots then snapshots[u].score else None;
      derived := ActiveAlert(alerts, u);
      var decision := Decide(config, previous, c.score, derived.Some?, reevaluate);
      if decision == Create && c.score.Some? {
        var alert := Open(config, u, c.score.value, now);
        derived := Some(alert);
      } else if decision == Resolve && derived.Some? && c.score.Some? {
        var resolved := Close(derived.value, now);
        derived := Some(resolved);
      }
      snapshots := snapshots[u := Snapshot(c.score, c.raw, c.status, now, config.version)];
    }

    method Open(config: Config, u: Id, score: int, now: Time) returns (alert: HealthAlert)
      modifies `alerts, `nextId, inbox
      ensures alert == HealthAlert(old(nextId), u, Abierta, score, config.alertThreshold, now, None)
      ensures Evaluated(Tables(), inbox.Contents()) == OpenAlert(old(Tables()), old(inbox.Contents()), active, config, u, score, now)
    {
      alert := HealthAlert(nextId, u, Abierta, score, config.alertThreshold, now, None);
      alerts := alerts + [alert];
      nextId := nextId + 1;
      if active {
        var _ := inbox.Receive(Inbox.IngestCommand(alert.id, config.severity, Key(u), Some(now)), now);
      }
    }

    method Close(alert: HealthAlert, now: Time) returns (resolved: HealthAlert)
      modifies `alerts, inbox
      ensures resolved == alert.(estado := Resuelta, resolvedAt := Some(now))
      ensures Evaluated(Tables(), inbox.Contents()) == ResolveAlert(old(Tables()), old(inbox.Contents()), alert, now)
    {
      resolved := alert.(estado := Resuelta, resolvedAt := Some(now));
      alerts := UpdateAlert(alerts, resolved);
      var _ := inbox.Expire(Key(alert.unidadId), now);
    }

    method EvaluateCatalog(facts: map<Id, UnitFacts>, catalog: seq<Id>, reevaluate: bool, now: Time)
      modifies this, inbox
      ensures active == old(active)
      ensures Evaluated(Tables(), inbox.Contents()) == EvaluateAll(old(Tables()), old(inbox.Contents()), active, facts, catalog, reevaluate, now)
    {
      var i := 0;
      while i < |catalog|
        invariant 0 <= i <= |catalog| && active == old(active)
        invariant EvaluateAll(old(Tables()), old(inbox.Contents()), active, facts, catalog, reevaluate, now)
               == EvaluateAll(Tables(), inbox.Contents(), active, facts, catalog[i..], reevaluate, now)
      {
        assert catalog[i..][0] == catalog[i] && catalog[i..][1..] == catalog[i + 1..];
        var _ := Evaluate(facts, catalog[i], reevaluate, now);
        i := i + 1;
      }
    }

    method Save(facts: map<Id, UnitFacts>, catalog: seq<Id>, input: ConfigInput, createdBy: Option<string>, now: Time) returns (saved: bool)
      modifies this, inbox
      ensures active == old(active)
      ensures var spec := SaveConfig(old(Tables()), old(inbox.Contents()), active, facts, catalog, input, createdBy, now);
              && saved == spec.Some?
              && Evaluated(Tables(), inbox.Contents()) == (if saved then spec.value else Evaluated(old(Tables()), old(inbox.Contents())))
    {
      var weightError := HealthScore.ValidateWeights(input.dimensions);
      if weightError.Some? {
        return false;
      }
      if !HealthScore.AlertThresholdsOk(input.alertThreshold, input.recoveryThreshold) || ParseSeverity(input.severity).None? {
        return false;
      }
      AddVersion(input, createdBy, now);
      EvaluateCatalog(facts, catalog, true, now);
      return true;
    }

    method AddVersion(input: ConfigInput, createdBy: Option<string>, now: Time)
      requires ConfigOk(input)
      modifies `configs, `nextId
      ensures Tables() == Configured(old(Tables()), NewConfig(old(Tables()), input, createdBy, now))
    {
      var nextVersion := MaxVersion(configs) + 1;
      configs := Deactivated(configs);
      var config := Config(nextId, nextVersion, input.dimensions, input.alertEnabled, input.alertThreshold, input.recoveryThreshold,
                           ParseSeverity(input.severity).value, true, now, createdBy);
      configs := configs + [config];
      nextId := nextId + 1;
    }
  }

  lemma {:induction false} AppendedActive(configs: seq<Config>, config: Config)
    requires forall i :: 0 <= i < |configs| ==> !configs[i].isActive
    requires config.isActive
    ensures ActiveConfig(configs + [config]) == Some(config)
  {
    if configs != [] {
      assert (configs + [config])[0] == configs[0] && (configs + [config])[1..] == configs[1..] + [config];
      AppendedActive(configs[1..], config);
    }
  }
}
