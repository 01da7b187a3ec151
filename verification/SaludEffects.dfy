/** What one health evaluation decides about the unit's alert, what it stores, and what a saved configuration is. */
module SaludEffects {
  import opened Wrappers
  import opened Salud
  import opened SaludLaws
  import Andon
  import HealthScore
  import Inbox

  // -- What a unit is judged on ---------------------------------------------------------

  /** The configuration in force: the active one, and the defaults where there is none. */
  function InForce(s: Store, now: Time): Config {
    var active := ActiveConfig(s.configs);
    if active.Some? then active.value
    else Config(s.nextId, 1, [HealthScore.DimensionWeight("maintenance", 45.0), HealthScore.DimensionWeight("alerts", 40.0),
                              HealthScore.DimensionWeight("inspections", 15.0)],
                true, 60.0, 65.0, Inbox.Warning, true, now, Some("seed"))
  }

  lemma EvaluatedUnderWhatIsInForce(s: Store, now: Time)
    requires ConfigLaw(s.configs)
    ensures var s1 := EnsureActiveConfig(s, now);
            && ActiveConfig(s1.configs) == Some(InForce(s, now))
            && s1 == (if ActiveConfig(s.configs).Some? then s else s.(configs := s.configs + [InForce(s, now)], nextId := s.nextId + 1))
  {
    if s.configs != [] {
      LastIsActive(s.configs);
    }
  }

  /** The score that the unit's facts give: the odometer is the furthest reading, and an open notice costs thirty points. */
  lemma JudgedOnFacts(config: Config, f: UnitFacts, now: Time)
    ensures var input := InputOf(config, f, now);
            && input.dimensions == config.dimensions && input.lastClosed == f.lastClosed && input.now == now
            && input.tKm == f.tKm && input.tDias == f.tDias && input.inspection.None?
            && (input.currentKm.None? <==> f.lastClosed.None? && f.flotaKm.None?)
            && (f.lastClosed.Some? && f.flotaKm.Some? ==>
                  input.currentKm == Some(if f.lastClosed.value.km < f.flotaKm.value then f.flotaKm.value else f.lastClosed.value.km))
            && HealthScore.AlertsScore(input.sourceAlerts) == (if f.hasNotice then 70.0 else 100.0)
            && !HealthScore.CriticalSafety(input.sourceAlerts)
            && (HealthScore.HasMaintenanceAlert(input.sourceAlerts) <==> f.hasNotice)
  {
    var alerts := Notices(f.hasNotice);
    if f.hasNotice {
      assert alerts[..0] == [];
      assert HealthScore.Penalties(alerts) == 30;
      assert alerts[0].category == HealthScore.MaintenanceCategory;
    }
  }

  /** A unit nobody reported on has the default intervals and nothing else. */
  lemma UnknownUnit(facts: map<Id, UnitFacts>, u: Id)
    ensures FactsOf(facts, u) == if u in facts then facts[u] else UnitFacts(None, None, 10000, 90, false)
  {
  }

  // -- Hysteresis -----------------------------------------------------------------------

  /** The computed score has come back up to the recovery threshold. */
  predicate Recovered(config: Config, score: Option<int>) {
    score.Some? && score.value as real >= config.recoveryThreshold
  }

  predicate Low(config: Config, score: Option<int>) {
    score.Some? && (score.value as real) < config.alertThreshold
  }

  /** The score has just fallen: it is low and the one stored before, if any, was not. A change of policy looks at no past score. */
  predicate Fell(config: Config, before: Option<int>, score: Option<int>, reevaluate: bool) {
    Low(config, score) && (reevaluate || !Low(config, before))
  }

  ghost predicate Resolves(alerts: seq<HealthAlert>, alerts': seq<HealthAlert>, alert: HealthAlert, now: Time) {
    && |alerts'| == |alerts|
    && forall i :: 0 <= i < |alerts| ==>
         alerts'[i] == if alerts[i] == alert then alert.(estado := Resuelta, resolvedAt := Some(now)) else alerts[i]
  }

  lemma EnactedAlert(s: Store, box: Inbox.Box, active: bool, config: Config, u: Id, score: Option<int>, reevaluate: bool, now: Time)
    requires Lawful(s, box, now)
    ensures var decision := Decide(config, PreviousScore(s, u), score, ActiveAlert(s.alerts, u).Some?, reevaluate);
            var done := Enact(s, box, active, config, u, score, decision, now);
            var alert := ActiveAlert(s.alerts, u);
            && (alert.Some? && Recovered(config, score) ==>
                  Resolves(s.alerts, done.store.alerts, alert.value, now) && done.store.nextId == s.nextId)
            && (alert.Some? && !Recovered(config, score) ==> done.store.alerts == s.alerts && done.store.nextId == s.nextId)
            && (alert.None? && config.alertEnabled && Fell(config, PreviousScore(s, u), score, reevaluate) ==>
                  done.store.nextId == s.nextId + 1
                  && done.store.alerts == s.alerts + [HealthAlert(s.nextId, u, Abierta, score.value, config.alertThreshold, now, None)])
            && (alert.None? && !(config.alertEnabled && Fell(config, PreviousScore(s, u), score, reevaluate)) ==>
                  done.store.alerts == s.alerts && done.store.nextId == s.nextId)
  {
    var alert := ActiveAlert(s.alerts, u);
    if alert.Some? {
      var k :| 0 <= k < |s.alerts| && s.alerts[k] == alert.value;
      UpdateReplaces(s.alerts, k, alert.value.(estado := Resuelta, resolvedAt := Some(now)));
    }
  }

  /** What becomes of a unit's alert. */
  ghost predicate Fate(s: Store, after: Store, config: Config, u: Id, score: Option<int>, reevaluate: bool, now: Time, newId: Id) {
    var alert, before := ActiveAlert(s.alerts, u), PreviousScore(s, u);
    && (alert.Some? && !Recovered(config, score) ==> after.alerts == s.alerts)
    && (alert.Some? && Recovered(config, score) ==> Resolves(s.alerts, after.alerts, alert.value, now) && ActiveAlert(after.alerts, u).None?)
    && (alert.None? ==>
          after.alerts == s.alerts + if config.alertEnabled && Fell(config, before, score, reevaluate)
                                     then [HealthAlert(newId, u, Abierta, score.value, config.alertThreshold, now, None)] else [])
  }

  lemma ConcludedFate(
    s: Store, box: Inbox.Box, active: bool, config: Config, u: Id, c: HealthScore.Computation, reevaluate: bool, now: Time)
    requires Lawful(s, box, now)
    ensures Fate(s, Conclude(s, box, active, config, u, c, reevaluate, now).store, config, u, c.score, reevaluate, now, s.nextId)
  {
    EnactedAlert(s, box, active, config, u, c.score, reevaluate, now);
    var alert := ActiveAlert(s.alerts, u);
    if alert.Some? && Recovered(config, c.score) {
      ResolvedAlert(s.alerts, s.nextId, alert.value, now, u);
    }
  }

  /** The computation an evaluation concludes from. */
  function Computed(s: Store, facts: map<Id, UnitFacts>, u: Id, now: Time): HealthScore.Computation {
    HealthScore.Health(InputOf(InForce(s, now), FactsOf(facts, u), now))
  }

  lemma EvaluationConcludes(s: Store, box: Inbox.Box, active: bool, facts: map<Id, UnitFacts>, u: Id, reevaluate: bool, now: Time)
    requires Sound(s, box, now)
    ensures Lawful(EnsureActiveConfig(s, now), box, now)
    ensures EvaluateUnidad(s, box, active, facts, u, reevaluate, now)
         == Conclude(EnsureActiveConfig(s, now), box, active, InForce(s, now), u, Computed(s, facts, u, now), reevaluate, now)
  {
    EvaluatedUnderWhatIsInForce(s, now);
  }

  /**
   The fate of a unit's alert. An open one stays, the same, exactly while the score is absent or
   below the recovery threshold, and is otherwise resolved now, whether or not the rule is on.
   Without one, an alert opens exactly when the rule is on and the score has just fallen below
   the alert threshold. Alerts of other units are as they were.
   */
  lemma AlertFate(s: Store, box: Inbox.Box, active: bool, facts: map<Id, UnitFacts>, u: Id, reevaluate: bool, now: Time)
    requires Sound(s, box, now)
    ensures var after := EvaluateUnidad(s, box, active, facts, u, reevaluate, now).store;
            var config, score := InForce(s, now), Computed(s, facts, u, now).score;
            && Fate(s, after, config, u, score, reevaluate, now, EnsureActiveConfig(s, now).nextId)
            && (ActiveAlert(s.alerts, u).Some? ==> (ActiveAlert(after.alerts, u) == ActiveAlert(s.alerts, u) <==> !Recovered(config, score)))
  {
    EvaluationConcludes(s, box, active, facts, u, reevaluate, now);
    ConcludedFate(EnsureActiveConfig(s, now), box, active, InForce(s, now), u, Computed(s, facts, u, now), reevaluate, now);
  }

  /** The entry is named after an alert that opens while the type is active, closed with one that is resolved, else untouched. */
  ghost predicate Told(s: Store, box: Inbox.Box, box': Inbox.Box, active: bool, config: Config, u: Id, score: Option<int>, reevaluate: bool, newId: Id) {
    var alert := ActiveAlert(s.alerts, u);
    var opens := alert.None? && config.alertEnabled && Fell(config, PreviousScore(s, u), score, reevaluate);
    var closes := alert.Some? && Recovered(config, score);
    && (opens && active ==>
          var entry := Inbox.FindByDedupe(box'.items, Inbox.HealthBelow(u));
          entry.Some? && entry.value.sourceRef == newId && entry.value.severity == config.severity && entry.value.expiresAt.None?)
    && (closes ==> Inbox.Live(box', Inbox.HealthBelow(u)).None?)
    && (!(opens && active) && !closes ==> box' == box)
  }

  lemma ConclusionIsTold(
    s: Store, box: Inbox.Box, active: bool, config: Config, u: Id, c: HealthScore.Computation, reevaluate: bool, now: Time)
    requires Lawful(s, box, now)
    ensures Told(s, box, Conclude(s, box, active, config, u, c, reevaluate, now).box, active, config, u, c.score, reevaluate, s.nextId)
  {
    Inbox.IngestRecords(box, Inbox.IngestCommand(s.nextId, config.severity, Key(u), Some(now)), now);
    Inbox.ExpireEffect(box, Key(u), now);
  }

  lemma AlertIsAnnounced(s: Store, box: Inbox.Box, active: bool, facts: map<Id, UnitFacts>, u: Id, reevaluate: bool, now: Time)
    requires Sound(s, box, now)
    ensures Told(s, box, EvaluateUnidad(s, box, active, facts, u, reevaluate, now).box, active, InForce(s, now), u,
                 Computed(s, facts, u, now).score, reevaluate, EnsureActiveConfig(s, now).nextId)
  {
    EvaluationConcludes(s, box, active, facts, u, reevaluate, now);
    ConclusionIsTold(EnsureActiveConfig(s, now), box, active, InForce(s, now), u, Computed(s, facts, u, now), reevaluate, now);
  }

  lemma ConclusionIsStored(
    s: Store, box: Inbox.Box, active: bool, config: Config, u: Id, c: HealthScore.Computation, reevaluate: bool, now: Time)
    ensures var after := Conclude(s, box, active, config, u, c, reevaluate, now).store;
            after.configs == s.configs && after.snapshots == s.snapshots[u := Snapshot(c.score, c.raw, c.status, now, config.version)]
  {
  }

  /** Every evaluation stores the unit's score, with when and under which version it was computed, and no other unit's. */
  lemma ScoreIsStored(s: Store, box: Inbox.Box, active: bool, facts: map<Id, UnitFacts>, u: Id, reevaluate: bool, now: Time)
    requires Sound(s, box, now)
    ensures var config, c := InForce(s, now), Computed(s, facts, u, now);
            var after := EvaluateUnidad(s, box, active, facts, u, reevaluate, now).store;
            && after.snapshots == s.snapshots[u := Snapshot(c.score, c.raw, c.status, now, config.version)]
            && after.configs == EnsureActiveConfig(s, now).configs
  {
    EvaluationConcludes(s, box, active, facts, u, reevaluate, now);
    EvaluatedUnderWhatIsInForce(s, now);
    ConclusionIsStored(EnsureActiveConfig(s, now), box, active, InForce(s, now), u, Computed(s, facts, u, now), reevaluate, now);
  }

  /** The answer shows that computation, the version and weights it was made under, and whose it is. */
  lemma AnswerShowsComputation(s: Store, facts: map<Id, UnitFacts>, u: Id, reevaluate: bool, now: Time)
    requires ConfigLaw(s.configs)
    ensures ActiveConfig(EnsureActiveConfig(s, now).configs).Some?
    ensures var r, config := ResultUnder(EnsureActiveConfig(s, now), facts, u, reevaluate, now), InForce(s, now);
            && r.unidadId == u && r.configVersion == config.version && r.weights == config.dimensions
            && r.computation == Computed(s, facts, u, now)
  {
    EvaluatedUnderWhatIsInForce(s, now);
  }

  // -- Saving a configuration -----------------------------------------------------------

  function AsReal(n: int): real {
    n as real
  }

  /** A whole percentage. */
  ghost predicate Whole(r: real) {
    0.0 <= r <= 100.0 && exists n: int :: AsReal(n) == r
  }

  /** Accepted exactly with good weights, whole thresholds the second above the first, and one of the four severities. */
  lemma ConfigurationIsAcceptedIff(
    s: Store, box: Inbox.Box, active: bool, facts: map<Id, UnitFacts>, catalog: seq<Id>, input: ConfigInput, createdBy: Option<string>, now: Time)
    ensures SaveConfig(s, box, active, facts, catalog, input, createdBy, now).Some? <==>
              && HealthScore.WeightsOk(input.dimensions)
              && Whole(input.alertThreshold) && Whole(input.recoveryThreshold) && input.alertThreshold < input.recoveryThreshold
              && input.severity in {"LOW", "INFO", "WARNING", "CRITICAL"}
  {
    WholeIsPercent(input.alertThreshold);
    WholeIsPercent(input.recoveryThreshold);
  }

  lemma WholeIsPercent(r: real)
    ensures Whole(r) <==> HealthScore.IsPercent(r)
  {
    if r == r.Floor as real {
      assert AsReal(r.Floor) == r;
    }
  }

  ghost predicate SeverityIs(text: string, s: Inbox.Severity) {
    (text == "LOW" && s == Inbox.Low) || (text == "INFO" && s == Inbox.Info)
    || (text == "WARNING" && s == Inbox.Warning) || (text == "CRITICAL" && s == Inbox.Critical)
  }

  /** The new version carries what was sent, above every earlier one; those stay but for being active. */
  lemma ConfigurationIsStored(s: Store, input: ConfigInput, createdBy: Option<string>, now: Time)
    requires ConfigOk(input)
    ensures var s' := Configured(s, NewConfig(s, input, createdBy, now));
            && |s'.configs| == |s.configs| + 1
            && var config := s'.configs[|s.configs|];
               && config == Config(s.nextId, config.version, input.dimensions, input.alertEnabled, input.alertThreshold, input.recoveryThreshold,
                                   config.severity, true, now, createdBy)
               && SeverityIs(input.severity, config.severity)
               && (forall i :: 0 <= i < |s.configs| ==> s.configs[i].version < config.version && s'.configs[i] == s.configs[i].(isActive := false))
               && (config.version == 1 || exists i :: 0 <= i < |s.configs| && s.configs[i].version + 1 == config.version)
               && s'.snapshots == s.snapshots && s'.alerts == s.alerts
  {
    assert "LOW"[0] == 'L' && "INFO"[0] == 'I' && "WARNING"[0] == 'W' && "CRITICAL"[0] == 'C';
    MaxIsReached(s.configs);
  }

  lemma {:induction false} MaxIsReached(configs: seq<Config>)
    ensures MaxVersion(configs) == 0 || exists i :: 0 <= i < |configs| && configs[i].version == MaxVersion(configs)
  {
    if configs != [] {
      MaxIsReached(configs[..|configs| - 1]);
    }
  }
}
