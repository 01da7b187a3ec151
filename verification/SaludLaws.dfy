/** What every run of health evaluations and configuration changes keeps. */
module SaludLaws {
  import opened Wrappers
  import opened Salud
  import HealthScore
  import Inbox

  // -- Configurations -------------------------------------------------------------------

  /** Versions only grow, every version is valid, and the last one alone is active. */
  ghost predicate ConfigLaw(configs: seq<Config>) {
    Growing(configs) && (forall i :: 0 <= i < |configs| ==> Valid(configs[i]))
  }

  ghost predicate Growing(configs: seq<Config>) {
    && (forall i, j :: 0 <= i < j < |configs| ==> configs[i].version < configs[j].version)
    && (forall i :: 0 <= i < |configs| ==> (configs[i].isActive <==> i == |configs| - 1))
  }

  ghost predicate Valid(config: Config) {
    HealthScore.WeightsOk(config.dimensions) && HealthScore.AlertThresholdsOk(config.alertThreshold, config.recoveryThreshold)
  }

  /** Earlier versions are kept as they were, but for being active. */
  ghost predicate Lineage(before: seq<Config>, after: seq<Config>) {
    |before| <= |after| && forall i :: 0 <= i < |before| ==> after[i].(isActive := before[i].isActive) == before[i]
  }

  lemma {:induction false} LastIsActive(configs: seq<Config>)
    requires ConfigLaw(configs) && configs != []
    ensures ActiveConfig(configs) == Some(configs[|configs| - 1])
  {
    var k :| 0 <= k < |configs| && Some(configs[k]) == ActiveConfig(configs);
  }

  lemma DefaultsAreValid()
    ensures HealthScore.WeightsOk(DefaultDimensions()) && HealthScore.AlertThresholdsOk(60.0, 65.0)
  {
    var dims := DefaultDimensions();
    assert dims[0].id == HealthScore.MAINTENANCE && dims[1].id == HealthScore.ALERTS && dims[2].id == HealthScore.INSPECTIONS;
    assert HealthScore.MAINTENANCE[0] == 'm' && HealthScore.ALERTS[0] == 'a' && HealthScore.INSPECTIONS[0] == 'i';
    assert dims[..2] == [dims[0], dims[1]] && dims[..2][..1] == [dims[0]] && dims[..2][..1][..0] == [];
    assert HealthScore.SumWeights(dims[..2][..1]) == 45.0;
    assert HealthScore.SumWeights(dims[..2]) == 85.0;
  }

  lemma EnsureKeepsConfigs(s: Store, now: Time)
    requires ConfigLaw(s.configs)
    ensures var s' := EnsureActiveConfig(s, now);
            ConfigLaw(s'.configs) && s'.configs != [] && Lineage(s.configs, s'.configs) && (s.configs != [] ==> s' == s)
  {
    if s.configs != [] {
      LastIsActive(s.configs);
    } else {
      DefaultsAreValid();
    }
  }

  lemma NewVersionGrows(configs: seq<Config>, config: Config)
    requires Growing(configs) && config.version == MaxVersion(configs) + 1 && config.isActive
    ensures Growing(Deactivated(configs) + [config]) && Lineage(configs, Deactivated(configs) + [config])
  {
  }

  lemma NewVersionKeepsLaw(configs: seq<Config>, config: Config)
    requires ConfigLaw(configs) && config.version == MaxVersion(configs) + 1 && config.isActive && Valid(config)
    ensures ConfigLaw(Deactivated(configs) + [config]) && Lineage(configs, Deactivated(configs) + [config])
  {
    NewVersionGrows(configs, config);
    var after := Deactivated(configs) + [config];
    forall i | 0 <= i < |after|
      ensures Valid(after[i])
    {
      assert i < |configs| ==> Valid(configs[i]);
    }
  }

  lemma SaveKeepsConfigs(s: Store, input: ConfigInput, createdBy: Option<string>, now: Time)
    requires ConfigLaw(s.configs) && ConfigOk(input)
    ensures var s' := Configured(s, NewConfig(s, input, createdBy, now));
            ConfigLaw(s'.configs) && s'.configs != [] && Lineage(s.configs, s'.configs)
            && ActiveConfig(s'.configs) == Some(NewConfig(s, input, createdBy, now))
  {
    NewVersionKeepsLaw(s.configs, NewConfig(s, input, createdBy, now));
    LastIsActive(Configured(s, NewConfig(s, input, createdBy, now)).configs);
  }

  // -- Alerts ---------------------------------------------------------------------------

  /** Identifiers are distinct, and a unit has at most one open alert. */
  ghost predicate AlertLaw(alerts: seq<HealthAlert>, nextId: Id) {
    && (forall i, j :: 0 <= i < j < |alerts| ==> alerts[i].id != alerts[j].id)
    && (forall i :: 0 <= i < |alerts| ==> alerts[i].id < nextId)
    && (forall i, j :: 0 <= i < j < |alerts| && alerts[i].unidadId == alerts[j].unidadId ==>
          alerts[i].estado == Resuelta || alerts[j].estado == Resuelta)
  }

  lemma {:induction false} SameActive(alerts: seq<HealthAlert>, after: seq<HealthAlert>, v: Id)
    requires |alerts| == |after|
    requires forall i :: 0 <= i < |alerts| && after[i] != alerts[i] ==> alerts[i].unidadId != v && after[i].unidadId != v
    ensures ActiveAlert(after, v) == ActiveAlert(alerts, v)
  {
    if alerts != [] {
      SameActive(alerts[1..], after[1..], v);
    }
  }

  lemma {:induction false} AppendedAlert(alerts: seq<HealthAlert>, alert: HealthAlert, v: Id)
    ensures ActiveAlert(alerts + [alert], v)
         == if ActiveAlert(alerts, v).Some? then ActiveAlert(alerts, v)
            else if v == alert.unidadId && alert.estado == Abierta then Some(alert) else None
  {
    if alerts != [] {
      assert (alerts + [alert])[0] == alerts[0] && (alerts + [alert])[1..] == alerts[1..] + [alert];
      AppendedAlert(alerts[1..], alert, v);
    }
  }

  lemma UpdateReplaces(alerts: seq<HealthAlert>, k: nat, alert: HealthAlert)
    requires forall i, j :: 0 <= i < j < |alerts| ==> alerts[i].id != alerts[j].id
    requires k < |alerts| && alerts[k].id == alert.id
    ensures UpdateAlert(alerts, alert) == alerts[k := alert]
  {
  }

  lemma ResolvedKeepsLaw(alerts: seq<HealthAlert>, nextId: Id, k: nat, resolved: HealthAlert)
    requires AlertLaw(alerts, nextId) && k < |alerts|
    requires resolved.id == alerts[k].id && resolved.unidadId == alerts[k].unidadId && resolved.estado == Resuelta
    ensures AlertLaw(alerts[k := resolved], nextId)
  {
  }

  lemma ResolvedShows(alerts: seq<HealthAlert>, nextId: Id, k: nat, resolved: HealthAlert, v: Id)
    requires AlertLaw(alerts, nextId) && k < |alerts| && alerts[k].estado == Abierta
    requires resolved.unidadId == alerts[k].unidadId && resolved.estado == Resuelta
    ensures ActiveAlert(alerts[k := resolved], v) == if v == resolved.unidadId then None else ActiveAlert(alerts, v)
  {
    var after := alerts[k := resolved];
    if v != resolved.unidadId {
      SameActive(alerts, after, v);
    } else {
      assert forall i :: 0 <= i < |alerts| && i != k && alerts[i].unidadId == v ==> alerts[i].estado == Resuelta;
      assert forall i :: 0 <= i < |after| ==> after[i].unidadId != v || after[i].estado == Resuelta;
    }
  }

  lemma ResolvedAlert(alerts: seq<HealthAlert>, nextId: Id, alert: HealthAlert, now: Time, v: Id)
    requires AlertLaw(alerts, nextId) && ActiveAlert(alerts, alert.unidadId) == Some(alert)
    ensures var after := UpdateAlert(alerts, alert.(estado := Resuelta, resolvedAt := Some(now)));
            AlertLaw(after, nextId) && ActiveAlert(after, v) == if v == alert.unidadId then None else ActiveAlert(alerts, v)
  {
    var resolved := alert.(estado := Resuelta, resolvedAt := Some(now));
    var k :| 0 <= k < |alerts| && alerts[k] == alert;
    UpdateReplaces(alerts, k, resolved);
    ResolvedKeepsLaw(alerts, nextId, k, resolved);
    ResolvedShows(alerts, nextId, k, resolved, v);
  }

  lemma AppendKeepsLaw(alerts: seq<HealthAlert>, nextId: Id, alert: HealthAlert)
    requires AlertLaw(alerts, nextId) && alert.id == nextId && ActiveAlert(alerts, alert.unidadId).None?
    ensures AlertLaw(alerts + [alert], nextId + 1)
  {
  }

  function Entry(box: Inbox.Box, u: Id): Option<Inbox.Severity> {
    Inbox.Live(box, Key(u))
  }

  ghost predicate Lawful(s: Store, box: Inbox.Box, now: Time) {
    AlertLaw(s.alerts, s.nextId) && Inbox.BoxLaw(box, now)
  }

  /** An evaluation of u to the given score and decision, as far as unit v can tell. */
  ghost predicate Judgement(
    s: Store, box: Inbox.Box, active: bool, config: Config, u: Id, current: Option<int>, decision: Decision, now: Time, done: Evaluated, v: Id)
  {
    && Lawful(done.store, done.box, now) && done.store.configs == s.configs
    && PreviousScore(done.store, v) == (if v == u then current else PreviousScore(s, v))
    && ActiveAlert(done.store.alerts, v) == (if v == u then NextAlert(s, config, u, current, decision, now) else ActiveAlert(s.alerts, v))
    && Entry(done.box, v) == (if v != u || decision == Keep || decision == Nothing then Entry(box, v)
                              else if decision == Resolve then None else if active then Some(config.severity) else Entry(box, v))
    && (decision == Keep || decision == Nothing ==> done.store.alerts == s.alerts)
  }

  function DecisionOn(s: Store, config: Config, u: Id, current: Option<int>, reevaluate: bool): Decision {
    Decide(config, PreviousScore(s, u), current, ActiveAlert(s.alerts, u).Some?, reevaluate)
  }

  function ScoreOf(config: Config, f: UnitFacts, now: Time): Option<int> {
    HealthScore.Health(InputOf(config, f, now)).score
  }

  lemma DecisionEffect(
    s: Store, box: Inbox.Box, active: bool, config: Config, u: Id, current: Option<int>, decision: Decision, now: Time, v: Id)
    requires Lawful(s, box, now)
    requires decision == Create ==> current.Some? && ActiveAlert(s.alerts, u).None?
    requires decision == Resolve ==> current.Some? && ActiveAlert(s.alerts, u).Some?
    ensures var done := Enact(s, box, active, config, u, current, decision, now);
            && Lawful(done.store, done.box, now) && done.store.configs == s.configs && done.store.snapshots == s.snapshots
            && ActiveAlert(done.store.alerts, v) == (if v == u then NextAlert(s, config, u, current, decision, now) else ActiveAlert(s.alerts, v))
            && Entry(done.box, v) == (if v != u || decision == Keep || decision == Nothing then Entry(box, v)
                                      else if decision == Resolve then None else if active then Some(config.severity) else Entry(box, v))
  {
    if decision == Create {
      OpenEffect(s, box, active, config, u, current.value, now, v);
    } else if decision == Resolve {
      ResolvedAlert(s.alerts, s.nextId, ActiveAlert(s.alerts, u).value, now, v);
      Inbox.ExpireEffect(box, Key(u), now);
    }
  }

  lemma ConcludeEffect(
    s: Store, box: Inbox.Box, active: bool, config: Config, u: Id, c: HealthScore.Computation, reevaluate: bool, now: Time, v: Id)
    requires Lawful(s, box, now)
    ensures Judgement(s, box, active, config, u, c.score, DecisionOn(s, config, u, c.score, reevaluate), now,
                      Conclude(s, box, active, config, u, c, reevaluate, now), v)
  {
    DecisionEffect(s, box, active, config, u, c.score, DecisionOn(s, config, u, c.score, reevaluate), now, v);
  }

  lemma EvaluateUnderEffect(
    s: Store, box: Inbox.Box, active: bool, config: Config, f: UnitFacts, u: Id, reevaluate: bool, now: Time, v: Id)
    requires Lawful(s, box, now)
    ensures var current := ScoreOf(config, f, now);
            Judgement(s, box, active, config, u, current, DecisionOn(s, config, u, current, reevaluate), now,
                      EvaluateUnder(s, box, active, config, f, u, reevaluate, now), v)
  {
    ConcludeEffect(s, box, active, config, u, HealthScore.Health(InputOf(config, f, now)), reevaluate, now, v);
  }

  lemma OpenEffect(s: Store, box: Inbox.Box, active: bool, config: Config, u: Id, score: int, now: Time, v: Id)
    requires Lawful(s, box, now) && ActiveAlert(s.alerts, u).None?
    ensures var done := OpenAlert(s, box, active, config, u, score, now);
            var alert := HealthAlert(s.nextId, u, Abierta, score, config.alertThreshold, now, None);
            && Lawful(done.store, done.box, now)
            && ActiveAlert(done.store.alerts, v) == (if v == u then Some(alert) else ActiveAlert(s.alerts, v))
            && Entry(done.box, v) == (if v == u && active then Some(config.severity) else Entry(box, v))
  {
    var alert := HealthAlert(s.nextId, u, Abierta, score, config.alertThreshold, now, None);
    AppendedAlert(s.alerts, alert, v);
    AppendKeepsLaw(s.alerts, s.nextId, alert);
    if active {
      Inbox.IngestEffect(box, Inbox.IngestCommand(alert.id, config.severity, Key(u), Some(now)), now);
    }
  }

  // -- Completeness ---------------------------------------------------------------------

  /** While the rule is enabled, a stored score below the threshold has its open alert. */
  ghost predicate Watched(s: Store, u: Id) {
    var config := ActiveConfig(s.configs);
    config.Some? && config.value.alertEnabled && PreviousScore(s, u).Some? && PreviousScore(s, u).value as real < config.value.alertThreshold
    ==> ActiveAlert(s.alerts, u).Some?
  }

  /** The entry of a unit follows its open alert; exactly, if strict. */
  ghost predicate InStep(s: Store, box: Inbox.Box, u: Id, strict: bool) {
    && (Entry(box, u).Some? ==> ActiveAlert(s.alerts, u).Some?)
    && (strict && ActiveAlert(s.alerts, u).Some? ==> Entry(box, u).Some?)
  }

  ghost predicate Sound(s: Store, box: Inbox.Box, now: Time) {
    ConfigLaw(s.configs) && Lawful(s, box, now) && (s.configs == [] ==> s.snapshots == map[])
  }

  /** The configuration an evaluation runs under, and its judgement. */
  lemma EvaluateIsJudged(
    s: Store, box: Inbox.Box, active: bool, facts: map<Id, UnitFacts>, u: Id, reevaluate: bool, now: Time, v: Id)
    returns (config: Config, current: Option<int>)
    requires Sound(s, box, now)
    ensures var s1 := EnsureActiveConfig(s, now);
            var done := EvaluateUnidad(s, box, active, facts, u, reevaluate, now);
            && ConfigLaw(s1.configs) && s1.configs != [] && Lineage(s.configs, s1.configs)
            && ActiveConfig(s1.configs) == Some(config) && HealthScore.AlertThresholdsOk(config.alertThreshold, config.recoveryThreshold)
            && s1.alerts == s.alerts && s1.snapshots == s.snapshots && (s.configs != [] ==> s1 == s)
            && current == ScoreOf(config, FactsOf(facts, u), now)
            && Judgement(s1, box, active, config, u, current, DecisionOn(s1, config, u, current, reevaluate), now, done, v)
  {
    var s1 := EnsureActiveConfig(s, now);
    EnsureKeepsConfigs(s, now);
    LastIsActive(s1.configs);
    config := ActiveConfig(s1.configs).value;
    current := ScoreOf(config, FactsOf(facts, u), now);
    EvaluateUnderEffect(s1, box, active, config, FactsOf(facts, u), u, reevaluate, now, v);
  }

  /** The answer of an evaluation names the alert that is open for the unit afterwards, and none otherwise. */
  lemma AnswerNamesOpenAlert(s: Store, box: Inbox.Box, active: bool, facts: map<Id, UnitFacts>, u: Id, reevaluate: bool, now: Time)
    requires Sound(s, box, now)
    ensures ActiveConfig(EnsureActiveConfig(s, now).configs).Some?
    ensures var result := ResultUnder(EnsureActiveConfig(s, now), facts, u, reevaluate, now);
            var after := EvaluateUnidad(s, box, active, facts, u, reevaluate, now).store;
            && result.derived == (if ActiveAlert(after.alerts, u).Some? then Some(ActiveAlert(after.alerts, u).value.id) else None)
            && result.computation.score == PreviousScore(after, u)
  {
    var config, current := EvaluateIsJudged(s, box, active, facts, u, reevaluate, now, u);
  }

  /** A judgement keeps v watched, or makes it so when it is v's own, by policy. */
  lemma JudgementWatches(
    s: Store, box: Inbox.Box, active: bool, config: Config, u: Id, current: Option<int>, reevaluate: bool, now: Time, done: Evaluated, v: Id)
    requires Judgement(s, box, active, config, u, current, DecisionOn(s, config, u, current, reevaluate), now, done, v)
    requires ActiveConfig(s.configs) == Some(config) && config.recoveryThreshold > config.alertThreshold
    requires Watched(s, v) || (v == u && reevaluate)
    ensures Watched(done.store, v)
  {
  }

  lemma JudgementKeepsStep(
    s: Store, box: Inbox.Box, active: bool, config: Config, u: Id, current: Option<int>, reevaluate: bool, now: Time, done: Evaluated, v: Id, strict: bool)
    requires Judgement(s, box, active, config, u, current, DecisionOn(s, config, u, current, reevaluate), now, done, v)
    requires InStep(s, box, v, strict) && (strict ==> active)
    ensures InStep(done.store, done.box, v, strict)
  {
  }

  /** Evaluating u keeps the laws, the earlier versions, and the entry of v in step. */
  lemma EvaluateSound(
    s: Store, box: Inbox.Box, active: bool, facts: map<Id, UnitFacts>, u: Id, reevaluate: bool, now: Time, v: Id, strict: bool)
    requires Sound(s, box, now) && (strict ==> active) && InStep(s, box, v, strict)
    ensures var done := EvaluateUnidad(s, box, active, facts, u, reevaluate, now);
            Sound(done.store, done.box, now) && Lineage(s.configs, done.store.configs) && InStep(done.store, done.box, v, strict)
  {
    var config, current := EvaluateIsJudged(s, box, active, facts, u, reevaluate, now, v);
    JudgementKeepsStep(EnsureActiveConfig(s, now), box, active, config, u, current, reevaluate, now,
                       EvaluateUnidad(s, box, active, facts, u, reevaluate, now), v, strict);
  }

  /** Evaluating u: what v could rely on it still can; and a judgement by policy makes u itself watched. */
  lemma EvaluateWatches(s: Store, box: Inbox.Box, active: bool, facts: map<Id, UnitFacts>, u: Id, reevaluate: bool, now: Time, v: Id)
    requires Sound(s, box, now)
    requires Watched(s, v) || (v == u && reevaluate)
    ensures Watched(EvaluateUnidad(s, box, active, facts, u, reevaluate, now).store, v)
  {
    var config, current := EvaluateIsJudged(s, box, active, facts, u, reevaluate, now, v);
    var s1 := EnsureActiveConfig(s, now);
    assert Watched(s, v) ==> Watched(s1, v);
    JudgementWatches(s1, box, active, config, u, current, reevaluate, now, EvaluateUnidad(s, box, active, facts, u, reevaluate, now), v);
  }

  lemma LineageOn(a: seq<Config>, b: seq<Config>, c: seq<Config>)
    requires Lineage(a, b) && Lineage(b, c)
    ensures Lineage(a, c)
  {
    forall i | 0 <= i < |a|
      ensures c[i].(isActive := a[i].isActive) == a[i]
    {
      assert b[i].(isActive := a[i].isActive) == a[i] && c[i].(isActive := b[i].isActive) == b[i];
    }
  }

  lemma {:induction false} EvaluateAllKeeps(
    s: Store, box: Inbox.Box, active: bool, facts: map<Id, UnitFacts>, units: seq<Id>, reevaluate: bool, now: Time, v: Id, strict: bool)
    requires Sound(s, box, now) && (strict ==> active)
    requires Watched(s, v) || (v in units && reevaluate)
    requires InStep(s, box, v, strict)
    ensures var done := EvaluateAll(s, box, active, facts, units, reevaluate, now);
            && Sound(done.store, done.box, now) && Lineage(s.configs, done.store.configs)
            && Watched(done.store, v) && InStep(done.store, done.box, v, strict)
    decreases units
  {
    if units != [] {
      var first := EvaluateUnidad(s, box, active, facts, units[0], reevaluate, now);
      EvaluateSound(s, box, active, facts, units[0], reevaluate, now, v, strict);
      if Watched(s, v) || units[0] == v {
        EvaluateWatches(s, box, active, facts, units[0], reevaluate, now, v);
      }
      EvaluateAllKeeps(first.store, first.box, active, facts, units[1..], reevaluate, now, v, strict);
      LineageOn(s.configs, first.store.configs, EvaluateAll(s, box, active, facts, units, reevaluate, now).store.configs);
    }
  }

  // -- Runs over a fixed catalogue --------------------------------------------------------

  datatype System = System(store: Store, box: Inbox.Box, active: bool, clock: Time)

  /** Each action sees whatever the other modules then know of the units. */
  datatype Action =
    | Evaluate(facts: map<Id, UnitFacts>, unidadId: Id)
    | EvaluateEvery(facts: map<Id, UnitFacts>)
    | Save(facts: map<Id, UnitFacts>, input: ConfigInput, createdBy: Option<string>)
    | Ensure
    | Switch(on: bool)
    | ReadOne(itemId: Inbox.Id, user: string)
    | ReadEverything(user: string)
    | OtherIngest(cmd: Inbox.IngestCommand)
    | OtherExpire(key: Inbox.DedupeKey)
    | Wait(elapsed: nat)

  /** Readers and other modules use the inbox too, but other modules have keys of their own. */
  predicate Expected(a: Action) {
    match a
    case OtherIngest(cmd) => !cmd.dedupeKey.HealthBelow?
    case OtherExpire(key) => !key.HealthBelow?
    case _ => true
  }

  function Act(s: System, catalog: seq<Id>, a: Action): System {
    match a
    case Evaluate(facts, u) =>
      var done := EvaluateUnidad(s.store, s.box, s.active, facts, u, false, s.clock);
      s.(store := done.store, box := done.box)
    case EvaluateEvery(facts) =>
      var done := EvaluateAll(s.store, s.box, s.active, facts, catalog, false, s.clock);
      s.(store := done.store, box := done.box)
    case Save(facts, input, createdBy) =>
      var done := SaveConfig(s.store, s.box, s.active, facts, catalog, input, createdBy, s.clock);
      if done.Some? then s.(store := done.value.store, box := done.value.box) else s
    case Ensure => s.(store := EnsureActiveConfig(s.store, s.clock))
    case Switch(on) => s.(active := on)
    case ReadOne(itemId, user) =>
      var r := Inbox.MarkRead(s.box, itemId, user, s.clock);
      if r.Ok? then s.(box := r.value) else s
    case ReadEverything(user) => s.(box := Inbox.MarkAllRead(s.box, user, s.clock))
    case OtherIngest(cmd) => s.(box := Inbox.Ingest(s.box, cmd, s.clock))
    case OtherExpire(key) => s.(box := Inbox.ExpireDedupe(s.box, key, s.clock))
    case Wait(elapsed) => s.(clock := s.clock + elapsed)
  }

  function Run(s: System, catalog: seq<Id>, actions: seq<Action>): System {
    if actions == [] then s else Act(Run(s, catalog, actions[..|actions| - 1]), catalog, actions[|actions| - 1])
  }

  ghost predicate Kept(s: System, v: Id, strict: bool) {
    Sound(s.store, s.box, s.clock) && Watched(s.store, v) && InStep(s.store, s.box, v, strict) && (strict ==> s.active)
  }

  lemma ConfiguredIsSound(s: System, input: ConfigInput, createdBy: Option<string>, v: Id, strict: bool)
    requires Kept(s, v, strict) && ConfigOk(input)
    ensures var s1 := Configured(s.store, NewConfig(s.store, input, createdBy, s.clock));
            Sound(s1, s.box, s.clock) && InStep(s1, s.box, v, strict) && Lineage(s.store.configs, s1.configs)
  {
    SaveKeepsConfigs(s.store, input, createdBy, s.clock);
  }

  lemma SaveKeeps(s: System, catalog: seq<Id>, facts: map<Id, UnitFacts>, input: ConfigInput, createdBy: Option<string>, v: Id, strict: bool)
    requires Kept(s, v, strict) && v in catalog && ConfigOk(input)
    ensures var s1 := Configured(s.store, NewConfig(s.store, input, createdBy, s.clock));
            var done := EvaluateAll(s1, s.box, s.active, facts, catalog, true, s.clock);
            && Sound(done.store, done.box, s.clock) && Lineage(s.store.configs, done.store.configs)
            && Watched(done.store, v) && InStep(done.store, done.box, v, strict)
  {
    ConfiguredIsSound(s, input, createdBy, v, strict);
    var s1 := Configured(s.store, NewConfig(s.store, input, createdBy, s.clock));
    EvaluateAllKeeps(s1, s.box, s.active, facts, catalog, true, s.clock, v, strict);
    LineageOn(s.store.configs, s1.configs, EvaluateAll(s1, s.box, s.active, facts, catalog, true, s.clock).store.configs);
  }

  lemma EnsureKeeps(s: System, v: Id, strict: bool)
    requires Kept(s, v, strict)
    ensures Kept(s.(store := EnsureActiveConfig(s.store, s.clock)), v, strict)
    ensures Lineage(s.store.configs, EnsureActiveConfig(s.store, s.clock).configs)
  {
    EnsureKeepsConfigs(s.store, s.clock);
  }

  lemma SameEntryKeeps(s: System, box: Inbox.Box, v: Id, strict: bool)
    requires Kept(s, v, strict) && Inbox.BoxLaw(box, s.clock) && Entry(box, v) == Entry(s.box, v)
    ensures Kept(s.(box := box), v, strict)
  {
  }

  lemma ReadingKeepsEntry(s: System, catalog: seq<Id>, a: Action, v: Id)
    requires (a.ReadOne? || a.ReadEverything?) && Inbox.BoxLaw(s.box, s.clock)
    ensures var box := Act(s, catalog, a).box; Inbox.BoxLaw(box, s.clock) && Entry(box, v) == Entry(s.box, v)
  {
    if a.ReadEverything? {
      Inbox.MarkAllReadEmptiesBadge(s.box, a.user, s.clock);
    }
  }

  predicate OnInbox(a: Action) {
    a.ReadOne? || a.ReadEverything? || a.OtherIngest? || a.OtherExpire?
  }

  lemma InboxActionKeeps(s: System, catalog: seq<Id>, a: Action, v: Id, strict: bool)
    requires Kept(s, v, strict) && Expected(a) && OnInbox(a)
    ensures Kept(Act(s, catalog, a), v, strict) && Act(s, catalog, a).store == s.store
  {
    match a {
      case OtherIngest(cmd) => Inbox.IngestEffect(s.box, cmd, s.clock);
      case OtherExpire(key) => Inbox.ExpireEffect(s.box, key, s.clock);
      case _ => ReadingKeepsEntry(s, catalog, a, v);
    }
    SameEntryKeeps(s, Act(s, catalog, a).box, v, strict);
  }

  lemma ActKeeps(s: System, catalog: seq<Id>, a: Action, v: Id, strict: bool)
    requires Kept(s, v, strict) && v in catalog && Expected(a) && (strict ==> a != Switch(false))
    ensures Kept(Act(s, catalog, a), v, strict) && Lineage(s.store.configs, Act(s, catalog, a).store.configs)
  {
    match a
    case Evaluate(facts, u) =>
      EvaluateSound(s.store, s.box, s.active, facts, u, false, s.clock, v, strict);
      EvaluateWatches(s.store, s.box, s.active, facts, u, false, s.clock, v);
    case EvaluateEvery(facts) => EvaluateAllKeeps(s.store, s.box, s.active, facts, catalog, false, s.clock, v, strict);
    case Save(facts, input, createdBy) =>
      if ConfigOk(input) {
        SaveKeeps(s, catalog, facts, input, createdBy, v, strict);
      }
    case Ensure => EnsureKeeps(s, v, strict);
    case Switch(_) =>
    case Wait(elapsed) => Inbox.LawLater(s.box, s.clock, s.clock + elapsed);
    case _ => InboxActionKeeps(s, catalog, a, v, strict);
  }

  /**
   Over any run on a fixed catalogue, with readers and other modules using the inbox: versions
   grow and exactly the last is active, a unit has at most one open alert, and while the rule
   is enabled every catalogue unit whose stored score is below the threshold has its alert,
   however often the rule was switched or changed before. A live entry always has its alert;
   if the type stays active, each alert its entry.
   */
  lemma {:induction false} HealthAlertsAreComplete(s: System, catalog: seq<Id>, actions: seq<Action>, v: Id, strict: bool)
    requires Kept(s, v, strict) && v in catalog
    requires (forall i :: 0 <= i < |actions| ==> Expected(actions[i])) && (strict ==> Switch(false) !in actions)
    ensures Kept(Run(s, catalog, actions), v, strict) && Lineage(s.store.configs, Run(s, catalog, actions).store.configs)
  {
    if actions != [] {
      var mid := Run(s, catalog, actions[..|actions| - 1]);
      HealthAlertsAreComplete(s, catalog, actions[..|actions| - 1], v, strict);
      ActKeeps(mid, catalog, actions[|actions| - 1], v, strict);
      LineageOn(s.store.configs, mid.store.configs, Run(s, catalog, actions).store.configs);
    }
  }

  /** The gap between the two thresholds: after any decision, deciding again on the same score is idle. */
  lemma GapIsQuiet(config: Config, previous: Option<int>, current: Option<int>, hasActive: bool, reevaluate: bool)
    requires config.recoveryThreshold > config.alertThreshold
    requires config.alertEnabled && previous.Some? && previous.value as real < config.alertThreshold ==> hasActive
    ensures var first := Decide(config, previous, current, hasActive, false);
            var second := Decide(config, current, current, if first == Create then true else if first == Resolve then false else hasActive, reevaluate);
            second == Keep || second == Nothing
  {
  }

  /** So an evaluation repeated on the same facts changes no alert. */
  lemma RepeatedEvaluationIsQuiet(
    s: Store, box: Inbox.Box, active: bool, facts: map<Id, UnitFacts>, u: Id, now: Time, reevaluate: bool)
    requires Sound(s, box, now) && Watched(s, u)
    ensures var once := EvaluateUnidad(s, box, active, facts, u, false, now);
            EvaluateUnidad(once.store, once.box, active, facts, u, reevaluate, now).store.alerts == once.store.alerts
  {
    var s1 := EnsureActiveConfig(s, now);
    var once := EvaluateUnidad(s, box, active, facts, u, false, now);
    var config, current := EvaluateIsJudged(s, box, active, facts, u, false, now, u);
    EvaluateSoundAlone(s, box, active, facts, u, now);
    var again, score := EvaluateIsJudged(once.store, once.box, active, facts, u, reevaluate, now, u);
    assert Watched(s1, u);
    GapIsQuiet(config, PreviousScore(s1, u), current, ActiveAlert(s1.alerts, u).Some?, reevaluate);
  }

  lemma EvaluateSoundAlone(s: Store, box: Inbox.Box, active: bool, facts: map<Id, UnitFacts>, u: Id, now: Time)
    requires Sound(s, box, now)
    ensures var done := EvaluateUnidad(s, box, active, facts, u, false, now);
            Sound(done.store, done.box, now) && done.store.configs != []
  {
    var _, _ := EvaluateIsJudged(s, box, active, facts, u, false, now, u);
  }
}
