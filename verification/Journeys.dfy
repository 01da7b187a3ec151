/**
 The journey protocol: a unit departs and returns by commands that name the exact
 situation they were decided on, and each accepted command leaves a durable receipt.
 */
module Journeys {
  import opened Wrappers
  import opened Decimals
  import opened JourneyRules
  import opened Texts

  type Id = string
  type Time = int

  datatype Ambito = Local | Foraneo
  datatype Kind = Departure | Return
  datatype JourneyOrigin = Captured | LegacyOpen | LegacyRecovered
  datatype DriverProvenance = ExplicitDeparture | StandingAssignment | UnknownDriver

  datatype Unit = Unit(
    opsEstado: OpsEstado, ambito: Ambito, destino: Option<string>, salidaAt: Option<Time>,
    choferId: Option<Id>, pointer: Option<Id>, revision: nat)

  datatype Observed = Observed(salidaAt: Option<Time>, ambito: Ambito, destino: Option<string>)

  datatype Arrival = Arrival(effectiveAt: Time, registeredAt: Time, actor: string, commandId: string)

  datatype Journey = Journey(
    unidadId: Id, captureId: Id, origin: JourneyOrigin, revision: nat,
    departedAt: Option<Time>, departedRegisteredAt: Option<Time>, departureActor: Option<string>,
    driverId: Option<Id>, driverProvenance: DriverProvenance, ambito: Option<Ambito>, destino: Option<string>,
    observed: Option<Observed>, arrival: Option<Arrival>)

  datatype Input = Input(ambito: string, destino: Option<string>, choferId: Option<Id>)

  datatype Request = Request(kind: Kind, unidadId: Id, input: Option<Input>, actor: string, command: JourneyCommand)

  /** What the request hash covers; the hash itself is taken to be injective. */
  datatype Digest = Digest(kind: Kind, unidadId: Id, body: Option<Input>, command: JourneyCommand)

  datatype Receipt = Receipt(
    actor: string, commandId: string, unidadId: Id, digest: Digest, kind: Kind,
    expectedUnitRevision: string, expectedState: HistoryState, expectedRef: Option<string>, expectedRevision: Option<string>,
    journeyId: Id, unitRevision: nat, journeyRevision: nat)

  datatype Db = Db(units: map<Id, Unit>, journeys: map<Id, Journey>, receipts: seq<Receipt>)

  /** What the rest of the system answers to one request: permissions, other tables, clock samples, a fresh identifier. */
  datatype Facts = Facts(
    allowed: bool, captureId: Option<Id>, authorized: bool, choferes: map<Id, EstadoChofer>,
    effective: Time, registered: Time, freshId: Id)

  datatype Context = Context(
    unidadId: Id, opsEstado: OpsEstado, unitRevision: string, historyState: HistoryState,
    journeyRef: Option<string>, journeyRevision: Option<string>,
    ambito: Ambito, destino: Option<string>, salidaAt: Option<Time>)

  datatype JourneyError =
    | SubjectChanged | UnitNotFound | Forbidden | CommandReused | CaptureNotReady
    | Conflict(context: Option<Context>)
    | SalidaSinAmbito | NotAuthorized | ChoferNotFound | Assignment(error: AssignError) | RegresoNoEnRuta
    | ConstraintViolated

  type Response = Result<bool, JourneyError>

  function Body(input: Input): Input {
    input.(destino := if input.destino.Some? then Some(Trim(input.destino.value)) else None)
  }

  function DigestOf(req: Request): Digest {
    Digest(req.kind, req.unidadId, if req.input.Some? then Some(Body(req.input.value)) else None, req.command)
  }

  // -- Describing a unit ----------------------------------------------------------------

  /** The unit has an open row other than the given one. */
  predicate HasOpenBut(db: Db, unidadId: Id, except: Option<Id>) {
    exists id :: id in db.journeys && db.journeys[id].unidadId == unidadId && db.journeys[id].arrival.None? && Some(id) != except
  }

  function PointedRow(db: Db, unit: Unit): Option<Journey> {
    if unit.pointer.Some? && unit.pointer.value in db.journeys then Some(db.journeys[unit.pointer.value]) else None
  }

  function LegacyRef(unidadId: Id, revision: nat): string {
    "legacy:" + unidadId + ":" + Decimal(revision)
  }

  /** The situation a command must name; nothing when the stored rows contradict each other. */
  function Describe(db: Db, unidadId: Id): Option<Context>
    requires unidadId in db.units
  {
    var unit := db.units[unidadId];
    var row := PointedRow(db, unit);
    var at := (state, ref, rev) =>
      Context(unidadId, unit.opsEstado, Decimal(unit.revision), state, ref, rev, unit.ambito, unit.destino, unit.salidaAt);
    if unit.opsEstado == Disponible then
      if unit.pointer.Some? || HasOpenBut(db, unidadId, None) then None else Some(at(Available, None, None))
    else if HasOpenBut(db, unidadId, unit.pointer) || (row.Some? && (row.value.unidadId != unidadId || row.value.arrival.Some?)) then None
    else if row.Some? then Some(at(KnownOpen, unit.pointer, Some(Decimal(row.value.revision))))
    else if unit.pointer.Some? then Some(at(MissingRow, unit.pointer, None))
    else Some(at(MissingPointer, Some(LegacyRef(unidadId, unit.revision)), None))
  }

  predicate Names(command: JourneyCommand, ctx: Context) {
    && command.unitRevision == ctx.unitRevision && command.historyState == ctx.historyState
    && command.journeyRef == ctx.journeyRef && command.journeyRevision == ctx.journeyRevision
  }

  // -- Executing a command --------------------------------------------------------------

  function FindReceipt(receipts: seq<Receipt>, actor: string, commandId: string): (r: Option<Receipt>)
    ensures r.Some? ==> r.value in receipts && r.value.actor == actor && Lower(r.value.commandId) == Lower(commandId)
    ensures r.None? ==> forall i :: 0 <= i < |receipts| ==> receipts[i].actor != actor || Lower(receipts[i].commandId) != Lower(commandId)
  {
    if receipts == [] then None
    else if receipts[0].actor == actor && Lower(receipts[0].commandId) == Lower(commandId) then Some(receipts[0])
    else FindReceipt(receipts[1..], actor, commandId)
  }

  /** The answer of a request that stops before deciding anything: refused, or already served. */
  function Lookup(db: Db, req: Request, facts: Facts): Option<Response> {
    if req.command.expectedSubject != req.actor then Some(Err(SubjectChanged))
    else if req.unidadId !in db.units then Some(Err(UnitNotFound))
    else if !facts.allowed then Some(Err(Forbidden))
    else
      var receipt := FindReceipt(db.receipts, req.actor, req.command.commandId);
      if receipt.None? then None
      else if receipt.value.digest != DigestOf(req) then Some(Err(CommandReused))
      else Some(Ok(false))
  }

  /** The rows a command is about to write. */
  datatype Plan = Plan(unit: Unit, journeyId: Id, journey: Journey, receipt: Receipt)

  /** A driver given with the departure; an empty identifier counts as none. */
  function Named(input: Input): Option<Id> {
    if input.choferId.Some? && input.choferId.value != "" then input.choferId else None
  }

  function DriverError(db: Db, unit: Unit, named: Option<Id>, facts: Facts, occupied: bool): Option<JourneyError> {
    if named.None? then None
    else if named.value !in facts.choferes then Some(ChoferNotFound)
    else
      var error := ErrorAssign(Some(facts.choferes[named.value]), true, unit.choferId, occupied, named.value);
      if error.Some? then Some(Assignment(error.value)) else None
  }

  function PlanDeparture(db: Db, req: Request, facts: Facts, ctx: Context, captureId: Id, occupied: bool): Result<Plan, JourneyError>
    requires req.unidadId in db.units
  {
    var unit := db.units[req.unidadId];
    if req.input.None? || !AmbitoOk(req.input.value.ambito) then Err(SalidaSinAmbito)
    else if !facts.authorized then Err(NotAuthorized)
    else if ctx.historyState != Available then Err(Conflict(Some(ctx)))
    else
      var input := req.input.value;
      var named := Named(input);
      var error := DriverError(db, unit, named, facts, occupied);
      if error.Some? then Err(error.value)
      else
        var driver := if named.Some? then named else unit.choferId;
        var ambito := if input.ambito == "FORANEO" then Foraneo else Local;
        var destino := if input.destino.None? then unit.destino
                       else if Trim(input.destino.value) == "" then None
                       else Some(Trim(input.destino.value));
        var journey := Journey(
          req.unidadId, captureId, Captured, 1, Some(facts.effective), Some(facts.registered), Some(req.actor), driver,
          if named.Some? then ExplicitDeparture else if unit.choferId.Some? then StandingAssignment else UnknownDriver,
          Some(ambito), destino, None, None);
        var unit' := Unit(EnRuta, ambito, destino, Some(facts.effective), driver, Some(facts.freshId), unit.revision + 1);
        Ok(Plan(unit', facts.freshId, journey, ReceiptFor(req, unit', facts.freshId, journey)))
  }

  function PlanReturn(db: Db, req: Request, facts: Facts, ctx: Context, captureId: Id): Result<Plan, JourneyError>
    requires req.unidadId in db.units
  {
    var unit := db.units[req.unidadId];
    if unit.opsEstado != EnRuta then Err(RegresoNoEnRuta)
    else
      var known := PointedRow(db, unit);
      var id := if ctx.historyState == MissingPointer || unit.pointer.None? then facts.freshId else unit.pointer.value;
      var open := if known.Some? then known.value
                  else Journey(req.unidadId, captureId, LegacyRecovered, 1, None, None, None, None, UnknownDriver, None, None,
                               Some(Observed(unit.salidaAt, unit.ambito, unit.destino)), None);
      var journey := open.(arrival := Some(Arrival(facts.effective, facts.registered, req.actor, req.command.commandId)), revision := 2);
      var unit' := unit.(opsEstado := Disponible, salidaAt := None, pointer := None, revision := unit.revision + 1);
      Ok(Plan(unit', id, journey, ReceiptFor(req, unit', id, journey)))
  }

  function ReceiptFor(req: Request, unit: Unit, journeyId: Id, journey: Journey): Receipt {
    Receipt(req.actor, req.command.commandId, req.unidadId, DigestOf(req), req.kind,
            req.command.unitRevision, req.command.historyState, req.command.journeyRef, req.command.journeyRevision,
            journeyId, unit.revision, journey.revision)
  }

  /** What the transaction decides once its unit is locked and no receipt answers it. */
  function PlanFor(db: Db, req: Request, facts: Facts, occupied: bool): Result<Plan, JourneyError>
    requires req.unidadId in db.units
  {
    if facts.captureId.None? then Err(CaptureNotReady)
    else
      var ctx := Describe(db, req.unidadId);
      if ctx.None? then Err(Conflict(None))
      else if !Names(req.command, ctx.value) then Err(Conflict(ctx))
      else if req.kind == Departure then PlanDeparture(db, req, facts, ctx.value, facts.captureId.value, occupied)
      else PlanReturn(db, req, facts, ctx.value, facts.captureId.value)
  }

  /** Some unit has the driver that the request names. */
  predicate Occupied(db: Db, req: Request) {
    req.input.Some? && Named(req.input.value).Some?
    && exists u :: u in db.units && db.units[u].choferId == Named(req.input.value)
  }

  /** Constraints of the tables the plan is written to, except the key of the receipts. */
  predicate Violates(db: Db, unidadId: Id, plan: Plan) {
    || (plan.journey.departedAt.Some? && plan.journey.arrival.Some? && plan.journey.arrival.value.effectiveAt < plan.journey.departedAt.value)
    || plan.unit.revision > BIGINT_MAX
    || (plan.unit.choferId.Some? && exists u :: u in db.units && u != unidadId && db.units[u].choferId == plan.unit.choferId)
  }

  predicate ReceiptTaken(db: Db, plan: Plan) {
    FindReceipt(db.receipts, plan.receipt.actor, plan.receipt.commandId).Some?
  }

  function Apply(db: Db, unidadId: Id, plan: Plan): Db {
    Db(db.units[unidadId := plan.unit], db.journeys[plan.journeyId := plan.journey], db.receipts + [plan.receipt])
  }

  datatype Executed = Executed(db: Db, response: Response)

  /** One request alone in the system. */
  function Execute(db: Db, req: Request, facts: Facts): Executed {
    var answer := Lookup(db, req, facts);
    if answer.Some? then Executed(db, answer.value)
    else
      var plan := PlanFor(db, req, facts, Occupied(db, req));
      if plan.Err? then Executed(db, Err(plan.error))
      else if Violates(db, req.unidadId, plan.value) then Executed(db, Err(ConstraintViolated))
      else Executed(Apply(db, req.unidadId, plan.value), Ok(true))
  }

  datatype Call = Call(req: Request, facts: Facts)

  function Run(db: Db, calls: seq<Call>): Db {
    if calls == [] then db
    else Execute(Run(db, calls[..|calls| - 1]), calls[|calls| - 1].req, calls[|calls| - 1].facts).db
  }

  // -- The service ----------------------------------------------------------------------

  class LogisticaJourneyService {
    var units: map<Id, Unit>
    var journeys: map<Id, Journey>
    var receipts: seq<Receipt>

    ghost function Tables(): Db
      reads this
    {
      Db(units, journeys, receipts)
    }

    constructor (units: map<Id, Unit>, journeys: map<Id, Journey>)
      ensures Tables() == Db(units, journeys, [])
    {
      this.units, this.journeys, this.receipts := units, journeys, [];
    }

    method FindOneReceipt(actor: string, commandId: string) returns (found: Option<Receipt>)
      ensures found == FindReceipt(receipts, actor, commandId)
    {
      var i := 0;
      while i < |receipts|
        invariant 0 <= i <= |receipts|
        invariant FindReceipt(receipts, actor, commandId) == FindReceipt(receipts[i..], actor, commandId)
      {
        if receipts[i].actor == actor && Lower(receipts[i].commandId) == Lower(commandId) {
          return Some(receipts[i]);
        }
        i := i + 1;
      }
      return None;
    }

    /** The transaction of one command, on rows no other transaction is writing. */
    method ExecuteCommand(req: Request, facts: Facts) returns (response: Response)
      modifies this
      ensures Executed(Tables(), response) == Execute(old(Tables()), req, facts)
    {
      if req.command.expectedSubject != req.actor {
        return Err(SubjectChanged);
      }
      if req.unidadId !in units {
        return Err(UnitNotFound);
      }
      if !facts.allowed {
        return Err(Forbidden);
      }
      var receipt := FindOneReceipt(req.actor, req.command.commandId);
      if receipt.Some? {
        return if receipt.value.digest != DigestOf(req) then Err(CommandReused) else Ok(false);
      }
      if facts.captureId.None? {
        return Err(CaptureNotReady);
      }
      var ctx := Describe(Db(units, journeys, receipts), req.unidadId);
      if ctx.None? {
        return Err(Conflict(None));
      }
      if !Names(req.command, ctx.value) {
        return Err(Conflict(ctx));
      }
      var unit, journeyId, journey;
      if req.kind == Departure {
        var error;
        error, unit, journeyId, journey := Depart(req, facts, ctx.value, facts.captureId.value);
        if error.Some? {
          return Err(error.value);
        }
      } else {
        if units[req.unidadId].opsEstado != EnRuta {
          return Err(RegresoNoEnRuta);
        }
        unit, journeyId, journey := Arrive(req, facts, ctx.value, facts.captureId.value);
      }
      unit := unit.(revision := unit.revision + 1);
      var plan := Plan(unit, journeyId, journey, ReceiptFor(req, unit, journeyId, journey));
      if Violates(Db(units, journeys, receipts), req.unidadId, plan) {
        return Err(ConstraintViolated);
      }
      journeys := journeys[journeyId := journey];
      units := units[req.unidadId := unit];
      receipts := receipts + [plan.receipt];
      return Ok(true);
    }

    /** The unit and the new row of a departure; the unit's revision is advanced by the caller. */
    method Depart(req: Request, facts: Facts, ctx: Context, captureId: Id)
      returns (error: Option<JourneyError>, unit: Unit, journeyId: Id, journey: Journey)
      requires req.unidadId in units
      ensures var spec := PlanDeparture(Tables(), req, facts, ctx, captureId, Occupied(Tables(), req));
              if spec.Err? then error == Some(spec.error)
              else error.None? && spec.value.unit == unit.(revision := unit.revision + 1)
                   && spec.value.journeyId == journeyId && spec.value.journey == journey
    {
      unit := units[req.unidadId];
      journeyId := facts.freshId;
      journey := Journey(req.unidadId, captureId, Captured, 1, Some(facts.effective), Some(facts.registered), Some(req.actor),
                         None, UnknownDriver, None, None, None, None);
      if req.input.None? || !AmbitoOk(req.input.value.ambito) {
        return Some(SalidaSinAmbito), unit, journeyId, journey;
      }
      if !facts.authorized {
        return Some(NotAuthorized), unit, journeyId, journey;
      }
      if ctx.historyState != Available {
        return Some(Conflict(Some(ctx))), unit, journeyId, journey;
      }
      var input := req.input.value;
      var provenance := if unit.choferId.Some? then StandingAssignment else UnknownDriver;
      if Named(input).Some? {
        var choferId := Named(input).value;
        if choferId !in facts.choferes {
          return Some(ChoferNotFound), unit, journeyId, journey;
        }
        var clash := ErrorAssign(Some(facts.choferes[choferId]), true, unit.choferId, Occupied(Db(units, journeys, receipts), req), choferId);
        if clash.Some? {
          return Some(Assignment(clash.value)), unit, journeyId, journey;
        }
        unit := unit.(choferId := Some(choferId));
        provenance := ExplicitDeparture;
      }
      unit := unit.(opsEstado := EnRuta, ambito := if input.ambito == "FORANEO" then Foraneo else Local);
      if input.destino.Some? {
        unit := unit.(destino := if Trim(input.destino.value) == "" then None else Some(Trim(input.destino.value)));
      }
      unit := unit.(salidaAt := Some(facts.effective), pointer := Some(journeyId));
      journey := journey.(driverId := unit.choferId, driverProvenance := provenance, ambito := Some(unit.ambito), destino := unit.destino);
      return None, unit, journeyId, journey;
    }

    /** The unit and the closed row of a return; a missing row is recovered as closed legacy history. */
    method Arrive(req: Request, facts: Facts, ctx: Context, captureId: Id) returns (unit: Unit, journeyId: Id, journey: Journey)
      requires req.unidadId in units && units[req.unidadId].opsEstado == EnRuta
      requires Describe(Tables(), req.unidadId) == Some(ctx)
      ensures var spec := PlanReturn(Tables(), req, facts, ctx, captureId);
              spec.Ok? && spec.value.unit == unit.(revision := unit.revision + 1)
              && spec.value.journeyId == journeyId && spec.value.journey == journey
    {
      unit := units[req.unidadId];
      if ctx.historyState == KnownOpen {
        journeyId := unit.pointer.value;
        journey := journeys[journeyId];
      } else {
        journeyId := if ctx.historyState == MissingRow then unit.pointer.value else facts.freshId;
        journey := Journey(req.unidadId, captureId, LegacyRecovered, 1, None, None, None, None, UnknownDriver, None, None,
                           Some(Observed(unit.salidaAt, unit.ambito, unit.destino)), None);
      }
      journey := journey.(arrival := Some(Arrival(facts.effective, facts.registered, req.actor, req.command.commandId)));
      journey := journey.(revision := 2);
      unit := unit.(opsEstado := Disponible, salidaAt := None, pointer := None);
    }
  }
}
