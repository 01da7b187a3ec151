/** What an accepted departure or return had to meet, and every row it writes, told from the request. */
module JourneyEffects {
  import opened Wrappers
  import opened Decimals
  import opened JourneyRules
  import opened Texts
  import opened Journeys
  import JourneyLaws

  // -- Before anything is decided -------------------------------------------------------

  /** The session, the unit, the permission and an unspent key, in that order. */
  lemma LookupAnswers(db: Db, req: Request, facts: Facts)
    ensures var r := Lookup(db, req, facts);
            && (r == Some(Err(SubjectChanged)) <==> req.command.expectedSubject != req.actor)
            && (r == Some(Err(UnitNotFound)) <==> req.command.expectedSubject == req.actor && req.unidadId !in db.units)
            && (r == Some(Err(Forbidden)) <==> req.command.expectedSubject == req.actor && req.unidadId in db.units && !facts.allowed)
            && (r.None? <==> && req.command.expectedSubject == req.actor && req.unidadId in db.units && facts.allowed
                             && KeyFree(db, req))
            && (r.Some? && r.value.Ok? ==> r == Some(Ok(false)) && !KeyFree(db, req))
  {
  }

  ghost predicate KeyFree(db: Db, req: Request) {
    forall i :: 0 <= i < |db.receipts| && db.receipts[i].actor == req.actor ==> Lower(db.receipts[i].commandId) != Lower(req.command.commandId)
  }

  /** Requests are one and the same when they differ at most by space around a destination they both give. */
  lemma SameDigestIff(a: Request, b: Request)
    ensures DigestOf(a) == DigestOf(b)
            <==> && a.kind == b.kind && a.unidadId == b.unidadId && a.command == b.command
                 && (a.input.Some? <==> b.input.Some?)
                 && (a.input.Some? ==> && a.input.value.ambito == b.input.value.ambito && a.input.value.choferId == b.input.value.choferId
                                       && SameDestination(a.input.value.destino, b.input.value.destino))
  {
  }

  predicate SameDestination(a: Option<string>, b: Option<string>) {
    (a.Some? <==> b.Some?) && (a.Some? ==> Trim(a.value) == Trim(b.value))
  }

  // -- The situation of a unit ----------------------------------------------------------

  ghost predicate OpenRow(db: Db, u: Id, id: Id) {
    id in db.journeys && db.journeys[id].unidadId == u && db.journeys[id].arrival.None?
  }

  /** The rows contradict each other: at rest with a journey, or on the road with another or a closed one. */
  ghost predicate Contradictory(db: Db, u: Id)
    requires u in db.units
  {
    var unit := db.units[u];
    if unit.opsEstado == Disponible then unit.pointer.Some? || exists id :: OpenRow(db, u, id)
    else
      || (exists id :: OpenRow(db, u, id) && Some(id) != unit.pointer)
      || (unit.pointer.Some? && unit.pointer.value in db.journeys && !OpenRow(db, u, unit.pointer.value))
  }

  lemma DescribeSaysWhatIsStored(db: Db, u: Id)
    requires u in db.units
    ensures Describe(db, u).None? <==> Contradictory(db, u)
    ensures Describe(db, u).Some? ==>
              var ctx, unit := Describe(db, u).value, db.units[u];
              && ctx.unidadId == u && ctx.opsEstado == unit.opsEstado && ctx.unitRevision == Decimal(unit.revision)
              && ctx.ambito == unit.ambito && ctx.destino == unit.destino && ctx.salidaAt == unit.salidaAt
              && (ctx.historyState == Available <==> unit.opsEstado == Disponible)
              && (unit.opsEstado == Disponible ==> ctx.journeyRef.None? && ctx.journeyRevision.None?)
              && (unit.opsEstado == EnRuta ==>
                    && ctx.journeyRef == (if unit.pointer.Some? then unit.pointer else Some("legacy:" + u + ":" + Decimal(unit.revision)))
                    && (ctx.historyState == KnownOpen <==> unit.pointer.Some? && unit.pointer.value in db.journeys)
                    && (ctx.historyState == MissingPointer <==> unit.pointer.None?)
                    && ctx.journeyRevision == (if ctx.historyState == KnownOpen then Some(Decimal(db.journeys[unit.pointer.value].revision)) else None))
  {
    assert forall except :: HasOpenBut(db, u, except) <==> exists id :: OpenRow(db, u, id) && Some(id) != except;
  }

  // -- Departures -----------------------------------------------------------------------

  /** The driver that the request names, if it names one. */
  function Driver(req: Request): Option<Id> {
    if req.input.Some? && req.input.value.choferId.Some? && req.input.value.choferId.value != "" then req.input.value.choferId else None
  }

  /** No unit but this one has the driver. */
  ghost predicate FreeFor(db: Db, u: Id, chofer: Id) {
    forall v :: v in db.units && db.units[v].choferId == Some(chofer) ==> v == u
  }

  /** A named driver is known, active, and neither replaces the unit's own nor belongs to another unit. */
  ghost predicate DriverOk(db: Db, req: Request, facts: Facts)
    requires req.unidadId in db.units
  {
    Driver(req).Some? ==>
      var chofer, own := Driver(req).value, db.units[req.unidadId].choferId;
      && chofer in facts.choferes && facts.choferes[chofer] == Activo
      && (own.Some? ==> own.value == chofer) && FreeFor(db, req.unidadId, chofer)
  }

  /** What the departure of a unit at rest has to meet. */
  ghost predicate MayDepart(db: Db, req: Request, facts: Facts)
    requires req.unidadId in db.units
  {
    var unit := db.units[req.unidadId];
    && facts.authorized && unit.opsEstado == Disponible
    && req.input.Some? && req.input.value.ambito in {"LOCAL", "FORANEO"}
    && DriverOk(db, req, facts)
    && (Driver(req).None? && unit.choferId.Some? ==> FreeFor(db, req.unidadId, unit.choferId.value))
    && unit.revision < BIGINT_MAX
  }

  /** Any command: the key is free, capture is ready and the situation named is the unit's own. */
  ghost predicate MayAct(db: Db, req: Request, facts: Facts) {
    && req.command.expectedSubject == req.actor && req.unidadId in db.units && facts.allowed && KeyFree(db, req)
    && facts.captureId.Some? && !Contradictory(db, req.unidadId)
    && Describe(db, req.unidadId).Some?
    && var ctx := Describe(db, req.unidadId).value;
       req.command == req.command.(unitRevision := ctx.unitRevision, historyState := ctx.historyState,
                                   journeyRef := ctx.journeyRef, journeyRevision := ctx.journeyRevision)
  }

  lemma AcceptedCommandsAct(db: Db, req: Request, facts: Facts)
    ensures Execute(db, req, facts).response == Ok(true) ==> MayAct(db, req, facts)
    ensures MayAct(db, req, facts) ==> Lookup(db, req, facts).None? && Names(req.command, Describe(db, req.unidadId).value)
  {
    LookupAnswers(db, req, facts);
    if req.unidadId in db.units {
      DescribeSaysWhatIsStored(db, req.unidadId);
    }
  }

  lemma DriverIsChecked(db: Db, req: Request, facts: Facts)
    requires req.unidadId in db.units && req.input.Some?
    ensures var error := DriverError(db, db.units[req.unidadId], Named(req.input.value), facts, Occupied(db, req));
            && (DriverOk(db, req, facts) ==> error.None?)
            && (error.None? && Driver(req).Some? && FreeFor(db, req.unidadId, Driver(req).value) ==> DriverOk(db, req, facts))
            && (error == Some(ChoferNotFound) <==> Driver(req).Some? && Driver(req).value !in facts.choferes)
            && (error == Some(Assignment(ChoferInactivo)) <==>
                  Driver(req).Some? && Driver(req).value in facts.choferes && facts.choferes[Driver(req).value] == Inactivo)
            && (error == Some(Assignment(UnidadOcupada)) ==>
                  db.units[req.unidadId].choferId.Some? && db.units[req.unidadId].choferId != Driver(req))
            && (error == Some(Assignment(ChoferOcupado)) ==> Driver(req).Some? && !FreeFor(db, req.unidadId, Driver(req).value))
  {
  }

  /** A departure is accepted exactly when it meets all of it, the policy's consent included. */
  lemma DepartureIsAcceptedIff(db: Db, req: Request, facts: Facts)
    requires req.kind == Departure
    ensures Execute(db, req, facts).response == Ok(true) <==> MayAct(db, req, facts) && MayDepart(db, req, facts)
  {
    AcceptedCommandsAct(db, req, facts);
    if MayAct(db, req, facts) {
      DescribeSaysWhatIsStored(db, req.unidadId);
      if req.input.Some? {
        DriverIsChecked(db, req, facts);
      }
    }
  }

  /** A destination left out stays, a blank one is cleared, any other is stored trimmed. */
  ghost predicate DestinationIs(unit: Unit, given: Option<string>, destino: Option<string>) {
    if given.None? then destino == unit.destino
    else if Blank(given.value) then destino.None?
    else destino == Some(Trim(given.value))
  }

  /** Who drives: the driver named, else the unit's standing one, else nobody known. */
  ghost predicate DrivenBy(unit: Unit, named: Option<Id>, driver: Option<Id>, provenance: DriverProvenance) {
    if named.Some? then driver == named && provenance == ExplicitDeparture
    else driver == unit.choferId && provenance == if unit.choferId.Some? then StandingAssignment else UnknownDriver
  }

  ghost predicate AmbitoIs(text: string, ambito: Ambito) {
    (text == "LOCAL" && ambito == Local) || (text == "FORANEO" && ambito == Foraneo)
  }

  /** The rows of a departure: the unit on the road with its new open journey, both told from the request. */
  ghost predicate Departed(unit: Unit, unit': Unit, journey: Journey, req: Request, facts: Facts)
    requires req.input.Some? && facts.captureId.Some?
  {
    && unit' == Unit(EnRuta, unit'.ambito, unit'.destino, Some(facts.effective), unit'.choferId, Some(facts.freshId), unit.revision + 1)
    && AmbitoIs(req.input.value.ambito, unit'.ambito)
    && DestinationIs(unit, req.input.value.destino, unit'.destino)
    && DrivenBy(unit, Driver(req), unit'.choferId, journey.driverProvenance)
    && journey == Journey(req.unidadId, facts.captureId.value, Captured, 1, Some(facts.effective), Some(facts.registered), Some(req.actor),
                          unit'.choferId, journey.driverProvenance, Some(unit'.ambito), unit'.destino, None, None)
  }

  /** The receipt repeats the request, what it expected and what it left. */
  ghost predicate ReceiptOf(receipt: Receipt, req: Request, unit': Unit, journeyId: Id, journey: Journey) {
    && receipt == Receipt(req.actor, req.command.commandId, req.unidadId, DigestOf(req), req.kind,
                          req.command.unitRevision, req.command.historyState, req.command.journeyRef, req.command.journeyRevision,
                          journeyId, unit'.revision, journey.revision)
  }

  /** One unit, one journey and one receipt are written; no other row changes. */
  ghost predicate Writes(db: Db, db': Db, u: Id, journeyId: Id) {
    && u in db'.units && journeyId in db'.journeys && |db'.receipts| == |db.receipts| + 1
    && db'.units == db.units[u := db'.units[u]] && db'.journeys == db.journeys[journeyId := db'.journeys[journeyId]]
    && db'.receipts == db.receipts + [db'.receipts[|db.receipts|]]
  }

  lemma DepartureIsRecorded(db: Db, req: Request, facts: Facts)
    requires req.kind == Departure && Execute(db, req, facts).response == Ok(true)
    ensures facts.authorized && req.unidadId in db.units && req.input.Some? && facts.captureId.Some?
    ensures var db' := Execute(db, req, facts).db;
            && Writes(db, db', req.unidadId, facts.freshId)
            && Departed(db.units[req.unidadId], db'.units[req.unidadId], db'.journeys[facts.freshId], req, facts)
            && ReceiptOf(db'.receipts[|db.receipts|], req, db'.units[req.unidadId], facts.freshId, db'.journeys[facts.freshId])
  {
    if req.input.value.destino.Some? {
      TrimLeaves(req.input.value.destino.value);
    }
  }

  // -- Returns --------------------------------------------------------------------------

  /** The journey a return closes: the open row of the unit, else a recovered one that owns up to what is not known. */
  ghost predicate Arrived(db: Db, journey: Journey, req: Request, facts: Facts)
    requires req.unidadId in db.units && facts.captureId.Some?
  {
    var unit := db.units[req.unidadId];
    var arrival := Some(Arrival(facts.effective, facts.registered, req.actor, req.command.commandId));
    if unit.pointer.Some? && unit.pointer.value in db.journeys
    then journey == db.journeys[unit.pointer.value].(arrival := arrival, revision := 2)
    else journey == Journey(req.unidadId, facts.captureId.value, LegacyRecovered, 2, None, None, None, None, UnknownDriver, None, None,
                            Some(Observed(unit.salidaAt, unit.ambito, unit.destino)), arrival)
  }

  /** The row a return writes: the one pointed at, and without a pointer a new one. */
  function ReturnRow(unit: Unit, facts: Facts): Id {
    if unit.pointer.Some? then unit.pointer.value else facts.freshId
  }

  /** The unit is back at rest with its driver and destination, one revision on. */
  lemma ReturnIsRecorded(db: Db, req: Request, facts: Facts)
    requires req.kind == Return && Execute(db, req, facts).response == Ok(true)
    ensures req.unidadId in db.units && facts.captureId.Some?
    ensures var db', unit := Execute(db, req, facts).db, db.units[req.unidadId];
            var row := ReturnRow(unit, facts);
            && Writes(db, db', req.unidadId, row)
            && db'.units[req.unidadId] == Unit(Disponible, unit.ambito, unit.destino, None, unit.choferId, None, unit.revision + 1)
            && Arrived(db, db'.journeys[row], req, facts)
            && ReceiptOf(db'.receipts[|db.receipts|], req, db'.units[req.unidadId], row, db'.journeys[row])
  {
    DescribeSaysWhatIsStored(db, req.unidadId);
  }

  /** A return is accepted exactly of a unit on the road, no earlier than its departure. */
  lemma ReturnIsAcceptedIff(db: Db, req: Request, facts: Facts)
    requires JourneyLaws.Law(db) && req.kind == Return
    ensures Execute(db, req, facts).response == Ok(true) <==>
              && MayAct(db, req, facts) && db.units[req.unidadId].opsEstado == EnRuta && db.units[req.unidadId].revision < BIGINT_MAX
              && (var row := PointedRow(db, db.units[req.unidadId]);
                  row.Some? && row.value.departedAt.Some? ==> row.value.departedAt.value <= facts.effective)
  {
    AcceptedCommandsAct(db, req, facts);
    if MayAct(db, req, facts) {
      DescribeSaysWhatIsStored(db, req.unidadId);
    }
  }

  // -- Refusals -------------------------------------------------------------------------

  predicate AmbitoGiven(req: Request) {
    req.input.Some? && req.input.value.ambito in {"LOCAL", "FORANEO"}
  }

  /** The situation was named wrongly, or cannot be named at all. */
  ghost predicate OutOfDate(db: Db, req: Request, facts: Facts) {
    && req.command.expectedSubject == req.actor && req.unidadId in db.units && facts.allowed && KeyFree(db, req)
    && facts.captureId.Some? && !MayAct(db, req, facts)
  }

  lemma RefusalsAreTold(db: Db, req: Request, facts: Facts)
    ensures var r := Execute(db, req, facts).response;
            && (OutOfDate(db, req, facts) ==> r == Err(Conflict(Describe(db, req.unidadId))))
            && (r == Err(CaptureNotReady) <==>
                  && req.command.expectedSubject == req.actor && req.unidadId in db.units && facts.allowed && KeyFree(db, req)
                  && facts.captureId.None?)
            && (r == Err(SalidaSinAmbito) <==> MayAct(db, req, facts) && req.kind == Departure && !AmbitoGiven(req))
            && (r == Err(NotAuthorized) <==> MayAct(db, req, facts) && req.kind == Departure && AmbitoGiven(req) && !facts.authorized)
            && (MayAct(db, req, facts) && req.kind == Departure && AmbitoGiven(req) && facts.authorized && db.units[req.unidadId].opsEstado == EnRuta ==>
                  r == Err(Conflict(Describe(db, req.unidadId))))
            && (r == Err(RegresoNoEnRuta) <==>
                  MayAct(db, req, facts) && req.kind == Return && db.units[req.unidadId].opsEstado == Disponible)
  {
    LookupAnswers(db, req, facts);
    if req.unidadId in db.units {
      DescribeSaysWhatIsStored(db, req.unidadId);
    }
    AcceptedCommandsAct(db, req, facts);
  }
}
