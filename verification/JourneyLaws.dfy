/** What every run of the journey protocol keeps, and what its receipts guarantee. */
module JourneyLaws {
  import opened Wrappers
  import opened Decimals
  import opened Uuids
  import opened JourneyRules
  import opened Texts
  import opened Journeys

  // -- The state machine ----------------------------------------------------------------

  /**
   At rest: no pointer and no open row. On the road: no open row but the one pointed at,
   which is the unit's own and open, or else is missing altogether.
   */
  ghost predicate UnitLaw(db: Db, u: Id)
    requires u in db.units
  {
    var unit := db.units[u];
    if unit.opsEstado == Disponible then unit.pointer.None? && !HasOpenBut(db, u, None)
    else
      && !HasOpenBut(db, u, unit.pointer)
      && (PointedRow(db, unit).Some? ==> PointedRow(db, unit).value.unidadId == u && PointedRow(db, unit).value.arrival.None?)
  }

  /** Revision 1 while open and 2 once closed; nobody returns before departing. */
  ghost predicate RowLaw(row: Journey) {
    && row.revision == (if row.arrival.None? then 1 else 2)
    && (row.departedAt.Some? && row.arrival.Some? ==> row.departedAt.value <= row.arrival.value.effectiveAt)
  }

  ghost predicate Law(db: Db) {
    && (forall u :: u in db.units ==> UnitLaw(db, u))
    && (forall id :: id in db.journeys ==> RowLaw(db.journeys[id]) && db.journeys[id].unidadId in db.units)
    && (forall u, v :: u in db.units && v in db.units && u != v && db.units[u].pointer.Some? ==> db.units[u].pointer != db.units[v].pointer)
    && (forall u, v :: u in db.units && v in db.units && u != v && db.units[u].choferId.Some? ==> db.units[u].choferId != db.units[v].choferId)
  }

  /** An identifier nothing stored mentions, as a random one is. */
  ghost predicate Fresh(db: Db, id: Id) {
    id !in db.journeys && forall u :: u in db.units ==> db.units[u].pointer != Some(id)
  }

  /** The rows a plan writes, as seen by the laws. */
  ghost predicate Departing(db: Db, u: Id, plan: Plan)
    requires u in db.units
  {
    && db.units[u].opsEstado == Disponible && plan.unit.opsEstado == EnRuta
    && plan.unit.pointer == Some(plan.journeyId) && Fresh(db, plan.journeyId)
    && plan.journey.unidadId == u && plan.journey.arrival.None? && plan.journey.revision == 1
  }

  ghost predicate Returning(db: Db, u: Id, plan: Plan)
    requires u in db.units
  {
    && db.units[u].opsEstado == EnRuta && plan.unit.opsEstado == Disponible && plan.unit.pointer.None?
    && plan.unit.choferId == db.units[u].choferId
    && (if db.units[u].pointer.Some? then plan.journeyId == db.units[u].pointer.value else Fresh(db, plan.journeyId))
    && plan.journey.unidadId == u && plan.journey.arrival.Some? && plan.journey.revision == 2
  }

  ghost predicate Acting(db: Db, u: Id, plan: Plan)
    requires u in db.units
  {
    && (if plan.receipt.kind == Departure then Departing(db, u, plan) else Returning(db, u, plan))
    && plan.unit.revision == db.units[u].revision + 1
    && plan.receipt.unidadId == u && plan.receipt.journeyId == plan.journeyId
    && plan.receipt.unitRevision == plan.unit.revision && plan.receipt.journeyRevision == plan.journey.revision
    && plan.receipt.expectedUnitRevision == Decimal(db.units[u].revision)
  }

  lemma PlanActs(db: Db, req: Request, facts: Facts, occupied: bool)
    requires Law(db) && req.unidadId in db.units && Fresh(db, facts.freshId)
    requires PlanFor(db, req, facts, occupied).Ok?
    ensures Acting(db, req.unidadId, PlanFor(db, req, facts, occupied).value)
  {
  }

  lemma ApplySparesRows(db: Db, u: Id, plan: Plan, v: Id)
    requires Law(db) && u in db.units && v in db.units && u != v && Acting(db, u, plan)
    ensures forall except :: HasOpenBut(Apply(db, u, plan), v, except) == HasOpenBut(db, v, except)
    ensures PointedRow(Apply(db, u, plan), db.units[v]) == PointedRow(db, db.units[v])
  {
    var db' := Apply(db, u, plan);
    forall except
      ensures HasOpenBut(db', v, except) == HasOpenBut(db, v, except)
    {
      forall id | id in db.journeys && db.journeys[id].unidadId == v
        ensures id in db'.journeys && db'.journeys[id] == db.journeys[id]
      {
      }
    }
  }

  lemma ApplyKeepsUnit(db: Db, u: Id, plan: Plan)
    requires Law(db) && u in db.units && Acting(db, u, plan)
    ensures UnitLaw(Apply(db, u, plan), u)
  {
  }

  lemma ApplyKeepsLaw(db: Db, u: Id, plan: Plan)
    requires Law(db) && u in db.units && Acting(db, u, plan) && !Violates(db, u, plan)
    ensures Law(Apply(db, u, plan))
  {
    var db' := Apply(db, u, plan);
    ApplyKeepsUnit(db, u, plan);
    forall v | v in db'.units
      ensures UnitLaw(db', v)
    {
      if v != u {
        ApplySparesRows(db, u, plan, v);
      }
    }
    ApplyKeepsRows(db, u, plan);
    ApplyKeepsKeys(db, u, plan);
  }

  lemma ApplyKeepsRows(db: Db, u: Id, plan: Plan)
    requires Law(db) && u in db.units && Acting(db, u, plan) && !Violates(db, u, plan)
    ensures var db' := Apply(db, u, plan);
            forall id :: id in db'.journeys ==> RowLaw(db'.journeys[id]) && db'.journeys[id].unidadId in db'.units
  {
  }

  lemma ApplyKeepsKeys(db: Db, u: Id, plan: Plan)
    requires Law(db) && u in db.units && Acting(db, u, plan) && !Violates(db, u, plan)
    ensures var units := Apply(db, u, plan).units;
            && (forall v, w :: v in units && w in units && v != w && units[v].pointer.Some? ==> units[v].pointer != units[w].pointer)
            && (forall v, w :: v in units && w in units && v != w && units[v].choferId.Some? ==> units[v].choferId != units[w].choferId)
  {
  }

  // -- The chain of receipts ------------------------------------------------------------

  /** The receipts of one unit, oldest first. */
  function Of(receipts: seq<Receipt>, u: Id): seq<Receipt> {
    if receipts == [] then []
    else
      var last := receipts[|receipts| - 1];
      Of(receipts[..|receipts| - 1], u) + if last.unidadId == u then [last] else []
  }

  /** Each receipt expects the revision the one before left, and leaves the next. */
  ghost predicate Numbered(rs: seq<Receipt>, first: nat, now: nat) {
    && now == first + |rs|
    && (forall i :: 0 <= i < |rs| ==> rs[i].expectedUnitRevision == Decimal(first + i) && rs[i].unitRevision == first + i + 1)
  }

  /** Kinds alternate from the unit's first situation, and a return closes the journey its departure opened. */
  ghost predicate Alternating(rs: seq<Receipt>, first: Unit, now: Unit) {
    && (rs == [] ==> now == first)
    && (rs != [] ==> rs[0].kind == if first.opsEstado == Disponible then Departure else Return)
    && (forall i :: 0 < i < |rs| ==> rs[i].kind != rs[i - 1].kind)
    && (forall i :: 0 < i < |rs| && rs[i].kind == Return ==> rs[i].journeyId == rs[i - 1].journeyId)
    && (rs != [] ==> if rs[|rs| - 1].kind == Departure then now.opsEstado == EnRuta && now.pointer == Some(rs[|rs| - 1].journeyId)
                     else now.opsEstado == Disponible)
  }

  ghost predicate Chain(rs: seq<Receipt>, first: Unit, now: Unit) {
    Numbered(rs, first.revision, now.revision) && Alternating(rs, first, now)
  }

  /** Every unit has its chain; and one with receipts that is on the road has its row. */
  ghost predicate Chained(start: Db, db: Db) {
    && db.units.Keys == start.units.Keys
    && (forall u :: u in db.units ==> ChainedAt(start, db, u))
  }

  ghost predicate KeysDistinct(receipts: seq<Receipt>) {
    forall i, j :: 0 <= i < j < |receipts| ==>
      receipts[i].actor != receipts[j].actor || Lower(receipts[i].commandId) != Lower(receipts[j].commandId)
  }

  lemma ExtendNumbers(rs: seq<Receipt>, first: nat, now: nat, last: Receipt)
    requires Numbered(rs, first, now) && last.expectedUnitRevision == Decimal(now) && last.unitRevision == now + 1
    ensures Numbered(rs + [last], first, now + 1)
  {
  }

  lemma ExtendKinds(rs: seq<Receipt>, first: Unit, now: Unit, next: Unit, last: Receipt)
    requires Alternating(rs, first, now)
    requires last.kind == if now.opsEstado == Disponible then Departure else Return
    requires last.kind == Return && now.pointer.Some? ==> last.journeyId == now.pointer.value
    requires if last.kind == Departure then next.opsEstado == EnRuta && next.pointer == Some(last.journeyId) else next.opsEstado == Disponible
    ensures Alternating(rs + [last], first, next)
  {
    var rs' := rs + [last];
    forall i | 0 < i < |rs'|
      ensures rs'[i].kind != rs'[i - 1].kind && (rs'[i].kind == Return ==> rs'[i].journeyId == rs'[i - 1].journeyId)
    {
      assert rs'[i - 1] == rs[i - 1];
      if i < |rs| {
        assert rs'[i] == rs[i];
      }
    }
  }

  lemma ExtendChain(rs: seq<Receipt>, first: Unit, db: Db, u: Id, plan: Plan)
    requires u in db.units && Acting(db, u, plan) && Chain(rs, first, db.units[u])
    ensures Chain(rs + [plan.receipt], first, plan.unit)
  {
    ExtendNumbers(rs, first.revision, db.units[u].revision, plan.receipt);
    ExtendKinds(rs, first, db.units[u], plan.unit, plan.receipt);
  }

  lemma OfAppended(receipts: seq<Receipt>, last: Receipt, u: Id)
    ensures Of(receipts + [last], u) == Of(receipts, u) + if last.unidadId == u then [last] else []
  {
    assert (receipts + [last])[..|receipts|] == receipts;
  }

  ghost predicate ChainedAt(start: Db, db: Db, u: Id) {
    && u in db.units && u in start.units
    && Chain(Of(db.receipts, u), start.units[u], db.units[u])
    && (Of(db.receipts, u) != [] && db.units[u].opsEstado == EnRuta ==> PointedRow(db, db.units[u]).Some?)
  }

  lemma ApplyKeepsOwnChain(start: Db, db: Db, u: Id, plan: Plan)
    requires ChainedAt(start, db, u) && Acting(db, u, plan)
    ensures ChainedAt(start, Apply(db, u, plan), u)
  {
    OfAppended(db.receipts, plan.receipt, u);
    ExtendChain(Of(db.receipts, u), start.units[u], db, u, plan);
  }

  lemma ApplyKeepsOtherChain(start: Db, db: Db, u: Id, plan: Plan, v: Id)
    requires u in db.units && plan.receipt.unidadId == u && v in db.units && v in start.units && v != u && ChainedAt(start, db, v)
    requires PointedRow(Apply(db, u, plan), db.units[v]) == PointedRow(db, db.units[v])
    ensures ChainedAt(start, Apply(db, u, plan), v)
  {
    OfAppended(db.receipts, plan.receipt, v);
    assert Of(Apply(db, u, plan).receipts, v) == Of(db.receipts, v);
  }

  lemma ApplyKeepsChain(start: Db, db: Db, u: Id, plan: Plan, v: Id)
    requires Law(db) && u in db.units && Acting(db, u, plan) && ChainedAt(start, db, v)
    ensures ChainedAt(start, Apply(db, u, plan), v)
  {
    if v == u {
      ApplyKeepsOwnChain(start, db, u, plan);
    } else {
      ApplySparesRows(db, u, plan, v);
      ApplyKeepsOtherChain(start, db, u, plan, v);
    }
  }

  // -- Runs -----------------------------------------------------------------------------

  ghost predicate FreshRun(db: Db, calls: seq<Call>) {
    forall i :: 0 <= i < |calls| ==> Fresh(Run(db, calls[..i]), calls[i].facts.freshId)
  }

  ghost predicate Reachable(start: Db, db: Db) {
    Law(db) && Chained(start, db) && KeysDistinct(db.receipts)
  }

  /** The rows that an accepted command wrote. */
  lemma AcceptedPlan(db: Db, req: Request, facts: Facts) returns (plan: Plan)
    requires Law(db) && Fresh(db, facts.freshId) && Execute(db, req, facts).response == Ok(true)
    ensures req.unidadId in db.units && Acting(db, req.unidadId, plan) && !Violates(db, req.unidadId, plan)
    ensures Execute(db, req, facts).db == Apply(db, req.unidadId, plan)
    ensures FindReceipt(db.receipts, plan.receipt.actor, plan.receipt.commandId).None?
  {
    PlanActs(db, req, facts, Occupied(db, req));
    plan := PlanFor(db, req, facts, Occupied(db, req)).value;
  }

  lemma KeysStayDistinct(receipts: seq<Receipt>, last: Receipt)
    requires KeysDistinct(receipts) && FindReceipt(receipts, last.actor, last.commandId).None?
    ensures KeysDistinct(receipts + [last])
  {
  }

  lemma RefusedChangesNothing(db: Db, req: Request, facts: Facts)
    requires Execute(db, req, facts).response != Ok(true)
    ensures Execute(db, req, facts).db == db
  {
  }

  lemma ExecuteKeeps(start: Db, db: Db, req: Request, facts: Facts)
    requires Reachable(start, db) && Fresh(db, facts.freshId)
    ensures Reachable(start, Execute(db, req, facts).db)
  {
    if Execute(db, req, facts).response != Ok(true) {
      RefusedChangesNothing(db, req, facts);
    } else {
      var plan := AcceptedPlan(db, req, facts);
      AppliedStaysReachable(start, db, req.unidadId, plan);
    }
  }

  lemma ApplyKeepsChained(start: Db, db: Db, u: Id, plan: Plan)
    requires Law(db) && Chained(start, db) && u in db.units && Acting(db, u, plan)
    ensures Chained(start, Apply(db, u, plan))
  {
    forall v | v in db.units
      ensures ChainedAt(start, Apply(db, u, plan), v)
    {
      ApplyKeepsChain(start, db, u, plan, v);
    }
  }

  lemma AppliedStaysReachable(start: Db, db: Db, u: Id, plan: Plan)
    requires Reachable(start, db) && u in db.units && Acting(db, u, plan) && !Violates(db, u, plan)
    requires FindReceipt(db.receipts, plan.receipt.actor, plan.receipt.commandId).None?
    ensures Reachable(start, Apply(db, u, plan))
  {
    ApplyKeepsLaw(db, u, plan);
    KeysStayDistinct(db.receipts, plan.receipt);
    ApplyKeepsChained(start, db, u, plan);
  }

  /** Every state a run reaches obeys the unit, row and key laws, and every unit has its chain of receipts. */
  lemma {:induction false} RunKeepsJourneys(start: Db, calls: seq<Call>)
    requires Law(start) && start.receipts == [] && FreshRun(start, calls)
    ensures Reachable(start, Run(start, calls))
  {
    if calls != [] {
      var front, last := calls[..|calls| - 1], calls[|calls| - 1];
      forall i | 0 <= i < |front|
        ensures front[..i] == calls[..i] && front[i] == calls[i]
      {
      }
      RunKeepsJourneys(start, front);
      ExecuteKeeps(start, Run(start, front), last.req, last.facts);
    }
  }

  lemma LawDescribes(db: Db, u: Id)
    requires u in db.units && UnitLaw(db, u)
    ensures Describe(db, u).Some?
    ensures var state := Describe(db, u).value.historyState;
            && (state == Available <==> db.units[u].opsEstado == Disponible)
            && (state == KnownOpen ==> PointedRow(db, db.units[u]).Some? && db.units[u].pointer.Some?
                                       && Describe(db, u).value.journeyRevision == Some(Decimal(PointedRow(db, db.units[u]).value.revision)))
            && (state == MissingRow || state == MissingPointer ==> db.units[u].opsEstado == EnRuta && PointedRow(db, db.units[u]).None?)
  {
  }

  /** No reachable unit is ever described as contradictory, so the listing never fails on one. */
  lemma DescribeNeverConflicts(start: Db, db: Db, u: Id)
    requires Reachable(start, db) && u in db.units
    ensures Describe(db, u).Some?
    ensures var state := Describe(db, u).value.historyState;
            && (state == Available <==> db.units[u].opsEstado == Disponible)
            && (state == KnownOpen ==> Describe(db, u).value.journeyRevision == Some("1"))
            && (state == MissingRow || state == MissingPointer ==> Of(db.receipts, u) == [] && db.units[u] == start.units[u])
  {
    LawDescribes(db, u);
    assert ChainedAt(start, db, u);
    assert Decimal(1) == "1";
  }

  // -- Commands act only on the situation they name -------------------------------------

  /** An accepted command named the unit's current situation, and consumed it. */
  lemma AcceptedNamesCurrent(db: Db, req: Request, facts: Facts)
    requires Execute(db, req, facts).response == Ok(true)
    ensures req.unidadId in db.units && Describe(db, req.unidadId).Some? && Names(req.command, Describe(db, req.unidadId).value)
    ensures var db' := Execute(db, req, facts).db;
            && db'.units[req.unidadId].revision == db.units[req.unidadId].revision + 1
            && (forall v :: v in db.units && v != req.unidadId ==> db'.units[v] == db.units[v])
            && FindReceipt(db.receipts, req.actor, req.command.commandId).None?
  {
  }

  lemma {:induction false} RevisionsGrow(db: Db, calls: seq<Call>, u: Id)
    requires u in db.units
    ensures u in Run(db, calls).units && Run(db, calls).units[u].revision >= db.units[u].revision
  {
    if calls != [] {
      RevisionsGrow(db, calls[..|calls| - 1], u);
    }
  }

  lemma StaleIsRefused(db: Db, req: Request, facts: Facts)
    requires req.unidadId in db.units && req.command.unitRevision != Decimal(db.units[req.unidadId].revision)
    ensures Execute(db, req, facts).db == db && Execute(db, req, facts).response != Ok(true)
  {
  }

  /**
   A command decided on one situation of a unit is never applied once any command of that
   unit has been accepted, whatever happens in between.
   */
  lemma StaleIsNeverApplied(db: Db, accepted: Call, calls: seq<Call>, req: Request, facts: Facts)
    requires Execute(db, accepted.req, accepted.facts).response == Ok(true)
    requires req.unidadId == accepted.req.unidadId && req.command.unitRevision == Decimal(db.units[req.unidadId].revision)
    ensures var late := Run(Execute(db, accepted.req, accepted.facts).db, calls);
            Execute(late, req, facts).db == late && Execute(late, req, facts).response != Ok(true)
  {
    var next := Execute(db, accepted.req, accepted.facts).db;
    AcceptedNamesCurrent(db, accepted.req, accepted.facts);
    RevisionsGrow(next, calls, req.unidadId);
    var late := Run(next, calls);
    ParseAfterDecimal(db.units[req.unidadId].revision);
    ParseAfterDecimal(late.units[req.unidadId].revision);
    StaleIsRefused(late, req, facts);
  }

  // -- Receipts answer repeated commands ------------------------------------------------

  lemma {:induction false} FindKeeps(receipts: seq<Receipt>, more: seq<Receipt>, actor: string, commandId: string)
    requires FindReceipt(receipts, actor, commandId).Some?
    ensures FindReceipt(receipts + more, actor, commandId) == FindReceipt(receipts, actor, commandId)
  {
    assert (receipts + more)[0] == receipts[0] && (receipts + more)[1..] == receipts[1..] + more;
    if receipts[0].actor != actor || Lower(receipts[0].commandId) != Lower(commandId) {
      FindKeeps(receipts[1..], more, actor, commandId);
    }
  }

  lemma {:induction false} FindLast(receipts: seq<Receipt>, last: Receipt)
    requires FindReceipt(receipts, last.actor, last.commandId).None?
    ensures FindReceipt(receipts + [last], last.actor, last.commandId) == Some(last)
  {
    if receipts != [] {
      assert (receipts + [last])[0] == receipts[0] && (receipts + [last])[1..] == receipts[1..] + [last];
      FindLast(receipts[1..], last);
    }
  }

  lemma {:induction false} ReceiptsStay(db: Db, calls: seq<Call>, u: Id, actor: string, commandId: string)
    requires u in db.units && FindReceipt(db.receipts, actor, commandId).Some?
    ensures u in Run(db, calls).units
    ensures FindReceipt(Run(db, calls).receipts, actor, commandId) == FindReceipt(db.receipts, actor, commandId)
  {
    if calls != [] {
      var mid := Run(db, calls[..|calls| - 1]);
      ReceiptsStay(db, calls[..|calls| - 1], u, actor, commandId);
      var last := Execute(mid, calls[|calls| - 1].req, calls[|calls| - 1].facts);
      if last.response == Ok(true) {
        FindKeeps(mid.receipts, [last.db.receipts[|mid.receipts|]], actor, commandId);
      }
    }
  }

  /**
   After a command is accepted, its key is spent for ever: the same request is answered as
   already served, any other request of that actor under that key is refused, and neither
   changes anything.
   */
  lemma KeyIsSpent(db: Db, first: Call, calls: seq<Call>, req: Request, facts: Facts)
    requires Execute(db, first.req, first.facts).response == Ok(true)
    requires req.actor == first.req.actor && req.command.expectedSubject == req.actor
    requires Lower(req.command.commandId) == Lower(first.req.command.commandId)
    ensures var late := Run(Execute(db, first.req, first.facts).db, calls);
            var again := Execute(late, req, facts);
            && again.db == late
            && (req.unidadId in late.units && facts.allowed ==>
                  again.response == if DigestOf(req) == DigestOf(first.req) then Ok(false) else Err(CommandReused))
  {
    var next := Execute(db, first.req, first.facts).db;
    var receipt := next.receipts[|db.receipts|];
    FindLast(db.receipts, receipt);
    ReceiptsStay(next, calls, first.req.unidadId, first.req.actor, first.req.command.commandId);
    SameKey(Run(next, calls).receipts, req.actor, req.command.commandId, first.req.command.commandId);
  }

  lemma {:induction false} SameKey(receipts: seq<Receipt>, actor: string, a: string, b: string)
    requires Lower(a) == Lower(b)
    ensures FindReceipt(receipts, actor, a) == FindReceipt(receipts, actor, b)
  {
    if receipts != [] {
      SameKey(receipts[1..], actor, a, b);
    }
  }

  // -- What distinct pointers are for ----------------------------------------------------

  /** A unit on the road that points at a row already closed. */
  ghost predicate Stranded(db: Db, v: Id) {
    && v in db.units && db.units[v].opsEstado == EnRuta
    && PointedRow(db, db.units[v]).Some? && PointedRow(db, db.units[v]).value.arrival.Some?
  }

  lemma StrandedIsRefused(db: Db, v: Id, req: Request, facts: Facts)
    requires Stranded(db, v) && req.unidadId == v
    ensures Describe(db, v).None?
    ensures Execute(db, req, facts).response != Ok(true) && Execute(db, req, facts).db == db
  {
  }

  /** Closed rows are never written again. */
  lemma ClosedRowStands(db: Db, req: Request, facts: Facts, p: Id)
    requires Fresh(db, facts.freshId) && p in db.journeys && db.journeys[p].arrival.Some?
    ensures var db' := Execute(db, req, facts).db; p in db'.journeys && db'.journeys[p] == db.journeys[p]
  {
  }

  lemma {:induction false} StaysStranded(db: Db, v: Id, calls: seq<Call>)
    requires Stranded(db, v) && FreshRun(db, calls)
    ensures Stranded(Run(db, calls), v)
  {
    if calls != [] {
      var front, last := calls[..|calls| - 1], calls[|calls| - 1];
      assert forall i :: 0 <= i < |front| ==> front[..i] == calls[..i];
      StaysStranded(db, v, front);
      var mid := Run(db, front);
      ClosedRowStands(mid, last.req, last.facts, mid.units[v].pointer.value);
      if last.req.unidadId == v {
        StrandedIsRefused(mid, v, last.req, last.facts);
      }
    }
  }

  /**
   Two units on the road with one pointer between them, as tables that break the law may
   have: once either returns, every command of the other is refused, after any run.
   */
  lemma SharedPointerStrands(db: Db, u: Id, v: Id, first: Call, calls: seq<Call>, req: Request, facts: Facts)
    requires u in db.units && v in db.units && u != v && db.units[u].opsEstado == EnRuta && db.units[v].opsEstado == EnRuta
    requires db.units[u].pointer.Some? && db.units[v].pointer == db.units[u].pointer
    requires first.req.unidadId == u && Execute(db, first.req, first.facts).response == Ok(true)
    requires FreshRun(Execute(db, first.req, first.facts).db, calls) && req.unidadId == v
    ensures var late := Run(Execute(db, first.req, first.facts).db, calls);
            v in late.units && Describe(late, v).None?
            && Execute(late, req, facts).response != Ok(true) && Execute(late, req, facts).db == late
  {
    ReturnStrands(db, u, v, first.req, first.facts);
    StaysStranded(Execute(db, first.req, first.facts).db, v, calls);
    StrandedIsRefused(Run(Execute(db, first.req, first.facts).db, calls), v, req, facts);
  }

  lemma ReturnStrands(db: Db, u: Id, v: Id, req: Request, facts: Facts)
    requires u in db.units && v in db.units && u != v && db.units[u].opsEstado == EnRuta && db.units[v].opsEstado == EnRuta
    requires db.units[u].pointer.Some? && db.units[v].pointer == db.units[u].pointer
    requires req.unidadId == u && Execute(db, req, facts).response == Ok(true)
    ensures Stranded(Execute(db, req, facts).db, v)
  {
  }

  // -- What is described can be commanded -----------------------------------------------

  /** The headers of a command that repeats the described situation. */
  function Echo(ctx: Context, commandId: string, subject: string): Headers {
    Headers(Some(commandId), Some(subject), Some(ctx.unitRevision), Some(NameOf(ctx.historyState)), ctx.journeyRef, ctx.journeyRevision)
  }

  /** Thirty-six hexadecimal digits and dashes, as any unit identifier is. */
  predicate UnitIdText(u: Id) {
    |u| == 36 && forall i :: 0 <= i < 36 ==> IsHex(u[i]) || u[i] == '-'
  }

  lemma LegacyRefIsAccepted(u: Id, revision: nat)
    requires UnitIdText(u)
    ensures IsLegacyRef(LegacyRef(u, revision))
  {
    var s := LegacyRef(u, revision);
    var d := Decimal(revision);
    ParseAfterDecimal(revision);
    assert s == ("legacy:" + u) + (":" + d);
    assert s[..7] == "legacy:";
    forall i | 7 <= i < 43
      ensures s[i] == u[i - 7]
    {
    }
    forall i | 44 <= i < |s|
      ensures s[i] == d[i - 44]
    {
    }
  }

  /** Echoed headers parse exactly when each has its admitted form; the command then names the situation. */
  lemma EchoParses(ctx: Context, commandId: string, subject: string)
    ensures var parsed := ParseCommand(Echo(ctx, commandId, subject));
            && (parsed.Some? <==>
                  && IsJourneyUuid(commandId) && !Blank(subject) && |subject| <= SUBJECT_MAX
                  && IsRevision(ctx.unitRevision) && ValidState(ctx.historyState, ctx.journeyRef, ctx.journeyRevision))
            && (parsed.Some? ==> Names(parsed.value, ctx) && parsed.value.expectedSubject == subject)
  {
    assert StateNamed(NameOf(ctx.historyState)) == Some(ctx.historyState);
  }

  lemma SituationIsAdmitted(start: Db, db: Db, u: Id)
    requires Reachable(start, db) && u in db.units && UnitIdText(u)
    ensures Describe(db, u).Some?
    ensures var ctx := Describe(db, u).value;
            && ctx.unitRevision == Decimal(db.units[u].revision)
            && (ValidState(ctx.historyState, ctx.journeyRef, ctx.journeyRevision)
                <==> (db.units[u].pointer.Some? ==> IsJourneyUuid(db.units[u].pointer.value)))
  {
    DescribeNeverConflicts(start, db, u);
    LegacyRefIsAccepted(u, db.units[u].revision);
  }

  /**
   A reachable situation echoed in headers is accepted and names that situation, exactly when
   the key, the subject, the revision and any stored pointer have their admitted form.
   */
  lemma EchoIsAccepted(start: Db, db: Db, u: Id, commandId: string, subject: string)
    requires Reachable(start, db) && u in db.units && UnitIdText(u)
    ensures Describe(db, u).Some?
    ensures var ctx := Describe(db, u).value;
            var parsed := ParseCommand(Echo(ctx, commandId, subject));
            && (parsed.Some? <==>
                  && IsJourneyUuid(commandId) && !Blank(subject) && |subject| <= 128
                  && db.units[u].revision <= 9223372036854775807
                  && (db.units[u].pointer.Some? ==> IsJourneyUuid(db.units[u].pointer.value)))
            && (parsed.Some? ==> Names(parsed.value, ctx) && parsed.value.expectedSubject == subject)
  {
    SituationIsAdmitted(start, db, u);
    RevisionTextIsAccepted(db.units[u].revision);
    EchoParses(Describe(db, u).value, commandId, subject);
  }
}
