/**
 The inventory database and what each command does to it, as functions from one
 committed state to the next. A command that is refused leaves no trace: the caller
 keeps the ledger it had, as the enclosing transaction does.
 */
module Inventory {
  import opened Wrappers
  import opened CostRules
  import opened Texts

  type Id = nat
  type Time = int

  const INT_MAX := 2147483647
  const BIGINT_MAX := 9223372036854775807

  datatype OpKind = Receipt | Consumption | External | Adjustment | Opening | Returned
  datatype MoveKind = Entrada | SalidaOt | Ajuste
  datatype Origin = DesdeStock | CompraExterna

  datatype Revision = Revision(
    actor: string, at: Time, reason: string,
    before: Option<CostMoney>, after: CostMoney, netBefore: Option<int>, netAfter: int)

  datatype CostOperation = CostOperation(
    id: Id, itemId: Id, kind: OpKind, qty: int,
    visitaId: Option<Id>, unidadId: Option<Id>, supplierId: Option<Id>, reference: Option<string>,
    money: Option<CostMoney>, netCents: Option<int>, revisions: seq<Revision>, version: nat,
    actor: string, reason: Option<string>, sourceId: Option<Id>, effectiveAt: Time)

  datatype Item = Item(sku: string, nombre: string, activo: bool)
  datatype Proveedor = Proveedor(nombre: string, activo: bool)
  datatype StockRow = StockRow(qty: int, minQty: Option<int>, criticalQty: int)

  datatype Valuation = Valuation(valueCents: Option<int>, version: nat, quantityAtCost: int, cutAt: Option<Time>)

  datatype Movimiento = Movimiento(
    id: Id, tipo: MoveKind, itemId: Id, qty: int, delta: int,
    visitaId: Option<Id>, nota: Option<string>, createdBy: Option<string>)

  datatype Pendiente = Pendiente(id: Id, visitaId: Id, itemId: Id, qty: int)

  /** All tables, together with the server's clock and the next identifier to be drawn. */
  datatype Ledger = Ledger(
    clock: Time, nextId: Id,
    items: map<Id, Item>, proveedores: map<Id, Proveedor>,
    stock: map<Id, StockRow>, valuation: map<Id, Valuation>,
    operations: seq<CostOperation>, movimientos: seq<Movimiento>, pendientes: seq<Pendiente>)

  /** Quantities and thresholds of an item before and after a change, as announced to the alerts. */
  datatype Crossing = Crossing(
    itemId: Id, prevQty: int, nextQty: int,
    prevMin: Option<int>, nextMin: Option<int>, prevCritical: int, nextCritical: int)

  datatype ConsumoLinea = ConsumoLinea(itemId: Id, qty: int, origen: Origin)
  datatype VisitaCerrada = VisitaCerrada(
    eventId: Id, visitaId: Id, unidadId: Id, cerradoAt: Time, consumos: seq<ConsumoLinea>)

  datatype InventoryError =
    | Cost(error: CostError)
    | StockNotFound | ItemNotFound | ItemInactive | InvalidSupplier
    | QuantityOutOfRange | ColumnOverflow | NegativeStock
    | MissingReason | ValueWithoutStock | StockChanged
    | OperationNotFound | VersionConflict | NeedsRegularisation | AmountAlreadyRecorded
    | HasReturns | NotAConsumption | ReturnExceedsConsumption
    | InvalidLineQuantity | InvalidThresholds
    | FamilyNotFound | FamilyInactive | EmptySku | EmptyName | SkuTaken

  datatype Posted = Posted(ledger: Ledger, crossings: seq<Crossing>, operation: Option<CostOperation>)
  type Outcome = Result<Posted, InventoryError>

  function Qty(l: Ledger, itemId: Id): int {
    if itemId in l.stock then l.stock[itemId].qty else 0
  }

  /** The valuation row a command works on: stored, created on the fly, or reset because it lags the stock. */
  function Locked(l: Ledger, itemId: Id, expected: int): Valuation {
    var unknown := if expected == 0 then Some(0) else None;
    var state := if itemId in l.valuation then l.valuation[itemId] else Valuation(unknown, 0, expected, None);
    if state.quantityAtCost != expected then state.(valueCents := unknown, quantityAtCost := expected) else state
  }

  function Current(l: Ledger, itemId: Id): Valuation {
    Locked(l, itemId, Qty(l, itemId))
  }

  function NewOperation(l: Ledger, itemId: Id, kind: OpKind, qty: int, actor: string, reason: Option<string>): CostOperation {
    CostOperation(l.nextId, itemId, kind, qty, None, None, None, None, None, None, [], 1, actor, reason, None, l.clock)
  }

  predicate FitsColumns(qty: int, value: Option<int>) {
    qty <= INT_MAX && (value.Some? ==> value.value <= BIGINT_MAX)
  }

  function SupplierOk(l: Ledger, id: Option<Id>): bool {
    id.Some? && id.value in l.proveedores && l.proveedores[id.value].activo
  }

  function FindOperation(ops: seq<CostOperation>, id: Id): (k: Option<nat>)
    ensures k.Some? ==> k.value < |ops| && ops[k.value].id == id
    ensures k.None? ==> forall i :: 0 <= i < |ops| ==> ops[i].id != id
  {
    if ops == [] then None
    else if ops[|ops| - 1].id == id then Some(|ops| - 1)
    else FindOperation(ops[..|ops| - 1], id)
  }

  // -- Receipts -------------------------------------------------------------------------

  datatype ReceiptInput = ReceiptInput(
    itemId: Id, qty: int, supplierId: Id, cost: CostInput, documentReference: Option<string>, note: Option<string>)

  function Receive(l: Ledger, input: ReceiptInput, actor: string): Outcome {
    var priced := CalculateCost(input.cost);
    if priced.Err? then Err(Cost(priced.error))
    else if !SupplierOk(l, Some(input.supplierId)) then Err(InvalidSupplier)
    else if input.itemId !in l.stock then Err(StockNotFound)
    else if input.itemId !in l.items then Err(ItemNotFound)
    else if !l.items[input.itemId].activo then Err(ItemInactive)
    else
      var row := l.stock[input.itemId];
      var qty := row.qty + input.qty;
      if qty > INT_MAX then Err(QuantityOutOfRange)
      else
        var net := if priced.value.Some? then Some(priced.value.value.netCents as int) else None;
        var state := Current(l, input.itemId);
        var value := if state.valueCents.Some? && net.Some? then Some(state.valueCents.value + net.value) else None;
        if !FitsColumns(qty, value) then Err(ColumnOverflow)
        else
          var op := NewOperation(l, input.itemId, Receipt, input.qty, actor, input.note)
                    .(money := priced.value, netCents := net, supplierId := Some(input.supplierId), reference := input.documentReference);
          Ok(Posted(l.(nextId := l.nextId + 1,
                       stock := l.stock[input.itemId := row.(qty := qty)],
                       valuation := l.valuation[input.itemId := state.(valueCents := value, version := state.version + 1, quantityAtCost := qty)],
                       operations := l.operations + [op],
                       movimientos := l.movimientos + [Movimiento(op.id, Entrada, input.itemId, input.qty, input.qty, None, input.note, Some(actor))]),
                    [CrossingOf(input.itemId, row, qty)], Some(op)))
  }

  function CrossingOf(itemId: Id, row: StockRow, nextQty: int): Crossing {
    Crossing(itemId, row.qty, nextQty, row.minQty, row.minQty, row.criticalQty, row.criticalQty)
  }

  // -- Physical movements and their cost ------------------------------------------------

  /** Who moves the stock and why; a visit turns the movement into a consumption. */
  datatype Cause = Cause(
    tipo: MoveKind, kind: OpKind, visitaId: Option<Id>, unidadId: Option<Id>, eventId: Option<Id>,
    at: Option<Time>, actor: Option<string>, nota: Option<string>)

  /** Cost side of a movement that took the stock from `before` to `before + delta`. */
  function RecordDelta(l: Ledger, itemId: Id, before: int, delta: int, cause: Cause): Result<Ledger, InventoryError> {
    var found := Locked(l, itemId, before);
    var state := if found.version == 0 then found.(valueCents := if before == 0 then Some(0) else None) else found;
    var share := if delta < 0 && state.valueCents.Some? then Some(AllocatedCost(state.valueCents.value, -delta, before)) else None;
    if share.Some? && share.value.Err? then Err(Cost(share.value.error))
    else
      var net := if share.Some? then Some(share.value.value as int) else None;
      var left := if net.Some? then Some(state.valueCents.value - net.value) else None;
      var value := if before + delta == 0 then Some(0) else left;
      var kind := if cause.visitaId.Some? then Consumption else cause.kind;
      var actor := if cause.actor.Some? then cause.actor.value else "SYSTEM:CLOSE";
      var op := NewOperation(l, itemId, kind, if delta < 0 then -delta else delta, actor, cause.nota)
                .(visitaId := cause.visitaId, unidadId := cause.unidadId, sourceId := cause.eventId,
                  effectiveAt := if cause.at.Some? then cause.at.value else l.clock, netCents := net);
      Ok(l.(nextId := l.nextId + 1,
            valuation := l.valuation[itemId := state.(valueCents := value, version := state.version + 1, quantityAtCost := before + delta)],
            operations := l.operations + [op]))
  }

  /** Stock row, movement and cost of one signed change. */
  function MoveStock(l: Ledger, itemId: Id, row: StockRow, delta: int, cause: Cause): Outcome {
    var next := row.qty + delta;
    if next < 0 then Err(NegativeStock)
    else if next > INT_MAX then Err(ColumnOverflow)
    else
      var movement := Movimiento(l.nextId, cause.tipo, itemId, if delta < 0 then -delta else delta, delta, cause.visitaId, cause.nota, cause.actor);
      var moved := l.(nextId := l.nextId + 1,
                      stock := l.stock[itemId := row.(qty := next)],
                      movimientos := l.movimientos + [movement]);
      var costed := RecordDelta(moved, itemId, row.qty, delta, cause);
      if costed.Err? then Err(costed.error)
      else Ok(Posted(costed.value, [CrossingOf(itemId, row, next)], None))
  }

  /** Adjustment made through the costing service. */
  function Adjust(l: Ledger, itemId: Id, delta: int, nota: string, actor: string): Outcome {
    if itemId !in l.stock then Err(StockNotFound)
    else MoveStock(l, itemId, l.stock[itemId], delta, Cause(Ajuste, Adjustment, None, None, None, None, Some(actor), Some(nota)))
  }

  /** The stock writer shared by entries, adjustments and closed visits. */
  function ApplyDelta(l: Ledger, itemId: Id, delta: int, cause: Cause): Outcome {
    if itemId !in l.items then Err(ItemNotFound)
    else MoveStock(l, itemId, RowFor(l, itemId), delta, cause)
  }

  function RowFor(l: Ledger, itemId: Id): StockRow {
    if itemId in l.stock then l.stock[itemId] else StockRow(0, None, 0)
  }

  function EntradaCause(nota: Option<string>, user: Option<string>): Cause {
    Cause(Entrada, Receipt, None, None, None, None, user, nota)
  }

  function AjusteCause(nota: string, user: Option<string>): Cause {
    Cause(Ajuste, Adjustment, None, None, None, None, user, Some(nota))
  }

  function VisitCause(p: VisitaCerrada): Cause {
    Cause(SalidaOt, Adjustment, Some(p.visitaId), Some(p.unidadId), Some(p.eventId), Some(p.cerradoAt), None, None)
  }

  // -- Closed visits --------------------------------------------------------------------

  function InsertLine(line: ConsumoLinea, sorted: seq<ConsumoLinea>): seq<ConsumoLinea> {
    if sorted == [] || line.itemId <= sorted[0].itemId then [line] + sorted
    else [sorted[0]] + InsertLine(line, sorted[1..])
  }

  /** Lines in item order; equal items keep their relative order. */
  function SortLines(lines: seq<ConsumoLinea>): seq<ConsumoLinea> {
    if lines == [] then [] else InsertLine(lines[0], SortLines(lines[1..]))
  }

  predicate AlreadyApplied(l: Ledger, p: VisitaCerrada) {
    exists i :: 0 <= i < |l.operations|
             && (l.operations[i].sourceId == Some(p.eventId)
                 || (l.operations[i].visitaId == Some(p.visitaId)
                     && (l.operations[i].kind == Consumption || l.operations[i].kind == External)))
  }

  function RecordExternal(l: Ledger, line: ConsumoLinea, p: VisitaCerrada): Ledger {
    var op := NewOperation(l, line.itemId, External, line.qty, "SYSTEM:CLOSE", None)
              .(visitaId := Some(p.visitaId), unidadId := Some(p.unidadId), sourceId := Some(p.eventId), effectiveAt := p.cerradoAt);
    l.(nextId := l.nextId + 2,
       operations := l.operations + [op],
       pendientes := l.pendientes + [Pendiente(l.nextId + 1, p.visitaId, line.itemId, line.qty)])
  }

  function CloseLine(l: Ledger, line: ConsumoLinea, p: VisitaCerrada): Outcome {
    if line.qty < 1 then Err(InvalidLineQuantity)
    else if line.origen == DesdeStock then ApplyDelta(l, line.itemId, -line.qty, VisitCause(p))
    else if line.itemId !in l.items then Err(ItemNotFound)
    else Ok(Posted(RecordExternal(l, line, p), [], None))
  }

  function CloseLines(l: Ledger, lines: seq<ConsumoLinea>, p: VisitaCerrada): Outcome
    decreases lines
  {
    if lines == [] then Ok(Posted(l, [], None))
    else
      var first := CloseLine(l, lines[0], p);
      if first.Err? then first
      else
        var rest := CloseLines(first.value.ledger, lines[1..], p);
        if rest.Err? then rest
        else Ok(Posted(rest.value.ledger, first.value.crossings + rest.value.crossings, None))
  }

  function CloseVisit(l: Ledger, p: VisitaCerrada): Outcome {
    if AlreadyApplied(l, p) then Ok(Posted(l, [], None))
    else CloseLines(l, SortLines(p.consumos), p)
  }

  // -- Openings, revisions, returns -----------------------------------------------------

  datatype OpeningInput = OpeningInput(qty: int, valueCents: string, expectedVersion: int, reason: string)

  function Open(l: Ledger, itemId: Id, input: OpeningInput, actor: string): Outcome {
    if Cents(input.valueCents).None? then Err(Cost(InvalidAmount))
    else if Blank(input.reason) then Err(MissingReason)
    else if input.qty == 0 && Cents(input.valueCents).value != 0 then Err(ValueWithoutStock)
    else if itemId !in l.stock then Err(StockNotFound)
    else
      var value := Cents(input.valueCents).value as int;
      var qty := l.stock[itemId].qty;
      var state := Current(l, itemId);
      if qty != input.qty || state.version != input.expectedVersion then Err(StockChanged)
      else
        var op := NewOperation(l, itemId, Opening, qty, actor, Some(input.reason)).(netCents := Some(value));
        Ok(Posted(l.(nextId := l.nextId + 1,
                     valuation := l.valuation[itemId := Valuation(Some(value), state.version + 1, qty, Some(l.clock))],
                     operations := l.operations + [op]),
                  [], Some(op)))
  }

  datatype RevisionInput = RevisionInput(
    id: Id, cost: CostInput, expectedVersion: int, reason: string, supplierId: Option<Id>, correct: bool)

  predicate HasReturnOf(ops: seq<CostOperation>, id: Id) {
    exists i :: 0 <= i < |ops| && ops[i].kind == Returned && ops[i].sourceId == Some(id)
  }

  function Revised(op: CostOperation, money: CostMoney, supplierId: Option<Id>, input: RevisionInput, actor: string, at: Time): CostOperation {
    op.(supplierId := supplierId,
        revisions := op.revisions + [Revision(actor, at, input.reason, op.money, money, op.netCents, money.netCents)],
        money := Some(money), netCents := Some(money.netCents), version := op.version + 1)
  }

  /** Whether revising the operation makes the current stock value uncertain. */
  predicate ReopensValuation(l: Ledger, op: CostOperation) {
    (op.kind == Receipt || op.kind == Consumption)
    && (Current(l, op.itemId).cutAt.None? || op.effectiveAt >= Current(l, op.itemId).cutAt.value)
  }

  function Reopened(l: Ledger, itemId: Id): Valuation {
    var state := Current(l, itemId);
    state.(valueCents := if Qty(l, itemId) == 0 then Some(0) else None, version := state.version + 1)
  }

  function Revise(l: Ledger, input: RevisionInput, actor: string): Outcome {
    var priced := CalculateCost(input.cost);
    if priced.Err? then Err(Cost(priced.error))
    else if priced.value.None? || Blank(input.reason) then Err(MissingReason)
    else
      var found := FindOperation(l.operations, input.id);
      if found.None? then Err(OperationNotFound) else ReviseFound(l, input, found.value, priced.value.value, actor)
  }

  function ReviseFound(l: Ledger, input: RevisionInput, k: nat, money: CostMoney, actor: string): Outcome
    requires k < |l.operations|
  {
    var op := l.operations[k];
    if op.itemId !in l.stock then Err(StockNotFound)
    else if op.version != input.expectedVersion then Err(VersionConflict)
    else if op.kind !in {Receipt, Consumption, External} then Err(NeedsRegularisation)
    else if op.netCents.Some? && !input.correct then Err(AmountAlreadyRecorded)
    else
      var supplier := if op.kind == Consumption then op.supplierId
                      else if input.supplierId.Some? then input.supplierId else op.supplierId;
      if op.kind != Consumption && !SupplierOk(l, supplier) then Err(InvalidSupplier)
      else if op.kind == Consumption && HasReturnOf(l.operations, op.id) then Err(HasReturns)
      else
        var next := Revised(op, money, supplier, input, actor, l.clock);
        var l1 := l.(operations := l.operations[k := next]);
        Ok(Posted(if ReopensValuation(l, op) then l1.(valuation := l.valuation[op.itemId := Reopened(l, op.itemId)]) else l1,
                  [], Some(next)))
  }

  /** Pieces already returned against an operation. */
  function ReturnedQty(ops: seq<CostOperation>, id: Id): int {
    if ops == [] then 0
    else
      var last := ops[|ops| - 1];
      ReturnedQty(ops[..|ops| - 1], id) + if last.kind == Returned && last.sourceId == Some(id) then last.qty else 0
  }

  function ReturnedNet(ops: seq<CostOperation>, id: Id): int {
    if ops == [] then 0
    else
      var last := ops[|ops| - 1];
      ReturnedNet(ops[..|ops| - 1], id)
      + if last.kind == Returned && last.sourceId == Some(id) && last.netCents.Some? then last.netCents.value else 0
  }

  predicate ReturnsKnown(ops: seq<CostOperation>, id: Id) {
    forall i :: 0 <= i < |ops| && ops[i].kind == Returned && ops[i].sourceId == Some(id) ==> ops[i].netCents.Some?
  }

  datatype ReturnInput = ReturnInput(id: Id, qty: int, reason: string)

  function TakeBack(l: Ledger, input: ReturnInput, actor: string): Outcome {
    if Blank(input.reason) then Err(MissingReason)
    else
      var found := FindOperation(l.operations, input.id);
      if found.None? then Err(OperationNotFound)
      else
        var source := l.operations[found.value];
        if source.itemId !in l.stock then Err(StockNotFound)
        else if source.kind != Consumption then Err(NotAConsumption)
        else
          var left := source.qty - ReturnedQty(l.operations, input.id);
          if input.qty > left then Err(ReturnExceedsConsumption)
          else
            var known := source.netCents.Some? && ReturnsKnown(l.operations, input.id);
            var share := if known then Some(AllocatedCost(source.netCents.value - ReturnedNet(l.operations, input.id), input.qty, left)) else None;
            if share.Some? && share.value.Err? then Err(Cost(share.value.error))
            else PostReturn(l, input, source, if share.Some? then Some(share.value.value as int) else None, actor)
  }

  function PostReturn(l: Ledger, input: ReturnInput, source: CostOperation, net: Option<int>, actor: string): Outcome
    requires source.itemId in l.stock
  {
    var row := l.stock[source.itemId];
    var qty := row.qty + input.qty;
    var state := Current(l, source.itemId);
    var value := if state.valueCents.Some? && net.Some? then Some(state.valueCents.value + net.value) else None;
    if !FitsColumns(qty, value) then Err(ColumnOverflow)
    else
      var op := NewOperation(l, source.itemId, Returned, input.qty, actor, Some(input.reason))
                .(visitaId := source.visitaId, unidadId := source.unidadId, sourceId := Some(input.id), netCents := net);
      Ok(Posted(l.(nextId := l.nextId + 1,
                   stock := l.stock[source.itemId := row.(qty := qty)],
                   valuation := l.valuation[source.itemId := state.(valueCents := value, version := state.version + 1, quantityAtCost := qty)],
                   operations := l.operations + [op],
                   movimientos := l.movimientos + [Movimiento(op.id, Ajuste, source.itemId, input.qty, input.qty, source.visitaId, Some("Retorno: " + input.reason), Some(actor))]),
                [CrossingOf(source.itemId, row, qty)], Some(op)))
  }

  // -- Items and thresholds -------------------------------------------------------------

  predicate ThresholdsOk(minQty: Option<int>, criticalQty: int) {
    criticalQty >= 0 && (minQty.Some? ==> minQty.value >= 0 && criticalQty <= minQty.value)
  }

  function NextCritical(requested: Option<int>, minQty: Option<int>, stored: int): int {
    if requested.Some? then requested.value
    else if minQty.None? || stored <= minQty.value then stored
    else minQty.value
  }

  /** A new item as requested; `familia` is what its family was found to be: absent, or active or not. */
  datatype ItemDraft = ItemDraft(sku: string, nombre: string, familia: Option<bool>, activo: Option<bool>)

  /** The unique column of the items table, for a row other than the given one. */
  predicate SkuInUse(l: Ledger, sku: string, except: Option<Id>) {
    exists id :: id in l.items && l.items[id].sku == sku && Some(id) != except
  }

  /** A new item starts empty; the caller has validated the optional minimum. */
  function CreateItem(l: Ledger, draft: ItemDraft, minQty: Option<int>): Outcome {
    if draft.familia.None? then Err(FamilyNotFound)
    else if !draft.familia.value then Err(FamilyInactive)
    else if Blank(draft.sku) then Err(EmptySku)
    else if Blank(draft.nombre) then Err(EmptyName)
    else if SkuInUse(l, Trim(draft.sku), None) then Err(SkuTaken)
    else
      var id := l.nextId;
      var item := Item(Trim(draft.sku), Trim(draft.nombre), if draft.activo.Some? then draft.activo.value else true);
      Ok(Posted(l.(nextId := l.nextId + 1, items := l.items[id := item], stock := l.stock[id := StockRow(0, minQty, 0)]),
                [Crossing(id, 0, 0, None, minQty, 0, 0)], None))
  }

  /** Fields given in an edit; a given family was found or not. */
  datatype ItemPatch = ItemPatch(
    sku: Option<string>, nombre: Option<string>, familiaFound: Option<bool>,
    activo: Option<bool>, minQty: Option<Option<int>>, criticalQty: Option<int>)

  function Patched(item: Item, patch: ItemPatch): Item {
    Item(if patch.sku.Some? then Trim(patch.sku.value) else item.sku,
         if patch.nombre.Some? then Trim(patch.nombre.value) else item.nombre,
         if patch.activo.Some? then patch.activo.value else item.activo)
  }

  function UpdateItem(l: Ledger, itemId: Id, patch: ItemPatch): Outcome {
    if itemId !in l.items then Err(ItemNotFound)
    else
      var row := RowFor(l, itemId);
      var minQty := if patch.minQty.Some? then patch.minQty.value else row.minQty;
      var critical := NextCritical(patch.criticalQty, minQty, row.criticalQty);
      var item := Patched(l.items[itemId], patch);
      if !ThresholdsOk(minQty, critical) then Err(InvalidThresholds)
      else if patch.sku.Some? && Blank(patch.sku.value) then Err(EmptySku)
      else if patch.nombre.Some? && Blank(patch.nombre.value) then Err(EmptyName)
      else if patch.familiaFound == Some(false) then Err(FamilyNotFound)
      else if SkuInUse(l, item.sku, Some(itemId)) then Err(SkuTaken)
      else
        var l1 := l.(items := l.items[itemId := item]);
        if patch.minQty.None? && patch.criticalQty.None? then Ok(Posted(l1, [], None))
        else
          Ok(Posted(l1.(stock := l.stock[itemId := StockRow(row.qty, minQty, critical)]),
                    [Crossing(itemId, row.qty, row.qty, row.minQty, minQty, row.criticalQty, critical)], None))
  }

  /** Threshold edit from the alert catalogue: stored now, announced later by Reconcile. */
  function UpdateAlertThreshold(l: Ledger, itemId: Id, minQty: Option<int>, criticalQty: Option<int>): Outcome {
    if itemId !in l.stock then Err(StockNotFound)
    else
      var row := l.stock[itemId];
      var critical := NextCritical(criticalQty, minQty, row.criticalQty);
      if !ThresholdsOk(minQty, critical) then Err(InvalidThresholds)
      else Ok(Posted(l.(stock := l.stock[itemId := StockRow(row.qty, minQty, critical)]), [], None))
  }

  predicate Low(qty: int, minQty: Option<int>) {
    minQty.Some? && qty <= minQty.value
  }

  /** Crossings that force the alerts of these items to be announced afresh. */
  function ReconcileCrossings(l: Ledger, itemIds: seq<Id>): seq<Crossing> {
    if itemIds == [] then []
    else
      var rest := ReconcileCrossings(l, itemIds[1..]);
      if itemIds[0] !in l.stock then rest
      else
        var row := l.stock[itemIds[0]];
        [Crossing(itemIds[0], row.qty, row.qty, if Low(row.qty, row.minQty) then None else Some(row.qty), row.minQty, row.criticalQty, row.criticalQty)] + rest
  }

  // -- Commands -------------------------------------------------------------------------

  datatype Command =
    | CmdReceive(receipt: ReceiptInput)
    | CmdAdjust(itemId: Id, delta: int, nota: string)
    | CmdEntrada(itemId: Id, qty: int, entryNote: Option<string>)
    | CmdAjuste(itemId: Id, delta: int, nota: string)
    | CmdOpen(itemId: Id, opening: OpeningInput)
    | CmdRevise(revision: RevisionInput)
    | CmdReturn(giveBack: ReturnInput)
    | CmdClose(visita: VisitaCerrada)
    | CmdCreateItem(draft: ItemDraft, minimum: Option<int>)
    | CmdUpdateItem(itemId: Id, patch: ItemPatch)
    | CmdThreshold(itemId: Id, minQty: Option<int>, criticalQty: Option<int>)
    | CmdReconcile(itemIds: seq<Id>)

  /** What the request validators guarantee before a command reaches the service. */
  predicate Admissible(cmd: Command) {
    match cmd
    case CmdReceive(r) => 1 <= r.qty <= 1000000000
    case CmdAdjust(_, delta, _) => delta != 0
    case CmdEntrada(_, qty, _) => qty >= 1
    case CmdAjuste(_, delta, _) => delta != 0
    case CmdOpen(_, o) => 0 <= o.qty <= 1000000000 && o.expectedVersion >= 0
    case CmdRevise(r) => r.expectedVersion >= 1
    case CmdReturn(r) => 1 <= r.qty <= 1000000000
    case CmdCreateItem(_, m) => m.Some? ==> m.value >= 0
    case _ => true
  }

  function Perform(l: Ledger, cmd: Command, actor: string): Outcome {
    match cmd
    case CmdReceive(r) => Receive(l, r, actor)
    case CmdAdjust(itemId, delta, nota) => Adjust(l, itemId, delta, nota, actor)
    case CmdEntrada(itemId, qty, nota) => ApplyDelta(l, itemId, qty, EntradaCause(nota, Some(actor)))
    case CmdAjuste(itemId, delta, nota) => ApplyDelta(l, itemId, delta, AjusteCause(nota, Some(actor)))
    case CmdOpen(itemId, o) => Open(l, itemId, o, actor)
    case CmdRevise(r) => Revise(l, r, actor)
    case CmdReturn(r) => TakeBack(l, r, actor)
    case CmdClose(p) => CloseVisit(l, p)
    case CmdCreateItem(draft, m) => CreateItem(l, draft, m)
    case CmdUpdateItem(itemId, patch) => UpdateItem(l, itemId, patch)
    case CmdThreshold(itemId, m, c) => UpdateAlertThreshold(l, itemId, m, c)
    case CmdReconcile(ids) => Ok(Posted(l, ReconcileCrossings(l, ids), None))
  }

  /** A command as it happens: some time passes, then it is served or refused. */
  datatype Event = Event(elapsed: nat, actor: string, cmd: Command)

  function Tick(l: Ledger, elapsed: nat): Ledger {
    l.(clock := l.clock + elapsed)
  }

  function Step(l: Ledger, e: Event): Ledger {
    var outcome := Perform(Tick(l, e.elapsed), e.cmd, e.actor);
    if outcome.Ok? then outcome.value.ledger else Tick(l, e.elapsed)
  }

  function Run(l: Ledger, events: seq<Event>): Ledger {
    if events == [] then l else Step(Run(l, events[..|events| - 1]), events[|events| - 1])
  }
}
