/** The inventory services as they run: tables updated in place, rolled back on refusal. */
module InventoryService {
  import opened Wrappers
  import opened CostRules
  import opened Inventory
  import opened Texts
  import Returns

  /** What a served command hands back, apart from the tables it changed. */
  datatype Delivered = Delivered(crossings: seq<Crossing>, operation: Option<CostOperation>)

  function After(l: Ledger, outcome: Outcome): Ledger {
    if outcome.Ok? then outcome.value.ledger else l
  }

  function Told(outcome: Outcome): Result<Delivered, InventoryError> {
    if outcome.Ok? then Ok(Delivered(outcome.value.crossings, outcome.value.operation)) else Err(outcome.error)
  }

  class Service {
    var clock: Time
    var nextId: Id
    var items: map<Id, Item>
    var proveedores: map<Id, Proveedor>
    var stock: map<Id, StockRow>
    var valuation: map<Id, Valuation>
    var operations: seq<CostOperation>
    var movimientos: seq<Movimiento>
    var pendientes: seq<Pendiente>

    function Tables(): Ledger
      reads this
    {
      Ledger(clock, nextId, items, proveedores, stock, valuation, operations, movimientos, pendientes)
    }

    constructor (l: Ledger)
      ensures Tables() == l
    {
      clock, nextId, items, proveedores := l.clock, l.nextId, l.items, l.proveedores;
      stock, valuation, operations := l.stock, l.valuation, l.operations;
      movimientos, pendientes := l.movimientos, l.pendientes;
    }

    /** Undo everything since the snapshot, as the transaction does. */
    method Rollback(l: Ledger)
      modifies this
      ensures Tables() == l
    {
      clock, nextId, items, proveedores := l.clock, l.nextId, l.items, l.proveedores;
      stock, valuation, operations := l.stock, l.valuation, l.operations;
      movimientos, pendientes := l.movimientos, l.pendientes;
    }

    method FreshId() returns (id: Id)
      modifies this`nextId
      ensures id == old(nextId) && nextId == id + 1
    {
      id := nextId;
      nextId := nextId + 1;
    }

    method LockedRow(itemId: Id, expected: int) returns (state: Valuation)
      ensures state == Locked(Tables(), itemId, expected)
    {
      var unknown := if expected == 0 then Some(0) else None;
      if itemId in valuation {
        state := valuation[itemId];
      } else {
        state := Valuation(unknown, 0, expected, None);
      }
      if state.quantityAtCost != expected {
        state := state.(valueCents := unknown, quantityAtCost := expected);
      }
    }

    method FindById(id: Id) returns (k: Option<nat>)
      ensures k == FindOperation(operations, id)
    {
      var i := |operations|;
      assert operations[..i] == operations;
      while i > 0
        invariant 0 <= i <= |operations|
        invariant FindOperation(operations, id) == FindOperation(operations[..i], id)
      {
        assert operations[..i][..i - 1] == operations[..i - 1];
        i := i - 1;
        if operations[i].id == id {
          return Some(i);
        }
      }
      k := None;
    }

    /** Pieces and money already returned against a consumption, and whether all of it is known. */
    method PriorReturns(id: Id) returns (qty: int, net: int, known: bool)
      ensures qty == ReturnedQty(operations, id) && net == ReturnedNet(operations, id)
      ensures known <==> ReturnsKnown(operations, id)
    {
      qty, net, known := 0, 0, true;
      for i := 0 to |operations|
        invariant qty == ReturnedQty(operations[..i], id) && net == ReturnedNet(operations[..i], id)
        invariant known <==> ReturnsKnown(operations[..i], id)
      {
        var op := operations[i];
        assert operations[..i + 1] == operations[..i] + [op];
        Returns.AppendReturn(operations[..i], op, id);
        if op.kind == Returned && op.sourceId == Some(id) {
          qty := qty + op.qty;
          if op.netCents.Some? {
            net := net + op.netCents.value;
          } else {
            known := false;
          }
        }
      }
      assert operations[..|operations|] == operations;
    }

    /** The rows a receipt is about to write, or why it is refused. */
    method PriceReceipt(input: ReceiptInput, actor: string) returns (failed: Option<InventoryError>, net: Option<int>, row: StockRow, state: Valuation)
      ensures var spec := Inventory.Receive(Tables(), input, actor);
              && failed == (if spec.Err? then Some(spec.error) else None)
              && (spec.Ok? ==>
                    && input.itemId in stock && row == spec.value.ledger.stock[input.itemId]
                    && state == spec.value.ledger.valuation[input.itemId]
                    && spec.value.operation.Some? && net == spec.value.operation.value.netCents)
    {
      row, net, state := StockRow(0, None, 0), None, Valuation(None, 0, 0, None);
      var priced := CalculateCost(input.cost);
      if priced.Err? {
        return Some(Cost(priced.error)), net, row, state;
      }
      if !SupplierOk(Tables(), Some(input.supplierId)) {
        return Some(InvalidSupplier), net, row, state;
      }
      if input.itemId !in stock {
        return Some(StockNotFound), net, row, state;
      }
      row := stock[input.itemId];
      state := LockedRow(input.itemId, row.qty);
      if input.itemId !in items {
        return Some(ItemNotFound), net, row, state;
      }
      if !items[input.itemId].activo {
        return Some(ItemInactive), net, row, state;
      }
      row := row.(qty := row.qty + input.qty);
      if row.qty > INT_MAX {
        return Some(QuantityOutOfRange), net, row, state;
      }
      net := if priced.value.Some? then Some(priced.value.value.netCents as int) else None;
      state := state.(valueCents := if state.valueCents.Some? && net.Some? then Some(state.valueCents.value + net.value) else None,
                      version := state.version + 1, quantityAtCost := row.qty);
      if !FitsColumns(row.qty, state.valueCents) {
        return Some(ColumnOverflow), net, row, state;
      }
      failed := None;
    }

    method Receive(input: ReceiptInput, actor: string) returns (r: Result<Delivered, InventoryError>)
      modifies this
      ensures Tables() == After(old(Tables()), Inventory.Receive(old(Tables()), input, actor))
      ensures r == Told(Inventory.Receive(old(Tables()), input, actor))
    {
      var failed, net, row, state := PriceReceipt(input, actor);
      if failed.Some? {
        return Err(failed.value);
      }
      var crossing := CrossingOf(input.itemId, stock[input.itemId], row.qty);
      stock := stock[input.itemId := row];
      valuation := valuation[input.itemId := state];
      var op := NewOperation(Tables(), input.itemId, Receipt, input.qty, actor, input.note)
                .(money := CalculateCost(input.cost).value, netCents := net, supplierId := Some(input.supplierId), reference := input.documentReference);
      var id := FreshId();
      operations := operations + [op];
      movimientos := movimientos + [Movimiento(id, Entrada, input.itemId, input.qty, input.qty, None, input.note, Some(actor))];
      r := Ok(Delivered([crossing], Some(op)));
    }

    /** Cost of a movement and the valuation it leaves. */
    method PriceDelta(itemId: Id, before: int, delta: int, cause: Cause) returns (failed: Option<InventoryError>, net: Option<int>, state: Valuation)
      ensures var done := Inventory.RecordDelta(Tables(), itemId, before, delta, cause);
              && failed == (if done.Err? then Some(done.error) else None)
              && (done.Ok? ==>
                    && done.value.valuation == valuation[itemId := state]
                    && |done.value.operations| == |operations| + 1 && done.value.operations[|operations|].netCents == net)
    {
      state := LockedRow(itemId, before);
      if state.version == 0 {
        state := state.(valueCents := if before == 0 then Some(0) else None);
      }
      net := None;
      if delta < 0 && state.valueCents.Some? {
        var share := AllocatedCost(state.valueCents.value, -delta, before);
        if share.Err? {
          return Some(Cost(share.error)), net, state;
        }
        net := Some(share.value as int);
      }
      state := state.(valueCents := if net.Some? then Some(state.valueCents.value - net.value) else None);
      if before + delta == 0 {
        state := state.(valueCents := Some(0));
      }
      state := state.(version := state.version + 1, quantityAtCost := before + delta);
      failed := None;
    }

    method RecordDelta(itemId: Id, before: int, delta: int, cause: Cause) returns (failed: Option<InventoryError>)
      modifies this
      ensures var done := Inventory.RecordDelta(old(Tables()), itemId, before, delta, cause);
              if done.Err? then failed == Some(done.error) && Tables() == old(Tables())
              else failed == None && Tables() == done.value
    {
      var net, state;
      failed, net, state := PriceDelta(itemId, before, delta, cause);
      if failed.Some? {
        return;
      }
      valuation := valuation[itemId := state];
      var op := NewOperation(Tables(), itemId, if cause.visitaId.Some? then Consumption else cause.kind,
                             if delta < 0 then -delta else delta,
                             if cause.actor.Some? then cause.actor.value else "SYSTEM:CLOSE", cause.nota)
                .(visitaId := cause.visitaId, unidadId := cause.unidadId, sourceId := cause.eventId,
                  effectiveAt := if cause.at.Some? then cause.at.value else clock, netCents := net);
      var id := FreshId();
      operations := operations + [op];
    }

    /** Stock, movement and cost of one change; the caller has already found the row. */
    method MoveStock(itemId: Id, row: StockRow, delta: int, cause: Cause) returns (r: Result<Delivered, InventoryError>)
      modifies this
      ensures Tables() == After(old(Tables()), Inventory.MoveStock(old(Tables()), itemId, row, delta, cause))
      ensures r == Told(Inventory.MoveStock(old(Tables()), itemId, row, delta, cause))
    {
      var before := Tables();
      var next := row.qty + delta;
      if next < 0 {
        return Err(NegativeStock);
      }
      if next > INT_MAX {
        return Err(ColumnOverflow);
      }
      stock := stock[itemId := row.(qty := next)];
      var id := FreshId();
      movimientos := movimientos + [Movimiento(id, cause.tipo, itemId, if delta < 0 then -delta else delta, delta, cause.visitaId, cause.nota, cause.actor)];
      var failed := RecordDelta(itemId, row.qty, delta, cause);
      if failed.Some? {
        Rollback(before);
        return Err(failed.value);
      }
      r := Ok(Delivered([CrossingOf(itemId, row, next)], None));
    }

    method Adjust(itemId: Id, delta: int, nota: string, actor: string) returns (r: Result<Delivered, InventoryError>)
      modifies this
      ensures Tables() == After(old(Tables()), Inventory.Adjust(old(Tables()), itemId, delta, nota, actor))
      ensures r == Told(Inventory.Adjust(old(Tables()), itemId, delta, nota, actor))
    {
      if itemId !in stock {
        return Err(StockNotFound);
      }
      r := MoveStock(itemId, stock[itemId], delta, Cause(Inventory.Ajuste, Adjustment, None, None, None, None, Some(actor), Some(nota)));
    }

    method ApplyDelta(itemId: Id, delta: int, cause: Cause) returns (r: Result<Delivered, InventoryError>)
      modifies this
      ensures Tables() == After(old(Tables()), Inventory.ApplyDelta(old(Tables()), itemId, delta, cause))
      ensures r == Told(Inventory.ApplyDelta(old(Tables()), itemId, delta, cause))
    {
      if itemId !in items {
        return Err(ItemNotFound);
      }
      var row := StockRow(0, None, 0);
      if itemId in stock {
        row := stock[itemId];
      }
      r := MoveStock(itemId, row, delta, cause);
    }

    method WasApplied(p: VisitaCerrada) returns (applied: bool)
      ensures applied <==> AlreadyApplied(Tables(), p)
    {
      for i := 0 to |operations|
        invariant forall j :: 0 <= j < i ==>
                    operations[j].sourceId != Some(p.eventId)
                    && !(operations[j].visitaId == Some(p.visitaId) && (operations[j].kind == Consumption || operations[j].kind == External))
      {
        var op := operations[i];
        if op.sourceId == Some(p.eventId) || (op.visitaId == Some(p.visitaId) && (op.kind == Consumption || op.kind == External)) {
          return true;
        }
      }
      applied := false;
    }

    method CloseLine(line: ConsumoLinea, p: VisitaCerrada) returns (r: Result<Delivered, InventoryError>)
      modifies this
      ensures Tables() == After(old(Tables()), Inventory.CloseLine(old(Tables()), line, p))
      ensures r == Told(Inventory.CloseLine(old(Tables()), line, p))
    {
      if line.qty < 1 {
        return Err(InvalidLineQuantity);
      }
      if line.origen == DesdeStock {
        r := ApplyDelta(line.itemId, -line.qty, VisitCause(p));
      } else {
        if line.itemId !in items {
          return Err(ItemNotFound);
        }
        var op := NewOperation(Tables(), line.itemId, External, line.qty, "SYSTEM:CLOSE", None)
                  .(visitaId := Some(p.visitaId), unidadId := Some(p.unidadId), sourceId := Some(p.eventId), effectiveAt := p.cerradoAt);
        operations := operations + [op];
        pendientes := pendientes + [Pendiente(nextId + 1, p.visitaId, line.itemId, line.qty)];
        nextId := nextId + 2;
        r := Ok(Delivered([], None));
      }
    }

    /** Every line of a closed visit in item order; the first refused line undoes the others. */
    method ApplyVisitaCerrada(p: VisitaCerrada) returns (r: Result<Delivered, InventoryError>)
      modifies this
      ensures Tables() == After(old(Tables()), CloseVisit(old(Tables()), p))
      ensures r == Told(CloseVisit(old(Tables()), p))
    {
      var before := Tables();
      var applied := WasApplied(p);
      if applied {
        return Ok(Delivered([], None));
      }
      var lines := SortLines(p.consumos);
      var crossings := [];
      assert lines[0..] == lines;
      ContinuedFromNothing(before, lines, p);
      for i := 0 to |lines|
        invariant CloseLines(before, lines, p) == Continued(crossings, CloseLines(Tables(), lines[i..], p))
      {
        assert lines[i..][1..] == lines[i + 1..];
        var done := CloseLine(lines[i], p);
        if done.Err? {
          Rollback(before);
          return Err(done.error);
        }
        ContinuedTwice(crossings, done.value.crossings, CloseLines(Tables(), lines[i + 1..], p));
        crossings := crossings + done.value.crossings;
      }
      assert crossings + [] == crossings;
      r := Ok(Delivered(crossings, None));
    }

    method Opening(itemId: Id, input: OpeningInput, actor: string) returns (r: Result<Delivered, InventoryError>)
      modifies this
      ensures Tables() == After(old(Tables()), Open(old(Tables()), itemId, input, actor))
      ensures r == Told(Open(old(Tables()), itemId, input, actor))
    {
      var value := Cents(input.valueCents);
      if value.None? {
        return Err(Cost(InvalidAmount));
      }
      if Blank(input.reason) {
        return Err(MissingReason);
      }
      if input.qty == 0 && value.value != 0 {
        return Err(ValueWithoutStock);
      }
      if itemId !in stock {
        return Err(StockNotFound);
      }
      var qty := stock[itemId].qty;
      var state := LockedRow(itemId, qty);
      if qty != input.qty || state.version != input.expectedVersion {
        return Err(StockChanged);
      }
      valuation := valuation[itemId := Valuation(Some(value.value as int), state.version + 1, qty, Some(clock))];
      var op := NewOperation(Tables(), itemId, Inventory.Opening, qty, actor, Some(input.reason)).(netCents := Some(value.value as int));
      var id := FreshId();
      operations := operations + [op];
      r := Ok(Delivered([], Some(op)));
    }

    method Revise(input: RevisionInput, actor: string) returns (r: Result<Delivered, InventoryError>)
      modifies this
      ensures Tables() == After(old(Tables()), Inventory.Revise(old(Tables()), input, actor))
      ensures r == Told(Inventory.Revise(old(Tables()), input, actor))
    {
      var priced := CalculateCost(input.cost);
      if priced.Err? {
        return Err(Cost(priced.error));
      }
      if priced.value.None? || Blank(input.reason) {
        return Err(MissingReason);
      }
      var found := FindById(input.id);
      if found.None? {
        return Err(OperationNotFound);
      }
      r := ReviseFound(input, found.value, priced.value.value, actor);
    }

    method ReviseFound(input: RevisionInput, k: nat, money: CostMoney, actor: string) returns (r: Result<Delivered, InventoryError>)
      requires k < |operations|
      modifies this
      ensures Tables() == After(old(Tables()), Inventory.ReviseFound(old(Tables()), input, k, money, actor))
      ensures r == Told(Inventory.ReviseFound(old(Tables()), input, k, money, actor))
    {
      var op := operations[k];
      if op.itemId !in stock {
        return Err(StockNotFound);
      }
      if op.version != input.expectedVersion {
        return Err(VersionConflict);
      }
      if op.kind !in {Receipt, Consumption, External} {
        return Err(NeedsRegularisation);
      }
      if op.netCents.Some? && !input.correct {
        return Err(AmountAlreadyRecorded);
      }
      var supplierId := op.supplierId;
      if op.kind == External || op.kind == Receipt {
        if input.supplierId.Some? {
          supplierId := input.supplierId;
        }
        if !SupplierOk(Tables(), supplierId) {
          return Err(InvalidSupplier);
        }
      }
      if op.kind == Consumption && HasReturnOf(operations, op.id) {
        return Err(HasReturns);
      }
      var next := op.(supplierId := supplierId,
                      revisions := op.revisions + [Revision(actor, clock, input.reason, op.money, money, op.netCents, money.netCents)],
                      money := Some(money), netCents := Some(money.netCents), version := op.version + 1);
      operations := operations[k := next];
      if op.kind == Receipt || op.kind == Consumption {
        var qty := stock[op.itemId].qty;
        var state := LockedRow(op.itemId, qty);
        if state.cutAt.None? || op.effectiveAt >= state.cutAt.value {
          state := state.(valueCents := if qty == 0 then Some(0) else None, version := state.version + 1);
          valuation := valuation[op.itemId := state];
        }
      }
      r := Ok(Delivered([], Some(next)));
    }

    method ReturnFromOrder(input: ReturnInput, actor: string) returns (r: Result<Delivered, InventoryError>)
      modifies this
      ensures Tables() == After(old(Tables()), TakeBack(old(Tables()), input, actor))
      ensures r == Told(TakeBack(old(Tables()), input, actor))
    {
      if Blank(input.reason) {
        return Err(MissingReason);
      }
      var found := FindById(input.id);
      if found.None? {
        return Err(OperationNotFound);
      }
      var source := operations[found.value];
      if source.itemId !in stock {
        return Err(StockNotFound);
      }
      if source.kind != Consumption {
        return Err(NotAConsumption);
      }
      var returned, returnedNet, allKnown := PriorReturns(input.id);
      if input.qty > source.qty - returned {
        return Err(ReturnExceedsConsumption);
      }
      var net: Option<int> := None;
      if source.netCents.Some? && allKnown {
        var share := AllocatedCost(source.netCents.value - returnedNet, input.qty, source.qty - returned);
        if share.Err? {
          return Err(Cost(share.error));
        }
        net := Some(share.value as int);
      }
      r := PostReturn(input, source, net, actor);
    }

    method PostReturn(input: ReturnInput, source: CostOperation, net: Option<int>, actor: string) returns (r: Result<Delivered, InventoryError>)
      requires source.itemId in stock
      modifies this
      ensures Tables() == After(old(Tables()), Inventory.PostReturn(old(Tables()), input, source, net, actor))
      ensures r == Told(Inventory.PostReturn(old(Tables()), input, source, net, actor))
    {
      var row := stock[source.itemId];
      var state := LockedRow(source.itemId, row.qty);
      var crossing := CrossingOf(source.itemId, row, row.qty + input.qty);
      row := row.(qty := row.qty + input.qty);
      state := state.(valueCents := if state.valueCents.Some? && net.Some? then Some(state.valueCents.value + net.value) else None,
                      version := state.version + 1, quantityAtCost := row.qty);
      if !FitsColumns(row.qty, state.valueCents) {
        return Err(ColumnOverflow);
      }
      var op := NewOperation(Tables(), source.itemId, Returned, input.qty, actor, Some(input.reason))
                .(visitaId := source.visitaId, unidadId := source.unidadId, sourceId := Some(input.id), netCents := net);
      var id := FreshId();
      operations := operations + [op];
      stock := stock[source.itemId := row];
      valuation := valuation[source.itemId := state];
      movimientos := movimientos + [Movimiento(id, Inventory.Ajuste, source.itemId, input.qty, input.qty, source.visitaId, Some("Retorno: " + input.reason), Some(actor))];
      r := Ok(Delivered([crossing], Some(op)));
    }

    method CreateItem(draft: ItemDraft, minQty: Option<int>) returns (r: Result<Delivered, InventoryError>)
      modifies this
      ensures Tables() == After(old(Tables()), Inventory.CreateItem(old(Tables()), draft, minQty))
      ensures r == Told(Inventory.CreateItem(old(Tables()), draft, minQty))
    {
      if draft.familia.None? {
        return Err(FamilyNotFound);
      }
      if !draft.familia.value {
        return Err(FamilyInactive);
      }
      var sku := Trim(draft.sku);
      TrimLeaves(draft.sku);
      if sku == "" {
        return Err(EmptySku);
      }
      var nombre := Trim(draft.nombre);
      TrimLeaves(draft.nombre);
      if nombre == "" {
        return Err(EmptyName);
      }
      if SkuInUse(Tables(), sku, None) {
        return Err(SkuTaken);
      }
      var id := FreshId();
      items := items[id := Item(sku, nombre, if draft.activo.Some? then draft.activo.value else true)];
      stock := stock[id := StockRow(0, minQty, 0)];
      r := Ok(Delivered([Crossing(id, 0, 0, None, minQty, 0, 0)], None));
    }

    method UpdateItem(itemId: Id, patch: ItemPatch) returns (r: Result<Delivered, InventoryError>)
      modifies this
      ensures Tables() == After(old(Tables()), Inventory.UpdateItem(old(Tables()), itemId, patch))
      ensures r == Told(Inventory.UpdateItem(old(Tables()), itemId, patch))
    {
      if itemId !in items {
        return Err(ItemNotFound);
      }
      var item := items[itemId];
      var row := RowFor(Tables(), itemId);
      var nextMin := if patch.minQty.Some? then patch.minQty.value else row.minQty;
      var nextCritical := NextCritical(patch.criticalQty, nextMin, row.criticalQty);
      if !ThresholdsOk(nextMin, nextCritical) {
        return Err(InvalidThresholds);
      }
      if patch.sku.Some? {
        TrimLeaves(patch.sku.value);
        item := item.(sku := Trim(patch.sku.value));
        if item.sku == "" {
          return Err(EmptySku);
        }
      }
      if patch.nombre.Some? {
        TrimLeaves(patch.nombre.value);
        item := item.(nombre := Trim(patch.nombre.value));
        if item.nombre == "" {
          return Err(EmptyName);
        }
      }
      if patch.familiaFound == Some(false) {
        return Err(FamilyNotFound);
      }
      if patch.activo.Some? {
        item := item.(activo := patch.activo.value);
      }
      if SkuInUse(Tables(), item.sku, Some(itemId)) {
        return Err(SkuTaken);
      }
      items := items[itemId := item];
      if patch.minQty.None? && patch.criticalQty.None? {
        return Ok(Delivered([], None));
      }
      stock := stock[itemId := row.(minQty := nextMin, criticalQty := nextCritical)];
      r := Ok(Delivered([Crossing(itemId, row.qty, row.qty, row.minQty, nextMin, row.criticalQty, nextCritical)], None));
    }

    method UpdateAlertThreshold(itemId: Id, minQty: Option<int>, criticalQty: Option<int>) returns (r: Result<Delivered, InventoryError>)
      modifies this`stock
      ensures Tables() == After(old(Tables()), Inventory.UpdateAlertThreshold(old(Tables()), itemId, minQty, criticalQty))
      ensures r == Told(Inventory.UpdateAlertThreshold(old(Tables()), itemId, minQty, criticalQty))
    {
      if itemId !in stock {
        return Err(StockNotFound);
      }
      var row := stock[itemId];
      var nextCritical := NextCritical(criticalQty, minQty, row.criticalQty);
      if !ThresholdsOk(minQty, nextCritical) {
        return Err(InvalidThresholds);
      }
      stock := stock[itemId := row.(minQty := minQty, criticalQty := nextCritical)];
      r := Ok(Delivered([], None));
    }
  }

  /** A refusal stays a refusal; otherwise earlier crossings come first. */
  function Continued(crossings: seq<Crossing>, rest: Outcome): Outcome {
    if rest.Err? then rest else Ok(Posted(rest.value.ledger, crossings + rest.value.crossings, None))
  }

  lemma ContinuedFromNothing(l: Ledger, lines: seq<ConsumoLinea>, p: VisitaCerrada)
    ensures CloseLines(l, lines, p) == Continued([], CloseLines(l, lines, p))
  {
    var all := CloseLines(l, lines, p);
    if all.Ok? {
      assert [] + all.value.crossings == all.value.crossings;
    }
  }

  lemma ContinuedTwice(a: seq<Crossing>, b: seq<Crossing>, rest: Outcome)
    ensures Continued(a, Continued(b, rest)) == Continued(a + b, rest)
  {
    if rest.Ok? {
      assert a + (b + rest.value.crossings) == a + b + rest.value.crossings;
    }
  }
}
