/**
 What each inventory command accepts and what it records, told from the request: the rows a
 reader finds afterwards, whose they are, and what was left alone.
 */
module InventoryEffects {
  import opened Wrappers
  import opened CostRules
  import opened Texts
  import opened Inventory
  import opened InventoryLaws
  import InventoryRuns
  import Returns
  import Visits

  // -- The valuation row a command works on ---------------------------------------------

  /** A row in step with the stock is the stored one; a missing or lagging one knows its value only of no stock. */
  lemma LockedIsStoredOrReset(l: Ledger, itemId: Id, expected: int)
    ensures var row := Locked(l, itemId, expected);
            && row.quantityAtCost == expected
            && (itemId in l.valuation && l.valuation[itemId].quantityAtCost == expected ==> row == l.valuation[itemId])
            && (itemId !in l.valuation || l.valuation[itemId].quantityAtCost != expected ==>
                  (if expected == 0 then row.valueCents == Some(0) else row.valueCents.None?))
            && (itemId in l.valuation ==> row.version == l.valuation[itemId].version && row.cutAt == l.valuation[itemId].cutAt)
            && (itemId !in l.valuation ==> row.version == 0 && row.cutAt.None?)
  {
  }

  /** Rows of other items, the catalogue and earlier records are as they were. */
  ghost predicate Spares(l: Ledger, l': Ledger, itemId: Id) {
    && l'.clock == l.clock && l'.items == l.items && l'.proveedores == l.proveedores
    && l'.stock - {itemId} == l.stock - {itemId}
    && l'.valuation - {itemId} == l.valuation - {itemId}
  }

  /** Exactly one record was added, and it is this one. */
  ghost predicate Adds(l: Ledger, l': Ledger, op: CostOperation) {
    l'.operations == l.operations + [op] && op.id >= l.nextId && op.id < l'.nextId
  }

  /** The valuation row moved on by one version, to this value over the present stock. */
  ghost predicate Revalued(l: Ledger, l': Ledger, itemId: Id, value: Option<int>, cutAt: Option<Time>) {
    && itemId in l'.valuation && itemId in l'.stock
    && l'.valuation[itemId] == Valuation(value, Current(l, itemId).version + 1, l'.stock[itemId].qty, cutAt)
  }

  /** The stock row moved by these pieces and kept its thresholds. */
  ghost predicate Restocked(l: Ledger, l': Ledger, itemId: Id, delta: int) {
    && itemId in l'.stock && l'.stock[itemId].qty == Qty(l, itemId) + delta
    && (itemId in l.stock ==> l'.stock[itemId].minQty == l.stock[itemId].minQty && l'.stock[itemId].criticalQty == l.stock[itemId].criticalQty)
    && (itemId !in l.stock ==> l'.stock[itemId].minQty.None? && l'.stock[itemId].criticalQty == 0)
  }

  predicate ActiveSupplier(l: Ledger, id: Id) {
    id in l.proveedores && l.proveedores[id].activo
  }

  // -- Receipts -------------------------------------------------------------------------

  /** The stock and the item are there and active, and the sums fit their columns. */
  ghost predicate CanReceive(l: Ledger, input: ReceiptInput, money: Option<CostMoney>) {
    && input.itemId in l.stock && input.itemId in l.items && l.items[input.itemId].activo
    && Qty(l, input.itemId) + input.qty <= 2147483647
    && (money.Some? && Value(l, input.itemId).Some? ==> Value(l, input.itemId).value + money.value.netCents <= 9223372036854775807)
  }

  /** What a receipt is refused for: the first of these that it misses. */
  function ReceiptRefusal(l: Ledger, input: ReceiptInput): InventoryError {
    if CalculateCost(input.cost).Err? then Cost(CalculateCost(input.cost).error)
    else if !ActiveSupplier(l, input.supplierId) then InvalidSupplier
    else if input.itemId !in l.stock then StockNotFound
    else if input.itemId !in l.items then ItemNotFound
    else if !l.items[input.itemId].activo then ItemInactive
    else if Qty(l, input.itemId) + input.qty > 2147483647 then QuantityOutOfRange
    else ColumnOverflow
  }

  lemma ReceiptIsAcceptedIff(l: Ledger, input: ReceiptInput, actor: string)
    ensures var r, priced := Receive(l, input, actor), CalculateCost(input.cost);
            && (r.Ok? <==> priced.Ok? && ActiveSupplier(l, input.supplierId) && CanReceive(l, input, priced.value))
            && (r.Err? ==> r.error == ReceiptRefusal(l, input))
  {
  }

  /** The value once a cost enters: known exactly when it was known and the cost is. */
  ghost predicate Entered(before: Option<int>, net: Option<int>, after: Option<int>) {
    && (after.Some? <==> before.Some? && net.Some?)
    && (after.Some? ==> after.value == before.value + net.value)
  }

  /** The cost of an accepted receipt, and the tax that stays out of it. */
  ghost predicate EnteredAtNet(op: CostOperation, priced: Option<CostMoney>) {
    && op.money == priced
    && (priced.None? ==> op.netCents.None?)
    && (priced.Some? ==> op.netCents.Some? && op.netCents.value + priced.value.taxCents == priced.value.totalCents)
  }

  /** A receipt enters its pieces at the net of its own cost: the stock is never valued with tax. */
  lemma ReceiptEntersAtNet(l: Ledger, input: ReceiptInput, actor: string)
    requires Receive(l, input, actor).Ok?
    ensures var done := Receive(l, input, actor).value;
            && CalculateCost(input.cost).Ok? && done.operation.Some?
            && var l', op := done.ledger, done.operation.value;
               && Spares(l, l', input.itemId) && Adds(l, l', op) && l'.pendientes == l.pendientes
               && Restocked(l, l', input.itemId, input.qty)
               && EnteredAtNet(op, CalculateCost(input.cost).value)
               && Entered(Value(l, input.itemId), op.netCents, Value(l', input.itemId))
               && Revalued(l, l', input.itemId, Value(l', input.itemId), Current(l, input.itemId).cutAt)
  {
    ReceiptIsPriced(l, input, actor);
    if CalculateCost(input.cost).value.Some? {
      TotalIsNetPlusTax(input.cost);
    }
  }

  lemma ReceiptIsPriced(l: Ledger, input: ReceiptInput, actor: string)
    requires Receive(l, input, actor).Ok?
    ensures var done := Receive(l, input, actor).value;
            && CalculateCost(input.cost).Ok? && done.operation.Some?
            && var op, priced := done.operation.value, CalculateCost(input.cost).value;
               op.money == priced && op.netCents == if priced.Some? then Some(priced.value.netCents as int) else None
  {
  }

  /** The receipt's record and movement say who received what from whom. */
  lemma ReceiptIsRecorded(l: Ledger, input: ReceiptInput, actor: string)
    requires Receive(l, input, actor).Ok?
    ensures var done := Receive(l, input, actor).value;
            && done.operation.Some?
            && var l', op := done.ledger, done.operation.value;
               && op == CostOperation(op.id, input.itemId, Receipt, input.qty, None, None, Some(input.supplierId), input.documentReference,
                                      op.money, op.netCents, [], 1, actor, input.note, None, l.clock)
               && l'.movimientos == l.movimientos + [Movimiento(op.id, Entrada, input.itemId, input.qty, input.qty, None, input.note, Some(actor))]
  {
  }

  // -- Movements ------------------------------------------------------------------------

  function Abs(n: int): nat {
    if n < 0 then -n else n
  }

  /** One movement and its record: the pieces, the kind, the visit it belongs to, when, who and why. */
  ghost predicate Moved(
    l: Ledger, l': Ledger, itemId: Id, delta: int, tipo: MoveKind, kind: OpKind, visita: Option<VisitaCerrada>,
    createdBy: Option<string>, actor: string, nota: Option<string>)
  {
    && |l'.movimientos| == |l.movimientos| + 1 && |l'.operations| == |l.operations| + 1
    && var m, op := l'.movimientos[|l.movimientos|], l'.operations[|l.operations|];
       var visitaId := if visita.Some? then Some(visita.value.visitaId) else None;
       && l'.movimientos == l.movimientos + [m] && Adds(l, l', op)
       && m == Movimiento(m.id, tipo, itemId, Abs(delta), delta, visitaId, nota, createdBy)
       && op == CostOperation(op.id, itemId, kind, Abs(delta), visitaId, if visita.Some? then Some(visita.value.unidadId) else None,
                              None, None, None, op.netCents, [], 1, actor, nota,
                              if visita.Some? then Some(visita.value.eventId) else None,
                              if visita.Some? then visita.value.cerradoAt else l.clock)
  }

  /** Rows after a movement: pieces, thresholds, and a value that only outflows can leave known. */
  ghost predicate Shifted(l: Ledger, l': Ledger, itemId: Id, delta: int) {
    && Spares(l, l', itemId) && l'.pendientes == l.pendientes && Restocked(l, l', itemId, delta)
    && Revalued(l, l', itemId, Value(l', itemId), Current(l, itemId).cutAt)
    && (Qty(l', itemId) == 0 ==> Value(l', itemId) == Some(0))
    && (Qty(l', itemId) > 0 ==> (Value(l', itemId).Some? <==> delta < 0 && Value(l, itemId).Some?))
  }

  lemma MoveRestocks(l: Ledger, itemId: Id, delta: int, cause: Cause)
    requires delta != 0 && MoveStock(l, itemId, RowFor(l, itemId), delta, cause).Ok?
    ensures var l' := MoveStock(l, itemId, RowFor(l, itemId), delta, cause).value.ledger;
            && Spares(l, l', itemId) && l'.pendientes == l.pendientes && Restocked(l, l', itemId, delta)
            && itemId in l'.valuation && l'.valuation[itemId].quantityAtCost == l'.stock[itemId].qty
            && l'.valuation[itemId].version == Current(l, itemId).version + 1 && l'.valuation[itemId].cutAt == Current(l, itemId).cutAt
  {
  }

  lemma MoveRevalues(l: Ledger, itemId: Id, delta: int, cause: Cause)
    requires StockLaw(l, itemId) && delta != 0 && MoveStock(l, itemId, RowFor(l, itemId), delta, cause).Ok?
    ensures var l' := MoveStock(l, itemId, RowFor(l, itemId), delta, cause).value.ledger;
            && (Qty(l', itemId) == 0 ==> Value(l', itemId) == Some(0))
            && (Qty(l', itemId) > 0 ==> (Value(l', itemId).Some? <==> delta < 0 && Value(l, itemId).Some?))
  {
  }

  lemma MoveShifts(l: Ledger, itemId: Id, delta: int, cause: Cause)
    requires StockLaw(l, itemId) && delta != 0 && MoveStock(l, itemId, RowFor(l, itemId), delta, cause).Ok?
    ensures Shifted(l, MoveStock(l, itemId, RowFor(l, itemId), delta, cause).value.ledger, itemId, delta)
  {
    MoveRestocks(l, itemId, delta, cause);
    MoveRevalues(l, itemId, delta, cause);
  }

  lemma MoveIsAcceptedIff(l: Ledger, itemId: Id, delta: int, cause: Cause)
    requires StockLaw(l, itemId) && delta != 0
    ensures var r := MoveStock(l, itemId, RowFor(l, itemId), delta, cause);
            && (r.Ok? <==> 0 <= Qty(l, itemId) + delta <= 2147483647)
            && (r == Err(NegativeStock) <==> Qty(l, itemId) + delta < 0)
            && (r == Err(ColumnOverflow) <==> Qty(l, itemId) + delta > 2147483647)
  {
    if delta < 0 && 0 <= Qty(l, itemId) + delta && Value(l, itemId).Some? {
      OutflowShare(Value(l, itemId).value, -delta, Qty(l, itemId));
    }
  }

  lemma MoveIsRecorded(l: Ledger, itemId: Id, delta: int, cause: Cause, visita: Option<VisitaCerrada>)
    requires delta != 0 && MoveStock(l, itemId, RowFor(l, itemId), delta, cause).Ok?
    requires cause.visitaId == (if visita.Some? then Some(visita.value.visitaId) else None)
    requires cause.unidadId == (if visita.Some? then Some(visita.value.unidadId) else None)
    requires cause.eventId == (if visita.Some? then Some(visita.value.eventId) else None)
    requires cause.at == (if visita.Some? then Some(visita.value.cerradoAt) else None)
    ensures Moved(l, MoveStock(l, itemId, RowFor(l, itemId), delta, cause).value.ledger, itemId, delta, cause.tipo,
                  if visita.Some? then Consumption else cause.kind, visita, cause.actor,
                  if cause.actor.Some? then cause.actor.value else "SYSTEM:CLOSE", cause.nota)
  {
  }

  /** An adjustment by the costing service needs a stock row; one of the same pieces by the catalogue needs the item. */
  lemma AdjustmentsAreRecorded(l: Ledger, itemId: Id, delta: int, nota: string, actor: string)
    requires StockLaw(l, itemId) && delta != 0
    ensures var costed, plain := Perform(l, CmdAdjust(itemId, delta, nota), actor), Perform(l, CmdAjuste(itemId, delta, nota), actor);
            && (costed.Ok? <==> itemId in l.stock && 0 <= Qty(l, itemId) + delta <= 2147483647)
            && (plain.Ok? <==> itemId in l.items && 0 <= Qty(l, itemId) + delta <= 2147483647)
            && (itemId !in l.stock ==> costed == Err(StockNotFound)) && (itemId !in l.items ==> plain == Err(ItemNotFound))
            && (costed.Ok? ==> Shifted(l, costed.value.ledger, itemId, delta)
                               && Moved(l, costed.value.ledger, itemId, delta, Ajuste, Adjustment, None, Some(actor), actor, Some(nota)))
            && (plain.Ok? ==> Shifted(l, plain.value.ledger, itemId, delta)
                              && Moved(l, plain.value.ledger, itemId, delta, Ajuste, Adjustment, None, Some(actor), actor, Some(nota)))
  {
    var cause := AjusteCause(nota, Some(actor));
    MoveIsAcceptedIff(l, itemId, delta, cause);
    if 0 <= Qty(l, itemId) + delta <= 2147483647 {
      MoveShifts(l, itemId, delta, cause);
      MoveIsRecorded(l, itemId, delta, cause, None);
    }
  }

  /** An unpriced entry: a receipt without cost, after which the value of the item is unknown. */
  lemma EntryIsRecorded(l: Ledger, itemId: Id, qty: int, nota: Option<string>, actor: string)
    requires StockLaw(l, itemId) && qty >= 1
    ensures var r := Perform(l, CmdEntrada(itemId, qty, nota), actor);
            && (r.Ok? <==> itemId in l.items && Qty(l, itemId) + qty <= 2147483647)
            && (r.Ok? ==> Shifted(l, r.value.ledger, itemId, qty) && Value(r.value.ledger, itemId).None?
                          && LastOperation(r.value.ledger).netCents.None?
                          && Moved(l, r.value.ledger, itemId, qty, Entrada, Receipt, None, Some(actor), actor, nota))
  {
    var cause := EntradaCause(nota, Some(actor));
    MoveIsAcceptedIff(l, itemId, qty, cause);
    if Qty(l, itemId) + qty <= 2147483647 {
      MoveShifts(l, itemId, qty, cause);
      MoveIsRecorded(l, itemId, qty, cause, None);
    }
  }

  // -- Closed visits --------------------------------------------------------------------

  /** A line leaves one record of its pieces, for its visit and unit, at the closing time. */
  ghost predicate OfLine(op: CostOperation, line: ConsumoLinea, p: VisitaCerrada) {
    && op.itemId == line.itemId && op.qty == line.qty
    && op.kind == (if line.origen == DesdeStock then Consumption else External)
    && op.visitaId == Some(p.visitaId) && op.unidadId == Some(p.unidadId) && op.sourceId == Some(p.eventId)
    && op.effectiveAt == p.cerradoAt && op.actor == "SYSTEM:CLOSE" && op.reason.None?
    && op.money.None? && op.supplierId.None? && op.reference.None? && op.revisions == [] && op.version == 1
    && (line.origen == CompraExterna ==> op.netCents.None?)
  }

  ghost predicate MovesLine(m: Movimiento, line: ConsumoLinea, p: VisitaCerrada) {
    m == Movimiento(m.id, SalidaOt, line.itemId, line.qty, -line.qty, Some(p.visitaId), None, None)
  }

  ghost predicate OwesLine(d: Pendiente, line: ConsumoLinea, p: VisitaCerrada) {
    d == Pendiente(d.id, p.visitaId, line.itemId, line.qty)
  }

  function From(lines: seq<ConsumoLinea>, origen: Origin): seq<ConsumoLinea> {
    if lines == [] then []
    else (if lines[0].origen == origen then [lines[0]] else []) + From(lines[1..], origen)
  }

  /** What was added: a record per line, a movement per line from stock, a pending receipt per purchase. */
  ghost predicate Files(
    ops: seq<CostOperation>, movs: seq<Movimiento>, debts: seq<Pendiente>, lines: seq<ConsumoLinea>, p: VisitaCerrada)
  {
    && |ops| == |lines| && (forall i :: 0 <= i < |lines| ==> OfLine(ops[i], lines[i], p))
    && |movs| == |From(lines, DesdeStock)|
    && (forall i :: 0 <= i < |movs| ==> MovesLine(movs[i], From(lines, DesdeStock)[i], p))
    && |debts| == |From(lines, CompraExterna)|
    && (forall i :: 0 <= i < |debts| ==> OwesLine(debts[i], From(lines, CompraExterna)[i], p))
  }

  ghost predicate Extends(l: Ledger, l': Ledger) {
    l.operations <= l'.operations && l.movimientos <= l'.movimientos && l.pendientes <= l'.pendientes
  }

  ghost predicate Filed(l: Ledger, l': Ledger, lines: seq<ConsumoLinea>, p: VisitaCerrada) {
    && Extends(l, l')
    && Files(l'.operations[|l.operations|..], l'.movimientos[|l.movimientos|..], l'.pendientes[|l.pendientes|..], lines, p)
  }

  lemma ExternalIsFiled(l: Ledger, line: ConsumoLinea, p: VisitaCerrada)
    requires line.origen == CompraExterna
    ensures Filed(l, RecordExternal(l, line, p), [line], p)
  {
    assert [line][1..] == [];
  }

  lemma LineIsFiled(l: Ledger, line: ConsumoLinea, p: VisitaCerrada)
    requires CloseLine(l, line, p).Ok?
    ensures Filed(l, CloseLine(l, line, p).value.ledger, [line], p)
  {
    assert [line][1..] == [];
    if line.origen == DesdeStock {
      MoveIsRecorded(l, line.itemId, -line.qty, VisitCause(p), Some(p));
      MoveRestocks(l, line.itemId, -line.qty, VisitCause(p));
    } else {
      ExternalIsFiled(l, line, p);
    }
  }

  lemma FilesJoin(
    ops: seq<CostOperation>, movs: seq<Movimiento>, debts: seq<Pendiente>, line: ConsumoLinea,
    ops': seq<CostOperation>, movs': seq<Movimiento>, debts': seq<Pendiente>, rest: seq<ConsumoLinea>, p: VisitaCerrada)
    requires Files(ops, movs, debts, [line], p) && Files(ops', movs', debts', rest, p)
    ensures Files(ops + ops', movs + movs', debts + debts', [line] + rest, p)
  {
    assert [line][1..] == [] && ([line] + rest)[1..] == rest;
    assert From([line] + rest, DesdeStock) == From([line], DesdeStock) + From(rest, DesdeStock);
    assert From([line] + rest, CompraExterna) == From([line], CompraExterna) + From(rest, CompraExterna);
  }

  lemma Added<T>(a: seq<T>, b: seq<T>, c: seq<T>)
    requires a <= b && b <= c
    ensures a <= c && c[|a|..] == b[|a|..] + c[|b|..]
  {
  }

  lemma {:induction false} LinesAreFiled(l: Ledger, lines: seq<ConsumoLinea>, p: VisitaCerrada)
    requires CloseLines(l, lines, p).Ok?
    ensures Filed(l, CloseLines(l, lines, p).value.ledger, lines, p)
    decreases lines
  {
    if lines != [] {
      var mid := CloseLine(l, lines[0], p).value.ledger;
      var l' := CloseLines(mid, lines[1..], p).value.ledger;
      LineIsFiled(l, lines[0], p);
      LinesAreFiled(mid, lines[1..], p);
      Added(l.operations, mid.operations, l'.operations);
      Added(l.movimientos, mid.movimientos, l'.movimientos);
      Added(l.pendientes, mid.pendientes, l'.pendientes);
      FilesJoin(mid.operations[|l.operations|..], mid.movimientos[|l.movimientos|..], mid.pendientes[|l.pendientes|..], lines[0],
                l'.operations[|mid.operations|..], l'.movimientos[|mid.movimientos|..], l'.pendientes[|mid.pendientes|..], lines[1..], p);
      assert lines == [lines[0]] + lines[1..];
    }
  }

  /** The lines of one item, in the order given. */
  function Of(lines: seq<ConsumoLinea>, item: Id): seq<ConsumoLinea> {
    if lines == [] then []
    else (if lines[0].itemId == item then [lines[0]] else []) + Of(lines[1..], item)
  }

  ghost predicate ByItem(lines: seq<ConsumoLinea>) {
    forall i, j :: 0 <= i < j < |lines| ==> lines[i].itemId <= lines[j].itemId
  }

  lemma InsertedIsFrom(line: ConsumoLinea, sorted: seq<ConsumoLinea>, i: nat)
    requires i < |InsertLine(line, sorted)|
    ensures InsertLine(line, sorted)[i] == line || InsertLine(line, sorted)[i] in sorted
  {
    InsertKeepsLines(line, sorted);
    assert InsertLine(line, sorted)[i] in multiset(InsertLine(line, sorted));
  }

  lemma {:induction false} InsertInOrder(line: ConsumoLinea, sorted: seq<ConsumoLinea>)
    requires ByItem(sorted)
    ensures ByItem(InsertLine(line, sorted))
  {
    if sorted != [] && line.itemId > sorted[0].itemId {
      var rest := InsertLine(line, sorted[1..]);
      InsertInOrder(line, sorted[1..]);
      forall i | 0 <= i < |rest|
        ensures sorted[0].itemId <= rest[i].itemId
      {
        InsertedIsFrom(line, sorted[1..], i);
      }
    }
  }

  function One(line: ConsumoLinea, item: Id): seq<ConsumoLinea> {
    if line.itemId == item then [line] else []
  }

  lemma OfFirst(line: ConsumoLinea, rest: seq<ConsumoLinea>, item: Id)
    ensures Of([line] + rest, item) == One(line, item) + Of(rest, item)
  {
    assert ([line] + rest)[1..] == rest;
  }

  lemma Pass(a: seq<ConsumoLinea>, b: seq<ConsumoLinea>, c: seq<ConsumoLinea>)
    requires a == [] || b == []
    ensures a + (b + c) == b + (a + c)
  {
    assert a == [] ==> a + (b + c) == b + c;
    assert b == [] ==> b + (a + c) == a + c;
  }

  lemma {:induction false} InsertBeforeItsOwn(line: ConsumoLinea, sorted: seq<ConsumoLinea>, item: Id)
    ensures Of(InsertLine(line, sorted), item) == One(line, item) + Of(sorted, item)
  {
    if sorted == [] || line.itemId <= sorted[0].itemId {
      OfFirst(line, sorted, item);
    } else {
      InsertBeforeItsOwn(line, sorted[1..], item);
      OfFirst(sorted[0], InsertLine(line, sorted[1..]), item);
      Pass(One(sorted[0], item), One(line, item), Of(sorted[1..], item));
    }
  }

  /** Lines are worked in item order, and those of one item in the order they came. */
  lemma {:induction false} LinesAreWorkedByItem(lines: seq<ConsumoLinea>, item: Id)
    ensures ByItem(SortLines(lines)) && Of(SortLines(lines), item) == Of(lines, item)
    ensures multiset(SortLines(lines)) == multiset(lines)
  {
    SortKeepsLines(lines);
    if lines != [] {
      LinesAreWorkedByItem(lines[1..], item);
      InsertInOrder(lines[0], SortLines(lines[1..]));
      InsertBeforeItsOwn(lines[0], SortLines(lines[1..]), item);
    }
  }

  /** The event was told before, or the visit has already used or bought something. */
  ghost predicate Known(l: Ledger, p: VisitaCerrada) {
    exists op :: op in l.operations
              && (op.sourceId == Some(p.eventId) || (op.visitaId == Some(p.visitaId) && op.kind in {Consumption, External}))
  }

  lemma KnownIsApplied(l: Ledger, p: VisitaCerrada)
    ensures Known(l, p) <==> AlreadyApplied(l, p)
  {
    if Known(l, p) {
      var op :| op in l.operations
             && (op.sourceId == Some(p.eventId) || (op.visitaId == Some(p.visitaId) && op.kind in {Consumption, External}));
      var i :| 0 <= i < |l.operations| && l.operations[i] == op;
    }
    if AlreadyApplied(l, p) {
      var i :| 0 <= i < |l.operations|
            && (l.operations[i].sourceId == Some(p.eventId)
                || (l.operations[i].visitaId == Some(p.visitaId)
                    && (l.operations[i].kind == Consumption || l.operations[i].kind == External)));
      assert l.operations[i] in l.operations;
    }
  }

  /** A known closure changes nothing; any other is accepted exactly when the stock covers it, and files each of its lines, worked in item order. */
  lemma ClosureIsFiled(l: Ledger, p: VisitaCerrada)
    requires AllStock(l)
    ensures CloseVisit(l, p).Ok? <==> Known(l, p) || Visits.Feasible(l, p.consumos)
    ensures CloseVisit(l, p).Ok? ==>
              var l' := CloseVisit(l, p).value.ledger; if Known(l, p) then l' == l else Filed(l, l', SortLines(p.consumos), p)
  {
    KnownIsApplied(l, p);
    if !Known(l, p) {
      Visits.ClosureConsumesAllOrNothing(l, p);
      if CloseVisit(l, p).Ok? {
        LinesAreFiled(l, SortLines(p.consumos), p);
      }
    }
  }

  // -- Openings -------------------------------------------------------------------------

  /** The cut is accepted on exactly the stock and version that the client saw, and empty stock is worth nothing. */
  lemma OpeningIsAcceptedIff(l: Ledger, itemId: Id, input: OpeningInput, actor: string)
    ensures var r, value := Open(l, itemId, input, actor), Cents(input.valueCents);
            var seen := itemId in l.stock && l.stock[itemId].qty == input.qty && Current(l, itemId).version == input.expectedVersion;
            && (r.Ok? <==> value.Some? && !Blank(input.reason) && (input.qty == 0 ==> value.value == 0) && seen)
            && (r.Err? ==> r.error == if value.None? then Cost(InvalidAmount)
                                      else if Blank(input.reason) then MissingReason
                                      else if input.qty == 0 && value.value != 0 then ValueWithoutStock
                                      else if itemId !in l.stock then StockNotFound
                                      else StockChanged)
  {
  }

  /** The item is worth the amount given, from now on; pieces and movements stay. */
  lemma OpeningIsRecorded(l: Ledger, itemId: Id, input: OpeningInput, actor: string)
    requires Open(l, itemId, input, actor).Ok?
    ensures Cents(input.valueCents).Some?
    ensures var done, value := Open(l, itemId, input, actor).value, Cents(input.valueCents).value as int;
            && done.operation.Some?
            && var l', op := done.ledger, done.operation.value;
               && Spares(l, l', itemId) && Adds(l, l', op) && Restocked(l, l', itemId, 0)
               && Revalued(l, l', itemId, Some(value), Some(l.clock)) && Value(l', itemId) == Some(value)
               && l'.movimientos == l.movimientos && l'.pendientes == l.pendientes
               && op == CostOperation(op.id, itemId, Opening, input.qty, None, None, None, None, None, Some(value), [], 1,
                                      actor, Some(input.reason), None, l.clock)
  {
  }

  // -- Revisions ------------------------------------------------------------------------

  /** The supplier a revised purchase is left with: the one given, else the one it had. */
  function SupplierGiven(op: CostOperation, input: RevisionInput): Option<Id> {
    if input.supplierId.Some? then input.supplierId else op.supplierId
  }

  /** What may be revised, seen from the record: its version, its kind, its supplier and its returns. */
  ghost predicate Revisable(l: Ledger, op: CostOperation, input: RevisionInput) {
    && op.itemId in l.stock && op.version == input.expectedVersion
    && (op.netCents.Some? ==> input.correct)
    && (if op.kind == Consumption then forall i :: 0 <= i < |l.operations| && l.operations[i].kind == Returned ==> l.operations[i].sourceId != Some(op.id)
        else (op.kind == Receipt || op.kind == External)
             && SupplierGiven(op, input).Some? && ActiveSupplier(l, SupplierGiven(op, input).value))
  }

  /** What a record found is not revised for: the first of these that it misses. */
  function RevisionRefusal(l: Ledger, op: CostOperation, input: RevisionInput): InventoryError {
    if op.itemId !in l.stock then StockNotFound
    else if op.version != input.expectedVersion then VersionConflict
    else if !Correctable(op) then NeedsRegularisation
    else if op.netCents.Some? && !input.correct then AmountAlreadyRecorded
    else if op.kind == Consumption then HasReturns
    else InvalidSupplier
  }

  lemma RevisionIsAcceptedIff(l: Ledger, input: RevisionInput, actor: string)
    ensures var r, priced, found := Revise(l, input, actor), CalculateCost(input.cost), FindOperation(l.operations, input.id);
            && (r.Ok? <==> priced.Ok? && priced.value.Some? && !Blank(input.reason)
                           && found.Some? && Revisable(l, l.operations[found.value], input))
            && (r.Err? ==> r.error == if priced.Err? then Cost(priced.error)
                                      else if priced.value.None? || Blank(input.reason) then MissingReason
                                      else if found.None? then OperationNotFound
                                      else RevisionRefusal(l, l.operations[found.value], input))
  {
    if CalculateCost(input.cost).Ok? && CalculateCost(input.cost).value.Some? && FindOperation(l.operations, input.id).Some? {
      FoundIsRevisedIff(l, input, FindOperation(l.operations, input.id).value, CalculateCost(input.cost).value.value, actor);
    }
  }

  /** What was bought or used up; adjustments, openings and returns follow from these. */
  predicate Correctable(op: CostOperation) {
    op.kind == Receipt || op.kind == Consumption || op.kind == External
  }

  lemma FoundIsRevisedIff(l: Ledger, input: RevisionInput, k: nat, money: CostMoney, actor: string)
    requires k < |l.operations|
    ensures var r, op := ReviseFound(l, input, k, money, actor), l.operations[k];
            && (r.Ok? <==> Revisable(l, op, input))
            && (r.Err? ==> r.error == RevisionRefusal(l, op, input))
  {
  }

  /** The record takes the new cost at its net and keeps what it was before in its history. */
  ghost predicate Rewritten(op: CostOperation, op': CostOperation, money: CostMoney, input: RevisionInput, actor: string, at: Time) {
    && op'.(money := op.money, netCents := op.netCents, supplierId := op.supplierId, version := op.version, revisions := op.revisions) == op
    && op'.money == Some(money) && op'.netCents == Some(money.totalCents - money.taxCents)
    && op'.version == op.version + 1
    && op'.supplierId == (if op.kind == Consumption then op.supplierId else SupplierGiven(op, input))
    && op'.revisions == op.revisions + [Revision(actor, at, input.reason, op.money, money, op.netCents, money.totalCents - money.taxCents)]
  }

  /** The cut comes before what the record tells of. */
  predicate WithinCut(l: Ledger, op: CostOperation) {
    Current(l, op.itemId).cutAt.None? || Current(l, op.itemId).cutAt.value <= op.effectiveAt
  }

  lemma RevisionIsRecorded(l: Ledger, input: RevisionInput, actor: string)
    requires Revise(l, input, actor).Ok?
    ensures CalculateCost(input.cost).Ok? && CalculateCost(input.cost).value.Some? && FindOperation(l.operations, input.id).Some?
    ensures var done, money := Revise(l, input, actor).value, CalculateCost(input.cost).value.value;
            var l', k := done.ledger, FindOperation(l.operations, input.id).value;
            && |l'.operations| == |l.operations|
            && var op, op' := l.operations[k], l'.operations[k];
               && l' == l.(operations := l.operations[k := op'], valuation := l'.valuation) && done.operation == Some(op') && done.crossings == []
               && Rewritten(op, op', money, input, actor, l.clock)
               && (op.kind == External || !WithinCut(l, op) ==> l'.valuation == l.valuation)
               && (op.kind != External && WithinCut(l, op) ==>
                     Spares(l, l', op.itemId)
                     && Revalued(l, l', op.itemId, if Qty(l, op.itemId) == 0 then Some(0) else None, Current(l, op.itemId).cutAt))
  {
    TotalIsNetPlusTax(input.cost);
    RevisionEffect(l, input, actor);
    FoundIsRevised(l, input, FindOperation(l.operations, input.id).value, CalculateCost(input.cost).value.value, actor);
  }

  lemma FoundIsRevised(l: Ledger, input: RevisionInput, k: nat, money: CostMoney, actor: string)
    requires k < |l.operations| && ReviseFound(l, input, k, money, actor).Ok? && money.totalCents == money.netCents + money.taxCents
    ensures var done := ReviseFound(l, input, k, money, actor).value;
            var l' := done.ledger;
            && |l'.operations| == |l.operations|
            && var op, op' := l.operations[k], l'.operations[k];
               && l' == l.(operations := l.operations[k := op'], valuation := l'.valuation) && done.operation == Some(op') && done.crossings == []
               && Rewritten(op, op', money, input, actor, l.clock)
               && (op.kind == External || !WithinCut(l, op) ==> l'.valuation == l.valuation)
               && (op.kind != External && WithinCut(l, op) ==>
                     Spares(l, l', op.itemId)
                     && (Qty(l, op.itemId) == 0 || op.itemId in l.stock)
                     && l'.valuation[op.itemId] == Current(l, op.itemId).(valueCents := if Qty(l, op.itemId) == 0 then Some(0) else None,
                                                                          version := Current(l, op.itemId).version + 1))
  {
  }

  // -- Returns --------------------------------------------------------------------------

  /** The money of a consumption, and the pieces, that earlier returns left. */
  function MoneyLeft(l: Ledger, source: CostOperation): Option<int> {
    if source.netCents.Some? then Some(source.netCents.value - ReturnedNet(l.operations, source.id)) else None
  }

  function PiecesLeft(l: Ledger, source: CostOperation): int {
    source.qty - ReturnedQty(l.operations, source.id)
  }

  /** What comes back is worth: its proportional share of what is left, unknown when that is. */
  ghost predicate SharesWhatIsLeft(l: Ledger, source: CostOperation, qty: int, net: Option<int>) {
    && (net.Some? <==> source.netCents.Some?)
    && (net.Some? ==> NearestShare(MoneyLeft(l, source).value, qty, PiecesLeft(l, source), net.value))
  }

  /** The integer nearest to money * qty / left, the upper one on a tie. */
  ghost predicate NearestShare(money: int, qty: int, left: int, net: int) {
    0 <= money && 0 < qty <= left && 2 * (money * qty) - left < 2 * (net * left) <= 2 * (money * qty) + left
  }

  ghost predicate CanReturn(l: Ledger, source: CostOperation, qty: int) {
    && source.itemId in l.stock && source.kind == Consumption && qty <= PiecesLeft(l, source)
    && Qty(l, source.itemId) + qty <= INT_MAX
  }

  lemma ReturnIsRefusedFor(l: Ledger, input: ReturnInput, actor: string)
    ensures var r, found := TakeBack(l, input, actor), FindOperation(l.operations, input.id);
            && (r == Err(MissingReason) <==> Blank(input.reason))
            && (r == Err(OperationNotFound) <==> !Blank(input.reason) && found.None?)
            && (r.Ok? ==> found.Some? && CanReturn(l, l.operations[found.value], input.qty))
            && (!Blank(input.reason) && found.Some? && !CanReturn(l, l.operations[found.value], input.qty) ==>
                  var source := l.operations[found.value];
                  && (source.itemId !in l.stock ==> r == Err(StockNotFound))
                  && (source.itemId in l.stock && source.kind != Consumption ==> r == Err(NotAConsumption))
                  && (source.itemId in l.stock && source.kind == Consumption && input.qty > PiecesLeft(l, source) ==>
                        r == Err(ReturnExceedsConsumption)))
  {
  }

  lemma ReturnCostsItsShare(l: Ledger, input: ReturnInput, actor: string)
    requires Returns.ReturnsLaw(l) && input.qty >= 1 && TakeBack(l, input, actor).Ok?
    ensures FindOperation(l.operations, input.id).Some? && TakeBack(l, input, actor).value.operation.Some?
    ensures SharesWhatIsLeft(l, l.operations[FindOperation(l.operations, input.id).value], input.qty,
                             TakeBack(l, input, actor).value.operation.value.netCents)
  {
    var source := l.operations[FindOperation(l.operations, input.id).value];
    assert Returns.Balanced(l.operations, source);
  }

  /** Otherwise a return is accepted: a wider column than 64 bits is all that can stand in the way of a reachable one. */
  lemma ReturnIsAccepted(l: Ledger, input: ReturnInput, actor: string)
    requires AllStock(l) && Returns.ReturnsLaw(l) && input.qty >= 1 && !Blank(input.reason)
    requires FindOperation(l.operations, input.id).Some?
    requires CanReturn(l, l.operations[FindOperation(l.operations, input.id).value], input.qty)
    requires l.operations[FindOperation(l.operations, input.id).value].qty <= INT_MAX
    ensures var r, source := TakeBack(l, input, actor), l.operations[FindOperation(l.operations, input.id).value];
            && (r.Err? ==> r.error == ColumnOverflow && Value(l, source.itemId).Some? && source.netCents.Some?
                           && Value(l, source.itemId).value + source.netCents.value > BIGINT_MAX)
  {
    var source := l.operations[FindOperation(l.operations, input.id).value];
    assert Returns.Balanced(l.operations, source);
    if source.netCents.Some? {
      ShareAtMostWhole(MoneyLeft(l, source).value, input.qty, PiecesLeft(l, source));
    }
  }

  /** A return is recorded against its consumption, for the visit and unit that consumed, and its pieces come back. */
  lemma ReturnIsRecorded(l: Ledger, input: ReturnInput, actor: string)
    requires TakeBack(l, input, actor).Ok?
    ensures FindOperation(l.operations, input.id).Some?
    ensures var done, source := TakeBack(l, input, actor).value, l.operations[FindOperation(l.operations, input.id).value];
            && done.operation.Some?
            && var l', op := done.ledger, done.operation.value;
               && Spares(l, l', source.itemId) && Adds(l, l', op) && l'.pendientes == l.pendientes
               && Restocked(l, l', source.itemId, input.qty)
               && Entered(Value(l, source.itemId), op.netCents, Value(l', source.itemId))
               && Revalued(l, l', source.itemId, Value(l', source.itemId), Current(l, source.itemId).cutAt)
               && op == CostOperation(op.id, source.itemId, Returned, input.qty, source.visitaId, source.unidadId, None, None, None,
                                      op.netCents, [], 1, actor, Some(input.reason), Some(input.id), l.clock)
               && l'.movimientos == l.movimientos + [Movimiento(op.id, Inventory.Ajuste, source.itemId, input.qty, input.qty,
                                                               source.visitaId, Some("Retorno: " + input.reason), Some(actor))]
  {
  }

  // -- A visit, not a delivery, is what is served once ----------------------------------

  lemma FiledIsApplied(l: Ledger, l': Ledger, lines: seq<ConsumoLinea>, p: VisitaCerrada, q: VisitaCerrada)
    requires Filed(l, l', lines, p) && lines != [] && (q.eventId == p.eventId || q.visitaId == p.visitaId)
    ensures AlreadyApplied(l', q)
  {
    assert OfLine(l'.operations[|l.operations|..][0], lines[0], p);
  }

  /** Once a closure consumed anything, another under the same event or the same visit changes nothing, after any run. */
  lemma VisitIsServedOnce(l: Ledger, p: VisitaCerrada, events: seq<Event>, q: VisitaCerrada)
    requires CloseVisit(l, p).Ok? && !AlreadyApplied(l, p) && p.consumos != []
    requires q.eventId == p.eventId || q.visitaId == p.visitaId
    ensures var later := Run(CloseVisit(l, p).value.ledger, events);
            CloseVisit(later, q) == Ok(Posted(later, [], None))
  {
    var served := CloseVisit(l, p).value.ledger;
    LinesAreFiled(l, SortLines(p.consumos), p);
    SortKeepsLines(p.consumos);
    assert |SortLines(p.consumos)| == |multiset(p.consumos)|;
    FiledIsApplied(l, served, SortLines(p.consumos), p, q);
    Visits.RunKeepsHistory(served, events);
    Visits.HistoryKeepsApplied(served, Run(served, events), q);
  }

  // -- The catalogue over every run -----------------------------------------------------

  /** SKUs are trimmed, never empty and never shared; a stored critical level lies between zero and the minimum. */
  ghost predicate CatalogueLaw(l: Ledger) {
    SkuLaw(l) && LevelLaw(l)
  }

  ghost predicate SkuLaw(l: Ledger) {
    && (forall i :: i in l.items ==> l.items[i].sku != "" && l.items[i].nombre != ""
                                     && Trim(l.items[i].sku) == l.items[i].sku && Trim(l.items[i].nombre) == l.items[i].nombre)
    && (forall i, j :: i in l.items && j in l.items && i != j ==> l.items[i].sku != l.items[j].sku)
  }

  ghost predicate LevelOk(row: StockRow) {
    0 <= row.criticalQty && (row.minQty.Some? ==> row.criticalQty <= row.minQty.value)
  }

  ghost predicate LevelLaw(l: Ledger) {
    forall i :: i in l.stock ==> LevelOk(l.stock[i])
  }

  /** Everything but items and thresholds is out of the catalogue's reach. */
  ghost predicate SameCatalogue(l: Ledger, l': Ledger) {
    l'.items == l.items && forall i :: i in l'.stock ==>
      if i in l.stock then l'.stock[i].minQty == l.stock[i].minQty && l'.stock[i].criticalQty == l.stock[i].criticalQty
      else l'.stock[i].minQty.None? && l'.stock[i].criticalQty == 0
  }

  lemma {:induction false} LinesSpareCatalogue(l: Ledger, lines: seq<ConsumoLinea>, p: VisitaCerrada)
    requires CloseLines(l, lines, p).Ok?
    ensures SameCatalogue(l, CloseLines(l, lines, p).value.ledger)
    decreases lines
  {
    if lines != [] {
      var mid := CloseLine(l, lines[0], p).value.ledger;
      LinesSpareCatalogue(mid, lines[1..], p);
    }
  }

  predicate OnCatalogue(cmd: Command) {
    cmd.CmdCreateItem? || cmd.CmdUpdateItem? || cmd.CmdThreshold?
  }

  lemma MovementSparesCatalogue(l: Ledger, cmd: Command, actor: string)
    requires Perform(l, cmd, actor).Ok? && (cmd.CmdAdjust? || cmd.CmdEntrada? || cmd.CmdAjuste?)
    ensures SameCatalogue(l, Perform(l, cmd, actor).value.ledger)
  {
  }

  lemma CostSparesCatalogue(l: Ledger, cmd: Command, actor: string)
    requires Perform(l, cmd, actor).Ok? && (cmd.CmdReceive? || cmd.CmdReturn? || cmd.CmdOpen?)
    ensures SameCatalogue(l, Perform(l, cmd, actor).value.ledger)
  {
  }

  lemma CommandSparesCatalogue(l: Ledger, cmd: Command, actor: string)
    requires Perform(l, cmd, actor).Ok? && !OnCatalogue(cmd)
    ensures SameCatalogue(l, Perform(l, cmd, actor).value.ledger)
  {
    match cmd
    case CmdClose(p) =>
      if !AlreadyApplied(l, p) {
        LinesSpareCatalogue(l, SortLines(p.consumos), p);
      }
    case CmdRevise(r) => RevisionEffect(l, r, actor);
    case CmdReconcile(_) =>
    case CmdAdjust(_, _, _) => MovementSparesCatalogue(l, cmd, actor);
    case CmdEntrada(_, _, _) => MovementSparesCatalogue(l, cmd, actor);
    case CmdAjuste(_, _, _) => MovementSparesCatalogue(l, cmd, actor);
    case _ => CostSparesCatalogue(l, cmd, actor);
  }

  /** The critical level asked for, else the stored one brought down to the new minimum. */
  function LevelGiven(requested: Option<int>, minQty: Option<int>, stored: int): int {
    if requested.Some? then requested.value
    else if minQty.Some? && minQty.value < stored then minQty.value
    else stored
  }

  ghost predicate SkuFree(l: Ledger, sku: string, itemId: Option<Id>) {
    forall i :: i in l.items && l.items[i].sku == sku ==> Some(i) == itemId
  }

  /** A new item needs an active family, a SKU nobody has and a name; it starts without stock. */
  lemma ItemIsCreated(l: Ledger, draft: ItemDraft, minQty: Option<int>)
    ensures var r := CreateItem(l, draft, minQty);
            && (r.Ok? <==> draft.familia == Some(true) && !Blank(draft.sku) && !Blank(draft.nombre) && SkuFree(l, Trim(draft.sku), None))
            && (r.Err? ==> r.error == if draft.familia.None? then FamilyNotFound
                                      else if draft.familia == Some(false) then FamilyInactive
                                      else if Blank(draft.sku) then EmptySku
                                      else if Blank(draft.nombre) then EmptyName
                                      else SkuTaken)
            && (r.Ok? ==> r.value.ledger
                          == l.(nextId := l.nextId + 1, items := l.items[l.nextId := Item(Trim(draft.sku), Trim(draft.nombre), draft.activo != Some(false))],
                                stock := l.stock[l.nextId := StockRow(0, minQty, 0)]))
  {
  }

  /** The item an edit asks for: each given field, trimmed if it is text, in place of the old one. */
  ghost predicate Edited(item: Item, item': Item, patch: ItemPatch) {
    && item'.sku == (if patch.sku.Some? then Trim(patch.sku.value) else item.sku)
    && item'.nombre == (if patch.nombre.Some? then Trim(patch.nombre.value) else item.nombre)
    && item'.activo == (if patch.activo.Some? then patch.activo.value else item.activo)
  }

  /** The row an edit of thresholds asks for; pieces are not its business. */
  function RowGiven(l: Ledger, itemId: Id, minQty: Option<int>, criticalQty: Option<int>): StockRow {
    var stored := if itemId in l.stock then l.stock[itemId].criticalQty else 0;
    StockRow(Qty(l, itemId), minQty, LevelGiven(criticalQty, minQty, stored))
  }

  function MinimumGiven(l: Ledger, itemId: Id, patch: ItemPatch): Option<int> {
    if patch.minQty.Some? then patch.minQty.value else if itemId in l.stock then l.stock[itemId].minQty else None
  }

  lemma ItemIsUpdatedIff(l: Ledger, itemId: Id, patch: ItemPatch)
    ensures var r, row := UpdateItem(l, itemId, patch), RowGiven(l, itemId, MinimumGiven(l, itemId, patch), patch.criticalQty);
            && (r.Ok? <==> && itemId in l.items && LevelOk(row) && patch.familiaFound != Some(false)
                           && (patch.sku.Some? ==> !Blank(patch.sku.value)) && (patch.nombre.Some? ==> !Blank(patch.nombre.value))
                           && SkuFree(l, if patch.sku.Some? then Trim(patch.sku.value) else l.items[itemId].sku, Some(itemId)))
            && (r.Err? ==> r.error == if itemId !in l.items then ItemNotFound
                                      else if !LevelOk(row) then InvalidThresholds
                                      else if patch.sku.Some? && Blank(patch.sku.value) then EmptySku
                                      else if patch.nombre.Some? && Blank(patch.nombre.value) then EmptyName
                                      else if patch.familiaFound == Some(false) then FamilyNotFound
                                      else SkuTaken)
  {
  }

  lemma ItemIsUpdated(l: Ledger, itemId: Id, patch: ItemPatch)
    requires UpdateItem(l, itemId, patch).Ok?
    ensures var l' := UpdateItem(l, itemId, patch).value.ledger;
            && itemId in l.items && itemId in l'.items && Edited(l.items[itemId], l'.items[itemId], patch)
            && l' == l.(items := l.items[itemId := l'.items[itemId]], stock := l'.stock)
            && l'.stock == (if patch.minQty.None? && patch.criticalQty.None? then l.stock
                            else l.stock[itemId := RowGiven(l, itemId, MinimumGiven(l, itemId, patch), patch.criticalQty)])
  {
  }

  /** The alert catalogue stores the levels given, if they are in order, and nothing else. */
  lemma ThresholdIsStored(l: Ledger, itemId: Id, minQty: Option<int>, criticalQty: Option<int>)
    ensures var r, row := UpdateAlertThreshold(l, itemId, minQty, criticalQty), RowGiven(l, itemId, minQty, criticalQty);
            && (r.Ok? <==> itemId in l.stock && LevelOk(row))
            && (r.Err? ==> r.error == if itemId in l.stock then InvalidThresholds else StockNotFound)
            && (r.Ok? ==> r.value == Posted(l.(stock := l.stock[itemId := row]), [], None))
  {
  }

  lemma CreateKeepsCatalogue(l: Ledger, draft: ItemDraft, minQty: Option<int>)
    requires CatalogueLaw(l) && IdLaw(l) && CreateItem(l, draft, minQty).Ok? && (minQty.Some? ==> minQty.value >= 0)
    ensures CatalogueLaw(CreateItem(l, draft, minQty).value.ledger)
  {
    TrimLeaves(draft.sku);
    TrimLeaves(draft.nombre);
    ItemIsCreated(l, draft, minQty);
  }

  lemma EditKeepsSkus(l: Ledger, l': Ledger, itemId: Id, patch: ItemPatch)
    requires SkuLaw(l) && itemId in l.items && itemId in l'.items && l'.items == l.items[itemId := l'.items[itemId]]
    requires Edited(l.items[itemId], l'.items[itemId], patch) && SkuFree(l, l'.items[itemId].sku, Some(itemId))
    requires (patch.sku.Some? ==> !Blank(patch.sku.value)) && (patch.nombre.Some? ==> !Blank(patch.nombre.value))
    ensures SkuLaw(l')
  {
    if patch.sku.Some? {
      TrimLeaves(patch.sku.value);
    }
    if patch.nombre.Some? {
      TrimLeaves(patch.nombre.value);
    }
  }

  lemma UpdateKeepsCatalogue(l: Ledger, itemId: Id, patch: ItemPatch)
    requires CatalogueLaw(l) && UpdateItem(l, itemId, patch).Ok?
    ensures CatalogueLaw(UpdateItem(l, itemId, patch).value.ledger)
  {
    ItemIsUpdatedIff(l, itemId, patch);
    ItemIsUpdated(l, itemId, patch);
    EditKeepsSkus(l, UpdateItem(l, itemId, patch).value.ledger, itemId, patch);
  }

  lemma SameKeepsCatalogue(l: Ledger, l': Ledger)
    requires CatalogueLaw(l) && SameCatalogue(l, l')
    ensures CatalogueLaw(l')
  {
  }

  lemma ThresholdKeepsCatalogue(l: Ledger, itemId: Id, minQty: Option<int>, criticalQty: Option<int>)
    requires CatalogueLaw(l) && UpdateAlertThreshold(l, itemId, minQty, criticalQty).Ok?
    ensures CatalogueLaw(UpdateAlertThreshold(l, itemId, minQty, criticalQty).value.ledger)
  {
    ThresholdIsStored(l, itemId, minQty, criticalQty);
  }

  lemma CatalogueCommandKeepsLaw(l: Ledger, cmd: Command, actor: string)
    requires CatalogueLaw(l) && IdLaw(l) && Admissible(cmd) && OnCatalogue(cmd) && Perform(l, cmd, actor).Ok?
    ensures CatalogueLaw(Perform(l, cmd, actor).value.ledger)
  {
    match cmd
    case CmdCreateItem(draft, m) => CreateKeepsCatalogue(l, draft, m);
    case CmdUpdateItem(itemId, patch) => UpdateKeepsCatalogue(l, itemId, patch);
    case CmdThreshold(itemId, m, c) => ThresholdKeepsCatalogue(l, itemId, m, c);
  }

  lemma PerformKeepsCatalogue(l: Ledger, cmd: Command, actor: string)
    requires CatalogueLaw(l) && IdLaw(l) && Admissible(cmd) && Perform(l, cmd, actor).Ok?
    ensures CatalogueLaw(Perform(l, cmd, actor).value.ledger)
  {
    if OnCatalogue(cmd) {
      CatalogueCommandKeepsLaw(l, cmd, actor);
    } else {
      CommandSparesCatalogue(l, cmd, actor);
      SameKeepsCatalogue(l, Perform(l, cmd, actor).value.ledger);
    }
  }

  /** Over every run SKUs stay trimmed and unique, and every critical level lies between zero and its minimum. */
  lemma {:induction false} RunKeepsCatalogue(l: Ledger, events: seq<Event>)
    requires InventoryRuns.AdmissibleRun(events) && IdLaw(l) && AllStock(l) && CatalogueLaw(l)
    ensures CatalogueLaw(Run(l, events))
  {
    if events != [] {
      var front, e := events[..|events| - 1], events[|events| - 1];
      RunKeepsCatalogue(l, front);
      InventoryRuns.RunKeepsAllStock(l, front);
      if Perform(Tick(Run(l, front), e.elapsed), e.cmd, e.actor).Ok? {
        PerformKeepsCatalogue(Tick(Run(l, front), e.elapsed), e.cmd, e.actor);
      }
    }
  }
}
