/** Returns against consumptions, over every run. */
module Returns {
  import opened Wrappers
  import opened CostRules
  import opened Inventory
  import opened InventoryLaws
  import opened InventoryRuns

  function ReturnCount(ops: seq<CostOperation>, id: Id): nat {
    if ops == [] then 0
    else
      var last := ops[|ops| - 1];
      ReturnCount(ops[..|ops| - 1], id) + if last.kind == Returned && last.sourceId == Some(id) then 1 else 0
  }

  /**
   A consumption of q pieces for c centavos against its k returns of r pieces for s:
   never more pieces than consumed, costs known on both sides or on neither, never more
   money than consumed, all of it with the last piece, and at most k/2 centavos off the
   exact share before that.
   */
  ghost predicate Balanced(ops: seq<CostOperation>, op: CostOperation) {
    var r := ReturnedQty(ops, op.id);
    var s := ReturnedNet(ops, op.id);
    && 0 <= r <= op.qty && 0 < op.qty
    && (op.netCents.None? ==> forall i :: 0 <= i < |ops| && ops[i].kind == Returned && ops[i].sourceId == Some(op.id) ==> ops[i].netCents.None?)
    && (op.netCents.Some? ==>
          && ReturnsKnown(ops, op.id)
          && 0 <= s <= op.netCents.value
          && (r == op.qty ==> s == op.netCents.value)
          && WithinDrift(op.netCents.value, op.qty, op.netCents.value - s, op.qty - r, ReturnCount(ops, op.id)))
  }

  ghost predicate ReturnsLaw(l: Ledger) {
    && (forall i :: 0 <= i < |l.operations| && l.operations[i].kind == Consumption ==> Balanced(l.operations, l.operations[i]))
    && (forall i :: 0 <= i < |l.operations| && l.operations[i].kind == Returned ==>
          l.operations[i].sourceId.Some? && l.operations[i].sourceId.value < l.nextId)
  }

  // -- Appending and revising -----------------------------------------------------------

  predicate ReturnsTo(op: CostOperation, id: Id) {
    op.kind == Returned && op.sourceId == Some(id)
  }

  lemma AppendReturn(ops: seq<CostOperation>, op: CostOperation, id: Id)
    ensures ReturnedQty(ops + [op], id) == ReturnedQty(ops, id) + if ReturnsTo(op, id) then op.qty else 0
    ensures ReturnedNet(ops + [op], id) == ReturnedNet(ops, id) + if ReturnsTo(op, id) && op.netCents.Some? then op.netCents.value else 0
    ensures ReturnCount(ops + [op], id) == ReturnCount(ops, id) + if ReturnsTo(op, id) then 1 else 0
    ensures ReturnsKnown(ops + [op], id) <==> ReturnsKnown(ops, id) && (ReturnsTo(op, id) ==> op.netCents.Some?)
  {
    var all := ops + [op];
    assert all[..|ops|] == ops && all[|ops|] == op;
    if ReturnsKnown(all, id) {
      forall i | 0 <= i < |ops| && ReturnsTo(ops[i], id)
        ensures ops[i].netCents.Some?
      {
        assert all[i] == ops[i];
      }
    }
  }

  lemma {:induction false} NoReturns(ops: seq<CostOperation>, id: Id)
    requires forall i :: 0 <= i < |ops| ==> !ReturnsTo(ops[i], id)
    ensures ReturnedQty(ops, id) == ReturnedNet(ops, id) == ReturnCount(ops, id) == 0
  {
    if ops != [] {
      NoReturns(ops[..|ops| - 1], id);
    }
  }

  lemma {:induction false} ReviseSparesReturns(ops: seq<CostOperation>, k: nat, op: CostOperation, id: Id)
    requires k < |ops| && op.kind == ops[k].kind && ops[k].kind != Returned
    ensures ReturnedQty(ops[k := op], id) == ReturnedQty(ops, id)
    ensures ReturnedNet(ops[k := op], id) == ReturnedNet(ops, id)
    ensures ReturnCount(ops[k := op], id) == ReturnCount(ops, id)
  {
    var n := |ops| - 1;
    if k == n {
      assert ops[k := op][..n] == ops[..n];
    } else {
      assert ops[k := op][..n] == ops[..n][k := op];
      ReviseSparesReturns(ops[..n], k, op, id);
    }
  }

  /** An operation that is not a return to `c` leaves c's balance alone. */
  lemma AppendKeepsBalance(ops: seq<CostOperation>, op: CostOperation, c: CostOperation)
    requires Balanced(ops, c) && !ReturnsTo(op, c.id)
    ensures Balanced(ops + [op], c)
  {
    AppendReturn(ops, op, c.id);
    if c.netCents.None? {
      forall i | 0 <= i < |ops + [op]| && ReturnsTo((ops + [op])[i], c.id)
        ensures (ops + [op])[i].netCents.None?
      {
        assert i < |ops| && (ops + [op])[i] == ops[i];
      }
    }
  }

  lemma UnreturnedIsBalanced(ops: seq<CostOperation>, c: CostOperation)
    requires c.qty > 0 && (c.netCents.Some? ==> c.netCents.value >= 0)
    requires forall i :: 0 <= i < |ops| ==> !ReturnsTo(ops[i], c.id)
    ensures Balanced(ops, c)
  {
    NoReturns(ops, c.id);
  }

  /** Recording anything but a return keeps every balance. */
  lemma AppendPlain(l: Ledger, l': Ledger, op: CostOperation)
    requires ReturnsLaw(l) && l'.operations == l.operations + [op] && l'.nextId >= l.nextId
    requires op.kind != Returned && op.id >= l.nextId
    requires op.kind == Consumption ==> op.qty > 0 && (op.netCents.Some? ==> op.netCents.value >= 0)
    ensures ReturnsLaw(l')
  {
    forall i | 0 <= i < |l'.operations| && l'.operations[i].kind == Consumption
      ensures Balanced(l'.operations, l'.operations[i])
    {
      if i < |l.operations| {
        AppendKeepsBalance(l.operations, op, l.operations[i]);
      } else {
        UnreturnedIsBalanced(l'.operations, op);
      }
    }
  }

  lemma MoveKeepsReturns(l: Ledger, itemId: Id, row: StockRow, delta: int, cause: Cause)
    requires IdLaw(l) && ReturnsLaw(l) && delta != 0 && MoveStock(l, itemId, row, delta, cause).Ok?
    requires cause.kind == Adjustment || cause.kind == Receipt
    ensures ReturnsLaw(MoveStock(l, itemId, row, delta, cause).value.ledger)
  {
    var l' := MoveStock(l, itemId, row, delta, cause).value.ledger;
    AppendPlain(l, l', LastOperation(l'));
  }

  lemma ExternalKeepsReturns(l: Ledger, line: ConsumoLinea, p: VisitaCerrada)
    requires ReturnsLaw(l)
    ensures ReturnsLaw(RecordExternal(l, line, p))
  {
    AppendPlain(l, RecordExternal(l, line, p), LastOperation(RecordExternal(l, line, p)));
  }

  lemma {:induction false} LinesKeepReturns(l: Ledger, lines: seq<ConsumoLinea>, p: VisitaCerrada)
    requires IdLaw(l) && ReturnsLaw(l) && CloseLines(l, lines, p).Ok?
    ensures ReturnsLaw(CloseLines(l, lines, p).value.ledger)
    decreases lines
  {
    if lines != [] {
      LineKeepsIds(l, lines[0], p);
      LineKeepsReturns(l, lines[0], p);
      LinesKeepReturns(CloseLine(l, lines[0], p).value.ledger, lines[1..], p);
    }
  }

  lemma LineKeepsReturns(l: Ledger, line: ConsumoLinea, p: VisitaCerrada)
    requires IdLaw(l) && ReturnsLaw(l) && CloseLine(l, line, p).Ok?
    ensures ReturnsLaw(CloseLine(l, line, p).value.ledger)
  {
    if line.origen == DesdeStock {
      MoveKeepsReturns(l, line.itemId, RowFor(l, line.itemId), -line.qty, VisitCause(p));
    } else {
      ExternalKeepsReturns(l, line, p);
    }
  }

  /** The cost of a return, given what is left of its consumption. */
  lemma ReturnShare(left: nat, money: nat, qty: nat)
    requires 0 < qty <= left && AllocatedCost(money, qty, left).Ok?
    ensures var share := AllocatedCost(money, qty, left).value;
            IsHalfUp(money * qty, left, share) && share <= money && (qty == left ==> share == money)
  {
    ShareAtMostWhole(money, qty, left);
    ShareOfAll(money, left);
  }

  /** The balance of a consumption whose cost is known, in figures. */
  ghost predicate Settled(c: CostOperation, r: int, s: int, k: nat)
    requires c.netCents.Some?
  {
    && 0 <= r <= c.qty && 0 < c.qty && 0 <= s <= c.netCents.value
    && (r == c.qty ==> s == c.netCents.value)
    && WithinDrift(c.netCents.value, c.qty, c.netCents.value - s, c.qty - r, k)
  }

  lemma OneMoreReturn(c: CostOperation, r: int, s: int, k: nat, qty: int, net: int)
    requires c.netCents.Some? && Settled(c, r, s, k) && 0 < qty <= c.qty - r
    requires AllocatedCost(c.netCents.value - s, qty, c.qty - r) == Ok(net)
    ensures Settled(c, r + qty, s + net, k + 1)
  {
    ReturnShare(c.qty - r, c.netCents.value - s, qty);
    OneMoreOutflow(c.netCents.value, c.qty, c.netCents.value - s, c.qty - r, qty, net, k);
  }

  lemma BalanceInFigures(ops: seq<CostOperation>, c: CostOperation, r: int, s: int, k: nat)
    requires c.netCents.Some? && r == ReturnedQty(ops, c.id) && s == ReturnedNet(ops, c.id) && k == ReturnCount(ops, c.id)
    ensures Balanced(ops, c) <==> ReturnsKnown(ops, c.id) && Settled(c, r, s, k)
  {
  }

  lemma UnknownStaysUnknown(ops: seq<CostOperation>, op: CostOperation, c: CostOperation)
    requires Balanced(ops, c) && c.netCents.None? && op.netCents.None?
    ensures forall i :: 0 <= i < |ops + [op]| && ReturnsTo((ops + [op])[i], c.id) ==> (ops + [op])[i].netCents.None?
  {
    forall i | 0 <= i < |ops + [op]| && ReturnsTo((ops + [op])[i], c.id)
      ensures (ops + [op])[i].netCents.None?
    {
      assert i < |ops| ==> (ops + [op])[i] == ops[i];
    }
  }

  lemma KnownReturnBalances(ops: seq<CostOperation>, op: CostOperation, c: CostOperation, r: int, s: int, k: nat, net: int)
    requires c.netCents.Some? && ReturnsTo(op, c.id) && 0 < op.qty <= c.qty - r && op.netCents == Some(net)
    requires r == ReturnedQty(ops, c.id) && s == ReturnedNet(ops, c.id) && k == ReturnCount(ops, c.id)
    requires ReturnsKnown(ops, c.id) && Settled(c, r, s, k)
    requires AllocatedCost(c.netCents.value - s, op.qty, c.qty - r) == Ok(net)
    ensures Balanced(ops + [op], c)
  {
    AppendReturn(ops, op, c.id);
    OneMoreReturn(c, r, s, k, op.qty, net);
    BalanceInFigures(ops + [op], c, r + op.qty, s + net, k + 1);
  }

  /** One return moves its own consumption's balance by one rounded share. */
  lemma ReturnKeepsOwnBalance(ops: seq<CostOperation>, op: CostOperation, c: CostOperation)
    requires Balanced(ops, c) && ReturnsTo(op, c.id)
    requires 0 < op.qty <= c.qty - ReturnedQty(ops, c.id)
    requires c.netCents.None? ==> op.netCents.None?
    requires c.netCents.Some? ==>
               var share := AllocatedCost(c.netCents.value - ReturnedNet(ops, c.id), op.qty, c.qty - ReturnedQty(ops, c.id));
               share.Ok? && op.netCents == Some(share.value as int)
    ensures Balanced(ops + [op], c)
  {
    if c.netCents.Some? {
      var r, s, k := ReturnedQty(ops, c.id), ReturnedNet(ops, c.id), ReturnCount(ops, c.id);
      BalanceInFigures(ops, c, r, s, k);
      KnownReturnBalances(ops, op, c, r, s, k, op.netCents.value);
    } else {
      AppendReturn(ops, op, c.id);
      UnknownStaysUnknown(ops, op, c);
    }
  }

  lemma TakeBackKeepsReturns(l: Ledger, input: ReturnInput, actor: string)
    requires input.qty >= 1 && TakeBack(l, input, actor).Ok?
    requires IdLaw(l) && ReturnsLaw(l)
    ensures ReturnsLaw(TakeBack(l, input, actor).value.ledger)
  {
    var l' := TakeBack(l, input, actor).value.ledger;
    var op := LastOperation(l');
    var k := FindOperation(l.operations, input.id).value;
    assert l'.operations == l.operations + [op];
    forall i | 0 <= i < |l'.operations| && l'.operations[i].kind == Consumption
      ensures Balanced(l'.operations, l'.operations[i])
    {
      assert i < |l.operations| && l'.operations[i] == l.operations[i];
      if i == k {
        ReturnKeepsOwnBalance(l.operations, op, l.operations[k]);
      } else {
        AppendKeepsBalance(l.operations, op, l.operations[i]);
      }
    }
  }

  /** No revision breaks a balance, because a consumption with returns is frozen. */
  lemma ReviseKeepsReturns(l: Ledger, input: RevisionInput, actor: string)
    requires Revise(l, input, actor).Ok? && IdLaw(l) && ReturnsLaw(l)
    ensures ReturnsLaw(Revise(l, input, actor).value.ledger)
  {
    var l' := Revise(l, input, actor).value.ledger;
    var k := FindOperation(l.operations, input.id).value;
    RevisionEffect(l, input, actor);
    forall i | 0 <= i < |l'.operations| && l'.operations[i].kind == Consumption
      ensures Balanced(l'.operations, l'.operations[i])
    {
      if i == k {
        UnreturnedIsBalanced(l'.operations, l'.operations[k]);
      } else {
        RevisedBalance(l.operations, k, l'.operations[k], l.operations[i]);
      }
    }
  }

  lemma RevisedBalance(ops: seq<CostOperation>, k: nat, op: CostOperation, c: CostOperation)
    requires k < |ops| && op.kind == ops[k].kind && ops[k].kind != Returned && Balanced(ops, c)
    ensures Balanced(ops[k := op], c)
  {
    ReviseSparesReturns(ops, k, op, c.id);
    forall i | 0 <= i < |ops| && ReturnsTo(ops[k := op][i], c.id)
      ensures ops[k := op][i] == ops[i]
    {
    }
  }

  lemma ReceiveKeepsReturns(l: Ledger, input: ReceiptInput, actor: string)
    requires ReturnsLaw(l) && Receive(l, input, actor).Ok?
    ensures ReturnsLaw(Receive(l, input, actor).value.ledger)
  {
    var l' := Receive(l, input, actor).value.ledger;
    AppendPlain(l, l', LastOperation(l'));
  }

  lemma OpenKeepsReturns(l: Ledger, itemId: Id, input: OpeningInput, actor: string)
    requires ReturnsLaw(l) && Open(l, itemId, input, actor).Ok?
    ensures ReturnsLaw(Open(l, itemId, input, actor).value.ledger)
  {
    var l' := Open(l, itemId, input, actor).value.ledger;
    AppendPlain(l, l', LastOperation(l'));
  }

  lemma PerformKeepsReturns(l: Ledger, cmd: Command, actor: string)
    requires Admissible(cmd) && Perform(l, cmd, actor).Ok? && IdLaw(l) && ReturnsLaw(l)
    ensures ReturnsLaw(Perform(l, cmd, actor).value.ledger)
  {
    match cmd
    case CmdReceive(r) => ReceiveKeepsReturns(l, r, actor);
    case CmdOpen(itemId, o) => OpenKeepsReturns(l, itemId, o, actor);
    case CmdAdjust(itemId, delta, nota) =>
      MoveKeepsReturns(l, itemId, l.stock[itemId], delta, Cause(Inventory.Ajuste, Adjustment, None, None, None, None, Some(actor), Some(nota)));
    case CmdEntrada(itemId, qty, nota) => MoveKeepsReturns(l, itemId, RowFor(l, itemId), qty, EntradaCause(nota, Some(actor)));
    case CmdAjuste(itemId, delta, nota) => MoveKeepsReturns(l, itemId, RowFor(l, itemId), delta, AjusteCause(nota, Some(actor)));
    case CmdClose(p) =>
      if !AlreadyApplied(l, p) {
        LinesKeepReturns(l, SortLines(p.consumos), p);
      }
    case CmdRevise(r) => ReviseKeepsReturns(l, r, actor);
    case CmdReturn(r) => TakeBackKeepsReturns(l, r, actor);
    case _ =>
  }

  /** Over any run, every consumption stays balanced with its returns. */
  lemma {:induction false} RunKeepsReturns(l: Ledger, events: seq<Event>)
    requires AdmissibleRun(events) && IdLaw(l) && AllStock(l) && ReturnsLaw(l)
    ensures ReturnsLaw(Run(l, events))
  {
    if events != [] {
      var front, e := events[..|events| - 1], events[|events| - 1];
      RunKeepsReturns(l, front);
      RunKeepsAllStock(l, front);
      var before := Tick(Run(l, front), e.elapsed);
      if Perform(before, e.cmd, e.actor).Ok? {
        PerformKeepsReturns(before, e.cmd, e.actor);
      }
    }
  }
}
