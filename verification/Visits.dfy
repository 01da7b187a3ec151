/** Closed visits: all of their lines or none, once and for ever. */
module Visits {
  import opened Wrappers
  import opened CostRules
  import opened Inventory
  import opened InventoryLaws
  import opened InventoryRuns

  /** Pieces the lines draw from the stock of an item. */
  function Taken(lines: seq<ConsumoLinea>, item: Id): int {
    if lines == [] then 0
    else (if lines[0].itemId == item && lines[0].origen == DesdeStock then lines[0].qty else 0) + Taken(lines[1..], item)
  }

  predicate WellFormedLines(l: Ledger, lines: seq<ConsumoLinea>) {
    forall i :: 0 <= i < |lines| ==> lines[i].qty >= 1 && lines[i].itemId in l.items
  }

  ghost predicate Feasible(l: Ledger, lines: seq<ConsumoLinea>) {
    WellFormedLines(l, lines) && forall item: Id :: Taken(lines, item) <= Qty(l, item)
  }

  lemma LineOutcome(l: Ledger, line: ConsumoLinea, p: VisitaCerrada)
    requires AllStock(l)
    ensures CloseLine(l, line, p).Ok? <==>
              line.qty >= 1 && line.itemId in l.items && (line.origen == DesdeStock ==> line.qty <= Qty(l, line.itemId))
    ensures CloseLine(l, line, p).Ok? ==>
              var l' := CloseLine(l, line, p).value.ledger;
              && l'.items == l.items && |l'.operations| == |l.operations| + 1
              && (forall item: Id :: Qty(l', item) == Qty(l, item) - Taken([line], item))
  {
    assert StockLaw(l, line.itemId);
    if line.qty >= 1 && line.qty <= Qty(l, line.itemId) && Value(l, line.itemId).Some? {
      OutflowShare(Value(l, line.itemId).value, line.qty, Qty(l, line.itemId));
    }
    forall item: Id
      ensures Taken([line], item) == if line.itemId == item && line.origen == DesdeStock then line.qty else 0
    {
      assert [line][1..] == [];
    }
  }

  lemma {:induction false} TakenIsNatural(lines: seq<ConsumoLinea>, item: Id)
    requires forall i :: 0 <= i < |lines| ==> lines[i].qty >= 1
    ensures Taken(lines, item) >= 0
  {
    if lines != [] {
      TakenIsNatural(lines[1..], item);
    }
  }

  /** Lines are accepted exactly when every item has the pieces all of them ask for together. */
  lemma {:induction false} LinesOutcome(l: Ledger, lines: seq<ConsumoLinea>, p: VisitaCerrada)
    requires AllStock(l)
    ensures CloseLines(l, lines, p).Ok? <==> Feasible(l, lines)
    ensures CloseLines(l, lines, p).Ok? ==>
              var l' := CloseLines(l, lines, p).value.ledger;
              && |l'.operations| == |l.operations| + |lines|
              && (forall item: Id :: Qty(l', item) == Qty(l, item) - Taken(lines, item))
    decreases lines
  {
    if lines == [] {
      forall item: Id
        ensures Taken(lines, item) <= Qty(l, item)
      {
        assert StockLaw(l, item);
      }
    } else {
      var line, rest := lines[0], lines[1..];
      LineOutcome(l, line, p);
      forall item: Id
        ensures Taken(lines, item) == Taken([line], item) + Taken(rest, item)
      {
        assert [line][1..] == [];
      }
      if CloseLine(l, line, p).Ok? {
        var mid := CloseLine(l, line, p).value.ledger;
        LineKeepsAllStock(l, line, p);
        LinesOutcome(mid, rest, p);
        RestFeasible(l, mid, lines);
      } else if WellFormedLines(l, lines) {
        TakenIsNatural(rest, line.itemId);
        assert Taken(lines, line.itemId) > Qty(l, line.itemId);
      }
    }
  }

  lemma RestFeasible(l: Ledger, mid: Ledger, lines: seq<ConsumoLinea>)
    requires lines != [] && mid.items == l.items
    requires lines[0].qty >= 1 && lines[0].itemId in l.items
    requires forall item: Id :: Taken(lines, item) == Taken([lines[0]], item) + Taken(lines[1..], item)
    requires forall item: Id :: Qty(mid, item) == Qty(l, item) - Taken([lines[0]], item)
    ensures Feasible(mid, lines[1..]) <==> Feasible(l, lines)
  {
    if Feasible(mid, lines[1..]) {
      forall i | 0 <= i < |lines|
        ensures lines[i].qty >= 1 && lines[i].itemId in l.items
      {
        assert i > 0 ==> lines[i] == lines[1..][i - 1];
      }
      forall item: Id
        ensures Taken(lines, item) <= Qty(l, item)
      {
        assert Taken(lines[1..], item) <= Qty(mid, item);
      }
    }
    if Feasible(l, lines) {
      forall item: Id
        ensures Taken(lines[1..], item) <= Qty(mid, item)
      {
        assert Taken(lines, item) <= Qty(l, item);
      }
    }
  }

  lemma {:induction false} InsertKeepsTaken(line: ConsumoLinea, sorted: seq<ConsumoLinea>, item: Id)
    ensures Taken(InsertLine(line, sorted), item) == Taken([line], item) + Taken(sorted, item)
  {
    assert [line][1..] == [];
    if sorted == [] || line.itemId <= sorted[0].itemId {
      assert ([line] + sorted)[1..] == sorted;
    } else {
      InsertKeepsTaken(line, sorted[1..], item);
      assert ([sorted[0]] + InsertLine(line, sorted[1..]))[1..] == InsertLine(line, sorted[1..]);
    }
  }

  lemma {:induction false} SortKeepsTaken(lines: seq<ConsumoLinea>, item: Id)
    ensures Taken(SortLines(lines), item) == Taken(lines, item)
  {
    if lines != [] {
      SortKeepsTaken(lines[1..], item);
      InsertKeepsTaken(lines[0], SortLines(lines[1..]), item);
      assert [lines[0]][1..] == [];
    }
  }

  lemma SameLines(lines: seq<ConsumoLinea>, line: ConsumoLinea)
    ensures line in SortLines(lines) <==> line in lines
    ensures |SortLines(lines)| == |lines|
  {
    SortKeepsLines(lines);
    assert line in multiset(SortLines(lines)) <==> line in multiset(lines);
    assert |multiset(SortLines(lines))| == |multiset(lines)|;
  }

  lemma SortKeepsWellFormed(l: Ledger, lines: seq<ConsumoLinea>)
    ensures WellFormedLines(l, SortLines(lines)) <==> WellFormedLines(l, lines)
  {
    var sorted := SortLines(lines);
    forall line
      ensures line in sorted <==> line in lines
    {
      SameLines(lines, line);
    }
    if WellFormedLines(l, sorted) {
      forall i | 0 <= i < |lines|
        ensures lines[i].qty >= 1 && lines[i].itemId in l.items
      {
        assert lines[i] in sorted;
      }
    }
    if WellFormedLines(l, lines) {
      forall i | 0 <= i < |sorted|
        ensures sorted[i].qty >= 1 && sorted[i].itemId in l.items
      {
        assert sorted[i] in lines;
      }
    }
  }

  lemma SortKeepsFeasible(l: Ledger, lines: seq<ConsumoLinea>)
    ensures Feasible(l, SortLines(lines)) <==> Feasible(l, lines)
    ensures |SortLines(lines)| == |lines|
  {
    SortKeepsWellFormed(l, lines);
    SortKeepsLines(lines);
    assert |multiset(SortLines(lines))| == |multiset(lines)|;
    forall item: Id
      ensures Taken(SortLines(lines), item) == Taken(lines, item)
    {
      SortKeepsTaken(lines, item);
    }
  }

  /**
   A closure not applied before is accepted exactly when its lines are well formed and the
   stock covers them together; then every item gives up exactly what the lines took, and one
   operation is recorded per line.
   */
  lemma ClosureConsumesAllOrNothing(l: Ledger, p: VisitaCerrada)
    requires AllStock(l) && !AlreadyApplied(l, p)
    ensures CloseVisit(l, p).Ok? <==> Feasible(l, p.consumos)
    ensures CloseVisit(l, p).Ok? ==>
              var l' := CloseVisit(l, p).value.ledger;
              && |l'.operations| == |l.operations| + |p.consumos|
              && (forall item: Id :: Qty(l', item) == Qty(l, item) - Taken(p.consumos, item))
  {
    LinesOutcome(l, SortLines(p.consumos), p);
    SortKeepsFeasible(l, p.consumos);
    forall item: Id
      ensures Taken(SortLines(p.consumos), item) == Taken(p.consumos, item)
    {
      SortKeepsTaken(p.consumos, item);
    }
  }

  /** Records are never removed, and what ties them to a visit never changes. */
  ghost predicate History(l: Ledger, l': Ledger) {
    && |l.operations| <= |l'.operations|
    && l.movimientos <= l'.movimientos
    && (forall i :: 0 <= i < |l.operations| ==>
          && l'.operations[i].id == l.operations[i].id && l'.operations[i].kind == l.operations[i].kind
          && l'.operations[i].itemId == l.operations[i].itemId && l'.operations[i].qty == l.operations[i].qty
          && l'.operations[i].sourceId == l.operations[i].sourceId && l'.operations[i].visitaId == l.operations[i].visitaId
          && l'.operations[i].effectiveAt == l.operations[i].effectiveAt
          && l.operations[i].revisions <= l'.operations[i].revisions)
  }

  lemma {:induction false} LinesKeepHistory(l: Ledger, lines: seq<ConsumoLinea>, p: VisitaCerrada)
    requires CloseLines(l, lines, p).Ok?
    ensures var l' := CloseLines(l, lines, p).value.ledger;
            && History(l, l') && |l'.operations| == |l.operations| + |lines|
            && (forall i :: |l.operations| <= i < |l'.operations| ==> l'.operations[i].sourceId == Some(p.eventId))
    decreases lines
  {
    if lines != [] {
      var mid := CloseLine(l, lines[0], p).value.ledger;
      LinesKeepHistory(mid, lines[1..], p);
    }
  }

  lemma ReviseKeepsHistory(l: Ledger, input: RevisionInput, actor: string)
    requires Revise(l, input, actor).Ok?
    ensures History(l, Revise(l, input, actor).value.ledger)
  {
  }

  lemma TakeBackKeepsHistory(l: Ledger, input: ReturnInput, actor: string)
    requires TakeBack(l, input, actor).Ok?
    ensures History(l, TakeBack(l, input, actor).value.ledger)
  {
  }

  lemma ReceiveKeepsHistory(l: Ledger, input: ReceiptInput, actor: string)
    requires Receive(l, input, actor).Ok?
    ensures History(l, Receive(l, input, actor).value.ledger)
  {
  }

  lemma MoveKeepsHistory(l: Ledger, itemId: Id, row: StockRow, delta: int, cause: Cause)
    requires MoveStock(l, itemId, row, delta, cause).Ok?
    ensures History(l, MoveStock(l, itemId, row, delta, cause).value.ledger)
  {
  }

  lemma OpenKeepsHistory(l: Ledger, itemId: Id, input: OpeningInput, actor: string)
    requires Open(l, itemId, input, actor).Ok?
    ensures History(l, Open(l, itemId, input, actor).value.ledger)
  {
  }

  lemma PerformKeepsHistory(l: Ledger, cmd: Command, actor: string)
    requires Perform(l, cmd, actor).Ok?
    ensures History(l, Perform(l, cmd, actor).value.ledger)
  {
    match cmd
    case CmdClose(p) =>
      if !AlreadyApplied(l, p) {
        LinesKeepHistory(l, SortLines(p.consumos), p);
      }
    case CmdRevise(r) => ReviseKeepsHistory(l, r, actor);
    case CmdReturn(r) => TakeBackKeepsHistory(l, r, actor);
    case CmdReceive(r) => ReceiveKeepsHistory(l, r, actor);
    case CmdOpen(itemId, o) => OpenKeepsHistory(l, itemId, o, actor);
    case CmdAdjust(itemId, delta, nota) =>
      MoveKeepsHistory(l, itemId, l.stock[itemId], delta, Cause(Inventory.Ajuste, Adjustment, None, None, None, None, Some(actor), Some(nota)));
    case CmdEntrada(itemId, qty, nota) => MoveKeepsHistory(l, itemId, RowFor(l, itemId), qty, EntradaCause(nota, Some(actor)));
    case CmdAjuste(itemId, delta, nota) => MoveKeepsHistory(l, itemId, RowFor(l, itemId), delta, AjusteCause(nota, Some(actor)));
    case _ =>
  }

  lemma {:induction false} RunKeepsHistory(l: Ledger, events: seq<Event>)
    ensures History(l, Run(l, events))
  {
    if events != [] {
      var front, e := events[..|events| - 1], events[|events| - 1];
      RunKeepsHistory(l, front);
      var before := Tick(Run(l, front), e.elapsed);
      if Perform(before, e.cmd, e.actor).Ok? {
        PerformKeepsHistory(before, e.cmd, e.actor);
      }
    }
  }

  lemma HistoryKeepsApplied(l: Ledger, l': Ledger, p: VisitaCerrada)
    requires History(l, l') && AlreadyApplied(l, p)
    ensures AlreadyApplied(l', p)
  {
    var i :| 0 <= i < |l.operations|
          && (l.operations[i].sourceId == Some(p.eventId)
              || (l.operations[i].visitaId == Some(p.visitaId)
                  && (l.operations[i].kind == Consumption || l.operations[i].kind == External)));
    assert l'.operations[i].sourceId == l.operations[i].sourceId;
  }

  /** Delivering a served closure again, at once or after any run, changes nothing. */
  lemma ClosureIsServedOnce(l: Ledger, p: VisitaCerrada, events: seq<Event>)
    requires CloseVisit(l, p).Ok?
    ensures var later := Run(CloseVisit(l, p).value.ledger, events);
            CloseVisit(later, p) == Ok(Posted(later, [], None))
  {
    var served := CloseVisit(l, p).value.ledger;
    RunKeepsHistory(served, events);
    if AlreadyApplied(l, p) {
      HistoryKeepsApplied(served, Run(served, events), p);
    } else if p.consumos != [] {
      LinesKeepHistory(l, SortLines(p.consumos), p);
      SortKeepsFeasible(l, p.consumos);
      assert served.operations[|l.operations|].sourceId == Some(p.eventId);
      HistoryKeepsApplied(served, Run(served, events), p);
    }
  }
}
