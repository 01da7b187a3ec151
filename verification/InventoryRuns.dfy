/** The inventory laws over whole runs, closed visits, and returns against consumptions. */
module InventoryRuns {
  import opened Wrappers
  import opened CostRules
  import opened Decimals
  import opened Texts
  import opened Inventory
  import opened InventoryLaws

  // -- Conservation and drift over every run --------------------------------------------

  predicate AdmissibleRun(events: seq<Event>) {
    forall i :: 0 <= i < |events| ==> Admissible(events[i].cmd)
  }

  function StepAudit(l: Ledger, e: Event, item: Id, a: Audit): Audit {
    var before := Tick(l, e.elapsed);
    if Perform(before, e.cmd, e.actor).Ok? then NextAudit(before, e.cmd, Step(l, e), item, a) else a
  }

  function RunAudit(l: Ledger, events: seq<Event>, item: Id, a: Audit): Audit {
    if events == [] then a
    else
      var front := events[..|events| - 1];
      StepAudit(Run(l, front), events[|events| - 1], item, RunAudit(l, front, item, a))
  }

  /** No visit of the run draws an item's stock with a closing time before the item's cut. */
  ghost predicate PromptRun(l: Ledger, events: seq<Event>, item: Id) {
    forall i :: 0 <= i < |events| ==> Prompt(Tick(Run(l, events[..i]), events[i].elapsed), events[i].cmd, item)
  }

  lemma TickKeeps(l: Ledger, elapsed: nat, item: Id, a: Audit)
    ensures IdLaw(l) ==> IdLaw(Tick(l, elapsed))
    ensures Audited(l, item, a) ==> Audited(Tick(l, elapsed), item, a)
    ensures StockLaw(l, item) ==> StockLaw(Tick(l, elapsed), item)
    ensures Undrifted(l, item, a) ==> Undrifted(Tick(l, elapsed), item, a)
    ensures Timely(l, item, a) ==> Timely(Tick(l, elapsed), item, a)
  {
  }

  lemma StepKeepsAllStock(l: Ledger, e: Event)
    requires Admissible(e.cmd) && IdLaw(l) && AllStock(l)
    ensures IdLaw(Step(l, e)) && AllStock(Step(l, e))
  {
    var before := Tick(l, e.elapsed);
    forall item: Id
      ensures StockLaw(before, item)
    {
      TickKeeps(l, e.elapsed, item, TrivialAudit(l, item));
    }
    if Perform(before, e.cmd, e.actor).Ok? {
      forall item: Id
        ensures StockLaw(Step(l, e), item) && IdLaw(Step(l, e))
      {
        TriviallyAudited(before, item);
        PerformKeeps(before, e.cmd, e.actor, item, TrivialAudit(before, item));
      }
      assert StockLaw(Step(l, e), 0);
    }
  }

  lemma {:induction false} RunKeepsAllStock(l: Ledger, events: seq<Event>)
    requires AdmissibleRun(events) && IdLaw(l) && AllStock(l)
    ensures IdLaw(Run(l, events)) && AllStock(Run(l, events))
  {
    if events != [] {
      RunKeepsAllStock(l, events[..|events| - 1]);
      StepKeepsAllStock(Run(l, events[..|events| - 1]), events[|events| - 1]);
    }
  }

  lemma TickKeepsAll(l: Ledger, elapsed: nat)
    requires IdLaw(l) && AllStock(l)
    ensures IdLaw(Tick(l, elapsed)) && AllStock(Tick(l, elapsed))
  {
    forall item: Id
      ensures StockLaw(Tick(l, elapsed), item)
    {
      TickKeeps(l, elapsed, item, TrivialAudit(l, item));
    }
  }

  /**
   Over every run: the value a known item shows is its last reset plus the signed costs
   recorded since, up to the gap that unnoticed corrections opened; so it is conserved exactly
   when that gap is zero.
   */
  lemma {:induction false} ValueIsConserved(l: Ledger, events: seq<Event>, item: Id, a: Audit)
    requires AdmissibleRun(events) && IdLaw(l) && AllStock(l) && Accounted(l, item, a)
    ensures var l' := Run(l, events);
            var a' := RunAudit(l, events, item, a);
            Accounted(l', item, a') && (Conserved(l', item, a') <==> a'.gap == 0)
  {
    if events != [] {
      var front := events[..|events| - 1];
      ValueIsConserved(l, front, item, a);
      RunKeepsAllStock(l, front);
      StepKeepsAccount(Run(l, front), events[|events| - 1], item, RunAudit(l, front, item, a));
    }
    ConservedIffNoGap(Run(l, events), item, RunAudit(l, events, item, a));
  }

  lemma StepKeepsAccount(l: Ledger, e: Event, item: Id, a: Audit)
    requires Admissible(e.cmd) && IdLaw(l) && AllStock(l) && Accounted(l, item, a)
    ensures Accounted(Step(l, e), item, StepAudit(l, e, item, a))
  {
    TickKeeps(l, e.elapsed, item, a);
    TickKeepsAll(l, e.elapsed);
    if Perform(Tick(l, e.elapsed), e.cmd, e.actor).Ok? {
      PerformKeeps(Tick(l, e.elapsed), e.cmd, e.actor, item, a);
    }
  }

  /** The event is a correction, accepted without the item's value learning of it. */
  predicate BlindEvent(l: Ledger, e: Event, item: Id, a: Audit) {
    var before := Tick(l, e.elapsed);
    Perform(before, e.cmd, e.actor).Ok? && BlindRevision(before, e.cmd, item, a)
  }

  predicate BlindAt(l: Ledger, events: seq<Event>, i: nat, item: Id, a: Audit)
    requires i < |events|
  {
    BlindEvent(Run(l, events[..i]), events[i], item, RunAudit(l, events[..i], item, a))
  }

  predicate NoneBlind(l: Ledger, events: seq<Event>, item: Id, a: Audit) {
    forall i :: 0 <= i < |events| ==> !BlindAt(l, events, i, item, a)
  }

  /** Conserved after each event of the run, and before the first. */
  ghost predicate ConservedThroughout(l: Ledger, events: seq<Event>, item: Id, a: Audit) {
    forall n :: 0 <= n <= |events| ==> Conserved(Run(l, events[..n]), item, RunAudit(l, events[..n], item, a))
  }

  lemma StepConserves(l: Ledger, e: Event, item: Id, a: Audit)
    requires Admissible(e.cmd) && IdLaw(l) && AllStock(l) && Accounted(l, item, a) && Conserved(l, item, a)
    ensures Conserved(Step(l, e), item, StepAudit(l, e, item, a)) <==> !BlindEvent(l, e, item, a)
  {
    var before := Tick(l, e.elapsed);
    TickKeeps(l, e.elapsed, item, a);
    TickKeepsAll(l, e.elapsed);
    ConservedIffNoGap(l, item, a);
    ConservedIffNoGap(before, item, a);
    if Perform(before, e.cmd, e.actor).Ok? {
      ConservationEndsIffBlind(before, e.cmd, e.actor, item, a);
    }
  }

  lemma OneMoreEvent(l: Ledger, events: seq<Event>, n: nat, item: Id, a: Audit)
    requires n < |events|
    ensures Run(l, events[..n + 1]) == Step(Run(l, events[..n]), events[n])
    ensures RunAudit(l, events[..n + 1], item, a) == StepAudit(Run(l, events[..n]), events[n], item, RunAudit(l, events[..n], item, a))
  {
    assert events[..n + 1][..n] == events[..n];
  }

  /** One event of a run, from a state that is still conserved. */
  lemma EventConserves(l: Ledger, events: seq<Event>, n: nat, item: Id, a: Audit)
    requires AdmissibleRun(events) && IdLaw(l) && AllStock(l) && Accounted(l, item, a) && n < |events|
    requires Conserved(Run(l, events[..n]), item, RunAudit(l, events[..n], item, a))
    ensures Conserved(Run(l, events[..n + 1]), item, RunAudit(l, events[..n + 1], item, a)) <==> !BlindAt(l, events, n, item, a)
  {
    RunKeepsAllStock(l, events[..n]);
    ValueIsConserved(l, events[..n], item, a);
    OneMoreEvent(l, events, n, item, a);
    StepConserves(Run(l, events[..n]), events[n], item, RunAudit(l, events[..n], item, a));
  }

  lemma {:induction false} ConservedSoFar(l: Ledger, events: seq<Event>, n: nat, item: Id, a: Audit)
    requires AdmissibleRun(events) && IdLaw(l) && AllStock(l) && Accounted(l, item, a) && Conserved(l, item, a)
    requires NoneBlind(l, events, item, a) && n <= |events|
    ensures Conserved(Run(l, events[..n]), item, RunAudit(l, events[..n], item, a))
  {
    if n > 0 {
      ConservedSoFar(l, events, n - 1, item, a);
      EventConserves(l, events, n - 1, item, a);
      assert !BlindAt(l, events, n - 1, item, a);
    }
  }

  /**
   Exactly which runs conserve an item's value from beginning to end: those in which no
   accepted revision goes unnoticed. The first that does ends conservation at once.
   */
  lemma ConservedIffNoneBlind(l: Ledger, events: seq<Event>, item: Id, a: Audit)
    requires AdmissibleRun(events) && IdLaw(l) && AllStock(l) && Accounted(l, item, a) && Conserved(l, item, a)
    ensures ConservedThroughout(l, events, item, a) <==> NoneBlind(l, events, item, a)
  {
    if NoneBlind(l, events, item, a) {
      forall n | 0 <= n <= |events|
        ensures Conserved(Run(l, events[..n]), item, RunAudit(l, events[..n], item, a))
      {
        ConservedSoFar(l, events, n, item, a);
      }
    }
    if ConservedThroughout(l, events, item, a) {
      forall i | 0 <= i < |events|
        ensures !BlindAt(l, events, i, item, a)
      {
        assert Conserved(Run(l, events[..i]), item, RunAudit(l, events[..i], item, a));
        assert Conserved(Run(l, events[..i + 1]), item, RunAudit(l, events[..i + 1], item, a));
        EventConserves(l, events, i, item, a);
      }
    }
  }

  lemma PromptStepStaysTimely(l: Ledger, e: Event, item: Id, a: Audit)
    requires Admissible(e.cmd) && IdLaw(l) && AllStock(l) && Accounted(l, item, a) && Timely(l, item, a)
    requires Prompt(Tick(l, e.elapsed), e.cmd, item)
    ensures Timely(Step(l, e), item, StepAudit(l, e, item, a))
  {
    TickKeeps(l, e.elapsed, item, a);
    TickKeepsAll(l, e.elapsed);
    if Perform(Tick(l, e.elapsed), e.cmd, e.actor).Ok? {
      PerformKeeps(Tick(l, e.elapsed), e.cmd, e.actor, item, a);
    }
  }

  lemma PromptStepAt(l: Ledger, events: seq<Event>, n: nat, item: Id, a: Audit)
    requires AdmissibleRun(events) && IdLaw(l) && AllStock(l) && Accounted(l, item, a) && n < |events|
    requires Prompt(Tick(Run(l, events[..n]), events[n].elapsed), events[n].cmd, item)
    requires Timely(Run(l, events[..n]), item, RunAudit(l, events[..n], item, a))
    ensures Timely(Run(l, events[..n + 1]), item, RunAudit(l, events[..n + 1], item, a))
  {
    RunKeepsAllStock(l, events[..n]);
    ValueIsConserved(l, events[..n], item, a);
    OneMoreEvent(l, events, n, item, a);
    PromptStepStaysTimely(Run(l, events[..n]), events[n], item, RunAudit(l, events[..n], item, a));
  }

  lemma {:induction false} PromptStaysTimely(l: Ledger, events: seq<Event>, item: Id, a: Audit)
    requires AdmissibleRun(events) && IdLaw(l) && AllStock(l)
    requires Accounted(l, item, a) && Timely(l, item, a) && PromptRun(l, events, item)
    ensures Timely(Run(l, events), item, RunAudit(l, events, item, a))
  {
    if events != [] {
      var n: nat := |events| - 1;
      PromptPrefix(l, events, n, item);
      PromptStaysTimely(l, events[..n], item, a);
      PromptStepAt(l, events, n, item, a);
      assert events[..n + 1] == events;
    }
  }

  lemma PromptPrefix(l: Ledger, events: seq<Event>, n: nat, item: Id)
    requires PromptRun(l, events, item) && n <= |events|
    ensures PromptRun(l, events[..n], item)
  {
    forall i | 0 <= i < n
      ensures events[..n][..i] == events[..i]
    {
    }
  }

  /** In particular, a run that draws no item with a date before its cut conserves the value throughout. */
  lemma PromptRunsConserve(l: Ledger, events: seq<Event>, item: Id, a: Audit)
    requires AdmissibleRun(events) && IdLaw(l) && AllStock(l)
    requires Accounted(l, item, a) && Conserved(l, item, a) && Timely(l, item, a) && PromptRun(l, events, item)
    ensures ConservedThroughout(l, events, item, a)
  {
    forall i | 0 <= i < |events|
      ensures !BlindAt(l, events, i, item, a)
    {
      var before, ai := Run(l, events[..i]), RunAudit(l, events[..i], item, a);
      PromptPrefix(l, events, i, item);
      PromptStaysTimely(l, events[..i], item, a);
      TickKeeps(before, events[i].elapsed, item, ai);
      if Perform(Tick(before, events[i].elapsed), events[i].cmd, events[i].actor).Ok? {
        TimelyIsNoticed(Tick(before, events[i].elapsed), events[i].cmd, events[i].actor, item, ai);
      }
    }
    ConservedIffNoneBlind(l, events, item, a);
  }

  /** The same on the rows a reader sees, from any lawful start: no condition but the gap, which only blind revisions open. */
  lemma ConservationAtRest(l: Ledger, events: seq<Event>, item: Id)
    requires AdmissibleRun(events) && IdLaw(l) && AllStock(l)
    ensures var l' := Run(l, events);
            var a' := RunAudit(l, events, item, TrivialAudit(l, item));
            && Qty(l', item) == SumDeltas(l'.movimientos, item) >= 0
            && (item in l'.valuation ==> l'.valuation[item].quantityAtCost == Qty(l', item))
            && (Qty(l', item) == 0 ==> Value(l', item) == Some(0))
            && (Value(l', item).Some? ==>
                  Value(l', item).value == a'.base + a'.gap + NetsSince(l'.operations, item, a'.since) >= 0)
            && (NoneBlind(l, events, item, TrivialAudit(l, item)) ==> a'.gap == 0)
  {
    var a := TrivialAudit(l, item);
    TriviallyAudited(l, item);
    ConservedIffNoGap(l, item, a);
    ValueIsConserved(l, events, item, a);
    if NoneBlind(l, events, item, a) {
      ConservedIffNoneBlind(l, events, item, a);
      assert events[..|events|] == events;
    }
  }

  /** The same observer with its reset moved to the present, which explains any value. */
  function Rebased(l: Ledger, item: Id, a: Audit): Audit {
    a.(base := if Value(l, item).Some? then Value(l, item).value else 0, gap := 0, since := |l.operations|)
  }

  lemma StepKeepsDrift(l: Ledger, e: Event, item: Id, a: Audit)
    requires Admissible(e.cmd) && IdLaw(l) && AllStock(l) && Undrifted(l, item, a)
    ensures Undrifted(Step(l, e), item, StepAudit(l, e, item, a))
  {
    var before := Tick(l, e.elapsed);
    TickKeeps(l, e.elapsed, item, a);
    TickKeepsAll(l, e.elapsed);
    if Perform(before, e.cmd, e.actor).Ok? {
      PerformKeeps(before, e.cmd, e.actor, item, Rebased(before, item, a));
      assert Undrifted(Step(l, e), item, NextAudit(before, e.cmd, Step(l, e), item, Rebased(before, item, a)));
    }
  }

  /** Rounding: k outflows after the last inflow leave the value within k/2 centavos of its share, late dates or not. */
  lemma {:induction false} RoundingNeverDrifts(l: Ledger, events: seq<Event>, item: Id, a: Audit)
    requires AdmissibleRun(events) && IdLaw(l) && AllStock(l) && Undrifted(l, item, a)
    ensures Undrifted(Run(l, events), item, RunAudit(l, events, item, a))
  {
    if events != [] {
      var front := events[..|events| - 1];
      RoundingNeverDrifts(l, front, item, a);
      RunKeepsAllStock(l, front);
      StepKeepsDrift(Run(l, front), events[|events| - 1], item, RunAudit(l, front, item, a));
    }
  }

  /** A known value stays known. */
  predicate StaysKnown(l: Ledger, l': Ledger, item: Id) {
    Value(l, item).Some? ==> Value(l', item).Some?
  }

  lemma OutflowStaysKnown(l: Ledger, itemId: Id, row: StockRow, out: int, cause: Cause, item: Id)
    requires RowOf(l, itemId, row) && StockLaw(l, itemId) && out > 0 && MoveStock(l, itemId, row, -out, cause).Ok?
    ensures StaysKnown(l, MoveStock(l, itemId, row, -out, cause).value.ledger, item)
  {
  }

  lemma {:induction false} LinesStayKnown(l: Ledger, lines: seq<ConsumoLinea>, p: VisitaCerrada, item: Id)
    requires CloseLines(l, lines, p).Ok? && AllStock(l)
    ensures StaysKnown(l, CloseLines(l, lines, p).value.ledger, item)
    decreases lines
  {
    if lines != [] {
      if lines[0].origen == DesdeStock {
        OutflowStaysKnown(l, lines[0].itemId, RowFor(l, lines[0].itemId), lines[0].qty, VisitCause(p), item);
      }
      LineKeepsAllStock(l, lines[0], p);
      LinesStayKnown(CloseLine(l, lines[0], p).value.ledger, lines[1..], p, item);
    }
  }

  lemma OutflowCommandStaysKnown(l: Ledger, cmd: Command, actor: string, item: Id)
    requires IsOutflow(cmd) && Perform(l, cmd, actor).Ok? && AllStock(l)
    ensures StaysKnown(l, Perform(l, cmd, actor).value.ledger, item)
  {
    match cmd
    case CmdClose(p) =>
      if !AlreadyApplied(l, p) {
        LinesStayKnown(l, SortLines(p.consumos), p, item);
      }
    case CmdAdjust(itemId, delta, nota) =>
      var cause := Cause(Inventory.Ajuste, Adjustment, None, None, None, None, Some(actor), Some(nota));
      OutflowStaysKnown(l, itemId, l.stock[itemId], -delta, cause, item);
    case CmdAjuste(itemId, delta, nota) =>
      OutflowStaysKnown(l, itemId, RowFor(l, itemId), -delta, AjusteCause(nota, Some(actor)), item);
  }

  lemma {:induction false} OutflowsStayKnown(l: Ledger, events: seq<Event>, item: Id)
    requires AdmissibleRun(events) && IdLaw(l) && AllStock(l)
    requires forall i :: 0 <= i < |events| ==> IsOutflow(events[i].cmd)
    ensures StaysKnown(l, Run(l, events), item)
  {
    if events != [] {
      var front, e := events[..|events| - 1], events[|events| - 1];
      OutflowsStayKnown(l, front, item);
      RunKeepsAllStock(l, front);
      TickKeepsAll(Run(l, front), e.elapsed);
      var before := Tick(Run(l, front), e.elapsed);
      if Perform(before, e.cmd, e.actor).Ok? {
        OutflowCommandStaysKnown(before, e.cmd, e.actor, item);
      }
    }
  }

  /** A known value V0 over Q0 pieces stays known over k outflows, and 2|V Q0 - V0 Q| <= k Q0; nothing left is worth nothing. */
  lemma OutflowsShareProportionally(l: Ledger, events: seq<Event>, item: Id)
    requires AdmissibleRun(events) && IdLaw(l) && AllStock(l) && Value(l, item).Some?
    requires forall i :: 0 <= i < |events| ==> IsOutflow(events[i].cmd)
    ensures var l' := Run(l, events);
            && (Qty(l', item) == 0 ==> Value(l', item) == Some(0))
            && Value(l', item).Some?
            && WithinDrift(Value(l, item).value, Qty(l, item), Value(l', item).value, Qty(l', item),
                           MovesSince(l'.operations, item, |l.operations|))
  {
    var a := TrivialAudit(l, item);
    TriviallyAudited(l, item);
    RoundingNeverDrifts(l, events, item, a);
    RunKeepsAllStock(l, events);
    OutflowsKeepAnchor(l, events, item, a);
    OutflowsStayKnown(l, events, item);
    assert StockLaw(Run(l, events), item);
  }

  lemma {:induction false} OutflowsKeepAnchor(l: Ledger, events: seq<Event>, item: Id, a: Audit)
    requires forall i :: 0 <= i < |events| ==> IsOutflow(events[i].cmd)
    ensures var a' := RunAudit(l, events, item, a);
            a'.v0 == a.v0 && a'.q0 == a.q0 && a'.from == a.from
  {
    if events != [] {
      OutflowsKeepAnchor(l, events[..|events| - 1], item, a);
    }
  }

  // -- A late consumption, corrected ----------------------------------------------------

  const FREE := CostInput(Some(Recorded), Some(Decimal(0)), Some(Excluded), Some(NoTax), None, None)
  const NO_MONEY := CostMoney(0, Excluded, NoTax, 0, 0, 0, 0)

  lemma CostOfNothing()
    ensures CalculateCost(FREE) == Ok(Some(NO_MONEY))
  {
    ParseAfterDecimal(0);
    ShareOfAll(0, BPS);
  }

  /** Four pieces enter unpriced and are opened at four pesos; then an earlier closure of one piece arrives and is corrected to free. */
  const CREATES := Event(0, "ana", CmdCreateItem(ItemDraft("F", "Filtro", Some(true), None), None))
  const ENTERS := Event(0, "ana", CmdEntrada(0, 4, None))
  const OPENS := Event(0, "ana", CmdOpen(0, OpeningInput(4, Decimal(400), 1, "corte")))
  const CLOSES := Event(0, "ana", CmdClose(VisitaCerrada(7, 8, 9, 5, [ConsumoLinea(0, 1, DesdeStock)])))
  const CORRECTS := Event(0, "ana", CmdRevise(RevisionInput(5, FREE, 1, "cortesia", None, true)))
  const HISTORY := [CREATES, ENTERS, OPENS, CLOSES, CORRECTS]

  // Its records, the tables after each command, and what the observer has then seen.

  const ENTRY := CostOperation(2, 0, Receipt, 4, None, None, None, None, None, None, [], 1, "ana", None, None, 10)
  const CUT := CostOperation(3, 0, Opening, 4, None, None, None, None, None, Some(400), [], 1, "ana", Some("corte"), None, 10)
  const LATE := CostOperation(5, 0, Consumption, 1, Some(8), Some(9), None, None, None, Some(100), [], 1, "SYSTEM:CLOSE", None, Some(7), 5)
  const CORRECTED := LATE.(money := Some(NO_MONEY), netCents := Some(0), version := 2,
                           revisions := [Revision("ana", 10, "cortesia", None, NO_MONEY, Some(100), 0)])

  const EMPTY := Ledger(10, 0, map[], map[], map[], map[], [], [], [])
  const AFTER_CREATION := EMPTY.(nextId := 1, items := map[0 := Item("F", "Filtro", true)], stock := map[0 := StockRow(0, None, 0)])
  const AFTER_ENTRY := AFTER_CREATION.(nextId := 3, stock := map[0 := StockRow(4, None, 0)],
                                      valuation := map[0 := Valuation(None, 1, 4, None)], operations := [ENTRY],
                                      movimientos := [Movimiento(1, Entrada, 0, 4, 4, None, None, Some("ana"))])
  const AFTER_OPENING := AFTER_ENTRY.(nextId := 4, valuation := map[0 := Valuation(Some(400), 2, 4, Some(10))], operations := [ENTRY, CUT])
  const AFTER_CLOSURE := AFTER_OPENING.(nextId := 6, stock := map[0 := StockRow(3, None, 0)],
                                       valuation := map[0 := Valuation(Some(300), 3, 3, Some(10))], operations := [ENTRY, CUT, LATE],
                                       movimientos := AFTER_OPENING.movimientos + [Movimiento(4, SalidaOt, 0, 1, -1, Some(8), None, None)])
  const AFTER_CORRECTION := AFTER_CLOSURE.(operations := [ENTRY, CUT, CORRECTED])

  const SEEN0 := Audit(0, 0, 0, 0, 0, 0)
  const SEEN2 := Audit(0, 0, 0, 0, 4, 1)
  const SEEN3 := Audit(400, 0, 2, 400, 4, 2)
  const SEEN5 := SEEN3.(gap := -100)

  /** The event takes one ledger and observer to the next. */
  predicate Leads(l: Ledger, a: Audit, e: Event, l': Ledger, a': Audit) {
    && e.elapsed == 0 && Perform(l, e.cmd, e.actor).Ok? && Perform(l, e.cmd, e.actor).value.ledger == l'
    && NextAudit(l, e.cmd, l', 0, a) == a'
  }

  lemma Creates()
    ensures Leads(EMPTY, SEEN0, CREATES, AFTER_CREATION, SEEN0)
  {
    assert !IsSpace("F"[0]) && !IsSpace("Filtro"[0]) && !IsSpace("Filtro"[5]);
    assert Trim("F") == "F" && Trim("Filtro") == "Filtro";
    assert !SkuInUse(EMPTY, "F", None);
  }

  lemma Enters()
    ensures Leads(AFTER_CREATION, SEEN0, ENTERS, AFTER_ENTRY, SEEN2)
  {
  }

  lemma CutIsPriced(input: OpeningInput)
    requires input == OPENS.cmd.opening
    ensures Cents(input.valueCents) == Some(400) && !Blank(input.reason)
  {
    SixteenDigits();
    CentsReadsDecimals(400);
    assert !IsSpace("corte"[0]);
  }

  lemma OpeningLands()
    ensures Perform(AFTER_ENTRY, OPENS.cmd, "ana").Ok? && Perform(AFTER_ENTRY, OPENS.cmd, "ana").value.ledger == AFTER_OPENING
  {
    CutIsPriced(OPENS.cmd.opening);
    assert AFTER_ENTRY.operations + [CUT] == AFTER_OPENING.operations;
  }

  lemma Opens()
    ensures Leads(AFTER_ENTRY, SEEN2, OPENS, AFTER_OPENING, SEEN3)
  {
    OpeningLands();
  }

  lemma ClosureLands()
    ensures Perform(AFTER_OPENING, CLOSES.cmd, "ana").Ok? && Perform(AFTER_OPENING, CLOSES.cmd, "ana").value.ledger == AFTER_CLOSURE
  {
    var visita := CLOSES.cmd.visita;
    assert !AlreadyApplied(AFTER_OPENING, visita);
    assert SortLines(visita.consumos) == visita.consumos;
    HalfUpIsUnique(400 * 1, 4, 100);
    assert CloseLine(AFTER_OPENING, visita.consumos[0], visita).value.ledger == AFTER_CLOSURE;
  }

  lemma Closes()
    ensures Leads(AFTER_OPENING, SEEN3, CLOSES, AFTER_CLOSURE, SEEN3)
  {
    ClosureLands();
  }

  lemma FindsLate()
    ensures FindOperation(AFTER_CLOSURE.operations, 5) == Some(2)
  {
  }

  lemma RevisesFound(l: Ledger, input: RevisionInput, k: nat, money: CostMoney, actor: string)
    requires CalculateCost(input.cost) == Ok(Some(money)) && !Blank(input.reason)
    requires k < |l.operations| && FindOperation(l.operations, input.id) == Some(k)
    ensures Revise(l, input, actor) == ReviseFound(l, input, k, money, actor)
  {
  }

  lemma LateIsRevised()
    ensures ReviseFound(AFTER_CLOSURE, CORRECTS.cmd.revision, 2, NO_MONEY, "ana") == Ok(Posted(AFTER_CORRECTION, [], Some(CORRECTED)))
  {
    assert !HasReturnOf(AFTER_CLOSURE.operations, 5);
    assert Revised(LATE, NO_MONEY, None, CORRECTS.cmd.revision, "ana", 10) == CORRECTED;
    assert AFTER_CLOSURE.operations[2 := CORRECTED] == AFTER_CORRECTION.operations;
  }

  lemma CorrectionRevises(input: RevisionInput)
    requires input == CORRECTS.cmd.revision
    ensures Revise(AFTER_CLOSURE, input, "ana") == ReviseFound(AFTER_CLOSURE, input, 2, NO_MONEY, "ana")
  {
    CostOfNothing();
    FindsLate();
    assert !IsSpace(input.reason[0]);
    RevisesFound(AFTER_CLOSURE, input, 2, NO_MONEY, "ana");
  }

  lemma CorrectionLands()
    ensures Perform(AFTER_CLOSURE, CORRECTS.cmd, "ana") == Ok(Posted(AFTER_CORRECTION, [], Some(CORRECTED)))
  {
    CorrectionRevises(CORRECTS.cmd.revision);
    LateIsRevised();
  }

  lemma CorrectionIsBlind()
    ensures BlindRevision(AFTER_CLOSURE, CORRECTS.cmd, 0, SEEN3) && Missed(AFTER_CLOSURE, CORRECTS.cmd, 0, SEEN3) == -100
  {
    CostOfNothing();
    FindsLate();
  }

  lemma Corrects()
    ensures Leads(AFTER_CLOSURE, SEEN3, CORRECTS, AFTER_CORRECTION, SEEN5)
  {
    CorrectionLands();
    CorrectionIsBlind();
  }

  lemma Follows(l0: Ledger, a0: Audit, events: seq<Event>, n: nat, l: Ledger, a: Audit, l': Ledger, a': Audit)
    requires n < |events| && Run(l0, events[..n]) == l && RunAudit(l0, events[..n], 0, a0) == a
    requires Leads(l, a, events[n], l', a')
    ensures Run(l0, events[..n + 1]) == l' && RunAudit(l0, events[..n + 1], 0, a0) == a'
  {
    OneMoreEvent(l0, events, n, 0, a0);
    assert Tick(l, 0) == l;
  }

  /** What the history reaches, and what the observer of the item has seen by then. */
  lemma HistoryReaches()
    ensures Run(EMPTY, HISTORY[..4]) == AFTER_CLOSURE && RunAudit(EMPTY, HISTORY[..4], 0, SEEN0) == SEEN3
    ensures Run(EMPTY, HISTORY[..5]) == AFTER_CORRECTION && RunAudit(EMPTY, HISTORY[..5], 0, SEEN0) == SEEN5
  {
    Creates();
    Follows(EMPTY, SEEN0, HISTORY, 0, EMPTY, SEEN0, AFTER_CREATION, SEEN0);
    Enters();
    Follows(EMPTY, SEEN0, HISTORY, 1, AFTER_CREATION, SEEN0, AFTER_ENTRY, SEEN2);
    Opens();
    Follows(EMPTY, SEEN0, HISTORY, 2, AFTER_ENTRY, SEEN2, AFTER_OPENING, SEEN3);
    Closes();
    Follows(EMPTY, SEEN0, HISTORY, 3, AFTER_OPENING, SEEN3, AFTER_CLOSURE, SEEN3);
    Corrects();
    Follows(EMPTY, SEEN0, HISTORY, 4, AFTER_CLOSURE, SEEN3, AFTER_CORRECTION, SEEN5);
  }

  lemma EmptyIsLawful()
    ensures IdLaw(EMPTY) && AllStock(EMPTY) && TrivialAudit(EMPTY, 0) == SEEN0
  {
    forall item: Id
      ensures StockLaw(EMPTY, item)
    {
    }
  }

  lemma NetsOfLate(op: CostOperation)
    ensures NetsSince([ENTRY, CUT, op], 0, 2) == Signed(op, 0)
  {
    assert [ENTRY, CUT, op][..2] == [ENTRY, CUT];
  }

  lemma ClosedConserves()
    ensures Conserved(AFTER_CLOSURE, 0, SEEN3) && Value(AFTER_CLOSURE, 0) == Some(300)
  {
    NetsOfLate(LATE);
  }

  lemma CorrectedDoesNot()
    ensures !Conserved(AFTER_CORRECTION, 0, SEEN5) && Value(AFTER_CORRECTION, 0) == Some(300) && Qty(AFTER_CORRECTION, 0) == 3
    ensures SEEN5.base + NetsSince(AFTER_CORRECTION.operations, 0, SEEN5.since) == 400
  {
    NetsOfLate(CORRECTED);
  }

  lemma HistoryIsAdmissible()
    ensures AdmissibleRun(HISTORY)
  {
  }

  /**
   Conservation fails from the empty tables: after the correction the value is still three
   pesos, while the opening less what the records now say was consumed is four.
   */
  lemma LateConsumptionGoesUnnoticed()
    ensures AdmissibleRun(HISTORY) && IdLaw(EMPTY) && AllStock(EMPTY)
    ensures var a := TrivialAudit(EMPTY, 0);
            var l4, a4 := Run(EMPTY, HISTORY[..4]), RunAudit(EMPTY, HISTORY[..4], 0, a);
            var l5, a5 := Run(EMPTY, HISTORY[..5]), RunAudit(EMPTY, HISTORY[..5], 0, a);
            && Conserved(l4, 0, a4) && Value(l4, 0) == Some(300)
            && !Conserved(l5, 0, a5) && Value(l5, 0) == Some(300)
            && Qty(l5, 0) == 3 && a5.base + NetsSince(l5.operations, 0, a5.since) == 400
  {
    EmptyIsLawful();
    HistoryReaches();
    HistoryIsAdmissible();
    ClosedConserves();
    CorrectedDoesNot();
  }
}
