/**
 Low-stock alerts: events fire only when a change crosses a threshold, yet the inbox
 entry of an item must agree with the item's stock row after any run.
 */
module StockAlerts {
  import opened Wrappers
  import opened Texts
  import opened Inventory
  import InventoryLaws
  import InventoryRuns
  import Inbox

  // -- Rules ----------------------------------------------------------------------------

  function SeverityOf(qty: int, criticalQty: int): Inbox.Severity {
    if qty <= criticalQty then Inbox.Critical else Inbox.Warning
  }

  datatype ThresholdEvent = StockBajo | StockReabastecido

  function CrossingEvent(c: Crossing): Option<ThresholdEvent> {
    var prev, next := Low(c.prevQty, c.prevMin), Low(c.nextQty, c.nextMin);
    if !prev && next then Some(StockBajo)
    else if prev && !next then Some(StockReabastecido)
    else if prev && next && SeverityOf(c.prevQty, c.prevCritical) != SeverityOf(c.nextQty, c.nextCritical) then Some(StockBajo)
    else None
  }

  function Key(itemId: Id): Inbox.DedupeKey {
    Inbox.StockBajo(itemId)
  }

  function LowCommand(c: Crossing, ref: Id, now: Time): Inbox.IngestCommand {
    Inbox.IngestCommand(ref, SeverityOf(c.nextQty, c.nextCritical), Key(c.itemId), Some(now))
  }

  /** A restocking always closes the entry; a shortage opens one only while its alert type is active. */
  function Announce(box: Inbox.Box, c: Crossing, active: bool, ref: Id, now: Time): Inbox.Box {
    match CrossingEvent(c)
    case None => box
    case Some(StockBajo) => if active then Inbox.Ingest(box, LowCommand(c, ref, now), now) else box
    case Some(StockReabastecido) => Inbox.ExpireDedupe(box, Key(c.itemId), now)
  }

  function AnnounceAll(box: Inbox.Box, crossings: seq<Crossing>, active: bool, ref: Id, now: Time): Inbox.Box
    decreases crossings
  {
    if crossings == [] then box
    else AnnounceAll(Announce(box, crossings[0], active, ref, now), crossings[1..], active, ref, now)
  }

  // -- The entry an item should have ----------------------------------------------------

  /** Severity of the alert that a stock row calls for, if it calls for one. */
  function Wanted(row: StockRow): Option<Inbox.Severity> {
    if Low(row.qty, row.minQty) then Some(SeverityOf(row.qty, row.criticalQty)) else None
  }

  /** The entry shows what the row calls for. */
  ghost predicate Agrees(box: Inbox.Box, item: Id, row: StockRow) {
    Inbox.Live(box, Key(item)) == Wanted(row)
  }

  /** The weaker promise that survives a switched-off alert type: no alert without a shortage. */
  ghost predicate NoFalseAlarm(box: Inbox.Box, item: Id, row: StockRow) {
    Inbox.Live(box, Key(item)).Some? ==> Low(row.qty, row.minQty)
  }

  function Before(c: Crossing): StockRow {
    StockRow(c.prevQty, c.prevMin, c.prevCritical)
  }

  function After(c: Crossing): StockRow {
    StockRow(c.nextQty, c.nextMin, c.nextCritical)
  }

  /** A row is short at or under its minimum, critically so at or under its critical level. */
  lemma ShortageIsByLevels(row: StockRow)
    ensures Wanted(row).Some? <==> row.minQty.Some? && row.qty <= row.minQty.value
    ensures Wanted(row) == Some(Inbox.Critical) <==> row.minQty.Some? && row.qty <= row.minQty.value && row.qty <= row.criticalQty
    ensures Wanted(row) in {None, Some(Inbox.Warning), Some(Inbox.Critical)}
  {
  }

  /** An event is told exactly when the row comes to call for another alert than before. */
  lemma EventIsChange(c: Crossing)
    ensures CrossingEvent(c).None? <==> Wanted(Before(c)) == Wanted(After(c))
    ensures CrossingEvent(c) == Some(StockReabastecido) <==> Wanted(Before(c)).Some? && Wanted(After(c)).None?
    ensures CrossingEvent(c) == Some(StockBajo) <==> Wanted(After(c)).Some? && Wanted(Before(c)) != Wanted(After(c))
  {
  }

  /** The entry of an announced shortage names its event, and dates from now unless it was already live. */
  lemma ShortageIsNamed(box: Inbox.Box, c: Crossing, ref: Id, now: Time)
    requires Inbox.BoxLaw(box, now) && CrossingEvent(c) == Some(StockBajo)
    ensures var entry := Inbox.FindByDedupe(Announce(box, c, true, ref, now).items, Key(c.itemId));
            && entry.Some? && entry.value.sourceRef == ref && entry.value.expiresAt.None?
            && (Inbox.Live(box, Key(c.itemId)).None? ==> entry.value.createdAt == now)
    ensures Announce(box, c, false, ref, now) == box
  {
    Inbox.IngestRecords(box, LowCommand(c, ref, now), now);
  }

  /** The crossings of an item lead from one row to the other without a gap. */
  ghost predicate Chained(crossings: seq<Crossing>, item: Id, row: StockRow, row': StockRow) {
    if crossings == [] then row == row'
    else if crossings[0].itemId != item then Chained(crossings[1..], item, row, row')
    else Before(crossings[0]) == row && Chained(crossings[1..], item, After(crossings[0]), row')
  }

  /** What a crossing does to the entry of its item. */
  function NextEntry(entry: Option<Inbox.Severity>, c: Crossing, active: bool): Option<Inbox.Severity> {
    match CrossingEvent(c)
    case None => entry
    case Some(StockBajo) => if active then Some(SeverityOf(c.nextQty, c.nextCritical)) else entry
    case Some(StockReabastecido) => None
  }

  lemma AnnounceEffect(box: Inbox.Box, c: Crossing, active: bool, ref: Id, now: Time, item: Id)
    requires Inbox.BoxLaw(box, now)
    ensures var box' := Announce(box, c, active, ref, now);
            && Inbox.BoxLaw(box', now)
            && Inbox.Live(box', Key(item)) == (if item == c.itemId then NextEntry(Inbox.Live(box, Key(item)), c, active) else Inbox.Live(box, Key(item)))
  {
    match CrossingEvent(c)
    case None =>
    case Some(StockBajo) => Inbox.IngestEffect(box, LowCommand(c, ref, now), now);
    case Some(StockReabastecido) => Inbox.ExpireEffect(box, Key(c.itemId), now);
  }

  lemma {:induction false} AnnounceAllKeeps(
    box: Inbox.Box, crossings: seq<Crossing>, active: bool, ref: Id, now: Time, item: Id, row: StockRow, row': StockRow)
    requires Inbox.BoxLaw(box, now) && Chained(crossings, item, row, row')
    ensures var box' := AnnounceAll(box, crossings, active, ref, now);
            && Inbox.BoxLaw(box', now)
            && (NoFalseAlarm(box, item, row) ==> NoFalseAlarm(box', item, row'))
            && (active && Agrees(box, item, row) ==> Agrees(box', item, row'))
    decreases crossings
  {
    if crossings != [] {
      var c := crossings[0];
      var mid := Announce(box, c, active, ref, now);
      AnnounceEffect(box, c, active, ref, now, item);
      AnnounceAllKeeps(mid, crossings[1..], active, ref, now, item, if c.itemId == item then After(c) else row, row');
    }
  }

  // -- Crossings of each command chain from the old row to the new one ------------------

  lemma {:induction false} ChainTwo(first: seq<Crossing>, second: seq<Crossing>, item: Id, a: StockRow, b: StockRow, c: StockRow)
    requires Chained(first, item, a, b) && Chained(second, item, b, c)
    ensures Chained(first + second, item, a, c)
    decreases first
  {
    if first == [] {
      assert first + second == second;
    } else {
      assert (first + second)[1..] == first[1..] + second;
      ChainTwo(first[1..], second, item, if first[0].itemId == item then After(first[0]) else a, b, c);
    }
  }

  lemma LineChains(l: Ledger, line: ConsumoLinea, p: VisitaCerrada, item: Id)
    requires CloseLine(l, line, p).Ok?
    ensures var done := CloseLine(l, line, p).value;
            Chained(done.crossings, item, RowFor(l, item), RowFor(done.ledger, item))
  {
  }

  lemma {:induction false} LinesChain(l: Ledger, lines: seq<ConsumoLinea>, p: VisitaCerrada, item: Id)
    requires CloseLines(l, lines, p).Ok?
    ensures var done := CloseLines(l, lines, p).value;
            Chained(done.crossings, item, RowFor(l, item), RowFor(done.ledger, item))
    decreases lines
  {
    if lines != [] {
      var first := CloseLine(l, lines[0], p).value;
      var rest := CloseLines(first.ledger, lines[1..], p).value;
      LineChains(l, lines[0], p, item);
      LinesChain(first.ledger, lines[1..], p, item);
      ChainTwo(first.crossings, rest.crossings, item, RowFor(l, item), RowFor(first.ledger, item), RowFor(rest.ledger, item));
    }
  }

  /** Only the alert catalogue stores thresholds without announcing them at once. */
  predicate Deferred(cmd: Command) {
    cmd.CmdThreshold? || cmd.CmdReconcile?
  }

  lemma MovementChains(l: Ledger, cmd: Command, actor: string, item: Id)
    requires cmd.CmdAdjust? || cmd.CmdEntrada? || cmd.CmdAjuste?
    requires Perform(l, cmd, actor).Ok?
    ensures var done := Perform(l, cmd, actor).value;
            Chained(done.crossings, item, RowFor(l, item), RowFor(done.ledger, item))
  {
  }

  lemma CostCommandChains(l: Ledger, cmd: Command, actor: string, item: Id)
    requires cmd.CmdReceive? || cmd.CmdReturn? || cmd.CmdRevise? || cmd.CmdOpen?
    requires Perform(l, cmd, actor).Ok?
    ensures var done := Perform(l, cmd, actor).value;
            Chained(done.crossings, item, RowFor(l, item), RowFor(done.ledger, item))
  {
  }

  lemma CommandChains(l: Ledger, cmd: Command, actor: string, item: Id)
    requires InventoryLaws.IdLaw(l) && Perform(l, cmd, actor).Ok? && !Deferred(cmd)
    ensures var done := Perform(l, cmd, actor).value;
            Chained(done.crossings, item, RowFor(l, item), RowFor(done.ledger, item))
  {
    if cmd.CmdClose? {
      if !AlreadyApplied(l, cmd.visita) {
        LinesChain(l, SortLines(cmd.visita.consumos), cmd.visita, item);
      }
    } else if cmd.CmdReceive? || cmd.CmdReturn? || cmd.CmdRevise? || cmd.CmdOpen? {
      CostCommandChains(l, cmd, actor, item);
    } else if cmd.CmdAdjust? || cmd.CmdEntrada? || cmd.CmdAjuste? {
      MovementChains(l, cmd, actor, item);
    }
  }

  /** Reconciling announces each listed row afresh, whatever the inbox showed before. */
  lemma {:induction false} ReconcileAnnounces(box: Inbox.Box, l: Ledger, ids: seq<Id>, active: bool, ref: Id, now: Time, item: Id)
    requires Inbox.BoxLaw(box, now)
    ensures var box' := AnnounceAll(box, ReconcileCrossings(l, ids), active, ref, now);
            && Inbox.BoxLaw(box', now)
            && (item in l.stock && (item in ids || NoFalseAlarm(box, item, l.stock[item])) ==> NoFalseAlarm(box', item, l.stock[item]))
            && (item in l.stock && active && (item in ids || Agrees(box, item, l.stock[item])) ==> Agrees(box', item, l.stock[item]))
            && (item !in l.stock ==> Inbox.Live(box', Key(item)) == Inbox.Live(box, Key(item)))
    decreases ids
  {
    if ids != [] {
      if ids[0] !in l.stock {
        ReconcileAnnounces(box, l, ids[1..], active, ref, now, item);
      } else {
        var crossings := ReconcileCrossings(l, ids);
        var c := crossings[0];
        assert crossings[1..] == ReconcileCrossings(l, ids[1..]);
        var mid := Announce(box, c, active, ref, now);
        AnnounceEffect(box, c, active, ref, now, item);
        ReconcileAnnounces(mid, l, ids[1..], active, ref, now, item);
      }
    }
  }

  // -- Runs -----------------------------------------------------------------------------

  /** The inventory and the inbox it feeds, with the switch of the stock alert type. */
  datatype Shop = Shop(ledger: Ledger, box: Inbox.Box, active: bool)

  /** Inventory commands, the switch, and whatever readers and other modules do to the inbox. */
  datatype Happening =
    | Stock(event: Event, ref: Id)
    | Switch(on: bool)
    | ReadOne(itemId: Inbox.Id, user: string)
    | ReadEverything(user: string)
    | OtherIngest(cmd: Inbox.IngestCommand)
    | OtherExpire(key: Inbox.DedupeKey)

  predicate Expected(h: Happening) {
    match h
    case Stock(e, _) => Admissible(e.cmd)
    case OtherIngest(cmd) => !cmd.dedupeKey.StockBajo?
    case OtherExpire(key) => !key.StockBajo?
    case _ => true
  }

  function Happen(s: Shop, h: Happening): Shop {
    var now := s.ledger.clock;
    match h
    case Stock(e, ref) =>
      var before := Tick(s.ledger, e.elapsed);
      var outcome := Perform(before, e.cmd, e.actor);
      if outcome.Err? then s.(ledger := before)
      else Shop(outcome.value.ledger, AnnounceAll(s.box, outcome.value.crossings, s.active, ref, outcome.value.ledger.clock), s.active)
    case Switch(on) => s.(active := on)
    case ReadOne(itemId, user) =>
      var r := Inbox.MarkRead(s.box, itemId, user, now);
      if r.Ok? then s.(box := r.value) else s
    case ReadEverything(user) => s.(box := Inbox.MarkAllRead(s.box, user, now))
    case OtherIngest(cmd) => s.(box := Inbox.Ingest(s.box, cmd, now))
    case OtherExpire(key) => s.(box := Inbox.ExpireDedupe(s.box, key, now))
  }

  function Reached(s: Shop, hs: seq<Happening>): Shop {
    if hs == [] then s else Happen(Reached(s, hs[..|hs| - 1]), hs[|hs| - 1])
  }

  /**
   What may be relied on about one item: `announced`, no threshold edit of it waits for its
   reconciliation; `followed`, in addition no change of it happened while the type was off.
   */
  datatype Trust = Trust(announced: bool, followed: bool)

  function TrustAfter(s: Shop, h: Happening, item: Id, t: Trust): Trust {
    if !h.Stock? || Perform(Tick(s.ledger, h.event.elapsed), h.event.cmd, h.event.actor).Err? then t
    else
      match h.event.cmd
      case CmdThreshold(id, _, _) => if id == item then Trust(false, false) else t
      case CmdReconcile(ids) =>
        if item in ids && item in s.ledger.stock then Trust(true, s.active)
        else Trust(t.announced, t.followed && s.active)
      case _ => Trust(t.announced, t.followed && s.active)
  }

  function TrustAt(s: Shop, hs: seq<Happening>, item: Id, t: Trust): Trust {
    if hs == [] then t
    else
      var front := hs[..|hs| - 1];
      TrustAfter(Reached(s, front), hs[|hs| - 1], item, TrustAt(s, front, item, t))
  }

  ghost predicate Faithful(s: Shop, item: Id, t: Trust) {
    && InventoryLaws.IdLaw(s.ledger) && InventoryLaws.AllStock(s.ledger)
    && Inbox.BoxLaw(s.box, s.ledger.clock)
    && (t.announced ==> NoFalseAlarm(s.box, item, RowFor(s.ledger, item)))
    && (t.followed ==> Agrees(s.box, item, RowFor(s.ledger, item)))
  }

  lemma PerformKeepsClock(l: Ledger, cmd: Command, actor: string)
    requires Perform(l, cmd, actor).Ok?
    ensures Perform(l, cmd, actor).value.ledger.clock == l.clock
  {
    if cmd.CmdClose? && !AlreadyApplied(l, cmd.visita) {
      LinesKeepClock(l, SortLines(cmd.visita.consumos), cmd.visita);
    }
  }

  lemma {:induction false} LinesKeepClock(l: Ledger, lines: seq<ConsumoLinea>, p: VisitaCerrada)
    requires CloseLines(l, lines, p).Ok?
    ensures CloseLines(l, lines, p).value.ledger.clock == l.clock
    decreases lines
  {
    if lines != [] {
      LinesKeepClock(CloseLine(l, lines[0], p).value.ledger, lines[1..], p);
    }
  }

  lemma StockKeepsFaith(s: Shop, h: Happening, item: Id, t: Trust)
    requires Expected(h) && h.Stock? && Faithful(s, item, t)
    requires Perform(Tick(s.ledger, h.event.elapsed), h.event.cmd, h.event.actor).Ok?
    ensures Faithful(Happen(s, h), item, TrustAfter(s, h, item, t))
  {
    var e := h.event;
    var before := Tick(s.ledger, e.elapsed);
    var done := Perform(before, e.cmd, e.actor).value;
    InventoryRuns.StepKeepsAllStock(s.ledger, e);
    PerformKeepsClock(before, e.cmd, e.actor);
    Inbox.LawLater(s.box, s.ledger.clock, before.clock);
    if e.cmd.CmdReconcile? {
      ReconcileAnnounces(s.box, before, e.cmd.itemIds, s.active, h.ref, before.clock, item);
    } else if !e.cmd.CmdThreshold? {
      CommandChains(before, e.cmd, e.actor, item);
      AnnounceAllKeeps(s.box, done.crossings, s.active, h.ref, before.clock, item, RowFor(before, item), RowFor(done.ledger, item));
    }
  }

  lemma SameEntryKeepsFaith(s: Shop, box: Inbox.Box, item: Id, t: Trust)
    requires Faithful(s, item, t) && Inbox.BoxLaw(box, s.ledger.clock)
    requires Inbox.Live(box, Key(item)) == Inbox.Live(s.box, Key(item))
    ensures Faithful(s.(box := box), item, t)
  {
  }

  lemma SameItemsSameEntry(box: Inbox.Box, box': Inbox.Box, now: Time, item: Id)
    requires Inbox.BoxLaw(box, now) && box'.items == box.items && box'.nextId == box.nextId
    ensures Inbox.BoxLaw(box', now) && Inbox.Live(box', Key(item)) == Inbox.Live(box, Key(item))
  {
  }

  lemma ReadingKeepsFaith(s: Shop, h: Happening, item: Id, t: Trust)
    requires (h.ReadOne? || h.ReadEverything?) && Faithful(s, item, t)
    ensures Faithful(Happen(s, h), item, t)
  {
    if h.ReadEverything? {
      Inbox.MarkAllReadEmptiesBadge(s.box, h.user, s.ledger.clock);
    }
    SameItemsSameEntry(s.box, Happen(s, h).box, s.ledger.clock, item);
    SameEntryKeepsFaith(s, Happen(s, h).box, item, t);
  }

  lemma OthersKeepFaith(s: Shop, h: Happening, item: Id, t: Trust)
    requires Expected(h) && !h.Stock? && Faithful(s, item, t)
    ensures Faithful(Happen(s, h), item, t)
  {
    var now := s.ledger.clock;
    match h
    case ReadOne(_, _) => ReadingKeepsFaith(s, h, item, t);
    case ReadEverything(_) => ReadingKeepsFaith(s, h, item, t);
    case OtherIngest(cmd) =>
      Inbox.IngestEffect(s.box, cmd, now);
      SameEntryKeepsFaith(s, Inbox.Ingest(s.box, cmd, now), item, t);
    case OtherExpire(key) =>
      Inbox.ExpireEffect(s.box, key, now);
      SameEntryKeepsFaith(s, Inbox.ExpireDedupe(s.box, key, now), item, t);
    case Switch(_) =>
  }

  lemma HappenKeepsFaith(s: Shop, h: Happening, item: Id, t: Trust)
    requires Expected(h) && Faithful(s, item, t)
    ensures Faithful(Happen(s, h), item, TrustAfter(s, h, item, t))
  {
    if !h.Stock? {
      OthersKeepFaith(s, h, item, t);
    } else if Perform(Tick(s.ledger, h.event.elapsed), h.event.cmd, h.event.actor).Ok? {
      StockKeepsFaith(s, h, item, t);
    } else {
      InventoryRuns.TickKeepsAll(s.ledger, h.event.elapsed);
    }
  }

  ghost predicate ExpectedRun(hs: seq<Happening>) {
    forall i :: 0 <= i < |hs| ==> Expected(hs[i])
  }

  /** The inbox stays faithful to the stock over any run, as far as each item may be trusted. */
  lemma {:induction false} AlertsFollowStock(s: Shop, hs: seq<Happening>, item: Id, t: Trust)
    requires ExpectedRun(hs) && Faithful(s, item, t)
    ensures Faithful(Reached(s, hs), item, TrustAt(s, hs, item, t))
  {
    if hs != [] {
      var front := hs[..|hs| - 1];
      AlertsFollowStock(s, front, item, t);
      HappenKeepsFaith(Reached(s, front), hs[|hs| - 1], item, TrustAt(s, front, item, t));
    }
  }

  predicate EditsThreshold(h: Happening, item: Id) {
    h.Stock? && h.event.cmd.CmdThreshold? && h.event.cmd.itemId == item
  }

  /**
   With the type active throughout and no catalogue edit of the item, an entry that agrees
   with the stock at the start agrees with it, severity included, after every run.
   */
  lemma {:induction false} ActiveAlertsAgree(s: Shop, hs: seq<Happening>, item: Id)
    requires ExpectedRun(hs) && Faithful(s, item, Trust(true, true)) && s.active
    requires forall i :: 0 <= i < |hs| ==> !EditsThreshold(hs[i], item) && (hs[i].Switch? ==> hs[i].on)
    ensures Reached(s, hs).active && TrustAt(s, hs, item, Trust(true, true)) == Trust(true, true)
    ensures Agrees(Reached(s, hs).box, item, RowFor(Reached(s, hs).ledger, item))
  {
    AlertsFollowStock(s, hs, item, Trust(true, true));
    if hs != [] {
      ActiveAlertsAgree(s, hs[..|hs| - 1], item);
    }
  }

  /** Whatever happened before, reconciling an item with the type active restores agreement. */
  lemma ReconcileRestores(s: Shop, e: Event, ref: Id, item: Id, t: Trust)
    requires Faithful(s, item, t) && s.active && item in s.ledger.stock
    requires e.cmd.CmdReconcile? && item in e.cmd.itemIds
    ensures var s' := Happen(s, Stock(e, ref)); Agrees(s'.box, item, RowFor(s'.ledger, item))
  {
    HappenKeepsFaith(s, Stock(e, ref), item, t);
  }

  /** Until it is announced, an accepted threshold edit keeps agreement exactly when the row calls for the same alert as before. */
  lemma EditWaitsForReconcile(s: Shop, e: Event, ref: Id, item: Id)
    requires e.cmd.CmdThreshold? && e.cmd.itemId == item && Perform(Tick(s.ledger, e.elapsed), e.cmd, e.actor).Ok?
    requires Agrees(s.box, item, RowFor(s.ledger, item))
    ensures var s' := Happen(s, Stock(e, ref));
            Agrees(s'.box, item, RowFor(s'.ledger, item))
            <==> Wanted(StockRow(RowFor(s.ledger, item).qty, e.cmd.minQty,
                                 NextCritical(e.cmd.criticalQty, e.cmd.minQty, RowFor(s.ledger, item).criticalQty)))
                 == Wanted(RowFor(s.ledger, item))
  {
  }

  const BARE := Shop(Ledger(0, 0, map[], map[], map[], map[], [], [], []), Inbox.Box([], map[], 0), true)
  const ADDS := Stock(Event(0, "ana", CmdCreateItem(ItemDraft("F", "F", Some(true), None), None)), 0)
  const EDITS := Stock(Event(0, "ana", CmdThreshold(0, Some(0), None)), 0)

  lemma Adds()
    ensures var s := Happen(BARE, ADDS);
            s.active && s.box == BARE.box && s.ledger.clock == 0 && s.ledger.stock == map[0 := StockRow(0, None, 0)]
  {
    assert !IsSpace("F"[0]);
    assert Trim("F") == "F";
    assert !SkuInUse(BARE.ledger, "F", None);
  }

  lemma BareIsFaithful()
    ensures Faithful(BARE, 0, Trust(true, true))
  {
    forall item: Id
      ensures InventoryLaws.StockLaw(BARE.ledger, item)
    {
    }
  }

  /** From an empty shop: an item is added and given a minimum, and its shortage has no entry until it is reconciled. */
  lemma EditedRowMayDisagree()
    ensures Expected(ADDS) && Expected(EDITS)
    ensures Faithful(BARE, 0, Trust(true, true))
    ensures var s := Reached(BARE, [ADDS, EDITS]);
            Low(RowFor(s.ledger, 0).qty, RowFor(s.ledger, 0).minQty) && Inbox.Live(s.box, Key(0)).None?
            && !Agrees(s.box, 0, RowFor(s.ledger, 0))
  {
    Adds();
    BareIsFaithful();
    assert [ADDS][..0] == [] && [ADDS, EDITS][..1] == [ADDS];
    assert Reached(BARE, []) == BARE;
    assert Reached(BARE, [ADDS]) == Happen(BARE, ADDS);
  }

  // -- The publisher --------------------------------------------------------------------

  class StockAlertPublisher {
    const inbox: Inbox.InboxEngine
    var active: bool

    constructor (inbox: Inbox.InboxEngine)
      ensures this.inbox == inbox && active
    {
      this.inbox, active := inbox, true;
    }

    /** Announce one crossing; the event is returned even when the type is switched off. */
    method Publish(c: Crossing, ref: Id, now: Time) returns (event: Option<ThresholdEvent>)
      modifies inbox
      ensures event == CrossingEvent(c)
      ensures inbox.Contents() == Announce(old(inbox.Contents()), c, active, ref, now)
    {
      event := CrossingEvent(c);
      if event == Some(StockBajo) {
        if active {
          var _ := inbox.Receive(LowCommand(c, ref, now), now);
        }
      } else if event == Some(StockReabastecido) {
        var _ := inbox.Expire(Key(c.itemId), now);
      }
    }

    method PublishAll(crossings: seq<Crossing>, ref: Id, now: Time)
      modifies inbox
      ensures inbox.Contents() == AnnounceAll(old(inbox.Contents()), crossings, active, ref, now)
    {
      var i := 0;
      while i < |crossings|
        invariant 0 <= i <= |crossings|
        invariant AnnounceAll(old(inbox.Contents()), crossings, active, ref, now)
               == AnnounceAll(inbox.Contents(), crossings[i..], active, ref, now)
      {
        var _ := Publish(crossings[i], ref, now);
        i := i + 1;
      }
    }

    /** Announce the listed rows afresh, after their thresholds were stored. */
    method Reconcile(l: Ledger, itemIds: seq<Id>, ref: Id, now: Time)
      modifies inbox
      ensures inbox.Contents() == AnnounceAll(old(inbox.Contents()), ReconcileCrossings(l, itemIds), active, ref, now)
    {
      var i := 0;
      while i < |itemIds|
        invariant 0 <= i <= |itemIds|
        invariant AnnounceAll(old(inbox.Contents()), ReconcileCrossings(l, itemIds), active, ref, now)
               == AnnounceAll(inbox.Contents(), ReconcileCrossings(l, itemIds[i..]), active, ref, now)
      {
        var id := itemIds[i];
        ReconcileOne(l, itemIds[i..]);
        assert itemIds[i..][1..] == itemIds[i + 1..];
        if id in l.stock {
          var row := l.stock[id];
          var under := Low(row.qty, row.minQty);
          var _ := Publish(Crossing(id, row.qty, row.qty, if under then None else Some(row.qty), row.minQty, row.criticalQty, row.criticalQty), ref, now);
        }
        i := i + 1;
      }
    }
  }

  lemma ReconcileOne(l: Ledger, ids: seq<Id>)
    requires ids != []
    ensures ids[0] !in l.stock ==> ReconcileCrossings(l, ids) == ReconcileCrossings(l, ids[1..])
    ensures ids[0] in l.stock ==>
              |ReconcileCrossings(l, ids)| > 0 && ReconcileCrossings(l, ids)[1..] == ReconcileCrossings(l, ids[1..])
              && var row := l.stock[ids[0]];
                 ReconcileCrossings(l, ids)[0] == Crossing(ids[0], row.qty, row.qty, if Low(row.qty, row.minQty) then None else Some(row.qty),
                                                           row.minQty, row.criticalQty, row.criticalQty)
  {
  }
}
