/**
 What every run of the inventory keeps: stock is the sum of its movements, the stored
 value is its last reset plus the records since, up to corrections that went unnoticed, and
 rounding never drifts.
 */
module InventoryLaws {
  import opened Wrappers
  import opened CostRules
  import opened Inventory

  // -- Reading the records --------------------------------------------------------------

  function SumDeltas(movements: seq<Movimiento>, item: Id): int {
    if movements == [] then 0
    else
      var last := movements[|movements| - 1];
      SumDeltas(movements[..|movements| - 1], item) + if last.itemId == item then last.delta else 0
  }

  /** Whether the operation takes part in the valuation of an item's stock. */
  predicate Moves(op: CostOperation, item: Id) {
    op.itemId == item && op.kind in {Receipt, Returned, Consumption, Adjustment}
  }

  /** Signed contribution of an operation to the value of the item. */
  function Signed(op: CostOperation, item: Id): int {
    if !Moves(op, item) || op.netCents.None? then 0
    else if op.kind == Receipt || op.kind == Returned then op.netCents.value
    else -op.netCents.value
  }

  function NetsSince(ops: seq<CostOperation>, item: Id, since: nat): int {
    if |ops| <= since then 0
    else NetsSince(ops[..|ops| - 1], item, since) + Signed(ops[|ops| - 1], item)
  }

  function MovesSince(ops: seq<CostOperation>, item: Id, since: nat): nat {
    if |ops| <= since then 0
    else MovesSince(ops[..|ops| - 1], item, since) + if Moves(ops[|ops| - 1], item) then 1 else 0
  }

  predicate KnownSince(ops: seq<CostOperation>, item: Id, since: nat) {
    forall i :: since <= i < |ops| && Moves(ops[i], item) ==> ops[i].netCents.Some?
  }

  function Value(l: Ledger, item: Id): Option<int> {
    Current(l, item).valueCents
  }

  // -- The laws -------------------------------------------------------------------------

  /** Stock is never negative and is the sum of all its movements; stored rows agree with it. */
  ghost predicate StockLaw(l: Ledger, item: Id) {
    && 0 <= Qty(l, item) == SumDeltas(l.movimientos, item) <= INT_MAX
    && (item in l.valuation ==>
          item in l.stock && l.valuation[item].quantityAtCost == Qty(l, item) && l.valuation[item].version >= 1)
    && (Qty(l, item) == 0 ==> Value(l, item) == Some(0))
    && (Value(l, item).Some? ==> Value(l, item).value >= 0)
    && (Current(l, item).cutAt.Some? ==> Current(l, item).cutAt.value <= l.clock)
  }

  /** Identifiers are drawn in increasing order, so they name at most one operation. */
  ghost predicate IdLaw(l: Ledger) {
    && (forall i, j :: 0 <= i < j < |l.operations| ==> l.operations[i].id < l.operations[j].id)
    && (forall i :: 0 <= i < |l.operations| ==> l.operations[i].id < l.nextId)
    && (forall item :: item in l.items ==> item < l.nextId)
    && (forall item :: item in l.stock || item in l.valuation ==> item < l.nextId)
    && (forall i :: 0 <= i < |l.movimientos| ==> l.movimientos[i].itemId < l.nextId)
    && (forall i :: 0 <= i < |l.operations| ==> l.operations[i].itemId < l.nextId)
  }

  /**
   Observer of one item: last reset of its value, what later corrections changed in the records
   behind the value's back, and last point from which only outflows followed.
   */
  datatype Audit = Audit(base: int, gap: int, since: nat, v0: int, q0: int, from: nat)

  /** A known value is the last reset plus the signed nets recorded after it, up to the missed corrections. */
  ghost predicate Explained(l: Ledger, item: Id, a: Audit) {
    a.since <= |l.operations|
    && (Value(l, item).Some? ==>
          Value(l, item).value == a.base + a.gap + NetsSince(l.operations, item, a.since)
          && KnownSince(l.operations, item, a.since))
  }

  /** A known value is the last reset plus the signed nets recorded after it. */
  ghost predicate Conserved(l: Ledger, item: Id, a: Audit) {
    a.since <= |l.operations|
    && (Value(l, item).Some? ==>
          Value(l, item).value == a.base + NetsSince(l.operations, item, a.since)
          && KnownSince(l.operations, item, a.since))
  }

  /** After k outflows the value is within k/2 centavos of its exact proportional share. */
  ghost predicate Undrifted(l: Ledger, item: Id, a: Audit) {
    a.from <= |l.operations| && a.q0 >= 0
    && (Value(l, item).Some? ==>
          WithinDrift(a.v0, a.q0, Value(l, item).value, Qty(l, item), MovesSince(l.operations, item, a.from)))
  }

  /** Everything recorded since the reset took effect at or after the item's cut. */
  ghost predicate Timely(l: Ledger, item: Id, a: Audit) {
    forall i :: a.since <= i < |l.operations| && l.operations[i].itemId == item
                && (l.operations[i].kind == Receipt || l.operations[i].kind == Consumption) ==>
      Current(l, item).cutAt.Some? ==> l.operations[i].effectiveAt >= Current(l, item).cutAt.value
  }

  predicate IsOutflow(cmd: Command) {
    || cmd.CmdClose?
    || ((cmd.CmdAdjust? || cmd.CmdAjuste?) && cmd.delta < 0)
  }

  /** A correction the current value does not learn about: posted since the reset, but dated before the item's cut. */
  predicate Unnoticed(l: Ledger, k: nat, net: int, item: Id, a: Audit)
    requires k < |l.operations|
  {
    && k >= a.since && Qty(l, item) > 0 && Value(l, item).Some?
    && Moves(l.operations[k], item) && !ReopensValuation(l, l.operations[k])
    && l.operations[k].netCents != Some(net)
  }

  /** The command corrects a cost behind the value's back. */
  predicate BlindRevision(l: Ledger, cmd: Command, item: Id, a: Audit) {
    cmd.CmdRevise?
    && var found, priced := FindOperation(l.operations, cmd.revision.id), CalculateCost(cmd.revision.cost);
       found.Some? && priced.Ok? && priced.value.Some? && Unnoticed(l, found.value, priced.value.value.netCents, item, a)
  }

  /** By how much the records then move away from the value. */
  function Missed(l: Ledger, cmd: Command, item: Id, a: Audit): int {
    if BlindRevision(l, cmd, item, a) then
      var op := l.operations[FindOperation(l.operations, cmd.revision.id).value];
      Signed(op, item) - Signed(op.(netCents := Some(CalculateCost(cmd.revision.cost).value.value.netCents as int)), item)
    else 0
  }

  /** How the observer moves when a command is served. */
  function NextAudit(l: Ledger, cmd: Command, l': Ledger, item: Id, a: Audit): Audit {
    var n := |l'.operations|;
    var untouched := Value(l', item) == Value(l, item) && Qty(l', item) == Qty(l, item) && !(cmd.CmdOpen? && cmd.itemId == item);
    var a1 := if cmd.CmdOpen? && cmd.itemId == item && Value(l', item).Some? then a.(base := Value(l', item).value, gap := 0, since := n)
              else if Qty(l', item) == 0 then a.(base := 0, gap := 0, since := n)
              else if Value(l', item).None? then a.(gap := 0)
              else a.(gap := a.gap + Missed(l, cmd, item, a));
    if IsOutflow(cmd) || untouched then a1
    else Anchored(l', item, a1)
  }

  // -- Appending and replacing records --------------------------------------------------

  lemma AppendMovement(movements: seq<Movimiento>, m: Movimiento, item: Id)
    ensures SumDeltas(movements + [m], item) == SumDeltas(movements, item) + if m.itemId == item then m.delta else 0
  {
    assert (movements + [m])[..|movements|] == movements;
  }

  lemma AppendOperation(ops: seq<CostOperation>, op: CostOperation, item: Id, since: nat)
    requires since <= |ops|
    ensures NetsSince(ops + [op], item, since) == NetsSince(ops, item, since) + Signed(op, item)
    ensures MovesSince(ops + [op], item, since) == MovesSince(ops, item, since) + if Moves(op, item) then 1 else 0
    ensures KnownSince(ops + [op], item, since) <==> KnownSince(ops, item, since) && (Moves(op, item) ==> op.netCents.Some?)
  {
    assert (ops + [op])[..|ops|] == ops;
    forall i | since <= i < |ops|
      ensures (ops + [op])[i] == ops[i]
    {
    }
    assert (ops + [op])[|ops|] == op;
  }

  lemma {:induction false} ReplaceOperation(ops: seq<CostOperation>, k: nat, op: CostOperation, item: Id, since: nat)
    requires k < |ops| && op.itemId == ops[k].itemId && op.kind == ops[k].kind
    ensures NetsSince(ops[k := op], item, since)
         == NetsSince(ops, item, since) + if since <= k then Signed(op, item) - Signed(ops[k], item) else 0
    ensures MovesSince(ops[k := op], item, since) == MovesSince(ops, item, since)
  {
    if |ops| > since {
      var n := |ops| - 1;
      if k == n {
        assert ops[k := op][..n] == ops[..n];
      } else {
        assert ops[k := op][..n] == ops[..n][k := op];
        ReplaceOperation(ops[..n], k, op, item, since);
      }
    }
  }

  lemma {:induction false} NoMovements(movements: seq<Movimiento>, item: Id)
    requires forall i :: 0 <= i < |movements| ==> movements[i].itemId != item
    ensures SumDeltas(movements, item) == 0
  {
    if movements != [] {
      NoMovements(movements[..|movements| - 1], item);
    }
  }

  // -- What one posting does, and what it keeps -----------------------------------------

  /** One movement of `delta` pieces of an item, recorded as `op`, after which its value is `value`. */
  ghost predicate Posting(l: Ledger, l': Ledger, itemId: Id, delta: int, op: CostOperation, value: Option<int>) {
    && l'.clock == l.clock
    && itemId in l'.stock && l'.stock == l.stock[itemId := l'.stock[itemId]]
    && 0 <= Qty(l', itemId) == Qty(l, itemId) + delta <= INT_MAX
    && itemId in l'.valuation && l'.valuation == l.valuation[itemId := l'.valuation[itemId]]
    && l'.valuation[itemId] == Valuation(value, Current(l, itemId).version + 1, Qty(l', itemId), Current(l, itemId).cutAt)
    && op.itemId == itemId && l'.operations == l.operations + [op]
    && |l'.movimientos| == |l.movimientos| + 1
    && l'.movimientos == l.movimientos + [l'.movimientos[|l.movimientos|]]
    && l'.movimientos[|l.movimientos|].itemId == itemId
    && l'.movimientos[|l.movimientos|].delta == delta
  }

  /** The value after a posting is zero with no stock, unknown, or moved by the posting's own net. */
  ghost predicate ValueRule(l: Ledger, l': Ledger, itemId: Id, op: CostOperation, value: Option<int>) {
    && (Qty(l', itemId) == 0 ==> value == Some(0))
    && (value.Some? && Qty(l', itemId) > 0 ==>
          Value(l, itemId).Some? && Moves(op, itemId) && op.netCents.Some?
          && value.value == Value(l, itemId).value + Signed(op, itemId) >= 0)
  }

  lemma PostingSparesOthers(l: Ledger, l': Ledger, itemId: Id, delta: int, op: CostOperation, value: Option<int>, item: Id, a: Audit)
    requires Posting(l, l', itemId, delta, op, value) && item != itemId
    requires StockLaw(l, item) && a.since <= |l.operations|
    ensures StockLaw(l', item) && Current(l', item) == Current(l, item) && Qty(l', item) == Qty(l, item)
    ensures Explained(l, item, a) ==> Explained(l', item, a)
    ensures Undrifted(l, item, a) ==> Undrifted(l', item, a)
    ensures Timely(l, item, a) ==> Timely(l', item, a)
  {
    AppendMovement(l.movimientos, l'.movimientos[|l.movimientos|], item);
    AppendOperation(l.operations, op, item, a.since);
    if a.from <= |l.operations| {
      AppendOperation(l.operations, op, item, a.from);
    }
  }

  lemma PostingKeepsStock(l: Ledger, l': Ledger, itemId: Id, delta: int, op: CostOperation, value: Option<int>)
    requires Posting(l, l', itemId, delta, op, value) && ValueRule(l, l', itemId, op, value)
    requires StockLaw(l, itemId)
    ensures StockLaw(l', itemId) && Value(l', itemId) == value && Current(l', itemId).cutAt == Current(l, itemId).cutAt
  {
    AppendMovement(l.movimientos, l'.movimientos[|l.movimientos|], itemId);
  }

  lemma PostingKeepsExplained(l: Ledger, l': Ledger, itemId: Id, delta: int, op: CostOperation, value: Option<int>, a: Audit)
    requires Posting(l, l', itemId, delta, op, value) && ValueRule(l, l', itemId, op, value)
    requires StockLaw(l, itemId) && a.since <= |l.operations|
    requires Qty(l, itemId) > 0 || delta > 0 ==> Explained(l, itemId, a)
    ensures Qty(l', itemId) > 0 ==> Explained(l', itemId, a)
  {
    PostingKeepsStock(l, l', itemId, delta, op, value);
    AppendOperation(l.operations, op, itemId, a.since);
  }

  /** An outflow whose cost is the rounded share keeps the drift within half a centavo per outflow. */
  lemma OutflowKeepsDrift(l: Ledger, l': Ledger, itemId: Id, out: int, op: CostOperation, value: Option<int>, a: Audit)
    requires Posting(l, l', itemId, -out, op, value) && ValueRule(l, l', itemId, op, value)
    requires StockLaw(l, itemId) && Undrifted(l, itemId, a) && out > 0 && Moves(op, itemId)
    requires Value(l, itemId).Some? ==>
               op.netCents.Some? && op.netCents.value >= 0 && value == Some(Value(l, itemId).value - op.netCents.value)
               && IsHalfUp(Value(l, itemId).value * out, Qty(l, itemId), op.netCents.value)
    requires Value(l, itemId).None? && value.Some? ==> Qty(l', itemId) == 0
    ensures Undrifted(l', itemId, a)
  {
    PostingKeepsStock(l, l', itemId, -out, op, value);
    AppendOperation(l.operations, op, itemId, a.from);
    if Value(l, itemId).Some? {
      OneMoreOutflow(a.v0, a.q0, Value(l, itemId).value, Qty(l, itemId), out, op.netCents.value, MovesSince(l.operations, itemId, a.from));
    } else {
      NothingDrifts(a.v0, a.q0, MovesSince(l'.operations, itemId, a.from));
    }
  }

  lemma NothingDrifts(v0: int, q0: nat, k: nat)
    ensures WithinDrift(v0, q0, 0, 0, k)
  {
    assert 0 <= k * q0;
  }

  /** Anchored at its own value, an item has not drifted. */
  lemma FreshAnchor(l: Ledger, item: Id, a: Audit)
    requires Qty(l, item) >= 0 && a.q0 == Qty(l, item) && a.from == |l.operations|
    requires Value(l, item).Some? ==> a.v0 == Value(l, item).value
    ensures Undrifted(l, item, a)
  {
    assert MovesSince(l.operations, item, |l.operations|) == 0;
  }

  function Anchored(l: Ledger, item: Id, a: Audit): Audit {
    a.(v0 := if Value(l, item).Some? then Value(l, item).value else 0, q0 := Qty(l, item), from := |l.operations|)
  }

  /** The share taken by an outflow: never more than the value, and all of it with the last piece. */
  lemma OutflowShare(value: nat, out: nat, before: nat)
    requires 0 < out <= before <= INT_MAX
    ensures AllocatedCost(value, out, before).Ok?
    ensures var share := AllocatedCost(value, out, before).value;
            IsHalfUp(value * out, before, share) && share <= value && (out == before ==> share == value)
  {
    ShareAtMostWhole(value, out, before);
    ShareOfAll(value, before);
  }

  // -- Movements: adjustments, entries, lines of a visit --------------------------------

  predicate RowOf(l: Ledger, itemId: Id, row: StockRow) {
    if itemId in l.stock then row == l.stock[itemId] else row.qty == 0
  }

  function LastOperation(l: Ledger): CostOperation
    requires |l.operations| > 0
  {
    l.operations[|l.operations| - 1]
  }

  lemma MoveKeepsIds(l: Ledger, itemId: Id, row: StockRow, delta: int, cause: Cause)
    requires IdLaw(l) && itemId < l.nextId && MoveStock(l, itemId, row, delta, cause).Ok?
    ensures IdLaw(MoveStock(l, itemId, row, delta, cause).value.ledger)
  {
  }

  lemma MoveIsPosting(l: Ledger, itemId: Id, row: StockRow, delta: int, cause: Cause)
    requires RowOf(l, itemId, row) && StockLaw(l, itemId) && delta != 0
    requires MoveStock(l, itemId, row, delta, cause).Ok?
    requires cause.kind == Adjustment || (cause.kind == Receipt && delta > 0)
    ensures var l' := MoveStock(l, itemId, row, delta, cause).value.ledger;
            && |l'.operations| > 0
            && Posting(l, l', itemId, delta, LastOperation(l'), Value(l', itemId))
            && Moves(LastOperation(l'), itemId)
            && (delta < 0 ==> LastOperation(l').kind != Receipt)
            && LastOperation(l').effectiveAt == (if cause.at.Some? then cause.at.value else l.clock)
            && CostOfMove(Value(l, itemId), Qty(l, itemId), delta, LastOperation(l').netCents, Value(l', itemId))
  {
  }

  /** Cost and remaining value of a movement, given the value and quantity it started from. */
  ghost predicate CostOfMove(v: Option<int>, q: int, delta: int, net: Option<int>, v': Option<int>) {
    if delta < 0 && v.Some? then
      var share := AllocatedCost(v.value, -delta, q);
      share.Ok? && net == Some(share.value as int) && v' == Some(if q + delta == 0 then 0 else v.value - share.value)
    else
      v' == (if q + delta == 0 then Some(0) else None)
  }

  lemma MoveKeepsLaws(l: Ledger, itemId: Id, row: StockRow, delta: int, cause: Cause, item: Id, a: Audit)
    requires RowOf(l, itemId, row) && StockLaw(l, itemId) && delta != 0
    requires MoveStock(l, itemId, row, delta, cause).Ok?
    requires cause.kind == Adjustment || (cause.kind == Receipt && delta > 0)
    requires StockLaw(l, item) && Undrifted(l, item, a) && a.since <= |l.operations|
    requires Qty(l, item) > 0 ==> Explained(l, item, a)
    ensures var l' := MoveStock(l, itemId, row, delta, cause).value.ledger;
            StockLaw(l', item) && Undrifted(l', item, a) && a.since <= |l'.operations|
            && (Qty(l', item) > 0 ==> Explained(l', item, a))
  {
    var l' := MoveStock(l, itemId, row, delta, cause).value.ledger;
    MoveIsPosting(l, itemId, row, delta, cause);
    var op, value := LastOperation(l'), Value(l', itemId);
    if item != itemId {
      PostingSparesOthers(l, l', itemId, delta, op, value, item, a);
    } else if delta < 0 {
      OutflowKeepsLaws(l, l', itemId, -delta, op, value, a);
    } else {
      PostingKeepsStock(l, l', itemId, delta, op, value);
    }
  }

  lemma OutflowKeepsLaws(l: Ledger, l': Ledger, itemId: Id, out: int, op: CostOperation, value: Option<int>, a: Audit)
    requires Posting(l, l', itemId, -out, op, value) && Moves(op, itemId) && op.kind in {Consumption, Adjustment}
    requires out > 0 && CostOfMove(Value(l, itemId), Qty(l, itemId), -out, op.netCents, value)
    requires StockLaw(l, itemId) && Undrifted(l, itemId, a) && a.since <= |l.operations|
    requires Qty(l, itemId) > 0 ==> Explained(l, itemId, a)
    requires Qty(l, itemId) <= INT_MAX
    ensures StockLaw(l', itemId) && Undrifted(l', itemId, a)
    ensures Qty(l', itemId) > 0 ==> Explained(l', itemId, a)
  {
    if Value(l, itemId).Some? {
      OutflowShare(Value(l, itemId).value, out, Qty(l, itemId));
    }
    PostingKeepsStock(l, l', itemId, -out, op, value);
    PostingKeepsExplained(l, l', itemId, -out, op, value, a);
    OutflowKeepsDrift(l, l', itemId, out, op, value, a);
  }

  // -- Receipts and returns -------------------------------------------------------------

  /** Value after an inflow: known only when both sides were. */
  function Inflow(v: Option<int>, net: Option<int>): Option<int> {
    if v.Some? && net.Some? then Some(v.value + net.value) else None
  }

  /** The three laws of an item, under its observer. */
  ghost predicate Audited(l: Ledger, item: Id, a: Audit) {
    StockLaw(l, item) && Explained(l, item, a) && Undrifted(l, item, a)
  }

  /** The observer after a command other than an opening or a revision. */
  lemma PlainAudit(l: Ledger, cmd: Command, l': Ledger, item: Id, a: Audit)
    requires !cmd.CmdOpen? && !cmd.CmdRevise?
    requires StockLaw(l', item) && a.since <= |l'.operations| && (Qty(l', item) > 0 ==> Explained(l', item, a))
    requires IsOutflow(cmd) || (Value(l', item) == Value(l, item) && Qty(l', item) == Qty(l, item)) ==> Undrifted(l', item, a)
    ensures Audited(l', item, NextAudit(l, cmd, l', item, a))
    ensures Timely(l', item, a) || Qty(l', item) == 0 ==> Timely(l', item, NextAudit(l, cmd, l', item, a))
  {
    FreshAnchor(l', item, Anchored(l', item, a));
  }

  lemma InflowKeepsLaws(l: Ledger, l': Ledger, itemId: Id, qty: int, op: CostOperation, cmd: Command, item: Id, a: Audit)
    requires qty > 0 && op.kind in {Receipt, Returned} && (op.netCents.Some? ==> op.netCents.value >= 0)
    requires Posting(l, l', itemId, qty, op, Inflow(Value(l, itemId), op.netCents))
    requires StockLaw(l, itemId) && StockLaw(l, item) && Undrifted(l, item, a) && Explained(l, item, a)
    requires !cmd.CmdOpen? && !cmd.CmdRevise? && !IsOutflow(cmd) && op.effectiveAt == l.clock
    ensures Audited(l', item, NextAudit(l, cmd, l', item, a))
    ensures Timely(l, item, a) ==> Timely(l', item, NextAudit(l, cmd, l', item, a))
  {
    var value := Inflow(Value(l, itemId), op.netCents);
    PostingKeepsStock(l, l', itemId, qty, op, value);
    if item == itemId {
      PostingKeepsExplained(l, l', itemId, qty, op, value, a);
      if Timely(l, item, a) {
        PostingKeepsTimely(l, l', itemId, qty, op, value, a);
      }
    } else {
      PostingSparesOthers(l, l', itemId, qty, op, value, item, a);
    }
    PlainAudit(l, cmd, l', item, a);
  }

  lemma ReceiveKeeps(l: Ledger, input: ReceiptInput, actor: string, item: Id, a: Audit)
    requires input.qty >= 1 && Receive(l, input, actor).Ok?
    requires IdLaw(l) && StockLaw(l, input.itemId) && Audited(l, item, a)
    ensures var l' := Receive(l, input, actor).value.ledger;
            Served(l, CmdReceive(input), l', item, a)
  {
    var l' := Receive(l, input, actor).value.ledger;
    InflowKeepsLaws(l, l', input.itemId, input.qty, LastOperation(l'), CmdReceive(input), item, a);
  }

  lemma TakeBackPosts(l: Ledger, input: ReturnInput, actor: string)
    requires input.qty >= 1 && TakeBack(l, input, actor).Ok? && IdLaw(l)
    requires forall i :: 0 <= i < |l.operations| ==> StockLaw(l, l.operations[i].itemId)
    ensures var l' := TakeBack(l, input, actor).value.ledger;
            && IdLaw(l') && |l'.operations| == |l.operations| + 1
            && var op := LastOperation(l');
               op.kind == Returned && op.effectiveAt == l.clock && (op.netCents.Some? ==> op.netCents.value >= 0)
               && Posting(l, l', op.itemId, input.qty, op, Inflow(Value(l, op.itemId), op.netCents))
               && (exists i :: 0 <= i < |l.operations| && l.operations[i].itemId == op.itemId)
  {
    var k := FindOperation(l.operations, input.id).value;
    assert l.operations[k].itemId == LastOperation(TakeBack(l, input, actor).value.ledger).itemId;
  }

  lemma TakeBackKeeps(l: Ledger, input: ReturnInput, actor: string, item: Id, a: Audit)
    requires input.qty >= 1 && TakeBack(l, input, actor).Ok?
    requires IdLaw(l) && Audited(l, item, a)
    requires forall i :: 0 <= i < |l.operations| ==> StockLaw(l, l.operations[i].itemId)
    ensures var l' := TakeBack(l, input, actor).value.ledger;
            Served(l, CmdReturn(input), l', item, a)
  {
    var l' := TakeBack(l, input, actor).value.ledger;
    TakeBackPosts(l, input, actor);
    InflowKeepsLaws(l, l', LastOperation(l').itemId, input.qty, LastOperation(l'), CmdReturn(input), item, a);
  }

  // -- Openings and revisions -----------------------------------------------------------

  /** What an opening changes. */
  ghost predicate OpenedAt(l: Ledger, l': Ledger, itemId: Id, value: nat) {
    && l'.movimientos == l.movimientos && l'.stock == l.stock && l'.clock == l.clock && l'.items == l.items
    && itemId in l.stock
    && l'.valuation == l.valuation[itemId := Valuation(Some(value), Current(l, itemId).version + 1, Qty(l, itemId), Some(l.clock))]
    && |l'.operations| == |l.operations| + 1 && l'.operations == l.operations + [LastOperation(l')]
    && LastOperation(l').itemId == itemId && LastOperation(l').kind == Opening
    && (Qty(l, itemId) == 0 ==> value == 0)
  }

  lemma OpenEffect(l: Ledger, itemId: Id, input: OpeningInput, actor: string)
    requires IdLaw(l) && Open(l, itemId, input, actor).Ok?
    ensures Cents(input.valueCents).Some?
    ensures var l' := Open(l, itemId, input, actor).value.ledger;
            IdLaw(l') && OpenedAt(l, l', itemId, Cents(input.valueCents).value)
  {
  }

  lemma OpenKeeps(l: Ledger, l': Ledger, itemId: Id, value: nat, item: Id, a: Audit)
    requires OpenedAt(l, l', itemId, value) && Audited(l, item, a)
    ensures item == itemId ==> Value(l', item) == Some(value as int)
    ensures Audited(l', item, if item == itemId then Anchored(l', item, a).(base := value, gap := 0, since := |l'.operations|) else a)
  {
    if item == itemId {
      FreshAnchor(l', item, Anchored(l', item, a).(base := value, gap := 0, since := |l'.operations|));
    } else {
      AppendOperation(l.operations, LastOperation(l'), item, a.since);
      AppendOperation(l.operations, LastOperation(l'), item, a.from);
    }
  }

  /** What revising operation k to a net cost changes. */
  ghost predicate RevisedAt(l: Ledger, l': Ledger, k: nat, net: int) {
    && k < |l.operations| == |l'.operations|
    && l'.operations == l.operations[k := l'.operations[k]]
    && l'.operations[k].itemId == l.operations[k].itemId && l'.operations[k].kind == l.operations[k].kind
    && l'.operations[k].id == l.operations[k].id && l'.operations[k].qty == l.operations[k].qty
    && l'.operations[k].sourceId == l.operations[k].sourceId
    && l'.operations[k].effectiveAt == l.operations[k].effectiveAt
    && l'.operations[k].netCents == Some(net)
    && l'.movimientos == l.movimientos && l'.stock == l.stock && l'.clock == l.clock
    && l'.nextId == l.nextId && l'.items == l.items
    && l.operations[k].kind in {Receipt, Consumption, External} && l.operations[k].itemId in l.stock
    && l'.valuation == (if ReopensValuation(l, l.operations[k])
                        then l.valuation[l.operations[k].itemId := Reopened(l, l.operations[k].itemId)] else l.valuation)
  }

  lemma RevisionEffect(l: Ledger, input: RevisionInput, actor: string)
    requires Revise(l, input, actor).Ok?
    ensures FindOperation(l.operations, input.id).Some?
    ensures CalculateCost(input.cost).Ok? && CalculateCost(input.cost).value.Some?
    ensures RevisedAt(l, Revise(l, input, actor).value.ledger,
                      FindOperation(l.operations, input.id).value, CalculateCost(input.cost).value.value.netCents)
  {
  }

  /** The records move by the correction; the value moves with them only when it is noticed. */
  lemma RevisionExplains(l: Ledger, l': Ledger, k: nat, net: int, item: Id, a: Audit)
    requires StockLaw(l, item) && Explained(l, item, a) && RevisedAt(l, l', k, net)
    ensures StockLaw(l', item)
    ensures var missed := if Unnoticed(l, k, net, item, a)
                          then Signed(l.operations[k], item) - Signed(l.operations[k].(netCents := Some(net)), item) else 0;
            var a' := if Qty(l', item) == 0 then a.(base := 0, gap := 0, since := |l'.operations|)
                      else if Value(l', item).None? then a.(gap := 0)
                      else a.(gap := a.gap + missed);
            Explained(l', item, a')
    ensures Unnoticed(l, k, net, item, a) ==> Qty(l', item) > 0 && Value(l', item).Some?
  {
    var op := l'.operations[k];
    ReplaceOperation(l.operations, k, op, item, a.since);
    if KnownSince(l.operations, item, a.since) {
      forall i | a.since <= i < |l.operations| && Moves(l'.operations[i], item)
        ensures l'.operations[i].netCents.Some?
      {
        assert i != k ==> l'.operations[i] == l.operations[i];
      }
    }
  }

  /** A missed correction is never of nothing. */
  lemma MissedIsSomething(l: Ledger, cmd: Command, item: Id, a: Audit)
    requires Explained(l, item, a)
    ensures Missed(l, cmd, item, a) != 0 <==> BlindRevision(l, cmd, item, a)
  {
  }

  lemma RevisionKeepsDrift(l: Ledger, l': Ledger, k: nat, net: int, item: Id, a: Audit)
    requires Undrifted(l, item, a) && RevisedAt(l, l', k, net)
    requires Value(l', item) == Value(l, item)
    ensures Undrifted(l', item, a)
  {
    ReplaceOperation(l.operations, k, l'.operations[k], item, a.from);
  }

  /** A revision keeps the value explained by the records, the missed correction set apart. */
  lemma ReviseKeeps(l: Ledger, input: RevisionInput, actor: string, item: Id, a: Audit)
    requires Revise(l, input, actor).Ok?
    requires IdLaw(l) && Audited(l, item, a)
    ensures var l' := Revise(l, input, actor).value.ledger;
            IdLaw(l') && Audited(l', item, NextAudit(l, CmdRevise(input), l', item, a))
    ensures BlindRevision(l, CmdRevise(input), item, a) ==>
              var l' := Revise(l, input, actor).value.ledger; Qty(l', item) > 0 && Value(l', item).Some?
  {
    var l' := Revise(l, input, actor).value.ledger;
    RevisionEffect(l, input, actor);
    var k, net := FindOperation(l.operations, input.id).value, CalculateCost(input.cost).value.value.netCents;
    RevisionExplains(l, l', k, net, item, a);
    FreshAnchor(l', item, Anchored(l', item, a));
    if Value(l', item) == Value(l, item) {
      RevisionKeepsDrift(l, l', k, net, item, a);
    }
  }

  // -- Closed visits --------------------------------------------------------------------

  ghost predicate AllStock(l: Ledger) {
    forall item: Id :: StockLaw(l, item)
  }

  /** Posted no earlier than the item's cut. */
  predicate OnTime(l: Ledger, item: Id, at: Time) {
    Current(l, item).cutAt.Some? ==> at >= Current(l, item).cutAt.value
  }

  lemma PostingKeepsTimely(l: Ledger, l': Ledger, itemId: Id, delta: int, op: CostOperation, value: Option<int>, a: Audit)
    requires Posting(l, l', itemId, delta, op, value) && a.since <= |l.operations| && Timely(l, itemId, a)
    requires op.kind == Receipt || op.kind == Consumption ==> OnTime(l, itemId, op.effectiveAt)
    ensures Timely(l', itemId, a) && Current(l', itemId).cutAt == Current(l, itemId).cutAt
  {
  }

  lemma MoveKeepsTimely(l: Ledger, itemId: Id, row: StockRow, delta: int, cause: Cause, item: Id, a: Audit)
    requires RowOf(l, itemId, row) && StockLaw(l, itemId) && StockLaw(l, item) && delta != 0
    requires MoveStock(l, itemId, row, delta, cause).Ok?
    requires cause.kind == Adjustment || (cause.kind == Receipt && delta > 0)
    requires a.since <= |l.operations|
    ensures var l' := MoveStock(l, itemId, row, delta, cause).value.ledger;
            && Current(l', item).cutAt == Current(l, item).cutAt
            && (Timely(l, item, a) && (item == itemId && cause.at.Some? ==> OnTime(l, item, cause.at.value)) ==> Timely(l', item, a))
  {
    var l' := MoveStock(l, itemId, row, delta, cause).value.ledger;
    MoveIsPosting(l, itemId, row, delta, cause);
    if item == itemId {
      if Timely(l, item, a) && (cause.at.Some? ==> OnTime(l, item, cause.at.value)) {
        PostingKeepsTimely(l, l', itemId, delta, LastOperation(l'), Value(l', itemId), a);
      }
    } else {
      PostingSparesOthers(l, l', itemId, delta, LastOperation(l'), Value(l', itemId), item, a);
    }
  }

  /** A record that moves no stock leaves the laws of every item alone. */
  lemma ExternalKeepsLaws(l: Ledger, line: ConsumoLinea, p: VisitaCerrada, item: Id, a: Audit)
    requires a.since <= |l.operations|
    ensures var l' := RecordExternal(l, line, p);
            && (StockLaw(l, item) ==> StockLaw(l', item))
            && (Explained(l, item, a) ==> Explained(l', item, a))
            && (Undrifted(l, item, a) ==> Undrifted(l', item, a))
            && (Timely(l, item, a) ==> Timely(l', item, a))
            && Qty(l', item) == Qty(l, item) && Current(l', item) == Current(l, item)
  {
    var l' := RecordExternal(l, line, p);
    AppendOperation(l.operations, LastOperation(l'), item, a.since);
    if a.from <= |l.operations| {
      AppendOperation(l.operations, LastOperation(l'), item, a.from);
    }
  }

  lemma LineKeepsLaws(l: Ledger, line: ConsumoLinea, p: VisitaCerrada, item: Id, a: Audit)
    requires CloseLine(l, line, p).Ok? && AllStock(l)
    requires Undrifted(l, item, a) && a.since <= |l.operations| && (Qty(l, item) > 0 ==> Explained(l, item, a))
    ensures var l' := CloseLine(l, line, p).value.ledger;
            && StockLaw(l', item) && Undrifted(l', item, a) && a.since <= |l'.operations|
            && (Qty(l', item) > 0 ==> Explained(l', item, a))
  {
    if line.origen == DesdeStock {
      MoveKeepsLaws(l, line.itemId, RowFor(l, line.itemId), -line.qty, VisitCause(p), item, a);
    } else {
      ExternalKeepsLaws(l, line, p, item, a);
    }
  }

  lemma LineKeepsTimely(l: Ledger, line: ConsumoLinea, p: VisitaCerrada, item: Id, a: Audit)
    requires CloseLine(l, line, p).Ok? && AllStock(l) && a.since <= |l.operations|
    ensures var l' := CloseLine(l, line, p).value.ledger;
            && Current(l', item).cutAt == Current(l, item).cutAt
            && (Timely(l, item, a) && (item == line.itemId && line.origen == DesdeStock ==> OnTime(l, item, p.cerradoAt)) ==> Timely(l', item, a))
  {
    if line.origen == DesdeStock {
      MoveKeepsTimely(l, line.itemId, RowFor(l, line.itemId), -line.qty, VisitCause(p), item, a);
    } else {
      ExternalKeepsLaws(l, line, p, item, a);
    }
  }

  function TrivialAudit(l: Ledger, item: Id): Audit {
    Anchored(l, item, Audit(if Value(l, item).Some? then Value(l, item).value else 0, 0, |l.operations|, 0, 0, 0))
  }

  lemma TriviallyAudited(l: Ledger, item: Id)
    requires StockLaw(l, item)
    ensures Audited(l, item, TrivialAudit(l, item))
  {
    FreshAnchor(l, item, TrivialAudit(l, item));
  }

  lemma LineKeepsAllStock(l: Ledger, line: ConsumoLinea, p: VisitaCerrada)
    requires CloseLine(l, line, p).Ok? && AllStock(l)
    ensures AllStock(CloseLine(l, line, p).value.ledger)
  {
    forall item: Id
      ensures StockLaw(CloseLine(l, line, p).value.ledger, item)
    {
      TriviallyAudited(l, item);
      LineKeepsLaws(l, line, p, item, TrivialAudit(l, item));
    }
  }

  lemma ExternalKeepsIds(l: Ledger, line: ConsumoLinea, p: VisitaCerrada)
    requires IdLaw(l) && line.itemId in l.items
    ensures IdLaw(RecordExternal(l, line, p))
  {
  }

  lemma LineKeepsIds(l: Ledger, line: ConsumoLinea, p: VisitaCerrada)
    requires CloseLine(l, line, p).Ok? && IdLaw(l)
    ensures IdLaw(CloseLine(l, line, p).value.ledger)
  {
    if line.origen == DesdeStock {
      MoveKeepsIds(l, line.itemId, RowFor(l, line.itemId), -line.qty, VisitCause(p));
    } else {
      ExternalKeepsIds(l, line, p);
    }
  }

  /** Every line drawn from the stock of this item is on time. */
  ghost predicate LinesOnTime(l: Ledger, lines: seq<ConsumoLinea>, item: Id, at: Time) {
    forall i :: 0 <= i < |lines| && lines[i].itemId == item && lines[i].origen == DesdeStock ==> OnTime(l, item, at)
  }

  lemma {:induction false} LinesKeepLaws(l: Ledger, lines: seq<ConsumoLinea>, p: VisitaCerrada, item: Id, a: Audit)
    requires CloseLines(l, lines, p).Ok? && IdLaw(l) && AllStock(l)
    requires Undrifted(l, item, a) && a.since <= |l.operations| && (Qty(l, item) > 0 ==> Explained(l, item, a))
    ensures var l' := CloseLines(l, lines, p).value.ledger;
            && IdLaw(l') && AllStock(l') && Undrifted(l', item, a) && a.since <= |l'.operations|
            && (Qty(l', item) > 0 ==> Explained(l', item, a))
            && (Timely(l, item, a) && LinesOnTime(l, lines, item, p.cerradoAt) ==> Timely(l', item, a))
    decreases lines
  {
    if lines != [] {
      var mid := CloseLine(l, lines[0], p).value.ledger;
      LineKeepsIds(l, lines[0], p);
      LineKeepsAllStock(l, lines[0], p);
      LineKeepsLaws(l, lines[0], p, item, a);
      LineKeepsTimely(l, lines[0], p, item, a);
      LinesKeepLaws(mid, lines[1..], p, item, a);
    }
  }

  lemma {:induction false} InsertKeepsLines(line: ConsumoLinea, sorted: seq<ConsumoLinea>)
    ensures multiset(InsertLine(line, sorted)) == multiset{line} + multiset(sorted)
  {
    if sorted != [] && line.itemId > sorted[0].itemId {
      InsertKeepsLines(line, sorted[1..]);
      assert sorted == [sorted[0]] + sorted[1..];
    }
  }

  lemma {:induction false} SortKeepsLines(lines: seq<ConsumoLinea>)
    ensures multiset(SortLines(lines)) == multiset(lines)
  {
    if lines != [] {
      SortKeepsLines(lines[1..]);
      InsertKeepsLines(lines[0], SortLines(lines[1..]));
      assert lines == [lines[0]] + lines[1..];
    }
  }

  lemma CloseKeeps(l: Ledger, p: VisitaCerrada, item: Id, a: Audit)
    requires CloseVisit(l, p).Ok? && IdLaw(l) && AllStock(l) && Audited(l, item, a)
    ensures var l' := CloseVisit(l, p).value.ledger;
            var a' := NextAudit(l, CmdClose(p), l', item, a);
            && IdLaw(l') && AllStock(l') && Audited(l', item, a')
            && (Timely(l, item, a) && LinesOnTime(l, p.consumos, item, p.cerradoAt) ==> Timely(l', item, a'))
  {
    if !AlreadyApplied(l, p) {
      LinesKeepLaws(l, SortLines(p.consumos), p, item, a);
      if LinesOnTime(l, p.consumos, item, p.cerradoAt) {
        SortKeepsLines(p.consumos);
        forall i | 0 <= i < |SortLines(p.consumos)|
          ensures SortLines(p.consumos)[i] in p.consumos
        {
          assert SortLines(p.consumos)[i] in multiset(SortLines(p.consumos));
        }
      }
    }
  }

  // -- Every command, every run ---------------------------------------------------------

  /** No visit draws the item with a closing time before its cut. */
  ghost predicate Prompt(l: Ledger, cmd: Command, item: Id) {
    cmd.CmdClose? ==> LinesOnTime(l, cmd.visita.consumos, item, cmd.visita.cerradoAt)
  }

  lemma ThresholdsSpareLaws(l: Ledger, l': Ledger, item: Id, a: Audit)
    requires l'.clock >= l.clock && l'.valuation == l.valuation && l'.operations == l.operations && l'.movimientos == l.movimientos
    requires forall i :: Qty(l', i) == Qty(l, i)
    requires forall i :: i in l.stock ==> i in l'.stock
    ensures Audited(l, item, a) ==> Audited(l', item, a)
    ensures Timely(l, item, a) ==> Timely(l', item, a)
    ensures Current(l', item) == Current(l, item)
  {
  }

  lemma EntryKeeps(l: Ledger, itemId: Id, row: StockRow, delta: int, cause: Cause, cmd: Command, item: Id, a: Audit)
    requires RowOf(l, itemId, row) && AllStock(l) && delta != 0 && Audited(l, item, a)
    requires MoveStock(l, itemId, row, delta, cause).Ok? && cause.at.None?
    requires cause.kind == Adjustment || (cause.kind == Receipt && delta > 0)
    requires !cmd.CmdOpen? && !cmd.CmdRevise? && (IsOutflow(cmd) ==> delta < 0)
    ensures var l' := MoveStock(l, itemId, row, delta, cause).value.ledger;
            var a' := NextAudit(l, cmd, l', item, a);
            Audited(l', item, a') && (Timely(l, item, a) ==> Timely(l', item, a'))
  {
    var l' := MoveStock(l, itemId, row, delta, cause).value.ledger;
    MoveKeepsLaws(l, itemId, row, delta, cause, item, a);
    MoveKeepsTimely(l, itemId, row, delta, cause, item, a);
    PlainAudit(l, cmd, l', item, a);
  }

  lemma MovementCommandKeeps(l: Ledger, cmd: Command, actor: string, item: Id, a: Audit)
    requires Admissible(cmd) && Perform(l, cmd, actor).Ok? && IdLaw(l) && AllStock(l) && Audited(l, item, a)
    requires cmd.CmdAdjust? || cmd.CmdEntrada? || cmd.CmdAjuste?
    ensures Served(l, cmd, Perform(l, cmd, actor).value.ledger, item, a)
  {
    var row := RowFor(l, cmd.itemId);
    match cmd
    case CmdAdjust(itemId, delta, nota) =>
      var cause := Cause(Inventory.Ajuste, Adjustment, None, None, None, None, Some(actor), Some(nota));
      EntryKeeps(l, itemId, row, delta, cause, cmd, item, a);
      MoveKeepsIds(l, itemId, row, delta, cause);
    case CmdEntrada(itemId, qty, nota) =>
      EntryKeeps(l, itemId, row, qty, EntradaCause(nota, Some(actor)), cmd, item, a);
      MoveKeepsIds(l, itemId, row, qty, EntradaCause(nota, Some(actor)));
    case CmdAjuste(itemId, delta, nota) =>
      EntryKeeps(l, itemId, row, delta, AjusteCause(nota, Some(actor)), cmd, item, a);
      MoveKeepsIds(l, itemId, row, delta, AjusteCause(nota, Some(actor)));
  }

  /** After a served command: identifiers, the item's laws under the moved observer, and timeliness. */
  ghost predicate Served(l: Ledger, cmd: Command, l': Ledger, item: Id, a: Audit) {
    var a' := NextAudit(l, cmd, l', item, a);
    IdLaw(l') && Audited(l', item, a') && (Timely(l, item, a) && Prompt(l, cmd, item) ==> Timely(l', item, a'))
  }

  lemma OpenServed(l: Ledger, itemId: Id, input: OpeningInput, actor: string, item: Id, a: Audit)
    requires Open(l, itemId, input, actor).Ok? && IdLaw(l) && Audited(l, item, a)
    ensures Served(l, CmdOpen(itemId, input), Open(l, itemId, input, actor).value.ledger, item, a)
  {
    var l' := Open(l, itemId, input, actor).value.ledger;
    OpenEffect(l, itemId, input, actor);
    OpenKeeps(l, l', itemId, Cents(input.valueCents).value, item, a);
    if item != itemId {
      forall i | a.since <= i < |l'.operations| && l'.operations[i].itemId == item
        ensures i < |l.operations| && l'.operations[i] == l.operations[i]
      {
      }
    }
  }

  /** Under timely records no revision goes unnoticed. */
  lemma TimelyIsNoticed(l: Ledger, cmd: Command, actor: string, item: Id, a: Audit)
    requires Perform(l, cmd, actor).Ok? && Timely(l, item, a)
    ensures !BlindRevision(l, cmd, item, a)
  {
    if cmd.CmdRevise? {
      RevisionEffect(l, cmd.revision, actor);
    }
  }

  lemma RevisionKeepsTimely(l: Ledger, l': Ledger, k: nat, net: int, item: Id, a: Audit)
    requires RevisedAt(l, l', k, net) && Timely(l, item, a)
    ensures Timely(l', item, a)
  {
  }

  lemma ReviseServed(l: Ledger, input: RevisionInput, actor: string, item: Id, a: Audit)
    requires Revise(l, input, actor).Ok? && IdLaw(l) && Audited(l, item, a)
    ensures Served(l, CmdRevise(input), Revise(l, input, actor).value.ledger, item, a)
  {
    var l' := Revise(l, input, actor).value.ledger;
    ReviseKeeps(l, input, actor, item, a);
    RevisionEffect(l, input, actor);
    if Timely(l, item, a) {
      var k, net := FindOperation(l.operations, input.id).value, CalculateCost(input.cost).value.value.netCents;
      RevisionKeepsTimely(l, l', k, net, item, a);
    }
  }

  /** Nothing but items and thresholds changed. */
  ghost predicate OnlyCatalogue(l: Ledger, l': Ledger) {
    && l'.clock == l.clock && l'.valuation == l.valuation && l'.operations == l.operations && l'.movimientos == l.movimientos
    && (forall i :: Qty(l', i) == Qty(l, i)) && (forall i :: i in l.stock ==> i in l'.stock)
  }

  lemma CreateEffect(l: Ledger, draft: ItemDraft, minQty: Option<int>)
    requires IdLaw(l) && CreateItem(l, draft, minQty).Ok?
    ensures OnlyCatalogue(l, CreateItem(l, draft, minQty).value.ledger) && IdLaw(CreateItem(l, draft, minQty).value.ledger)
  {
  }

  lemma UpdateEffect(l: Ledger, itemId: Id, patch: ItemPatch)
    requires IdLaw(l) && UpdateItem(l, itemId, patch).Ok?
    ensures OnlyCatalogue(l, UpdateItem(l, itemId, patch).value.ledger) && IdLaw(UpdateItem(l, itemId, patch).value.ledger)
  {
  }

  lemma ThresholdEffect(l: Ledger, itemId: Id, minQty: Option<int>, criticalQty: Option<int>)
    requires IdLaw(l) && UpdateAlertThreshold(l, itemId, minQty, criticalQty).Ok?
    ensures var l' := UpdateAlertThreshold(l, itemId, minQty, criticalQty).value.ledger; OnlyCatalogue(l, l') && IdLaw(l')
  {
  }

  lemma CatalogueServed(l: Ledger, cmd: Command, l': Ledger, item: Id, a: Audit)
    requires OnlyCatalogue(l, l') && IdLaw(l') && Audited(l, item, a) && StockLaw(l, item)
    requires cmd.CmdCreateItem? || cmd.CmdUpdateItem? || cmd.CmdThreshold? || cmd.CmdReconcile?
    ensures Served(l, cmd, l', item, a)
  {
    ThresholdsSpareLaws(l, l', item, a);
  }

  lemma CatalogueCommandKeeps(l: Ledger, cmd: Command, actor: string, item: Id, a: Audit)
    requires Perform(l, cmd, actor).Ok? && IdLaw(l) && AllStock(l) && Audited(l, item, a)
    requires cmd.CmdCreateItem? || cmd.CmdUpdateItem? || cmd.CmdThreshold? || cmd.CmdReconcile?
    ensures Served(l, cmd, Perform(l, cmd, actor).value.ledger, item, a)
  {
    match cmd {
      case CmdCreateItem(i, m) => CreateEffect(l, i, m);
      case CmdUpdateItem(itemId, patch) => UpdateEffect(l, itemId, patch);
      case CmdThreshold(itemId, m, c) => ThresholdEffect(l, itemId, m, c);
      case CmdReconcile(_) =>
    }
    CatalogueServed(l, cmd, Perform(l, cmd, actor).value.ledger, item, a);
  }

  lemma PerformKeeps(l: Ledger, cmd: Command, actor: string, item: Id, a: Audit)
    requires Admissible(cmd) && Perform(l, cmd, actor).Ok? && IdLaw(l) && AllStock(l) && Audited(l, item, a)
    ensures Served(l, cmd, Perform(l, cmd, actor).value.ledger, item, a)
  {
    match cmd
    case CmdClose(p) => CloseKeeps(l, p, item, a);
    case CmdAdjust(_, _, _) => MovementCommandKeeps(l, cmd, actor, item, a);
    case CmdEntrada(_, _, _) => MovementCommandKeeps(l, cmd, actor, item, a);
    case CmdAjuste(_, _, _) => MovementCommandKeeps(l, cmd, actor, item, a);
    case CmdReceive(r) => ReceiveKeeps(l, r, actor, item, a);
    case CmdOpen(itemId, o) => OpenServed(l, itemId, o, actor, item, a);
    case CmdRevise(r) => ReviseServed(l, r, actor, item, a);
    case CmdReturn(r) => TakeBackKeeps(l, r, actor, item, a);
    case _ => CatalogueCommandKeeps(l, cmd, actor, item, a);
  }

  // -- Conservation, step by step --------------------------------------------------------

  /** The laws of an item under its observer, which sees no gap where no value is known. */
  ghost predicate Accounted(l: Ledger, item: Id, a: Audit) {
    Audited(l, item, a) && (Value(l, item).None? ==> a.gap == 0)
  }

  /** The value is conserved exactly while the observer sees no gap. */
  lemma ConservedIffNoGap(l: Ledger, item: Id, a: Audit)
    requires Accounted(l, item, a)
    ensures Conserved(l, item, a) <==> a.gap == 0
  {
  }

  /** Exactly when a served command ends conservation: when it is a blind revision. */
  lemma ConservationEndsIffBlind(l: Ledger, cmd: Command, actor: string, item: Id, a: Audit)
    requires Admissible(cmd) && Perform(l, cmd, actor).Ok? && IdLaw(l) && AllStock(l)
    requires Accounted(l, item, a) && Conserved(l, item, a)
    ensures var l' := Perform(l, cmd, actor).value.ledger;
            var a' := NextAudit(l, cmd, l', item, a);
            Accounted(l', item, a') && (Conserved(l', item, a') <==> !BlindRevision(l, cmd, item, a))
  {
    var l' := Perform(l, cmd, actor).value.ledger;
    PerformKeeps(l, cmd, actor, item, a);
    ConservedIffNoGap(l, item, a);
    ConservedIffNoGap(l', item, NextAudit(l, cmd, l', item, a));
    MissedIsSomething(l, cmd, item, a);
    if cmd.CmdRevise? {
      ReviseKeeps(l, cmd.revision, actor, item, a);
    }
  }
}
