/**
 Journey commands as interleaving transactions. Each holds the lock of its unit from the
 first read to the end, but receipts and driver assignments are shared by all units.
 Every interleaving must amount to the accepted commands run one after another.
 */
module JourneyInterleaving {
  import opened Wrappers
  import opened JourneyRules
  import opened Journeys
  import opened JourneyLaws

  /** A transaction that found no receipt, one about to write, and one that lost its key to another unit. */
  datatype Txn =
    | Begun(call: Call)
    | Decided(call: Call, plan: Plan)
    | Losing(req: Request)

  /** Committed tables, transactions in flight, and the accepted calls in the order they committed. */
  datatype World = World(db: Db, txns: map<nat, Txn>, log: seq<Call>)

  datatype Step =
    | Begin(t: nat, call: Call)
    | Decide(t: nat)
    | Commit(t: nat)
    | Recover(t: nat, facts: Facts)
    | Abort(t: nat)

  predicate Holds(txn: Txn, unidadId: Id) {
    !txn.Losing? && txn.call.req.unidadId == unidadId
  }

  predicate Locked(w: World, unidadId: Id) {
    exists t :: t in w.txns && Holds(w.txns[t], unidadId)
  }

  function End(w: World, t: nat): World {
    w.(txns := w.txns - {t})
  }

  /** One step; a step that is not enabled, or waits for a lock, changes nothing. */
  ghost function Next(w: World, step: Step): World {
    match step
    case Begin(t, call) =>
      if t in w.txns || Locked(w, call.req.unidadId) || Lookup(w.db, call.req, call.facts).Some? then w
      else w.(txns := w.txns[t := Begun(call)])
    case Decide(t) =>
      if t !in w.txns || !w.txns[t].Begun? then w
      else
        var call := w.txns[t].call;
        if call.req.unidadId !in w.db.units then End(w, t)
        else
          var plan := PlanFor(w.db, call.req, call.facts, Occupied(w.db, call.req));
          if plan.Err? then End(w, t) else w.(txns := w.txns[t := Decided(call, plan.value)])
    case Commit(t) =>
      // Random identifiers never repeat one that is already stored.
      if t !in w.txns || !w.txns[t].Decided? || !Fresh(w.db, w.txns[t].call.facts.freshId) then w
      else
        var call, plan := w.txns[t].call, w.txns[t].plan;
        if Violates(w.db, call.req.unidadId, plan) then End(w, t)
        else if ReceiptTaken(w.db, plan) then w.(txns := w.txns[t := Losing(call.req)])
        else World(Apply(w.db, call.req.unidadId, plan), w.txns - {t}, w.log + [call])
    case Recover(t, _) =>
      if t !in w.txns || !w.txns[t].Losing? || Locked(w, w.txns[t].req.unidadId) then w else End(w, t)
    case Abort(t) => End(w, t)
  }

  ghost function Interleave(w: World, steps: seq<Step>): World {
    if steps == [] then w else Next(Interleave(w, steps[..|steps| - 1]), steps[|steps| - 1])
  }

  /** The answer of the transaction that looks up the receipt it lost to. */
  function RecoveryAnswer(db: Db, req: Request, facts: Facts): Response {
    if req.unidadId !in db.units then Err(UnitNotFound)
    else if !facts.allowed then Err(Forbidden)
    else
      var winner := FindReceipt(db.receipts, req.actor, req.command.commandId);
      if winner.None? then Err(ConstraintViolated)
      else if winner.value.digest != DigestOf(req) then Err(CommandReused)
      else Ok(false)
  }

  /** What a step answers to the caller of its transaction, if it ends it. */
  datatype Answered = Answered(call: Call, response: Response)

  ghost function Answer(w: World, step: Step): Option<Answered> {
    match step
    case Begin(t, call) =>
      if t in w.txns || Locked(w, call.req.unidadId) then None
      else
        var found := Lookup(w.db, call.req, call.facts);
        if found.Some? then Some(Answered(call, found.value)) else None
    case Decide(t) =>
      if t !in w.txns || !w.txns[t].Begun? || w.txns[t].call.req.unidadId !in w.db.units then None
      else
        var call := w.txns[t].call;
        var plan := PlanFor(w.db, call.req, call.facts, Occupied(w.db, call.req));
        if plan.Err? then Some(Answered(call, Err(plan.error))) else None
    case Commit(t) =>
      if t !in w.txns || !w.txns[t].Decided? || !Fresh(w.db, w.txns[t].call.facts.freshId) then None
      else
        var call, plan := w.txns[t].call, w.txns[t].plan;
        if Violates(w.db, call.req.unidadId, plan) then Some(Answered(call, Err(ConstraintViolated)))
        else if ReceiptTaken(w.db, plan) then None
        else Some(Answered(call, Ok(true)))
    case Recover(t, facts) =>
      if t !in w.txns || !w.txns[t].Losing? || Locked(w, w.txns[t].req.unidadId) then None
      else Some(Answered(Call(w.txns[t].req, facts), RecoveryAnswer(w.db, w.txns[t].req, facts)))
    case Abort(_) => None
  }

  // -- The invariant --------------------------------------------------------------------

  /** If the key of a request has a receipt at all, it belongs to another unit. */
  ghost predicate ForeignKey(db: Db, req: Request) {
    var found := FindReceipt(db.receipts, req.actor, req.command.commandId);
    found.Some? ==> found.value.unidadId != req.unidadId
  }

  ghost predicate TxnLaw(db: Db, txn: Txn) {
    match txn
    case Begun(call) => Admitted(db, call)
    case Decided(call, plan) => Admitted(db, call) && PlanFor(db, call.req, call.facts, false) == Ok(plan)
    case Losing(req) =>
      req.command.expectedSubject == req.actor && req.unidadId in db.units && FindReceipt(db.receipts, req.actor, req.command.commandId).Some? && ForeignKey(db, req)
  }

  /** Past the receipt check: session, unit and permission are in order. */
  ghost predicate Admitted(db: Db, call: Call) {
    && call.req.command.expectedSubject == call.req.actor && call.req.unidadId in db.units && call.facts.allowed
    && ForeignKey(db, call.req)
  }

  ghost predicate Accepted(start: Db, log: seq<Call>) {
    forall i :: 0 <= i < |log| ==>
      && Execute(Run(start, log[..i]), log[i].req, log[i].facts).response == Ok(true)
      && Fresh(Run(start, log[..i]), log[i].facts.freshId)
  }

  /** Receipts are those of the log, in order, and each names its own unit in its digest. */
  ghost predicate Filed(db: Db, log: seq<Call>) {
    && |db.receipts| == |log|
    && forall i :: 0 <= i < |log| ==>
         && db.receipts[i].actor == log[i].req.actor && db.receipts[i].commandId == log[i].req.command.commandId
         && db.receipts[i].digest == DigestOf(log[i].req) && db.receipts[i].unidadId == log[i].req.unidadId
  }

  ghost predicate Exclusive(txns: map<nat, Txn>) {
    forall s, t :: s in txns && t in txns && s != t && !txns[s].Losing? ==> !Holds(txns[t], txns[s].call.req.unidadId)
  }

  ghost predicate Inv(start: Db, w: World) {
    Serial(start, w.db, w.log) && InFlight(w.db, w.txns)
  }

  /** The committed tables come from the accepted calls alone. */
  ghost predicate Serial(start: Db, db: Db, log: seq<Call>) {
    Reachable(start, db) && db == Run(start, log) && Accepted(start, log) && Filed(db, log)
  }

  /** At most one transaction per unit, each still entitled to what it decided. */
  ghost predicate InFlight(db: Db, txns: map<nat, Txn>) {
    Exclusive(txns) && forall t :: t in txns ==> TxnLaw(db, txns[t])
  }

  // -- A decided plan does not depend on who else holds drivers --------------------------

  lemma DriverCheckIsLate(db: Db, req: Request, facts: Facts, plan: Plan)
    requires req.unidadId in db.units
    ensures PlanFor(db, req, facts, Occupied(db, req)) == Ok(plan) ==> PlanFor(db, req, facts, false) == Ok(plan)
    ensures PlanFor(db, req, facts, false) == Ok(plan) && !Violates(db, req.unidadId, plan)
            ==> PlanFor(db, req, facts, Occupied(db, req)) == Ok(plan)
  {
    var named := if req.input.Some? then Named(req.input.value) else None;
    if PlanFor(db, req, facts, false) == Ok(plan) && req.kind == Departure && Occupied(db, req) && !Violates(db, req.unidadId, plan) {
      var u :| u in db.units && db.units[u].choferId == named;
      assert plan.unit.choferId == named;
      assert u == req.unidadId;
    }
  }

  /** A plan depends on nothing but the unit, its situation and the row it points at. */
  lemma PlanReadsOneUnit(db: Db, db': Db, req: Request, facts: Facts)
    requires req.unidadId in db.units && req.unidadId in db'.units
    requires db'.units[req.unidadId] == db.units[req.unidadId] && Describe(db', req.unidadId) == Describe(db, req.unidadId)
    requires PointedRow(db', db.units[req.unidadId]) == PointedRow(db, db.units[req.unidadId])
    ensures PlanFor(db', req, facts, false) == PlanFor(db, req, facts, false)
  {
  }

  lemma OthersSituationStands(db: Db, u: Id, plan: Plan, v: Id)
    requires Law(db) && u in db.units && Acting(db, u, plan) && v in db.units && v != u
    ensures Describe(Apply(db, u, plan), v) == Describe(db, v)
    ensures PointedRow(Apply(db, u, plan), db.units[v]) == PointedRow(db, db.units[v])
  {
    ApplySparesRows(db, u, plan, v);
  }

  /** A commit on one unit leaves what a transaction on another decided. */
  lemma OthersDecisionsStand(db: Db, u: Id, plan: Plan, req: Request, facts: Facts)
    requires Law(db) && u in db.units && Acting(db, u, plan) && req.unidadId in db.units && req.unidadId != u
    ensures PlanFor(Apply(db, u, plan), req, facts, false) == PlanFor(db, req, facts, false)
  {
    OthersSituationStands(db, u, plan, req.unidadId);
    PlanReadsOneUnit(db, Apply(db, u, plan), req, facts);
  }

  lemma KeysStayForeign(db: Db, u: Id, plan: Plan, req: Request)
    requires plan.receipt.unidadId == u && FindReceipt(db.receipts, plan.receipt.actor, plan.receipt.commandId).None?
    requires ForeignKey(db, req) && req.unidadId != u
    ensures ForeignKey(Apply(db, u, plan), req)
  {
    var last := plan.receipt;
    if FindReceipt(db.receipts, req.actor, req.command.commandId).Some? {
      FindKeeps(db.receipts, [last], req.actor, req.command.commandId);
    } else if last.actor == req.actor && Lower(last.commandId) == Lower(req.command.commandId) {
      FindLast(db.receipts, last);
      SameKey(db.receipts + [last], req.actor, req.command.commandId, last.commandId);
    } else {
      FindSkips(db.receipts, last, req.actor, req.command.commandId);
    }
  }

  lemma {:induction false} FindSkips(receipts: seq<Receipt>, last: Receipt, actor: string, commandId: string)
    requires FindReceipt(receipts, actor, commandId).None?
    requires last.actor != actor || Lower(last.commandId) != Lower(commandId)
    ensures FindReceipt(receipts + [last], actor, commandId).None?
  {
    if receipts != [] {
      assert (receipts + [last])[0] == receipts[0] && (receipts + [last])[1..] == receipts[1..] + [last];
      FindSkips(receipts[1..], last, actor, commandId);
    }
  }

  lemma CommitSparesTxn(db: Db, u: Id, plan: Plan, txn: Txn)
    requires Law(db) && u in db.units && Acting(db, u, plan) && TxnLaw(db, txn) && !Holds(txn, u)
    requires FindReceipt(db.receipts, plan.receipt.actor, plan.receipt.commandId).None?
    ensures TxnLaw(Apply(db, u, plan), txn)
  {
    if txn.Losing? {
      FindKeeps(db.receipts, [plan.receipt], txn.req.actor, txn.req.command.commandId);
    } else {
      KeysStayForeign(db, u, plan, txn.call.req);
      OthersDecisionsStand(db, u, plan, txn.call.req, txn.call.facts);
    }
  }

  // -- Each step ------------------------------------------------------------------------

  /** At its commit, a decided transaction does what it would do alone. */
  lemma CommitIsSerial(db: Db, call: Call, plan: Plan)
    requires Admitted(db, call) && PlanFor(db, call.req, call.facts, false) == Ok(plan)
    requires !Violates(db, call.req.unidadId, plan) && !ReceiptTaken(db, plan)
    ensures Execute(db, call.req, call.facts) == Executed(Apply(db, call.req.unidadId, plan), Ok(true))
    ensures plan.receipt.actor == call.req.actor && plan.receipt.commandId == call.req.command.commandId
    ensures plan.receipt.digest == DigestOf(call.req) && plan.receipt.unidadId == call.req.unidadId
  {
    DriverCheckIsLate(db, call.req, call.facts, plan);
  }

  lemma ExtendLog(start: Db, log: seq<Call>, call: Call)
    requires Accepted(start, log) && Execute(Run(start, log), call.req, call.facts).response == Ok(true)
    requires Fresh(Run(start, log), call.facts.freshId)
    ensures Accepted(start, log + [call])
    ensures Run(start, log + [call]) == Execute(Run(start, log), call.req, call.facts).db
  {
    var log' := log + [call];
    assert log'[..|log|] == log;
    forall i | 0 <= i < |log|
      ensures log'[..i] == log[..i]
    {
    }
  }

  lemma CommitExtendsLog(start: Db, db: Db, log: seq<Call>, call: Call, plan: Plan)
    requires Serial(start, db, log) && TxnLaw(db, Decided(call, plan)) && Fresh(db, call.facts.freshId)
    requires !Violates(db, call.req.unidadId, plan) && !ReceiptTaken(db, plan)
    ensures Acting(db, call.req.unidadId, plan)
    ensures Serial(start, Apply(db, call.req.unidadId, plan), log + [call])
  {
    CommitIsSerial(db, call, plan);
    PlanActs(db, call.req, call.facts, false);
    AppliedStaysReachable(start, db, call.req.unidadId, plan);
    ExtendLog(start, log, call);
    FileReceipt(db, log, call, plan);
  }

  lemma FileReceipt(db: Db, log: seq<Call>, call: Call, plan: Plan)
    requires Filed(db, log)
    requires plan.receipt.actor == call.req.actor && plan.receipt.commandId == call.req.command.commandId
    requires plan.receipt.digest == DigestOf(call.req) && plan.receipt.unidadId == call.req.unidadId
    ensures Filed(Apply(db, call.req.unidadId, plan), log + [call])
  {
  }

  lemma CommitSparesOthers(db: Db, txns: map<nat, Txn>, t: nat)
    requires Law(db) && InFlight(db, txns) && t in txns && txns[t].Decided?
    requires Acting(db, txns[t].call.req.unidadId, txns[t].plan) && !ReceiptTaken(db, txns[t].plan)
    ensures InFlight(Apply(db, txns[t].call.req.unidadId, txns[t].plan), txns - {t})
  {
    var u, plan := txns[t].call.req.unidadId, txns[t].plan;
    forall s | s in txns - {t}
      ensures TxnLaw(Apply(db, u, plan), txns[s])
    {
      CommitSparesTxn(db, u, plan, txns[s]);
    }
  }

  lemma PlanNamesKey(db: Db, req: Request, facts: Facts, plan: Plan)
    requires req.unidadId in db.units && PlanFor(db, req, facts, false) == Ok(plan)
    ensures plan.receipt.actor == req.actor && plan.receipt.commandId == req.command.commandId
  {
  }

  lemma LosingIsForeign(db: Db, call: Call, plan: Plan)
    requires TxnLaw(db, Decided(call, plan)) && ReceiptTaken(db, plan)
    ensures TxnLaw(db, Losing(call.req))
  {
    PlanNamesKey(db, call.req, call.facts, plan);
  }

  /** Replacing or dropping one transaction's own record. */
  lemma TxnsStayInFlight(db: Db, txns: map<nat, Txn>, txns': map<nat, Txn>, t: nat)
    requires InFlight(db, txns)
    requires forall s :: s in txns' && s != t ==> s in txns && txns'[s] == txns[s]
    requires t in txns' ==> TxnLaw(db, txns'[t])
    requires t in txns' && !txns'[t].Losing? ==>
               forall s :: s in txns && s != t ==> !Holds(txns[s], txns'[t].call.req.unidadId)
    ensures InFlight(db, txns')
  {
  }

  lemma BeginKeepsFlight(w: World, t: nat, call: Call)
    requires InFlight(w.db, w.txns)
    ensures InFlight(w.db, Next(w, Begin(t, call)).txns)
  {
    if t !in w.txns && !Locked(w, call.req.unidadId) && Lookup(w.db, call.req, call.facts).None? {
      TxnsStayInFlight(w.db, w.txns, w.txns[t := Begun(call)], t);
    }
  }

  lemma DecideKeepsFlight(w: World, t: nat)
    requires InFlight(w.db, w.txns)
    ensures InFlight(w.db, Next(w, Decide(t)).txns)
  {
    if t in w.txns && w.txns[t].Begun? {
      var call := w.txns[t].call;
      assert TxnLaw(w.db, w.txns[t]);
      var plan := PlanFor(w.db, call.req, call.facts, Occupied(w.db, call.req));
      if plan.Ok? {
        DriverCheckIsLate(w.db, call.req, call.facts, plan.value);
        assert TxnLaw(w.db, Decided(call, plan.value));
        TxnsStayInFlight(w.db, w.txns, w.txns[t := Decided(call, plan.value)], t);
      } else {
        TxnsStayInFlight(w.db, w.txns, w.txns - {t}, t);
      }
    }
  }

  lemma EndKeepsFlight(w: World, t: nat)
    requires InFlight(w.db, w.txns)
    ensures InFlight(w.db, End(w, t).txns)
  {
    TxnsStayInFlight(w.db, w.txns, w.txns - {t}, t);
  }

  lemma CommitFailsInFlight(w: World, t: nat)
    requires InFlight(w.db, w.txns) && t in w.txns && w.txns[t].Decided?
    requires Violates(w.db, w.txns[t].call.req.unidadId, w.txns[t].plan) || ReceiptTaken(w.db, w.txns[t].plan)
    ensures InFlight(w.db, Next(w, Commit(t)).txns) && Next(w, Commit(t)).db == w.db && Next(w, Commit(t)).log == w.log
  {
    var call, plan := w.txns[t].call, w.txns[t].plan;
    assert TxnLaw(w.db, w.txns[t]);
    if Violates(w.db, call.req.unidadId, plan) {
      EndKeepsFlight(w, t);
    } else {
      LosingIsForeign(w.db, call, plan);
      TxnsStayInFlight(w.db, w.txns, w.txns[t := Losing(call.req)], t);
    }
  }

  lemma CommitKeepsInv(start: Db, w: World, t: nat)
    requires Inv(start, w)
    ensures Inv(start, Next(w, Commit(t)))
  {
    if t in w.txns && w.txns[t].Decided? && Fresh(w.db, w.txns[t].call.facts.freshId) {
      var call, plan := w.txns[t].call, w.txns[t].plan;
      if Violates(w.db, call.req.unidadId, plan) || ReceiptTaken(w.db, plan) {
        CommitFailsInFlight(w, t);
      } else {
        assert TxnLaw(w.db, w.txns[t]);
        CommitExtendsLog(start, w.db, w.log, call, plan);
        CommitSparesOthers(w.db, w.txns, t);
      }
    }
  }

  lemma StepKeepsInv(start: Db, w: World, step: Step)
    requires Inv(start, w)
    ensures Inv(start, Next(w, step))
  {
    match step
    case Begin(t, call) => BeginKeepsFlight(w, t, call);
    case Decide(t) => DecideKeepsFlight(w, t);
    case Commit(t) => CommitKeepsInv(start, w, t);
    case Recover(t, _) => EndKeepsFlight(w, t);
    case Abort(t) => EndKeepsFlight(w, t);
  }

  // -- Theorems -------------------------------------------------------------------------

  /**
   Serializability: whatever the interleaving, the committed tables are those of the accepted
   calls run alone in commit order, each of them accepted there too; so every law of serial
   runs holds of every interleaving.
   */
  lemma {:induction false} InterleavingIsSerial(start: Db, steps: seq<Step>)
    requires Law(start) && start.receipts == []
    ensures var w := Interleave(World(start, map[], []), steps);
            Inv(start, w) && w.db == Run(start, w.log) && FreshRun(start, w.log) && Reachable(start, w.db)
  {
    if steps == [] {
      RunKeepsJourneys(start, []);
    } else {
      InterleavingIsSerial(start, steps[..|steps| - 1]);
      StepKeepsInv(start, Interleave(World(start, map[], []), steps[..|steps| - 1]), steps[|steps| - 1]);
    }
  }

  /** A key commits at most once, whichever units raced for it. */
  lemma KeyCommitsOnce(start: Db, steps: seq<Step>, i: nat, j: nat)
    requires Law(start) && start.receipts == []
    requires var log := Interleave(World(start, map[], []), steps).log;
             i < j < |log| && log[i].req.actor == log[j].req.actor
    ensures var log := Interleave(World(start, map[], []), steps).log;
            Lower(log[i].req.command.commandId) != Lower(log[j].req.command.commandId)
  {
    InterleavingIsSerial(start, steps);
    var w := Interleave(World(start, map[], []), steps);
    assert Filed(w.db, w.log) && KeysDistinct(w.db.receipts);
  }

  /** The loser of a race for a key is refused as reused, never told that it was served. */
  lemma LoserIsRefused(start: Db, steps: seq<Step>, t: nat, facts: Facts)
    requires Law(start) && start.receipts == []
    requires var w := Interleave(World(start, map[], []), steps); t in w.txns && w.txns[t].Losing?
    ensures var w := Interleave(World(start, map[], []), steps);
            RecoveryAnswer(w.db, w.txns[t].req, facts) == if facts.allowed then Err(CommandReused) else Err(Forbidden)
  {
    InterleavingIsSerial(start, steps);
    var w := Interleave(World(start, map[], []), steps);
    assert TxnLaw(w.db, w.txns[t]);
    var req := w.txns[t].req;
    var winner := FindReceipt(w.db.receipts, req.actor, req.command.commandId).value;
    var i :| 0 <= i < |w.db.receipts| && w.db.receipts[i] == winner;
  }

  /** Only a commit changes the tables; losing, recovering and aborting leave no trace. */
  lemma OnlyCommitsWrite(w: World, step: Step)
    ensures Next(w, step).db != w.db ==> step.Commit? && Next(w, step).log == w.log + [w.txns[step.t].call]
    ensures Next(w, step).log == w.log ==> Next(w, step).db == w.db
  {
  }

  // -- Answers --------------------------------------------------------------------------

  predicate KeySpent(db: Db, req: Request) {
    FindReceipt(db.receipts, req.actor, req.command.commandId).Some?
  }

  /** Another unit has the driver that the departure names. */
  predicate DriverTaken(db: Db, req: Request) {
    req.kind == Departure && req.input.Some? && Named(req.input.value).Some?
    && exists u :: u in db.units && u != req.unidadId && db.units[u].choferId == Named(req.input.value)
  }

  /** What the same request would be answered if it ran alone on the committed tables. */
  function Alone(db: Db, a: Answered): Response {
    Execute(db, a.call.req, a.call.facts).response
  }

  /** A refusal that names one reason where the request, alone, would be given another. */
  predicate Overtaken(db: Db, step: Step, a: Answered) {
    match step
    case Decide(_) => KeySpent(db, a.call.req)
    case Commit(_) => a.response.Err? && (KeySpent(db, a.call.req) || DriverTaken(db, a.call.req))
    case _ => false
  }

  /** A receipt of another unit never answers the request as served. */
  lemma ForeignIsReused(start: Db, db: Db, log: seq<Call>, req: Request)
    requires Serial(start, db, log) && ForeignKey(db, req) && KeySpent(db, req)
    ensures FindReceipt(db.receipts, req.actor, req.command.commandId).value.digest != DigestOf(req)
  {
    var winner := FindReceipt(db.receipts, req.actor, req.command.commandId).value;
    var i :| 0 <= i < |db.receipts| && db.receipts[i] == winner;
  }

  lemma PlanIsNeverReused(db: Db, req: Request, facts: Facts, occupied: bool)
    requires req.unidadId in db.units
    ensures PlanFor(db, req, facts, occupied) != Err(CommandReused)
  {
  }

  lemma PastLookup(start: Db, db: Db, log: seq<Call>, call: Call)
    requires Serial(start, db, log) && Admitted(db, call)
    ensures Lookup(db, call.req, call.facts) == if KeySpent(db, call.req) then Some(Err(CommandReused)) else None
  {
    if KeySpent(db, call.req) {
      ForeignIsReused(start, db, log, call.req);
    }
  }

  lemma DecisionAlone(start: Db, db: Db, log: seq<Call>, call: Call)
    requires Serial(start, db, log) && Admitted(db, call)
    ensures var plan := PlanFor(db, call.req, call.facts, Occupied(db, call.req));
            var alone := Execute(db, call.req, call.facts).response;
            plan.Err? ==> plan.error != CommandReused && alone == Err(if KeySpent(db, call.req) then CommandReused else plan.error)
  {
    PlanIsNeverReused(db, call.req, call.facts, Occupied(db, call.req));
    PastLookup(start, db, log, call);
  }

  /** At a failed commit, the driver check of the plan depends on nothing but another unit's claim. */
  lemma LateDriver(db: Db, req: Request, facts: Facts, plan: Plan)
    requires Law(db) && req.unidadId in db.units && PlanFor(db, req, facts, false) == Ok(plan)
    ensures PlanFor(db, req, facts, Occupied(db, req))
         == if DriverTaken(db, req) then Err(Assignment(ChoferOcupado)) else Ok(plan)
  {
  }

  lemma ViolationAlone(start: Db, db: Db, log: seq<Call>, call: Call, plan: Plan)
    requires Serial(start, db, log) && TxnLaw(db, Decided(call, plan)) && Violates(db, call.req.unidadId, plan)
    ensures Execute(db, call.req, call.facts).response
         == Err(if KeySpent(db, call.req) then CommandReused
                else if DriverTaken(db, call.req) then Assignment(ChoferOcupado)
                else ConstraintViolated)
  {
    LateDriver(db, call.req, call.facts, plan);
    PastLookup(start, db, log, call);
  }

  lemma RecoveryAlone(start: Db, db: Db, log: seq<Call>, req: Request, facts: Facts)
    requires Serial(start, db, log) && TxnLaw(db, Losing(req))
    ensures RecoveryAnswer(db, req, facts) == Execute(db, req, facts).response
    ensures RecoveryAnswer(db, req, facts).Err?
  {
    ForeignIsReused(start, db, log, req);
  }

  lemma AnswerAlone(start: Db, w: World, step: Step)
    requires Inv(start, w) && Answer(w, step).Some?
    ensures var a := Answer(w, step).value;
            && (a.response.Ok? <==> Alone(w.db, a).Ok?) && (a.response.Ok? ==> a.response == Alone(w.db, a))
            && (a.response == Alone(w.db, a) <==> !Overtaken(w.db, step, a))
  {
    match step
    case Begin(_, _) =>
    case Decide(t) =>
      assert TxnLaw(w.db, w.txns[t]);
      DecisionAlone(start, w.db, w.log, w.txns[t].call);
    case Commit(t) =>
      var call, plan := w.txns[t].call, w.txns[t].plan;
      assert TxnLaw(w.db, w.txns[t]);
      if Violates(w.db, call.req.unidadId, plan) {
        ViolationAlone(start, w.db, w.log, call, plan);
      } else {
        CommitIsSerial(w.db, call, plan);
      }
    case Recover(t, facts) =>
      assert TxnLaw(w.db, w.txns[t]);
      RecoveryAlone(start, w.db, w.log, w.txns[t].req, facts);
  }

  /** A step answers that it served the command only by committing it. */
  predicate Serves(w: World, step: Step) {
    step.Commit? && step.t in w.txns && w.txns[step.t].Decided?
  }

  lemma OnlyAcceptanceWrites(w: World, step: Step)
    requires Answer(w, step).Some?
    ensures Answer(w, step).value.response != Ok(true) ==> Next(w, step).db == w.db
    ensures Answer(w, step).value.response == Ok(true) ==> Serves(w, step)
  {
  }

  lemma AcceptanceWrites(start: Db, w: World, step: Step)
    requires Inv(start, w) && Serves(w, step)
    requires Answer(w, step).Some? && Answer(w, step).value.response == Ok(true)
    ensures var call := w.txns[step.t].call;
            Answer(w, step).value.call == call && Next(w, step).db == Execute(w.db, call.req, call.facts).db
  {
    assert TxnLaw(w.db, w.txns[step.t]);
    CommitIsSerial(w.db, w.txns[step.t].call, w.txns[step.t].plan);
  }

  lemma AnswerWrites(start: Db, w: World, step: Step)
    requires Inv(start, w) && Answer(w, step).Some?
    ensures var a := Answer(w, step).value;
            Next(w, step).db == Execute(w.db, a.call.req, a.call.facts).db
  {
    var a := Answer(w, step).value;
    AnswerAlone(start, w, step);
    OnlyAcceptanceWrites(w, step);
    if a.response == Ok(true) {
      AcceptanceWrites(start, w, step);
    } else {
      RefusedChangesNothing(w.db, a.call.req, a.call.facts);
    }
  }

  /**
   Every answer of every interleaving, against the same request run alone on the tables
   committed by then: accepted, replayed or refused exactly as it would be there. Only the
   reason of a refusal may differ, and does exactly when since the transaction began its key
   was spent or, at a failed commit, its driver went to another unit.
   */
  lemma AnswersAreSerial(start: Db, steps: seq<Step>, step: Step)
    requires Law(start) && start.receipts == []
    requires Answer(Interleave(World(start, map[], []), steps), step).Some?
    ensures var w := Interleave(World(start, map[], []), steps);
            var a := Answer(w, step).value;
            && w.db == Run(start, w.log)
            && (a.response.Ok? <==> Alone(w.db, a).Ok?) && (a.response.Ok? ==> a.response == Alone(w.db, a))
            && (a.response == Alone(w.db, a) <==> !Overtaken(w.db, step, a))
            && (Next(w, step).db == Execute(w.db, a.call.req, a.call.facts).db)
  {
    InterleavingIsSerial(start, steps);
    var w := Interleave(World(start, map[], []), steps);
    AnswerAlone(start, w, step);
    AnswerWrites(start, w, step);
  }
}
