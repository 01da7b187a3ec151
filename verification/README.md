# Fleet maintenance backend: verified model

This project models the parts of the backend that carry multi-step state or exact
arithmetic, and proves what holds of them over every run. It has four groups of modules.

**Inventory valuation.** `CostRules` holds the centavo arithmetic (half-up rounding, tax
inside and outside the amount, proportional shares). `Inventory` gives the database tables
as one immutable `Ledger` and each command as a function from ledger to ledger.
`InventoryLaws` and `InventoryRuns` prove conservation and the rounding bound over runs,
`Returns` the balance of partial returns, `Visits` that a closed visit is all or nothing and
served once, and `InventoryEffects` what each command accepts and records. `InventoryService` is the service itself: a class whose methods update the
tables in place, roll back on refusal, and are proved equal to the functions.
`CanonicalJson` and `CostCommands` treat the idempotency key and the canonical payload, and
`CostDesk` is the keyed command in front of the service.

**Journeys.** `JourneyRules` parses the command headers and holds the guards, `Journeys`
describes and executes one command, `JourneyLaws` proves the state machine, the receipt
chain and replay, `JourneyEffects` what departures and returns meet and write, and
`JourneyInterleaving` splits each command into the steps of its
transaction and proves that every interleaving is serial.

**Alerts and the inbox.** `Inbox` is the de-duplicated inbox with per-user read marks.
`StockAlerts` feeds it from threshold crossings, `Andon`, `AndonLaws` and `AndonEffects` from
maintenance notices, `HealthScore`, `HealthExplained`, `Salud`, `SaludLaws` and `SaludEffects`
from unit health. Each proves that the
incremental projection agrees with the predicate it stands for.

**Yard.** `Flota` registers exits and entries and proves the fleet-wide driver rule.

The pattern is the same throughout: specification functions on immutable tables, a class
whose methods are proved against them, lemmas that say what each operation accepts and writes
in terms of its request, and lemmas over runs. A run is a
sequence of commands, each with whatever the other modules answered to it; refused commands
are part of the run and change nothing but the clock. Runs start from any lawful tables: the
empty ones, and for journeys also those a migration leaves, with units already on the road
whose journey row or pointer is missing, provided no two units share a pointer.

## Findings

- The stored value of an item is *not* always its last reset plus the costs recorded since.
  A consumption dated before the item's opening but posted after it, and corrected later,
  changes its recorded cost without reopening the valuation: five commands from the empty
  tables reach such a state (`InventoryRuns.LateConsumptionGoesUnnoticed`).
  `InventoryRuns.ConservedIffNoneBlind` says exactly which runs conserve the value from
  beginning to end: those in which no accepted revision changes the cost of a stock movement
  recorded since the reset but dated before the cut of an item with stock and a known value.
  `InventoryRuns.ValueIsConserved` bounds the damage: over every run the value differs from
  the records by the sum of those corrections and by nothing else.
- Re-quoting an EXCLUDED amount as INCLUDED recovers net and tax for all amounts and rates,
  but the total may need one digit more than an amount field accepts;
  `CostRules.RequoteIncluded` and `CostRules.RequotesIffSixteenDigits` give the exact limit,
  and `CostRules.LargestQuoteCannotBeRequoted` an amount beyond it.
- The branch that answers the loser of a receipt-key race with "already served" is never
  taken: the loser holds the lock of its own unit, so the winner's request names another unit
  and its hash differs (`JourneyInterleaving.LoserIsRefused`).
- Interleaved commands are accepted, replayed and refused as they would be alone, but a
  refusal may name another reason: `JourneyInterleaving.AnswersAreSerial` says exactly when.
- Two units that shared a dangling journey pointer, which no constraint of the tables forbids,
  would block each other: once one returns, no command of the other is ever accepted
  (`JourneyLaws.SharedPointerStrands`).
- A field sent as null is not the field left out: resending a served command with null where
  the field was absent is refused as a reused key (`CostCommands.NullIsNotAbsent`).
- With a kilometre threshold of zero or less, which the request validators exclude, a sweep
  of the maintenance notices need not settle; `AndonLaws.SecondSweepIsIdleIff` says exactly
  when it does, and `AndonLaws.ZeroThresholdFlaps` gives a unit for which it does not.
- A catalogue threshold edit is stored before it is announced. Between the two an inbox entry
  may disagree with the stock (`StockAlerts.EditedRowMayDisagree`, and exactly when by
  `StockAlerts.EditWaitsForReconcile`); `StockAlerts.AlertsFollowStock` tracks this per item
  and `StockAlerts.ReconcileRestores` shows that the announcement repairs any disagreement.

## Model

| member | source | states |
|---|---|---|
| CostRules.HalfUp | api/src/inventario/cost-rules.ts:20-23 | the rounded quotient is the nearest integer, ties upwards |
| CostRules.NearestIsUnique | api/src/inventario/cost-rules.ts:20-23 | being nearest with ties upwards determines the quotient |
| CostRules.CentsReadsDecimals | api/src/inventario/cost-rules.ts:24-30 | a number's decimal text is accepted as an amount exactly when it has at most sixteen digits, and reads back as that number |
| CostRules.CentsDeterminesText | api/src/inventario/cost-rules.ts:24-30 | an accepted amount text is the only text of its amount |
| CostRules.TaxIsNeverNegative | api/src/inventario/cost-rules.ts:45-74 | tax is at least zero in both modes, for every amount and rate |
| CostRules.TotalIsNetPlusTax | api/src/inventario/cost-rules.ts:31-75 | every accepted cost has total equal to net plus tax, quotes the total or the net according to its mode, carries no tax when untaxed, and otherwise a tax within half a unit of rounding of its rate |
| CostRules.CostIsAcceptedIff | api/src/inventario/cost-rules.ts:31-75 | a cost is accepted exactly when it is pending without an amount, or recorded with a readable amount, a mode, a treatment and, if taxed, a rate within the whole; it keeps what was quoted |
| CostRules.ExcludedThenIncluded | api/src/inventario/cost-rules.ts:45-74 | excluding then including on the resulting total recovers the same net and tax, for all amounts and rates |
| CostRules.IncludedThenExcluded | api/src/inventario/cost-rules.ts:45-74 | including then excluding on the net gives the total within one centavo |
| CostRules.RequoteIncluded | api/src/inventario/cost-rules.ts:31-75 | the first round trip on whole cost inputs, accepted exactly while the total fits the amount field |
| CostRules.RequoteExcluded | api/src/inventario/cost-rules.ts:31-75 | the second round trip on whole cost inputs |
| CostRules.RequotesIffSixteenDigits | api/src/inventario/cost-rules.ts:24-75 | an amount quoted without tax can be quoted again with it exactly when its total needs no seventeenth digit |
| CostRules.LargestQuoteCannotBeRequoted | api/src/inventario/cost-rules.ts:24-75 | the largest accepted amount at sixteen per cent is one that cannot |
| CostRules.ShareAtMostWhole | api/src/inventario/cost-rules.ts:76-85 | the share of some of the pieces never exceeds the whole value |
| CostRules.ShareOfAll | api/src/inventario/cost-rules.ts:76-85 | the share of all pieces is the whole value |
| CostRules.ShareIsToldIff | api/src/inventario/cost-rules.ts:76-85 | a share is told exactly of a value not negative and of some of the pieces, within exact integers, and is then the nearest one |
| CostRules.OneMoreOutflow | api/src/inventario/cost-rules.ts:20-23 | one more rounded outflow widens the distance to the proportional value by at most half a centavo, scaled exactly |
| Decimals.ParseAfterDecimal | api/src/logistica/journey.service.ts:405-407 | printing then parsing a revision or amount is the identity |
| Decimals.DecimalAfterParse | api/src/inventario/cost-rules.ts:24-30 | parsing then printing a canonical decimal is the identity |
| InventoryService.Service.LockedRow | api/src/inventario/inventory-costs.service.ts:145-173 | the valuation row a command works on: stored, created, or reset when it lags the stock |
| InventoryService.Service.FindById | api/src/inventario/inventory-costs.service.ts:504-505 | the search returns the operation with that identifier, or none when there is none |
| InventoryService.Service.PriorReturns | api/src/inventario/inventory-costs.service.ts:513-529 | the loop totals the pieces and money of all earlier returns and says whether every cost is known |
| InventoryService.Service.Receive | api/src/inventario/inventory-costs.service.ts:198-256 | tables and answer after a receipt, each refusal included |
| InventoryService.Service.RecordDelta | api/src/inventario/inventory-costs.service.ts:257-301 | valuation and operation after a stock movement |
| InventoryService.Service.MoveStock | api/src/inventario/inventario.service.ts:775-831 | stock, movement and cost of one change, undone together if the cost is refused |
| InventoryService.Service.Adjust | api/src/inventario/inventory-costs.service.ts:326-370 | tables and answer after an adjustment |
| InventoryService.Service.ApplyDelta | api/src/inventario/inventario.service.ts:752-832 | the single stock writer of entries, adjustments and visits |
| InventoryService.Service.WasApplied | api/src/inventario/inventario.service.ts:684-696 | true exactly when the event or the visit already has an operation |
| InventoryService.Service.ApplyVisitaCerrada | api/src/inventario/inventario.service.ts:675-746 | all lines in item order, or the tables as they were |
| InventoryService.Service.Opening | api/src/inventario/inventory-costs.service.ts:371-413 | tables and answer after an opening |
| InventoryService.Service.Revise | api/src/inventario/inventory-costs.service.ts:414-490 | tables and answer after a completed or corrected cost |
| InventoryService.Service.ReturnFromOrder | api/src/inventario/inventory-costs.service.ts:491-577 | tables and answer after a return |
| InventoryService.Service.CreateItem | api/src/inventario/inventario.service.ts:217-252 | the new item with trimmed SKU and name, its empty stock row and the crossing announced; refusals for family, empty texts and a SKU in use |
| InventoryService.Service.UpdateItem | api/src/inventario/inventario.service.ts:254-303 | the changed item, its thresholds and the crossing announced; each refusal in the order it is found |
| Texts.TrimLeaves | api/src/common/require-trimmed.ts:3-9 | trimming leaves nothing exactly of blank text, otherwise text with no space at either end, and is idempotent |
| Texts.TrimIsMiddle | api/src/common/require-trimmed.ts:3-9 | trimming takes only space, and only from the ends |
| InventoryService.Service.UpdateAlertThreshold | api/src/inventario/inventario.service.ts:429-451 | thresholds stored without an announcement, or refused |
| InventoryLaws.PerformKeeps | api/src/inventario/inventory-costs.service.ts:145-577 | each command keeps stock equal to its movements, stored rows equal to the stock, empty stock worth 0, the value equal to its reset plus the records since and the missed corrections, and the rounding bound |
| InventoryEffects.LockedIsStoredOrReset | api/src/inventario/inventory-costs.service.ts:145-173 | a valuation row in step with the stock is the stored one; a missing or lagging one knows its value only of no stock and keeps version and cut |
| InventoryEffects.ReceiptIsAcceptedIff | api/src/inventario/inventory-costs.service.ts:198-226 | a receipt is accepted exactly with a good cost, an active supplier, an active item with stock row, and sums that fit; which refusal comes first |
| InventoryEffects.ReceiptEntersAtNet | api/src/inventario/inventory-costs.service.ts:205-256 | the record carries the calculated cost and its net, that is its total less its tax; a known value grows by exactly that, and an unknown cost or value leaves it unknown; nothing else changes |
| InventoryEffects.ReceiptIsRecorded | api/src/inventario/inventory-costs.service.ts:228-253 | record and movement tell item, pieces, supplier, document, note, actor and time of the receipt |
| InventoryEffects.AdjustmentsAreRecorded | api/src/inventario/inventory-costs.service.ts:326-360 | both kinds of adjustment are accepted exactly while stock stays within its range, and leave one movement and one record of who, why and how many |
| InventoryEffects.EntryIsRecorded | api/src/inventario/inventario.service.ts:602-617 | an entry leaves an unpriced receipt record and an unknown value |
| InventoryEffects.ClosureIsFiled | api/src/inventario/inventario.service.ts:684-742 | a closure known by its event or visit changes nothing; any other is accepted exactly when the stock covers it, and adds one record per line, one movement per line from stock and one pending receipt per purchase, each told from its line and the visit |
| InventoryEffects.LinesAreWorkedByItem | api/src/inventario/inventario.service.ts:698-701 | lines are worked in item order, those of one item in the order given |
| InventoryEffects.VisitIsServedOnce | api/src/inventario/inventario.service.ts:684-697 | after a closure that consumed anything, another with the same event or the same visit changes nothing, after any run |
| InventoryEffects.OpeningIsAcceptedIff | api/src/inventario/inventory-costs.service.ts:371-391 | an opening is accepted exactly with a readable amount, a reason, zero value for no stock, and the stock and version the client saw |
| InventoryEffects.OpeningIsRecorded | api/src/inventario/inventory-costs.service.ts:392-410 | the item is then worth the amount given, cut at this instant, pieces and movements untouched, and the record says so |
| InventoryEffects.RevisionIsAcceptedIff | api/src/inventario/inventory-costs.service.ts:414-461 | a revision is accepted exactly of a receipt, consumption or purchase at the version seen, priced, with a reason, with an active supplier for purchases, without returns for consumptions, and with authority to correct a known amount |
| InventoryEffects.RevisionIsRecorded | api/src/inventario/inventory-costs.service.ts:448-488 | the record takes the new cost at its net and keeps the old one in its history; the value is reopened exactly for a receipt or consumption not before the cut |
| InventoryEffects.ReturnIsRefusedFor | api/src/inventario/inventory-costs.service.ts:498-518 | each refusal of a return names what was missed |
| InventoryEffects.ReturnIsAccepted | api/src/inventario/inventory-costs.service.ts:498-548 | a return with a reason, against a consumption with that many pieces left, is refused only for exceeding a column |
| InventoryEffects.ReturnCostsItsShare | api/src/inventario/inventory-costs.service.ts:519-532 | a return costs the nearest share of the money its consumption has left over the pieces it has left, and is unknown exactly when the consumption is |
| InventoryEffects.ReturnIsRecorded | api/src/inventario/inventory-costs.service.ts:533-573 | the pieces come back, a known value grows by that cost, and record and movement carry the visit, unit and source of the consumption |
| InventoryEffects.ItemIsCreated | api/src/inventario/inventario.service.ts:217-252 | an item is created exactly with an active family, a free SKU and a name, trimmed, active unless said otherwise, without stock |
| InventoryEffects.ItemIsUpdatedIff | api/src/inventario/inventario.service.ts:254-287 | an edit is accepted exactly of an item there is, with levels in order, texts not empty, a family that exists and a SKU nobody else has |
| InventoryEffects.ItemIsUpdated | api/src/inventario/inventario.service.ts:262-300 | an edit replaces the fields given and no other; the critical level comes down with the minimum unless given |
| InventoryEffects.ThresholdIsStored | api/src/inventario/inventario.service.ts:429-451 | catalogue levels are stored exactly when in order |
| InventoryEffects.RunKeepsCatalogue | api/src/inventario/inventario.service.ts:217-303 | over every run SKUs stay trimmed and unique and every critical level lies between zero and its minimum |
| InventoryLaws.ReviseKeeps | api/src/inventario/inventory-costs.service.ts:462-486 | a revision keeps the value equal to the records since its reset, apart from what blind revisions changed behind its back |
| InventoryLaws.ConservationEndsIffBlind | api/src/inventario/inventory-costs.service.ts:474-485 | from a conserved value, a served command leaves it conserved if and only if it is not a revision that skips the reopening of a valued item while changing a record made since the reset |
| InventoryRuns.RunKeepsAllStock | api/src/inventario/inventario.service.ts:752-832 | over every run each item's stock is non-negative, the sum of its movement deltas, and what its valuation was computed at |
| InventoryRuns.ValueIsConserved | api/src/inventario/inventory-costs.service.ts:198-577 | over every run a known value is its last reset plus the signed nets recorded since plus the gap of unnoticed corrections, so it is conserved exactly when that gap is zero |
| InventoryRuns.ConservedIffNoneBlind | api/src/inventario/inventory-costs.service.ts:414-490 | over every run the value is conserved after each event if and only if no accepted revision of the run goes unnoticed |
| InventoryRuns.PromptRunsConserve | api/src/inventario/inventory-costs.service.ts:474-485 | in particular every run without visits dated before the cut they are posted after conserves the value throughout |
| InventoryRuns.ConservationAtRest | api/src/inventario/inventory-costs.service.ts:198-577 | the same on the rows a reader sees after any run from any lawful tables, with non-negative value and zero for empty stock; the gap is zero when no revision went unnoticed |
| InventoryRuns.LateConsumptionGoesUnnoticed | api/src/inventario/inventory-costs.service.ts:474-485 | five commands from the empty tables: conserved until an accepted correction of a late consumption leaves 300 centavos where reset and records say 400 |
| InventoryRuns.RoundingNeverDrifts | api/src/inventario/inventory-costs.service.ts:257-301 | over every run the value is within k/2 centavos of its exact share after k outflows since the last inflow |
| InventoryRuns.OutflowsShareProportionally | api/src/inventario/inventory-costs.service.ts:275-285 | a known value V0 over Q0 pieces stays known over k outflows, which leave 2·abs(V·Q0 − V0·Q) at most k·Q0, and exactly 0 when the pieces run out |
| Returns.ReturnKeepsOwnBalance | api/src/inventario/inventory-costs.service.ts:513-541 | one return moves its consumption's balance by one rounded share |
| Returns.ReviseKeepsReturns | api/src/inventario/inventory-costs.service.ts:455-461 | no revision breaks a balance, because a consumption with returns is frozen |
| Returns.RunKeepsReturns | api/src/inventario/inventory-costs.service.ts:491-577 | over every run returned pieces never exceed the consumed, costs are known on both sides or neither, returned money never exceeds the net and equals it once all is returned, with the k/2 bound in between |
| Visits.ClosureConsumesAllOrNothing | api/src/inventario/inventario.service.ts:698-742 | a closure is accepted exactly when its lines are well formed and the stock covers them together, and then takes exactly those pieces |
| Visits.RunKeepsHistory | api/src/inventario/inventory-costs.service.ts:180-197 | records are never removed and keep what ties them to a visit |
| Visits.ClosureIsServedOnce | api/src/inventario/inventario.service.ts:680-697 | delivering a served closure again, after any run, changes nothing |
| CanonicalJson.CanonIsIdempotent | api/src/inventario/inventory-costs.service.ts:117-126 | canonicalising twice is canonicalising once |
| CanonicalJson.CanonIffSimilar | api/src/inventario/inventory-costs.service.ts:117-129 | payloads with unique keys have equal canonical forms if and only if they differ only in field order, at any depth |
| CostCommands.PayloadDeterminesCommand | api/src/inventario/inventory-costs.service.ts:198-203 | a payload carries at most one command |
| CostCommands.HashIdentifiesCommand | api/src/inventario/inventory-costs.service.ts:117-129 | two payloads hash alike exactly when they carry the same command |
| CostCommands.IdentityIsInjective | api/src/inventario/inventory-costs.service.ts:114-116 | subject and key are recovered from the identity they are joined into |
| CostCommands.PrecheckForesees | api/src/inventario/inventory-costs.service.ts:377-383 | the checks made before the key is looked up are the ones the command itself would have failed on |
| CostCommands.PrecheckRefusesIff | api/src/inventario/inventory-costs.service.ts:198-500 | what a request is refused for before its key is looked at |
| CostCommands.FirstRequestIsServed | api/src/inventario/inventory-costs.service.ts:130-143 | under a free key a request is served exactly when its checks, its key and the command allow it, and leaves the command's tables and one receipt |
| CostCommands.ReplyTells | api/src/inventario/inventory-costs.service.ts:198-577 | the reply carries the record made and the pieces and valuation that the item of the command then has |
| CostDesk.OperationDesk.Perform | api/src/inventario/inventory-costs.service.ts:198-577 | each action does the work of its service method |
| CostDesk.OperationDesk.Command | api/src/inventario/inventory-costs.service.ts:100-144 | tables, receipts and answer of a keyed command |
| CostCommands.ResendRecoversReply | api/src/inventario/inventory-costs.service.ts:130-143 | a served command resent after any run, fields in any order, gets the first answer and changes nothing |
| CostCommands.OtherDataIsRefused | api/src/inventario/inventory-costs.service.ts:132-139 | other data under a served key is refused and changes nothing, after any run |
| CostCommands.ResendIsAnsweredIff | api/src/inventario/inventory-costs.service.ts:117-139 | for any two payloads: under a served key the second gets the first answer if and only if it is the first up to field order, else it is refused, after any run and changing nothing |
| CostCommands.NullIsNotAbsent | api/src/inventario/inventory-costs.service.ts:117-139 | a served request resent with null for an absent field is refused |
| CostCommands.RefusalLeavesNoTrace | api/src/inventario/inventory-costs.service.ts:130-143 | a refused command leaves tables and receipts as they were |
| Inbox.IngestEffect | api/src/notifications/inbox-engine.ts:29-42 | an event opens or refreshes exactly its own key, and keys and identifiers stay distinct |
| Inbox.IngestRecords | api/src/notifications/inbox-rules.ts:175-221 | the entry keeps its identity, takes the event's source and severity, and dates from its last opening |
| Inbox.IngestAndReads | api/src/notifications/inbox-engine.ts:29-42 | reopening an expired entry clears every user's read mark of it, refreshing a live one clears none |
| Inbox.ExpireEffect | api/src/notifications/inbox-engine.ts:44-52 | expiring closes exactly its own key and is idempotent |
| Inbox.ExpireRecords | api/src/notifications/inbox-engine.ts:44-52 | a live entry is closed now and keeps the rest; a closed one keeps its time |
| Inbox.LiveMeansListed | api/src/notifications/inbox-rules.ts:31-33 | an entry is live exactly when the list would still show it |
| Inbox.ListIsComplete | api/src/notifications/inbox-engine.ts:80-95 | the list shows exactly the live entries, unread before read and newest first |
| Inbox.UnreadComeFirst | api/src/notifications/inbox-engine.ts:80-95 | unread entries precede read ones, and newer precede older within each |
| Inbox.ListedOnce | api/src/notifications/inbox-engine.ts:80-95 | no entry is listed twice |
| Inbox.MarkReadMarks | api/src/notifications/inbox-engine.ts:54-66 | a live entry is marked once, at the first time, for one user only |
| Inbox.MarkAllReadEmptiesBadge | api/src/notifications/inbox-engine.ts:68-100 | marking all read empties that user's badge, keeps earlier marks and touches no other user |
| Inbox.InboxEngine.FindDedupe | api/src/notifications/in-memory-inbox-store.ts:10-12 | the first entry with the key, or none |
| Inbox.InboxEngine.SaveItem | api/src/notifications/in-memory-inbox-store.ts:18-20 | replaces the entry with the same identifier or appends |
| Inbox.InboxEngine.Receive | api/src/notifications/inbox-engine.ts:29-42 | the box after an event, and the entry it left |
| Inbox.InboxEngine.Expire | api/src/notifications/inbox-engine.ts:44-52 | the box after an expiry |
| Inbox.InboxEngine.ReadOne | api/src/notifications/inbox-engine.ts:54-66 | the box and answer after reading one entry, refusals included |
| Inbox.InboxEngine.ReadEverything | api/src/notifications/inbox-engine.ts:68-78 | the box after reading all, and how many were unread |
| StockAlerts.AnnounceEffect | api/src/inventario/stock-alert-emit.ts:11-56 | what one crossing does to its item's entry, and to no other |
| StockAlerts.ShortageIsByLevels | api/src/inventario/stock-alerta-rules.ts:18-29 | a row is short at or under its minimum and critically so at or under its critical level |
| StockAlerts.EventIsChange | api/src/inventario/stock-alerta-rules.ts:36-61 | an event is told exactly when the row comes to call for another alert |
| StockAlerts.ShortageIsNamed | api/src/inventario/stock-alert-emit.ts:11-56 | the entry of a shortage names its event and dates from it; with the type off there is none |
| StockAlerts.CommandChains | api/src/inventario/inventario.service.ts:217-303 | the crossings a command announces lead, per item and without a gap, from the old row to the new one |
| StockAlerts.ReconcileAnnounces | api/src/inventario/inventario.service.ts:490-504 | reconciling makes the listed entries agree with the stock, whatever they showed |
| StockAlerts.AlertsFollowStock | api/src/inventario/stock-alerta-rules.ts:36-61 | over any run an entry agrees with the stock as far as its item's threshold edits were announced and the type was active; a live entry always means low stock once edits are announced |
| StockAlerts.ActiveAlertsAgree | api/src/inventario/stock-alerta-rules.ts:18-61 | with the type active throughout, an entry is live exactly when the stock is low, with the severity the stock calls for |
| StockAlerts.ReconcileRestores | api/src/inventario/inventario.service.ts:490-504 | agreement is restored by one reconciliation after any history |
| StockAlerts.EditWaitsForReconcile | api/src/inventario/inventario.service.ts:429-451 | an accepted catalogue edit keeps agreement exactly when the new thresholds call for the same alert |
| StockAlerts.EditedRowMayDisagree | api/src/inventario/inventario.service.ts:429-451 | from an empty shop, an item created and then given a minimum is low on stock with no live entry |
| StockAlerts.StockAlertPublisher.Publish | api/src/inventario/stock-alert-emit.ts:11-56 | the event decided and the inbox after it |
| StockAlerts.StockAlertPublisher.PublishAll | api/src/inventario/inventario.service.ts:743-745 | crossings announced in order |
| StockAlerts.StockAlertPublisher.Reconcile | api/src/inventario/inventario.service.ts:490-504 | rows announced afresh one by one |
| JourneyRules.RevisionTextIsAccepted | api/src/logistica/journey-command.ts:15-18 | a revision's text is accepted exactly up to the 64-bit limit |
| JourneyRules.HeadersAreAcceptedIff | api/src/logistica/journey-command.ts:20-68 | headers are accepted exactly with a key, a subject neither blank nor over 128 characters, a unit revision and a situation that fits together; the command repeats them |
| JourneyRules.LegacyRefHasThreeParts | api/src/logistica/journey-command.ts:47-51 | a legacy reference is the word, thirty-six hexadecimal digits or dashes, and a number |
| JourneyRules.JourneyUuidHasVersion | api/src/logistica/journey-command.ts:13-14 | journey identifiers have a version from one to five and a standard variant |
| JourneyRules.LowerFoldsLetters | api/src/logistica/journey-receipt.entity.ts:10-25 | keys compare without letter case |
| Journeys.LogisticaJourneyService.FindOneReceipt | api/src/logistica/journey.service.ts:250-257 | the receipt of the actor's key, or none |
| Journeys.LogisticaJourneyService.Depart | api/src/logistica/journey.service.ts:268-350 | the unit and journey rows of a departure, or its refusal |
| Journeys.LogisticaJourneyService.Arrive | api/src/logistica/journey.service.ts:351-403 | the unit and journey rows of a return, recovered legacy rows included |
| Journeys.LogisticaJourneyService.ExecuteCommand | api/src/logistica/journey.service.ts:211-425 | tables and answer of one command, each refusal included |
| JourneyLaws.PlanActs | api/src/logistica/journey.service.ts:268-424 | what an accepted departure or return writes, as the laws see it |
| JourneyEffects.LookupAnswers | api/src/logistica/journey.service.ts:211-257 | session, unit, permission and key are checked in that order, and what each refusal means |
| JourneyEffects.SameDigestIff | api/src/logistica/journey.service.ts:224-236 | two requests are the same exactly when they agree but for space around a destination both give |
| JourneyEffects.DescribeSaysWhatIsStored | api/src/logistica/journey.service.ts:105-155 | a unit's situation shows its stored rows, and is refused exactly when they contradict each other |
| JourneyEffects.DepartureIsAcceptedIff | api/src/logistica/journey.service.ts:246-299 | a departure is accepted exactly with a free key and the current situation named, the policy's consent, a unit at rest, an ambito, and a driver who is active and free |
| JourneyEffects.DepartureIsRecorded | api/src/logistica/journey.service.ts:300-424 | unit and journey carry the ambito asked for, the destination kept, cleared or trimmed, the driver with its provenance and both departure times; the receipt repeats the request; no other row changes |
| JourneyEffects.ReturnIsAcceptedIff | api/src/logistica/journey.service.ts:351-353 | a return is accepted exactly of a unit on the road whose current situation is named, no earlier than its departure |
| JourneyEffects.ReturnIsRecorded | api/src/logistica/journey.service.ts:351-424 | the unit is at rest with its driver and destination; its journey is closed, or recovered with what was observed and nothing invented |
| JourneyEffects.RefusalsAreTold | api/src/logistica/journey.service.ts:258-353 | each refusal of a known unit's command, and exactly when it is given |
| JourneyLaws.RunKeepsJourneys | api/src/logistica/journey.service.ts:105-155 | over every run: at rest without pointer or open row, on the road with only the pointed row open, or still in the first legacy situation; revisions, times and pointers consistent; receipts of a unit a gap-free alternating chain |
| JourneyLaws.DescribeNeverConflicts | api/src/logistica/journey.service.ts:105-155 | no reachable unit is described as contradictory; an open journey has revision 1; a missing row or pointer means no command was accepted yet |
| JourneyLaws.AcceptedNamesCurrent | api/src/logistica/journey.service.ts:258-266 | an accepted command named the current situation, advanced its unit by one revision and touched no other unit |
| JourneyLaws.StaleIsNeverApplied | api/src/logistica/journey.service.ts:258-266 | a command decided on an older revision is never applied, whatever happens in between |
| JourneyLaws.KeyIsSpent | api/src/logistica/journey.service.ts:237-257 | an accepted command resent after any run is answered as served, another request under its key is refused, and neither changes anything |
| JourneyLaws.SharedPointerStrands | api/src/logistica/journey.service.ts:105-155 | of two units on the road with one pointer, once one returns every command of the other is refused, after any run |
| JourneyLaws.EchoIsAccepted | api/src/logistica/journey-command.ts:20-68 | a reachable situation echoed in headers parses, and names that situation, exactly when key, subject, revision and pointer have their admitted form |
| JourneyInterleaving.DriverCheckIsLate | api/src/logistica/journey.service.ts:277-295 | a decided departure differs from the serial one only by the driver check, which the unique column repeats at commit |
| JourneyInterleaving.OthersDecisionsStand | api/src/logistica/journey.service.ts:56-66 | a commit on one unit leaves what a transaction on another unit decided |
| JourneyInterleaving.CommitIsSerial | api/src/logistica/journey.service.ts:404-425 | at its commit a transaction does what it would do alone |
| JourneyInterleaving.InterleavingIsSerial | api/src/logistica/journey.service.ts:246-446 | every interleaving leaves the tables of the accepted calls run alone in commit order, so all serial laws hold |
| JourneyInterleaving.KeyCommitsOnce | api/src/logistica/journey-receipt.entity.ts:10-25 | a key commits at most once, whichever units raced for it |
| JourneyInterleaving.LoserIsRefused | api/src/logistica/journey.service.ts:428-446 | the loser of a key race is refused as reused |
| JourneyInterleaving.AnswersAreSerial | api/src/logistica/journey.service.ts:211-446 | every answer of every interleaving accepts, replays or refuses as the request alone would on the tables committed by then; a refusal's reason differs exactly when the key was spent meanwhile or, at a failed commit, another unit has the driver |
| JourneyInterleaving.OnlyCommitsWrite | api/src/logistica/journey.service.ts:426-446 | only a commit changes the tables |
| Andon.DaysCount | api/src/andon/andon-rules.ts:5-9 | the day count is the floor of the elapsed days, also into the past |
| Andon.AndonEngine.GetNoResuelto | api/src/andon/in-memory-store.ts:20-26 | the unit's first notice that is not resolved, or none |
| Andon.AndonEngine.UpdateAviso | api/src/andon/in-memory-store.ts:36-41 | the notice with the same identifier is replaced |
| Andon.AndonEngine.Evaluate | api/src/andon/andon-engine.ts:68-174 | notices, inbox and answer after evaluating one unit |
| Andon.AndonEngine.Handle | api/src/andon/andon-engine.ts:180-212 | notices, inbox and answer after a closed visit |
| Andon.AndonEngine.Acknowledge | api/src/andon/andon-engine.ts:214-242 | notices after an acknowledgement, refusals included |
| Andon.AndonEngine.EvaluateAll | api/src/andon/andon-engine.ts:261-281 | notices, inbox and opened notices after a sweep |
| AndonLaws.EvaluateEffect | api/src/andon/andon-engine.ts:68-174 | one evaluation withdraws, refreshes, opens or leaves its own unit's notice and entry, and no other |
| AndonEffects.LimitsComeFromType | api/src/andon/andon-engine.ts:76-81 | thresholds come from the catalogue's vehicle type, else the last visit's, else the defaults |
| AndonEffects.PriorityIsByExcess | api/src/andon/andon-rules.ts:12-26 | a priority exactly when overdue by either measure, critical when far enough over by either |
| AndonEffects.UrgencyGrows | api/src/andon/andon-rules.ts:12-26 | more kilometres or days never lower the priority |
| AndonEffects.EvaluationDecides | api/src/andon/andon-engine.ts:68-174 | only an active unit with a closed visit is judged: its notice is withdrawn now when no longer overdue, one is opened with its figures when overdue, nothing else changes |
| AndonEffects.EvaluationIsAnnounced | api/src/andon/andon-engine.ts:101-127 | with the type active the entry of an overdue unit names its notice and shows its priority |
| AndonEffects.UnvisitedIsQuiet | api/src/andon/andon-engine.ts:101-127 | a unit without a told visit changes and announces nothing under thresholds of at least one |
| AndonEffects.ClosureIsStored | api/src/andon/andon-engine.ts:180-212 | a first delivery becomes its unit's last closure and resolves its notice by that visit and closing time; other closures stay |
| AndonEffects.ClosureStartsAfresh | api/src/andon/andon-engine.ts:203-281 | right after it a sweep finds the unit at no kilometres and judges it by the days since that closure alone |
| AndonEffects.AcknowledgementIsStored | api/src/andon/andon-engine.ts:214-242 | only a supervisor acknowledges, only an open notice changes, and it remembers who and when |
| AndonEffects.SweepTellsItsOpenings | api/src/andon/andon-engine.ts:261-281 | a sweep tells exactly the notices it added, in order |
| AndonLaws.HandleEffect | api/src/andon/andon-engine.ts:180-212 | a closed visit resolves its unit's notice and closes that notice's entry, touching no other unit; a repeated delivery changes nothing |
| AndonLaws.EnteradoEffect | api/src/andon/andon-engine.ts:214-242 | acknowledging opens and closes nothing and only moves a notice forward |
| AndonLaws.ReopeningClearsReads | api/src/notifications/inbox-engine.ts:29-42 | a notice opened where an old entry had expired is unread for everyone |
| AndonLaws.InboxFollowsNotices | api/src/andon/andon-engine.ts:82-212 | over any run at most one unresolved notice per unit, resolved ones final, every live entry has its notice, and with the type active the converse too |
| AndonLaws.RedeliveryChangesNothing | api/src/andon/andon-engine.ts:183-186 | a closed-visit event delivered again, however much later, changes nothing |
| AndonLaws.SweepSettles | api/src/andon/andon-engine.ts:261-281 | after a sweep an active unit with a closed visit has an unresolved notice exactly when it is overdue, and its entry shows the current priority |
| AndonLaws.SecondSweepChangesNoNotice | api/src/andon/andon-engine.ts:261-281 | a second sweep at the same instant changes no notice, for thresholds of at least one kilometre |
| AndonLaws.TwiceSettlesUnless | api/src/andon/andon-engine.ts:82-99 | without that bound, a repeated evaluation is idle if and only if the first did not withdraw a notice below a threshold of zero or less |
| AndonLaws.SweepIsIdleIff | api/src/andon/andon-engine.ts:261-281 | a sweep changes no notice exactly when every listed unit is at rest |
| AndonLaws.SecondSweepIsIdleIff | api/src/andon/andon-engine.ts:82-99 | for any thresholds, a second sweep at the same instant changes no notice if and only if before the first no unit listed once had a notice below a threshold of zero or less with its days not up |
| AndonLaws.ZeroThresholdFlaps | api/src/andon/andon-engine.ts:82-99 | a unit for which it is not idle |
| HealthScore.NoCliffs | api/src/salud/maintenance-score.ts:15-34 | the axis never falls as more is left, and never moves faster than 1100/3 per interval |
| HealthScore.PiecesMeet | api/src/salud/maintenance-score.ts:15-34 | neighbouring pieces agree at all five breakpoints |
| HealthExplained.Landmarks | api/src/salud/maintenance-score.ts:15-34 | the axis is 100, 90, 35, 15 and 0 at one, the window, nothing, the window over and twice the interval |
| HealthExplained.StraightBetweenLandmarks | api/src/salud/maintenance-score.ts:15-34 | and goes straight between them |
| HealthExplained.AxisLandmarks | api/src/salud/maintenance-score.ts:36-44 | the same in terms of what was used of an interval, none of which scores 0 |
| HealthScore.ScoreFromRatio | api/src/salud/maintenance-score.ts:15-34 | the axis stays within 0 and 100 |
| HealthScore.AxisMoves | api/src/salud/maintenance-score.ts:36-44 | using more never raises an axis and lowers it by a bounded amount |
| HealthScore.OneKilometre | api/src/salud/health-score.ts:183-191 | one more kilometre costs the kilometre axis at most 1100/3 of one interval |
| HealthScore.AlertsScoreFrom | api/src/salud/alerts-score.ts:8-17 | 100 less the penalties of source alerts, never below 0 |
| HealthExplained.OneAlertCosts | api/src/salud/alerts-score.ts:8-17 | what one alert of each severity costs; derived ones cost nothing |
| HealthExplained.AlertsAddUp | api/src/salud/alerts-score.ts:8-17 | alerts add up until nothing is left |
| HealthScore.MorePenalties | api/src/salud/alerts-score.ts:8-17 | more alerts in any order never cost less |
| HealthScore.ValidateWeights | api/src/salud/config-rules.ts:37-69 | accepts exactly the three known dimensions once each with whole percentages adding up to 100, and reports the actual sum |
| HealthScore.RawIsPercent | api/src/salud/health-score.ts:33-39 | the weighted mean of percentages is a percentage |
| HealthScore.ApplyCaps | api/src/salud/health-score.ts:50-79 | the lowest ceiling that applies, reported only when it lowered the score |
| HealthScore.DisplayScore | api/src/salud/health-score.ts:29-31 | the displayed score is within half a point of the final one and within 0 and 100 |
| HealthScore.ComputeUnitHealth | api/src/salud/health-score.ts:126-307 | score, status, breakdown with availability and governing axis, cap and drivers of a unit |
| HealthExplained.AxesMeasureUse | api/src/salud/health-score.ts:183-196 | the axes measure kilometres and whole days since the last closed visit |
| HealthExplained.WorseAxisGoverns | api/src/salud/health-score.ts:197-205 | the maintenance line is the worse axis, kilometres on a tie; it governs the line and the first explanation |
| HealthExplained.FinalIsUnderItsCeilings | api/src/salud/health-score.ts:50-79 | the final score is the raw one under 30 for a critical safety alert and under 50 for a severely overdue axis, and the cap told is the one that lowered it |
| HealthExplained.OverdueShowsAtMostFifty | api/src/salud/health-score.ts:50-79 | either axis severely overdue shows at most 50, poor or worse; twice over an interval is severe |
| HealthExplained.StatusIsByDisplay | api/src/salud/health-score.ts:41-48 | the status changes at 90, 75, 60 and 40 of the displayed score |
| HealthExplained.RawIsWeightedMean | api/src/salud/health-score.ts:206-232 | the raw score is the mean of each dimension's own score under its own weight, an unscored inspection left out |
| HealthExplained.NoVisitNoScore | api/src/salud/health-score.ts:142-181 | without a closed visit nothing is scored |
| HealthExplained.LinesCarryTheirWeights | api/src/salud/health-score.ts:239-273 | each line carries its own weight, availability and score |
| HealthScore.ScoreObeysCaps | api/src/salud/health-score.ts:50-79 | for a valid configuration the score is a percentage, at most 30 under a critical safety alert and at most 50 when severely overdue |
| HealthScore.ContributionsAddUp | api/src/salud/health-score.ts:239-273 | whenever some weight applies, the breakdown contributions add up to the raw score, and exactly the applicable lines with a score contribute |
| HealthScore.WearNeverHelps | api/src/salud/health-score.ts:126-307 | more kilometres, days or alerts never raise the raw score, the displayed score or the status |
| Salud.SaludEngine.EnsureActive | api/src/salud/salud-engine.ts:79-93 | the active configuration, created from the defaults when there is none |
| Salud.SaludEngine.Evaluate | api/src/salud/salud-engine.ts:140-234 | alerts, score, inbox and answer after evaluating one unit |
| SaludLaws.AnswerNamesOpenAlert | api/src/salud/salud-engine.ts:245-274 | the answer names the alert that is open for the unit afterwards, if one is, and the score then stored |
| SaludEffects.EvaluatedUnderWhatIsInForce | api/src/salud/salud-engine.ts:79-93 | a unit is judged under the active configuration, and under the stored defaults where there was none |
| SaludEffects.JudgedOnFacts | api/src/salud/salud-engine.ts:143-162 | the odometer is the furthest reading and an open notice costs thirty points |
| SaludEffects.AlertFate | api/src/salud/health-alert-rules.ts:17-48 | an open alert stays, the same, exactly while the score is absent or below the recovery threshold, whether or not the rule is on; one opens exactly when the rule is on and the score has just fallen below the alert threshold |
| SaludEffects.AlertIsAnnounced | api/src/salud/salud-engine.ts:175-222 | the entry is named after an alert that opens while the type is active, closed with one resolved, else untouched |
| SaludEffects.ScoreIsStored | api/src/salud/salud-engine.ts:224-231 | each evaluation stores score, raw score, status, time and version of its unit only |
| SaludEffects.AnswerShowsComputation | api/src/salud/salud-engine.ts:249-276 | the answer shows that computation and the version and weights it was made under |
| Salud.SaludEngine.EvaluateCatalog | api/src/salud/salud-engine.ts:236-243 | the same for the catalogue in order |
| Salud.SaludEngine.Save | api/src/salud/salud-engine.ts:99-138 | a valid configuration becomes the next version and every unit is judged by it; an invalid one changes nothing |
| SaludLaws.SaveKeepsConfigs | api/src/salud/salud-engine.ts:119-135 | versions grow, earlier ones are kept, and exactly the last is active |
| SaludEffects.ConfigurationIsAcceptedIff | api/src/salud/salud-engine.ts:99-118 | a configuration is accepted exactly with good weights, whole thresholds in order and a known severity |
| SaludEffects.ConfigurationIsStored | api/src/salud/salud-engine.ts:119-135 | the new version carries what was sent, one above the highest, and earlier ones stay but for being active |
| SaludLaws.JudgementWatches | api/src/salud/health-alert-rules.ts:17-48 | a decision leaves a score below the threshold without alert only if the rule is off |
| SaludLaws.HealthAlertsAreComplete | api/src/salud/salud-engine.ts:99-234 | over any run on a fixed catalogue, with readers and other modules using the inbox: one active configuration, growing versions, at most one open alert per unit, an alert for every stored score below the threshold while the rule is on, and the inbox in step |
| SaludLaws.RepeatedEvaluationIsQuiet | api/src/salud/health-alert-rules.ts:17-48 | an evaluation repeated on the same facts changes no alert |
| Flota.ErroresMovimiento | api/src/flota/flota-rules.ts:15-99 | the errors in the order they are found, none exactly when every condition holds |
| Flota.ReadSignatures | api/src/flota/flota-rules.ts:49-61 | true exactly for two signatures, one of each kind, neither empty |
| Flota.RegistrationIsAcceptedIff | api/src/flota/flota-engine.ts:23-80 | in a lawful yard a registration is accepted exactly when its parties are known and active, its figures read, and it fits where unit and driver are |
| Flota.MovementIsRecorded | api/src/flota/flota-engine.ts:66-108 | the movement is stored as sent, and no other unit's row moves |
| Flota.FirstErrorIsFirstMissed | api/src/flota/flota-rules.ts:15-99 | the error told is the first condition missed, in order |
| Flota.EntryErrorsInOrder | api/src/flota/flota-rules.ts:82-97 | of an entry: no exit to close, then its date, then its kilometres |
| Flota.WarningsAreTold | api/src/flota/flota-rules.ts:101-119 | overdue maintenance warns an exit, kilometres below the last visit's warn any movement |
| Flota.PointerNamesExit | api/src/flota/flota-engine.ts:33-41 | an open pointer names an exit of that unit made by the driver its row shows |
| Flota.DriverCheckIsExact | api/src/flota/in-memory-flota-store.ts:66-74 | the search through movements finds a driver exactly when some other unit's row shows that driver out |
| Flota.RunKeepsYard | api/src/flota/flota-engine.ts:23-108 | over any serial run movements alternate from an exit, entries match their exits, and no driver has two units out |
| Flota.EntryCreditsExit | api/src/flota/flota-engine.ts:81-96 | an entry is credited to the driver of the exit it closes, and is neither earlier nor shorter |
| Flota.FlotaEngine.DriverIsOut | api/src/flota/in-memory-flota-store.ts:66-74 | the loop over rows decides whether another unit is out with the driver |
| Flota.FlotaEngine.Register | api/src/flota/flota-engine.ts:23-108 | tables, answer and warnings of one registration, the first error when refused |

## Left out

- Hashes: SHA-256 digests are replaced by the data they cover, that is, taken to be injective.
- Identifiers: random identifiers are drawn from a counter or assumed not to be stored already; the inventory uses numbers where the database uses UUIDs, so item order is numeric.
- Authorisation: facility scopes and the departure policy are yes/no answers that come with each request; the roles and the switch that costing commands need are taken as granted.
- Database: row and advisory locks appear as atomic commands, for journeys as the lock of the unit; isolation levels, the outbox, migrations and seeding are not modelled.
- Column widths: only those a guard or a stored amount can reach are modelled (32-bit quantities, 64-bit amounts and revisions).
- Message texts, deep links, WhatsApp sends and reminders, photographs and display names do not appear; errors are constructors.
- Clocks: one operation reads one clock where the code reads it several times, except journeys, whose effective and registered times are separate samples.
- Journey audit rows, facility versions and the capture epoch's details, and the standing assignment and unassignment of drivers outside departures, are not modelled.
- The open journey of a unit is looked up as any open row, which is the only one under the table's unique index.
- Emission of stock alerts on a replayed cost command, which repeats old quantities, and alerts lost because the inbox failed after the commit.
- Switching costing on and off during a run, and the cost dashboards, tickets and pending receipts beyond their creation.
- Concurrent yard movements on different units: the driver check is not locked across units, so the yard theorems speak of serial runs.
- Physical unit state by latest movement date, which back-dated exits can contradict.
- Floating-point rounding of scores: scores are real numbers, rounded half up for display.
- Stock alerts are announced at once after the command they belong to, so an announcement never reads a row that a later command changed.
- Salud inputs arrive as given: the calls that fetch notices and odometer readings, the drivers' wording, labels and the unit's display number are not modelled.
- Payload order: `localeCompare` can call two distinct keys equal; the order here does not. Validated payloads have only ASCII field names, which it tells apart.
- Items: compatibility with vehicle types, the OEM text and the family's name are not modelled, nor a failure between the separate saves of an item and its stock row.
- Control tower, departure reasons, user directory, insurance, visit checklists and hub views: guards and case analysis without state.
