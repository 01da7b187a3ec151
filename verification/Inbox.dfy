/**
 The notification inbox: at most one entry per de-duplication key, which events open,
 refresh, expire and reopen, and per-user read marks.
 */
module Inbox {
  import opened Texts
  import opened Wrappers

  type Time = int
  type Id = nat

  datatype Severity = Low | Info | Warning | Critical

  /** One key per source event and subject. */
  datatype DedupeKey =
    | AvisoAbierto(unidadId: Id)
    | HealthBelow(unidadId: Id)
    | SinRegreso(unidadId: Id)
    | StockBajo(itemId: Id)

  datatype InboxItem = InboxItem(
    id: Id, sourceRef: Id, severity: Severity, dedupeKey: DedupeKey, createdAt: Time, expiresAt: Option<Time>)

  datatype IngestCommand = IngestCommand(sourceRef: Id, severity: Severity, dedupeKey: DedupeKey, createdAt: Option<Time>)

  /** Items in insertion order, read marks by item and user, and the next identifier. */
  datatype Box = Box(items: seq<InboxItem>, readMarks: map<Id, map<string, Time>>, nextId: Id)

  predicate IsExpired(item: InboxItem, now: Time) {
    item.expiresAt.Some? && item.expiresAt.value <= now
  }

  datatype Ingested = Ingested(item: InboxItem, created: bool, reactivated: bool)

  function ApplyIngest(existing: Option<InboxItem>, cmd: IngestCommand, now: Time, newId: Id): Ingested {
    var at := if cmd.createdAt.Some? then cmd.createdAt.value else now;
    match existing
    case Some(item) =>
      var reactivated := item.expiresAt.Some?;
      Ingested(item.(sourceRef := cmd.sourceRef, severity := cmd.severity, dedupeKey := cmd.dedupeKey, expiresAt := None,
                     createdAt := if reactivated then at else item.createdAt),
               false, reactivated)
    case None =>
      Ingested(InboxItem(newId, cmd.sourceRef, cmd.severity, cmd.dedupeKey, at, None), true, false)
  }

  function ApplyExpire(item: InboxItem, now: Time): InboxItem {
    item.(expiresAt := Some(now))
  }

  // -- The store ------------------------------------------------------------------------

  function FindByDedupe(items: seq<InboxItem>, key: DedupeKey): (r: Option<InboxItem>)
    ensures r.Some? ==> r.value in items && r.value.dedupeKey == key
    ensures r.None? ==> forall i :: 0 <= i < |items| ==> items[i].dedupeKey != key
  {
    if items == [] then None
    else if items[0].dedupeKey == key then Some(items[0])
    else FindByDedupe(items[1..], key)
  }

  function FindById(items: seq<InboxItem>, id: Id): (r: Option<InboxItem>)
    ensures r.Some? ==> r.value in items && r.value.id == id
    ensures r.None? ==> forall i :: 0 <= i < |items| ==> items[i].id != id
  {
    if items == [] then None
    else if items[0].id == id then Some(items[0])
    else FindById(items[1..], id)
  }

  /** Replace the item with the same identifier, or append it. */
  function Save(items: seq<InboxItem>, item: InboxItem): seq<InboxItem> {
    if items == [] then [item]
    else if items[0].id == item.id then [item] + items[1..]
    else [items[0]] + Save(items[1..], item)
  }

  function ReadAt(box: Box, user: string, itemId: Id): Option<Time> {
    if itemId in box.readMarks && user in box.readMarks[itemId] then Some(box.readMarks[itemId][user]) else None
  }

  function SaveRead(box: Box, itemId: Id, user: string, at: Time): Box {
    var byUser := if itemId in box.readMarks then box.readMarks[itemId] else map[];
    box.(readMarks := box.readMarks[itemId := byUser[user := at]])
  }

  // -- The engine -----------------------------------------------------------------------

  function Ingest(box: Box, cmd: IngestCommand, now: Time): Box {
    var done := ApplyIngest(FindByDedupe(box.items, cmd.dedupeKey), cmd, now, box.nextId);
    Box(Save(box.items, done.item),
        if done.reactivated then box.readMarks - {done.item.id} else box.readMarks,
        if done.created then box.nextId + 1 else box.nextId)
  }

  function ExpireDedupe(box: Box, key: DedupeKey, now: Time): Box {
    match FindByDedupe(box.items, key)
    case None => box
    case Some(item) => if IsExpired(item, now) then box else box.(items := Save(box.items, ApplyExpire(item, now)))
  }

  datatype InboxError = NotFound | UserRequired

  function MarkRead(box: Box, itemId: Id, user: string, now: Time): Result<Box, InboxError> {
    if Blank(user) then Err(UserRequired)
    else
      match FindById(box.items, itemId)
      case None => Err(NotFound)
      case Some(item) =>
        if IsExpired(item, now) then Err(NotFound)
        else Ok(if ReadAt(box, user, itemId).Some? then box else SaveRead(box, itemId, user, now))
  }

  datatype Row = Row(item: InboxItem, readAt: Option<Time>)

  function Active(items: seq<InboxItem>, now: Time): seq<InboxItem> {
    if items == [] then []
    else (if IsExpired(items[0], now) then [] else [items[0]]) + Active(items[1..], now)
  }

  function Rows(box: Box, items: seq<InboxItem>, user: string, unreadOnly: bool): seq<Row> {
    if items == [] then []
    else
      var row := Row(items[0], ReadAt(box, user, items[0].id));
      (if unreadOnly && row.readAt.Some? then [] else [row]) + Rows(box, items[1..], user, unreadOnly)
  }

  /** Unread before read, then newest first. */
  predicate Precedes(a: Row, b: Row) {
    if a.readAt.Some? == b.readAt.Some? then a.item.createdAt >= b.item.createdAt else a.readAt.None?
  }

  function InsertRow(row: Row, sorted: seq<Row>): seq<Row> {
    if sorted == [] || Precedes(row, sorted[0]) then [row] + sorted else [sorted[0]] + InsertRow(row, sorted[1..])
  }

  function SortInbox(rows: seq<Row>): seq<Row> {
    if rows == [] then [] else InsertRow(rows[0], SortInbox(rows[1..]))
  }

  function List(box: Box, user: string, unreadOnly: bool, now: Time): seq<Row> {
    SortInbox(Rows(box, Active(box.items, now), user, unreadOnly))
  }

  function Badge(box: Box, user: string, now: Time): nat {
    |List(box, user, true, now)|
  }

  function ReadAll(box: Box, rows: seq<Row>, user: string, now: Time): Box
    decreases rows
  {
    if rows == [] then box else ReadAll(SaveRead(box, rows[0].item.id, user, now), rows[1..], user, now)
  }

  function MarkAllRead(box: Box, user: string, now: Time): Box {
    ReadAll(box, List(box, user, true, now), user, now)
  }

  // -- Laws -----------------------------------------------------------------------------

  /** Identifiers and keys are distinct, and nothing expires in the future. */
  ghost predicate BoxLaw(box: Box, now: Time) {
    && (forall i, j :: 0 <= i < j < |box.items| ==> box.items[i].id != box.items[j].id && box.items[i].dedupeKey != box.items[j].dedupeKey)
    && (forall i :: 0 <= i < |box.items| ==> box.items[i].id < box.nextId)
    && (forall i :: 0 <= i < |box.items| && box.items[i].expiresAt.Some? ==> box.items[i].expiresAt.value <= now)
  }

  /** Severity of the live entry of a key, if there is one. */
  function Live(box: Box, key: DedupeKey): Option<Severity> {
    var found := FindByDedupe(box.items, key);
    if found.Some? && found.value.expiresAt.None? then Some(found.value.severity) else None
  }

  lemma LawLater(box: Box, now: Time, later: Time)
    requires BoxLaw(box, now) && now <= later
    ensures BoxLaw(box, later)
  {
  }

  lemma {:induction false} SaveReplaces(items: seq<InboxItem>, k: nat, item: InboxItem)
    requires forall i, j :: 0 <= i < j < |items| ==> items[i].id != items[j].id
    requires k < |items| && items[k].id == item.id
    ensures Save(items, item) == items[k := item]
  {
    if k > 0 {
      SaveReplaces(items[1..], k - 1, item);
    }
  }

  lemma {:induction false} SaveAppends(items: seq<InboxItem>, item: InboxItem)
    requires forall i :: 0 <= i < |items| ==> items[i].id != item.id
    ensures Save(items, item) == items + [item]
  {
    if items != [] {
      SaveAppends(items[1..], item);
    }
  }

  lemma {:induction false} FoundIsOnly(items: seq<InboxItem>, k: nat)
    requires forall i, j :: 0 <= i < j < |items| ==> items[i].dedupeKey != items[j].dedupeKey
    requires k < |items|
    ensures FindByDedupe(items, items[k].dedupeKey) == Some(items[k])
  {
    if k > 0 {
      FoundIsOnly(items[1..], k - 1);
    }
  }

  /** Items other than the saved one, and of other keys, are untouched. */
  ghost predicate OnlyChanges(items: seq<InboxItem>, items': seq<InboxItem>, item: InboxItem) {
    item in items' && forall other: InboxItem :: other.dedupeKey != item.dedupeKey ==> (other in items <==> other in items')
  }

  lemma ReplaceOnlyChanges(items: seq<InboxItem>, k: nat, item: InboxItem)
    requires k < |items| && items[k].dedupeKey == item.dedupeKey
    ensures OnlyChanges(items, items[k := item], item)
  {
    var items' := items[k := item];
    assert items'[k] == item;
    forall other: InboxItem | other.dedupeKey != item.dedupeKey
      ensures other in items <==> other in items'
    {
      if other in items {
        var i :| 0 <= i < |items| && items[i] == other;
        assert items'[i] == other;
      }
    }
  }

  lemma AppendOnlyChanges(items: seq<InboxItem>, item: InboxItem)
    ensures OnlyChanges(items, items + [item], item)
  {
    assert (items + [item])[|items|] == item;
  }

  lemma ReplaceKeepsBoxLaw(box: Box, box': Box, k: nat, item: InboxItem, now: Time)
    requires BoxLaw(box, now) && k < |box.items| && box'.items == box.items[k := item] && box'.nextId >= box.nextId
    requires box.items[k].id == item.id && box.items[k].dedupeKey == item.dedupeKey
    requires item.expiresAt.Some? ==> item.expiresAt.value <= now
    ensures BoxLaw(box', now)
  {
  }

  lemma AppendKeepsBoxLaw(box: Box, box': Box, item: InboxItem, now: Time)
    requires BoxLaw(box, now) && box'.items == box.items + [item]
    requires FindByDedupe(box.items, item.dedupeKey).None? && item.id == box.nextId < box'.nextId
    requires item.expiresAt.Some? ==> item.expiresAt.value <= now
    ensures BoxLaw(box', now)
  {
  }

  lemma SaveKeepsBoxLaw(box: Box, box': Box, item: InboxItem, now: Time)
    requires BoxLaw(box, now) && box'.items == Save(box.items, item) && box'.nextId >= box.nextId
    requires FindByDedupe(box.items, item.dedupeKey).None? ==> item.id == box.nextId < box'.nextId
    requires FindByDedupe(box.items, item.dedupeKey).Some? ==> FindByDedupe(box.items, item.dedupeKey).value.id == item.id
    requires item.expiresAt.Some? ==> item.expiresAt.value <= now
    ensures BoxLaw(box', now) && OnlyChanges(box.items, box'.items, item)
  {
    var found := FindByDedupe(box.items, item.dedupeKey);
    if found.Some? {
      var k :| 0 <= k < |box.items| && box.items[k] == found.value;
      SaveReplaces(box.items, k, item);
      ReplaceOnlyChanges(box.items, k, item);
      ReplaceKeepsBoxLaw(box, box', k, item, now);
    } else {
      SaveAppends(box.items, item);
      AppendOnlyChanges(box.items, item);
      AppendKeepsBoxLaw(box, box', item, now);
    }
  }

  /** Saving an item under its own key and identifier: that key shows it, every other key shows what it did. */
  lemma SaveKeepsLaw(box: Box, box': Box, item: InboxItem, now: Time)
    requires BoxLaw(box, now) && box'.items == Save(box.items, item) && box'.nextId >= box.nextId
    requires FindByDedupe(box.items, item.dedupeKey).None? ==> item.id == box.nextId < box'.nextId
    requires FindByDedupe(box.items, item.dedupeKey).Some? ==> FindByDedupe(box.items, item.dedupeKey).value.id == item.id
    requires item.expiresAt.Some? ==> item.expiresAt.value <= now
    ensures BoxLaw(box', now)
    ensures forall key :: FindByDedupe(box'.items, key) == if key == item.dedupeKey then Some(item) else FindByDedupe(box.items, key)
  {
    SaveKeepsBoxLaw(box, box', item, now);
    forall key
      ensures FindByDedupe(box'.items, key) == if key == item.dedupeKey then Some(item) else FindByDedupe(box.items, key)
    {
      SameKey(box, box', item, key);
    }
  }

  lemma SameKey(box: Box, box': Box, item: InboxItem, key: DedupeKey)
    requires forall i, j :: 0 <= i < j < |box.items| ==> box.items[i].dedupeKey != box.items[j].dedupeKey
    requires forall i, j :: 0 <= i < j < |box'.items| ==> box'.items[i].dedupeKey != box'.items[j].dedupeKey
    requires OnlyChanges(box.items, box'.items, item)
    ensures FindByDedupe(box'.items, key) == if key == item.dedupeKey then Some(item) else FindByDedupe(box.items, key)
  {
    if key == item.dedupeKey {
      var k :| 0 <= k < |box'.items| && box'.items[k] == item;
      FoundIsOnly(box'.items, k);
    } else {
      var found := FindByDedupe(box.items, key);
      if found.Some? {
        assert found.value in box'.items;
        var k :| 0 <= k < |box'.items| && box'.items[k] == found.value;
        FoundIsOnly(box'.items, k);
      }
    }
  }

  /** An event opens or refreshes exactly its own key. */
  lemma IngestEffect(box: Box, cmd: IngestCommand, now: Time)
    requires BoxLaw(box, now)
    ensures var box' := Ingest(box, cmd, now);
            && BoxLaw(box', now)
            && (forall key :: Live(box', key) == if key == cmd.dedupeKey then Some(cmd.severity) else Live(box, key))
  {
    var done := ApplyIngest(FindByDedupe(box.items, cmd.dedupeKey), cmd, now, box.nextId);
    SaveKeepsLaw(box, Ingest(box, cmd, now), done.item, now);
  }

  /** An event's entry keeps its identity, takes the event's source and severity, and is as old as its last opening. */
  lemma IngestRecords(box: Box, cmd: IngestCommand, now: Time)
    requires BoxLaw(box, now)
    ensures var box' := Ingest(box, cmd, now);
            var before, after := FindByDedupe(box.items, cmd.dedupeKey), FindByDedupe(box'.items, cmd.dedupeKey);
            var at := if cmd.createdAt.Some? then cmd.createdAt.value else now;
            && after.Some?
            && after.value == InboxItem(if before.Some? then before.value.id else box.nextId, cmd.sourceRef, cmd.severity, cmd.dedupeKey,
                                        if before.Some? && before.value.expiresAt.None? then before.value.createdAt else at, None)
            && box'.nextId == (if before.Some? then box.nextId else box.nextId + 1)
            && |box'.items| == (if before.Some? then |box.items| else |box.items| + 1)
            && (before.None? || before.value.expiresAt.None? ==> box'.readMarks == box.readMarks)
            && (forall key :: key != cmd.dedupeKey ==> FindByDedupe(box'.items, key) == FindByDedupe(box.items, key))
  {
    var done := ApplyIngest(FindByDedupe(box.items, cmd.dedupeKey), cmd, now, box.nextId);
    SaveKeepsLaw(box, Ingest(box, cmd, now), done.item, now);
    SavedLength(box.items, done.item);
  }

  lemma {:induction false} SavedLength(items: seq<InboxItem>, item: InboxItem)
    ensures |Save(items, item)| == |items| + if FindById(items, item.id).Some? then 0 else 1
  {
    if items != [] && items[0].id != item.id {
      SavedLength(items[1..], item);
    }
  }

  /** A live entry is closed now and keeps everything else; one already closed keeps even its time. */
  lemma ExpireRecords(box: Box, key: DedupeKey, now: Time)
    requires BoxLaw(box, now)
    ensures var box', before := ExpireDedupe(box, key, now), FindByDedupe(box.items, key);
            && box'.nextId == box.nextId
            && (before.Some? && before.value.expiresAt.None? ==>
                  FindByDedupe(box'.items, key) == Some(before.value.(expiresAt := Some(now))))
            && (before.None? || before.value.expiresAt.Some? ==> box' == box)
            && (forall other :: other != key ==> FindByDedupe(box'.items, other) == FindByDedupe(box.items, other))
  {
    var found := FindByDedupe(box.items, key);
    if found.Some? && !IsExpired(found.value, now) {
      SaveKeepsLaw(box, ExpireDedupe(box, key, now), ApplyExpire(found.value, now), now);
    }
  }

  /** Reopening an expired entry makes it unread for everyone; refreshing a live one does not. */
  lemma IngestAndReads(box: Box, cmd: IngestCommand, now: Time, user: string)
    requires BoxLaw(box, now) && FindByDedupe(box.items, cmd.dedupeKey).Some?
    ensures var item := FindByDedupe(box.items, cmd.dedupeKey).value;
            var box' := Ingest(box, cmd, now);
            && FindByDedupe(box'.items, cmd.dedupeKey).Some? && FindByDedupe(box'.items, cmd.dedupeKey).value.id == item.id
            && ReadAt(box', user, item.id) == (if item.expiresAt.Some? then None else ReadAt(box, user, item.id))
            && (forall other: Id :: other != item.id ==> ReadAt(box', user, other) == ReadAt(box, user, other))
  {
    var done := ApplyIngest(FindByDedupe(box.items, cmd.dedupeKey), cmd, now, box.nextId);
    SaveKeepsLaw(box, Ingest(box, cmd, now), done.item, now);
  }

  /** Expiry closes exactly its own key, for good until the next event, and is idempotent. */
  lemma ExpireEffect(box: Box, key: DedupeKey, now: Time)
    requires BoxLaw(box, now)
    ensures var box' := ExpireDedupe(box, key, now);
            && BoxLaw(box', now) && box'.readMarks == box.readMarks
            && (forall k :: Live(box', k) == if k == key then None else Live(box, k))
            && (forall later :: later >= now ==> ExpireDedupe(box', key, later) == box')
  {
    var found := FindByDedupe(box.items, key);
    if found.Some? && !IsExpired(found.value, now) {
      SaveKeepsLaw(box, ExpireDedupe(box, key, now), ApplyExpire(found.value, now), now);
    }
  }

  /** On a lawful box the stored expiry is all that matters: what is not open has expired. */
  lemma LiveMeansListed(box: Box, key: DedupeKey, now: Time)
    requires BoxLaw(box, now)
    ensures Live(box, key).Some? <==> exists i :: 0 <= i < |box.items| && box.items[i].dedupeKey == key && !IsExpired(box.items[i], now)
  {
    var found := FindByDedupe(box.items, key);
    if found.Some? {
      var k :| 0 <= k < |box.items| && box.items[k] == found.value;
      assert forall i :: 0 <= i < |box.items| && box.items[i].dedupeKey == key ==> i == k;
    }
  }

  // -- The list, the badge and reading everything --------------------------------------

  /** What a user should see: live items with that user's read mark, unread ones only if asked. */
  ghost predicate Shown(box: Box, row: Row, user: string, unreadOnly: bool, now: Time) {
    && row.item in box.items && !IsExpired(row.item, now)
    && row.readAt == ReadAt(box, user, row.item.id)
    && (unreadOnly ==> row.readAt.None?)
  }

  ghost predicate InOrder(rows: seq<Row>) {
    forall i, j :: 0 <= i < j < |rows| ==> Precedes(rows[i], rows[j])
  }

  lemma {:induction false} InsertKeepsRows(row: Row, sorted: seq<Row>)
    requires InOrder(sorted)
    ensures InOrder(InsertRow(row, sorted))
    ensures multiset(InsertRow(row, sorted)) == multiset(sorted) + multiset{row}
  {
    if sorted == [] || Precedes(row, sorted[0]) {
    } else {
      var rest := InsertRow(row, sorted[1..]);
      InsertKeepsRows(row, sorted[1..]);
      assert sorted == [sorted[0]] + sorted[1..];
      forall r | r in rest
        ensures Precedes(sorted[0], r)
      {
        assert r in multiset(rest);
        assert r == row || r in sorted[1..];
      }
    }
  }

  lemma {:induction false} SortKeepsRows(rows: seq<Row>)
    ensures InOrder(SortInbox(rows)) && multiset(SortInbox(rows)) == multiset(rows)
  {
    if rows != [] {
      SortKeepsRows(rows[1..]);
      InsertKeepsRows(rows[0], SortInbox(rows[1..]));
      assert rows == [rows[0]] + rows[1..];
    }
  }

  lemma {:induction false} ActiveAre(items: seq<InboxItem>, now: Time, item: InboxItem)
    ensures item in Active(items, now) <==> item in items && !IsExpired(item, now)
  {
    if items != [] {
      ActiveAre(items[1..], now, item);
      assert items == [items[0]] + items[1..];
    }
  }

  lemma {:induction false} RowsAre(box: Box, items: seq<InboxItem>, user: string, unreadOnly: bool, row: Row)
    ensures row in Rows(box, items, user, unreadOnly)
            <==> row.item in items && row.readAt == ReadAt(box, user, row.item.id) && (unreadOnly ==> row.readAt.None?)
  {
    if items != [] {
      RowsAre(box, items[1..], user, unreadOnly, row);
      assert items == [items[0]] + items[1..];
    }
  }

  /** The list shows exactly the live items, unread before read and newest first. */
  lemma ListIsComplete(box: Box, user: string, unreadOnly: bool, now: Time)
    ensures InOrder(List(box, user, unreadOnly, now))
    ensures forall row :: row in List(box, user, unreadOnly, now) <==> Shown(box, row, user, unreadOnly, now)
  {
    var rows := Rows(box, Active(box.items, now), user, unreadOnly);
    SortKeepsRows(rows);
    forall row
      ensures row in List(box, user, unreadOnly, now) <==> Shown(box, row, user, unreadOnly, now)
    {
      assert row in List(box, user, unreadOnly, now) <==> row in multiset(rows);
      RowsAre(box, Active(box.items, now), user, unreadOnly, row);
      ActiveAre(box.items, now, row.item);
    }
  }

  /** Unread entries come first, newer before older among the unread and among the read. */
  lemma UnreadComeFirst(box: Box, user: string, unreadOnly: bool, now: Time, i: nat, j: nat)
    requires i < j < |List(box, user, unreadOnly, now)|
    ensures var rows := List(box, user, unreadOnly, now);
            && (rows[j].readAt.None? ==> rows[i].readAt.None?)
            && ((rows[i].readAt.None? <==> rows[j].readAt.None?) ==> rows[i].item.createdAt >= rows[j].item.createdAt)
  {
    ListIsComplete(box, user, unreadOnly, now);
    assert Precedes(List(box, user, unreadOnly, now)[i], List(box, user, unreadOnly, now)[j]);
  }

  ghost predicate DistinctItems(items: seq<InboxItem>) {
    forall i, j :: 0 <= i < j < |items| ==> items[i].id != items[j].id
  }

  lemma {:induction false} ActiveDistinct(items: seq<InboxItem>, now: Time)
    requires DistinctItems(items)
    ensures DistinctItems(Active(items, now))
  {
    if items != [] {
      var rest := Active(items[1..], now);
      ActiveDistinct(items[1..], now);
      forall i | 0 <= i < |rest|
        ensures rest[i].id != items[0].id
      {
        ActiveAre(items[1..], now, rest[i]);
      }
    }
  }

  lemma {:induction false} RowsOnce(box: Box, items: seq<InboxItem>, user: string, unreadOnly: bool, row: Row)
    requires DistinctItems(items)
    ensures multiset(Rows(box, items, user, unreadOnly))[row] <= 1
  {
    if items != [] {
      var first, rest := Row(items[0], ReadAt(box, user, items[0].id)), Rows(box, items[1..], user, unreadOnly);
      RowsOnce(box, items[1..], user, unreadOnly, row);
      RowsAre(box, items[1..], user, unreadOnly, first);
      assert multiset(rest)[first] == 0;
    }
  }

  /** Each live entry is listed once. */
  lemma ListedOnce(box: Box, user: string, unreadOnly: bool, now: Time, i: nat, j: nat)
    requires BoxLaw(box, now) && i < j < |List(box, user, unreadOnly, now)|
    ensures List(box, user, unreadOnly, now)[i].item.id != List(box, user, unreadOnly, now)[j].item.id
  {
    var rows := List(box, user, unreadOnly, now);
    ListIsComplete(box, user, unreadOnly, now);
    SortKeepsRows(Rows(box, Active(box.items, now), user, unreadOnly));
    ActiveDistinct(box.items, now);
    RowsOnce(box, Active(box.items, now), user, unreadOnly, rows[i]);
    if rows[i].item.id == rows[j].item.id {
      assert Shown(box, rows[i], user, unreadOnly, now) && Shown(box, rows[j], user, unreadOnly, now);
      assert rows[i] == rows[j];
      TwiceIn(rows, i, j);
    }
  }

  lemma TwiceIn(rows: seq<Row>, i: nat, j: nat)
    requires i < j < |rows| && rows[i] == rows[j]
    ensures multiset(rows)[rows[i]] >= 2
  {
    assert rows == rows[..j] + rows[j..];
    assert rows[..j][i] in multiset(rows[..j]) && rows[j..][0] in multiset(rows[j..]);
  }

  ghost predicate Lists(rows: seq<Row>, id: Id) {
    exists i :: 0 <= i < |rows| && rows[i].item.id == id
  }

  lemma {:induction false} ReadAllMarks(box: Box, rows: seq<Row>, user: string, now: Time, who: string, id: Id)
    ensures ReadAll(box, rows, user, now).items == box.items && ReadAll(box, rows, user, now).nextId == box.nextId
    ensures ReadAt(ReadAll(box, rows, user, now), who, id)
            == if who == user && Lists(rows, id) then Some(now) else ReadAt(box, who, id)
    decreases rows
  {
    if rows != [] {
      var first := SaveRead(box, rows[0].item.id, user, now);
      ReadAllMarks(first, rows[1..], user, now, who, id);
      assert Lists(rows[1..], id) ==> Lists(rows, id) by {
        if Lists(rows[1..], id) {
          var i :| 0 <= i < |rows[1..]| && rows[1..][i].item.id == id;
          assert rows[i + 1].item.id == id;
        }
      }
      if Lists(rows, id) && rows[0].item.id != id {
        var i :| 0 <= i < |rows| && rows[i].item.id == id;
        assert rows[1..][i - 1].item.id == id;
      }
    }
  }

  /**
   Reading everything: each entry the user had live and unread is read now, marks already
   made keep their time, nobody else's marks move, and the user's badge drops to zero.
   */
  lemma MarkAllReadEmptiesBadge(box: Box, user: string, now: Time)
    ensures var box' := MarkAllRead(box, user, now);
            && box'.items == box.items && box'.nextId == box.nextId
            && Badge(box', user, now) == 0
            && (forall who, id :: ReadAt(box', who, id)
                                  == if who == user && Lists(List(box, user, true, now), id) then Some(now) else ReadAt(box, who, id))
  {
    var unread := List(box, user, true, now);
    var box' := MarkAllRead(box, user, now);
    ReadAllMarks(box, unread, user, now, user, 0);
    forall who, id
      ensures ReadAt(box', who, id) == if who == user && Lists(unread, id) then Some(now) else ReadAt(box, who, id)
    {
      ReadAllMarks(box, unread, user, now, who, id);
    }
    ListIsComplete(box, user, true, now);
    ListIsComplete(box', user, true, now);
    var after := List(box', user, true, now);
    if after != [] {
      var row := after[0];
      assert Shown(box', row, user, true, now);
      ReadAllMarks(box, unread, user, now, user, row.item.id);
      var before := Row(row.item, None);
      assert Shown(box, before, user, true, now);
      assert false;
    }
  }

  /** Reading one entry: it must be live; the first mark stays; no other mark moves. */
  lemma MarkReadMarks(box: Box, itemId: Id, user: string, now: Time)
    requires BoxLaw(box, now)
    ensures var r := MarkRead(box, itemId, user, now);
            && (r.Ok? <==> !Blank(user) && exists i :: 0 <= i < |box.items| && box.items[i].id == itemId && box.items[i].expiresAt.None?)
            && (r.Ok? ==> r.value.items == box.items
                          && (forall who, id :: ReadAt(r.value, who, id)
                                  == if who == user && id == itemId && ReadAt(box, user, itemId).None? then Some(now) else ReadAt(box, who, id)))
  {
    var found := FindById(box.items, itemId);
    if found.Some? {
      var k :| 0 <= k < |box.items| && box.items[k] == found.value;
      assert forall i :: 0 <= i < |box.items| && box.items[i].id == itemId ==> i == k;
    }
  }

  // -- The engine over its in-memory store ------------------------------------------------

  class InboxEngine {
    var items: seq<InboxItem>
    var readMarks: map<Id, map<string, Time>>
    var nextId: Id

    ghost function Contents(): Box
      reads this
    {
      Box(items, readMarks, nextId)
    }

    constructor ()
      ensures Contents() == Box([], map[], 0)
    {
      items, readMarks, nextId := [], map[], 0;
    }

    method FindDedupe(key: DedupeKey) returns (found: Option<InboxItem>)
      ensures found == FindByDedupe(items, key)
    {
      var i := 0;
      while i < |items|
        invariant 0 <= i <= |items|
        invariant FindByDedupe(items, key) == FindByDedupe(items[i..], key)
      {
        if items[i].dedupeKey == key {
          return Some(items[i]);
        }
        i := i + 1;
      }
      return None;
    }

    method SaveItem(item: InboxItem)
      modifies `items
      ensures items == Save(old(items), item)
    {
      var i := 0;
      while i < |items|
        invariant 0 <= i <= |items| && items == old(items)
        invariant Save(items, item) == items[..i] + Save(items[i..], item)
      {
        if items[i].id == item.id {
          items := items[i := item];
          assert items == old(items)[..i] + ([item] + old(items)[i..][1..]);
          return;
        }
        assert items[i..][0] == items[i] && items[i..][1..] == items[i + 1..];
        assert items[..i] + ([items[i]] + Save(items[i + 1..], item)) == items[..i + 1] + Save(items[i + 1..], item);
        i := i + 1;
      }
      items := items + [item];
    }

    method Receive(cmd: IngestCommand, now: Time) returns (item: InboxItem)
      modifies this
      ensures Contents() == Ingest(old(Contents()), cmd, now)
      ensures item == ApplyIngest(FindByDedupe(old(items), cmd.dedupeKey), cmd, now, old(nextId)).item
    {
      var existing := FindDedupe(cmd.dedupeKey);
      var done := ApplyIngest(existing, cmd, now, nextId);
      if done.created {
        nextId := nextId + 1;
      }
      item := done.item;
      SaveItem(item);
      if done.reactivated {
        readMarks := readMarks - {item.id};
      }
    }

    method Expire(key: DedupeKey, now: Time) returns (item: Option<InboxItem>)
      modifies this
      ensures Contents() == ExpireDedupe(old(Contents()), key, now)
      ensures item.None? <==> FindByDedupe(old(items), key).None?
      ensures item.Some? ==>
                var found := FindByDedupe(old(items), key).value;
                item.value == if IsExpired(found, now) then found else found.(expiresAt := Some(now))
    {
      item := FindDedupe(key);
      if item.None? || IsExpired(item.value, now) {
        return;
      }
      item := Some(ApplyExpire(item.value, now));
      SaveItem(item.value);
    }

    method ReadOne(itemId: Id, user: string, now: Time) returns (r: Result<Row, InboxError>)
      modifies this
      ensures var spec := MarkRead(old(Contents()), itemId, user, now);
              && Contents() == (if spec.Ok? then spec.value else old(Contents()))
              && (r.Err? <==> spec.Err?)
              && (r.Err? ==> r.error == spec.error)
              && (r.Ok? ==> Some(r.value.item) == FindById(old(items), itemId) && r.value.readAt == ReadAt(Contents(), user, itemId))
    {
      if Blank(user) {
        return Err(UserRequired);
      }
      var item := FindById(items, itemId);
      if item.None? || IsExpired(item.value, now) {
        return Err(NotFound);
      }
      var byUser := if itemId in readMarks then readMarks[itemId] else map[];
      if user in byUser {
        return Ok(Row(item.value, Some(byUser[user])));
      }
      readMarks := readMarks[itemId := byUser[user := now]];
      return Ok(Row(item.value, Some(now)));
    }

    method ReadEverything(user: string, now: Time) returns (r: Result<nat, InboxError>)
      modifies this
      ensures r == if Blank(user) then Err(UserRequired) else Ok(Badge(old(Contents()), user, now))
      ensures Contents() == if Blank(user) then old(Contents()) else MarkAllRead(old(Contents()), user, now)
    {
      if Blank(user) {
        return Err(UserRequired);
      }
      var unread := List(Box(items, readMarks, nextId), user, true, now);
      var i := 0;
      while i < |unread|
        invariant 0 <= i <= |unread| && items == old(items) && nextId == old(nextId)
        invariant ReadAll(old(Contents()), unread, user, now) == ReadAll(Contents(), unread[i..], user, now)
      {
        var id := unread[i].item.id;
        var byUser := if id in readMarks then readMarks[id] else map[];
        readMarks := readMarks[id := byUser[user := now]];
        i := i + 1;
      }
      return Ok(|unread|);
    }
  }
}
