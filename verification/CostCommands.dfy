/**
 Costing commands behind an operation key: a command is served once, and resending it,
 its fields in any order, recovers the first answer without touching anything.
 */
module CostCommands {
  import opened Wrappers
  import opened CostRules
  import opened Inventory
  import opened CanonicalJson
  import opened Texts
  import opened Uuids

  datatype FieldName =
    | ACTION | ITEM_ID | QTY | SUPPLIER_ID | COST | DOCUMENT_REFERENCE | NOTE | QTY_DELTA | NOTA
    | VALUE_CENTS | EXPECTED_VERSION | REASON | ID
    | STATE | INPUT_TOTAL_CENTS | TAX_MODE | TAX_TREATMENT | RATE_BPS | CURRENCY

  type Payload = Json<FieldName>
  type Fields = seq<Field<FieldName>>

  function Get(fields: Fields, key: FieldName): Option<Payload> {
    if fields == [] then None
    else if fields[0].key == key then Some(fields[0].value)
    else Get(fields[1..], key)
  }

  lemma {:induction false} GetFinds(fields: Fields, f: Field<FieldName>)
    requires UniqueKeys(fields) && f in fields
    ensures Get(fields, f.key) == Some(f.value)
  {
    if fields[0] != f {
      assert f in fields[1..];
      var i :| 0 <= i < |fields| && fields[i] == f;
      GetFinds(fields[1..], f);
    }
  }

  lemma {:induction false} GetNone(fields: Fields, key: FieldName)
    ensures Get(fields, key).None? <==> forall f :: f in fields ==> f.key != key
    ensures Get(fields, key).Some? ==> Field(key, Get(fields, key).value) in fields
  {
    if fields != [] {
      GetNone(fields[1..], key);
      assert fields == [fields[0]] + fields[1..];
    }
  }

  /** A request object as a table of its possible fields, some of them absent. */
  datatype Entry = Entry(key: FieldName, value: Option<Payload>)
  type Table = seq<Entry>

  predicate DistinctKeys(t: Table) {
    forall i, j :: 0 <= i < j < |t| ==> t[i].key != t[j].key
  }

  /** The fields that are there. */
  function Present(t: Table): Fields {
    if t == [] then []
    else (if t[0].value.Some? then [Field(t[0].key, t[0].value.value)] else []) + Present(t[1..])
  }

  lemma {:induction false} PresentFields(t: Table, f: Field<FieldName>)
    ensures f in Present(t) <==> Entry(f.key, Some(f.value)) in t
  {
    if t != [] {
      PresentFields(t[1..], f);
      assert t == [t[0]] + t[1..];
    }
  }

  lemma {:induction false} PresentUnique(t: Table)
    requires DistinctKeys(t)
    ensures UniqueKeys(Present(t))
  {
    if t != [] {
      PresentUnique(t[1..]);
      forall f | f in Present(t[1..])
        ensures f.key != t[0].key
      {
        PresentFields(t[1..], f);
        var i :| 0 <= i < |t[1..]| && t[1..][i] == Entry(f.key, Some(f.value));
        assert t[i + 1].key == f.key;
      }
    }
  }

  lemma PresentGet(t: Table, i: nat)
    requires DistinctKeys(t) && i < |t|
    ensures Get(Present(t), t[i].key) == t[i].value
  {
    PresentUnique(t);
    var key := t[i].key;
    GetNone(Present(t), key);
    forall f | f in Present(t) && f.key == key
      ensures t[i].value == Some(f.value)
    {
      PresentFields(t, f);
      var j :| 0 <= j < |t| && t[j] == Entry(key, Some(f.value));
      assert j == i;
    }
    if t[i].value.Some? {
      PresentFields(t, Field(key, t[i].value.value));
    }
  }

  ghost predicate SimilarEntry(a: Option<Payload>, b: Option<Payload>) {
    (a.None? && b.None?) || (a.Some? && b.Some? && Similar(a.value, b.value))
  }

  /** Requests with the same possible fields are similar only if each field is. */
  lemma SimilarTables(t: Table, u: Table, i: nat)
    requires DistinctKeys(t) && DistinctKeys(u) && i < |t| && i < |u| && t[i].key == u[i].key
    requires Similar(Object(Present(t)), Object(Present(u)))
    ensures SimilarEntry(t[i].value, u[i].value)
  {
    PresentUnique(t);
    PresentUnique(u);
    PresentGet(t, i);
    PresentGet(u, i);
    SimilarGet(Present(t), Present(u), t[i].key);
  }

  function TextOf(s: Option<string>): Option<Payload> {
    if s.Some? then Some(Text(s.value)) else None
  }

  function NumberOf(n: Option<int>): Option<Payload> {
    if n.Some? then Some(Number(n.value)) else None
  }

  function IdOf(id: Option<Id>): Option<Payload> {
    if id.Some? then Some(Number(id.value)) else None
  }

  function StateWord(s: CostState): string {
    match s case Pending => "PENDING" case Recorded => "RECORDED"
  }

  function ModeWord(m: TaxMode): string {
    match m case Included => "INCLUDED" case Excluded => "EXCLUDED"
  }

  function TreatmentWord(t: TaxTreatment): string {
    match t case Taxed => "TAXED" case NoTax => "NO_TAX"
  }

  lemma WordsDiffer()
    ensures forall a, b :: ModeWord(a) == ModeWord(b) ==> a == b
    ensures forall a, b :: StateWord(a) == StateWord(b) ==> a == b
    ensures forall a, b :: TreatmentWord(a) == TreatmentWord(b) ==> a == b
  {
    assert ModeWord(Included)[0] != ModeWord(Excluded)[0];
  }

  function Word<T>(t: Option<T>, word: T -> string): Option<Payload> {
    if t.Some? then Some(Text(word(t.value))) else None
  }

  function CostTable(c: CostInput): Table {
    [Entry(STATE, Word(c.state, StateWord)), Entry(INPUT_TOTAL_CENTS, TextOf(c.inputTotalCents)),
     Entry(TAX_MODE, Word(c.taxMode, ModeWord)), Entry(TAX_TREATMENT, Word(c.taxTreatment, TreatmentWord)),
     Entry(RATE_BPS, NumberOf(c.rateBps)), Entry(CURRENCY, TextOf(c.currency))]
  }

  predicate Costed(cmd: Command) {
    cmd.CmdReceive? || cmd.CmdAdjust? || cmd.CmdOpen? || cmd.CmdRevise? || cmd.CmdReturn?
  }

  function Required(key: FieldName, value: Payload): Entry {
    Entry(key, Some(value))
  }

  function EncodeCost(c: CostInput): Payload {
    Object(Present(CostTable(c)))
  }

  function ActionWord(cmd: Command): string
    requires Costed(cmd)
  {
    match cmd
    case CmdReceive(_) => "receive"
    case CmdAdjust(_, _, _) => "adjust"
    case CmdOpen(_, _) => "opening"
    case CmdRevise(r) => if r.correct then "correct" else "complete"
    case CmdReturn(_) => "return"
  }

  function ReceiptTable(action: Entry, r: ReceiptInput): Table {
    [action, Required(ITEM_ID, Number(r.itemId)), Required(QTY, Number(r.qty)), Required(SUPPLIER_ID, Number(r.supplierId)),
     Required(COST, EncodeCost(r.cost)), Entry(DOCUMENT_REFERENCE, TextOf(r.documentReference)), Entry(NOTE, TextOf(r.note))]
  }

  function OpeningTable(action: Entry, itemId: Id, o: OpeningInput): Table {
    [action, Required(ITEM_ID, Number(itemId)), Required(QTY, Number(o.qty)), Required(VALUE_CENTS, Text(o.valueCents)),
     Required(EXPECTED_VERSION, Number(o.expectedVersion)), Required(REASON, Text(o.reason))]
  }

  function RevisionTable(action: Entry, r: RevisionInput): Table {
    [action, Required(ID, Number(r.id)), Required(COST, EncodeCost(r.cost)), Required(EXPECTED_VERSION, Number(r.expectedVersion)),
     Required(REASON, Text(r.reason)), Entry(SUPPLIER_ID, IdOf(r.supplierId))]
  }

  function CommandTable(cmd: Command): Table
    requires Costed(cmd)
  {
    var action := Required(ACTION, Text(ActionWord(cmd)));
    match cmd
    case CmdReceive(r) => ReceiptTable(action, r)
    case CmdAdjust(itemId, delta, nota) =>
      [action, Required(ITEM_ID, Number(itemId)), Required(QTY_DELTA, Number(delta)), Required(NOTA, Text(nota))]
    case CmdOpen(itemId, o) => OpeningTable(action, itemId, o)
    case CmdRevise(r) => RevisionTable(action, r)
    case CmdReturn(r) =>
      [action, Required(ID, Number(r.id)), Required(QTY, Number(r.qty)), Required(REASON, Text(r.reason))]
  }

  /** The data a costing command carries, in one particular field order. */
  function Encode(cmd: Command): Payload
    requires Costed(cmd)
  {
    Object(Present(CommandTable(cmd)))
  }

  /** A payload a client may send for a command: the same data, fields in any order. */
  ghost predicate Carries(payload: Payload, cmd: Command) {
    Costed(cmd) && Unique(payload) && Similar(payload, Encode(cmd))
  }

  lemma TableUnique(t: Table)
    requires DistinctKeys(t)
    requires forall i :: 0 <= i < |t| && t[i].value.Some? ==> Unique(t[i].value.value)
    ensures Unique(Object(Present(t)))
  {
    PresentUnique(t);
    forall f | f in Present(t)
      ensures Unique(f.value)
    {
      PresentFields(t, f);
    }
  }

  lemma EncodeCostUnique(c: CostInput)
    ensures DistinctKeys(CostTable(c)) && Unique(EncodeCost(c))
  {
    TableUnique(CostTable(c));
  }

  lemma CommandKeysDiffer(cmd: Command)
    requires Costed(cmd)
    ensures DistinctKeys(CommandTable(cmd))
  {
  }

  predicate Scalar(e: Entry) {
    e.value.Some? ==> e.value.value.Text? || e.value.value.Number?
  }

  /** Costs are the only nested objects. */
  lemma OnlyCostsNest(cmd: Command, i: nat)
    requires Costed(cmd) && i < |CommandTable(cmd)|
    ensures Scalar(CommandTable(cmd)[i])
            || (cmd.CmdReceive? && CommandTable(cmd)[i].value == Some(EncodeCost(cmd.receipt.cost)))
            || (cmd.CmdRevise? && CommandTable(cmd)[i].value == Some(EncodeCost(cmd.revision.cost)))
  {
  }

  lemma CommandValuesUnique(cmd: Command)
    requires Costed(cmd)
    ensures forall i :: 0 <= i < |CommandTable(cmd)| && CommandTable(cmd)[i].value.Some? ==> Unique(CommandTable(cmd)[i].value.value)
  {
    forall i | 0 <= i < |CommandTable(cmd)| && CommandTable(cmd)[i].value.Some?
      ensures Unique(CommandTable(cmd)[i].value.value)
    {
      OnlyCostsNest(cmd, i);
      if !Scalar(CommandTable(cmd)[i]) {
        EncodeCostUnique(if cmd.CmdReceive? then cmd.receipt.cost else cmd.revision.cost);
      }
    }
  }

  lemma EncodeUnique(cmd: Command)
    requires Costed(cmd)
    ensures Unique(Encode(cmd))
  {
    CommandKeysDiffer(cmd);
    CommandValuesUnique(cmd);
    TableUnique(CommandTable(cmd));
  }

  /** Similar objects agree on every field, up to similarity. */
  lemma SimilarGet(fs: Fields, gs: Fields, key: FieldName)
    requires UniqueKeys(fs) && UniqueKeys(gs) && Similar(Object(fs), Object(gs))
    ensures Get(fs, key).Some? <==> Get(gs, key).Some?
    ensures Get(fs, key).Some? ==> Similar(Get(fs, key).value, Get(gs, key).value)
  {
    GetNone(fs, key);
    GetNone(gs, key);
    if Get(fs, key).Some? {
      var f := Field(key, Get(fs, key).value);
      assert HasPartner(f, gs);
      var g :| g in gs && SameField(f, g);
      GetFinds(gs, g);
    }
    if Get(gs, key).Some? {
      var g := Field(key, Get(gs, key).value);
      assert IsPartner(g, fs);
      var f :| f in fs && SameField(f, g);
      GetFinds(fs, f);
    }
  }

  lemma SameText(a: Option<string>, b: Option<string>)
    requires SimilarEntry(TextOf(a), TextOf(b))
    ensures a == b
  {
  }

  lemma SameNumber(a: Option<int>, b: Option<int>)
    requires SimilarEntry(NumberOf(a), NumberOf(b))
    ensures a == b
  {
  }

  lemma SameId(a: Option<Id>, b: Option<Id>)
    requires SimilarEntry(IdOf(a), IdOf(b))
    ensures a == b
  {
  }

  lemma SameWord<T>(a: Option<T>, b: Option<T>, word: T -> string)
    requires SimilarEntry(Word(a, word), Word(b, word))
    ensures a.Some? <==> b.Some?
    ensures a.Some? ==> word(a.value) == word(b.value)
  {
  }

  lemma SimilarCost(c: CostInput, d: CostInput)
    requires Similar(EncodeCost(c), EncodeCost(d))
    ensures c == d
  {
    SimilarCostWords(c, d);
    var t, u := CostTable(c), CostTable(d);
    EncodeCostUnique(c);
    EncodeCostUnique(d);
    SimilarTables(t, u, 1);
    SameText(c.inputTotalCents, d.inputTotalCents);
    SimilarTables(t, u, 4);
    SameNumber(c.rateBps, d.rateBps);
    SimilarTables(t, u, 5);
    SameText(c.currency, d.currency);
  }

  lemma SimilarCostWords(c: CostInput, d: CostInput)
    requires Similar(EncodeCost(c), EncodeCost(d))
    ensures c.state == d.state && c.taxMode == d.taxMode && c.taxTreatment == d.taxTreatment
  {
    var t, u := CostTable(c), CostTable(d);
    EncodeCostUnique(c);
    EncodeCostUnique(d);
    SimilarTables(t, u, 0);
    SameWord(c.state, d.state, StateWord);
    SimilarTables(t, u, 2);
    SameWord(c.taxMode, d.taxMode, ModeWord);
    SimilarTables(t, u, 3);
    SameWord(c.taxTreatment, d.taxTreatment, TreatmentWord);
    WordsDiffer();
  }

  lemma ActionsDiffer(c: Command, d: Command)
    requires Costed(c) && Costed(d) && ActionWord(c) == ActionWord(d)
    ensures c.CmdReceive? <==> d.CmdReceive?
    ensures c.CmdAdjust? <==> d.CmdAdjust?
    ensures c.CmdOpen? <==> d.CmdOpen?
    ensures c.CmdReturn? <==> d.CmdReturn?
    ensures c.CmdRevise? && d.CmdRevise? ==> c.revision.correct == d.revision.correct
  {
    assert "adjust"[0] == 'a' && "opening"[0] == 'o' && "receive"[2] == 'c' && "correct"[0] == 'c' && "return"[2] == 't';
    assert |"receive"| == 7 && |"return"| == 6 && |"opening"| == 7 && |"adjust"| == 6 && |"correct"| == 7 && |"complete"| == 8;
  }

  lemma SameAction(c: Command, d: Command)
    requires Costed(c) && Costed(d) && Similar(Encode(c), Encode(d))
    ensures ActionWord(c) == ActionWord(d)
  {
    CommandKeysDiffer(c);
    CommandKeysDiffer(d);
    SimilarTables(CommandTable(c), CommandTable(d), 0);
  }

  /** The same entry of the two requests, by position. */
  lemma SimilarAt(c: Command, d: Command, i: nat)
    requires Costed(c) && Costed(d) && Similar(Encode(c), Encode(d))
    requires i < |CommandTable(c)| && i < |CommandTable(d)| && CommandTable(c)[i].key == CommandTable(d)[i].key
    ensures SimilarEntry(CommandTable(c)[i].value, CommandTable(d)[i].value)
  {
    CommandKeysDiffer(c);
    CommandKeysDiffer(d);
    SimilarTables(CommandTable(c), CommandTable(d), i);
  }

  lemma SameReceiptNumbers(c: Command, d: Command)
    requires c.CmdReceive? && d.CmdReceive? && Similar(Encode(c), Encode(d))
    ensures c.receipt.itemId == d.receipt.itemId && c.receipt.qty == d.receipt.qty && c.receipt.supplierId == d.receipt.supplierId
  {
    SimilarAt(c, d, 1);
    SimilarAt(c, d, 2);
    SimilarAt(c, d, 3);
  }

  lemma SameReceiptTexts(c: Command, d: Command)
    requires c.CmdReceive? && d.CmdReceive? && Similar(Encode(c), Encode(d))
    ensures c.receipt.documentReference == d.receipt.documentReference && c.receipt.note == d.receipt.note
  {
    SimilarAt(c, d, 5);
    SameText(c.receipt.documentReference, d.receipt.documentReference);
    SimilarAt(c, d, 6);
    SameText(c.receipt.note, d.receipt.note);
  }

  lemma SameReceiptCost(c: Command, d: Command)
    requires c.CmdReceive? && d.CmdReceive? && Similar(Encode(c), Encode(d))
    ensures c.receipt.cost == d.receipt.cost
  {
    SimilarAt(c, d, 4);
    SimilarCost(c.receipt.cost, d.receipt.cost);
  }

  lemma SimilarReceipt(c: Command, d: Command)
    requires c.CmdReceive? && d.CmdReceive? && Similar(Encode(c), Encode(d))
    ensures c == d
  {
    SameReceiptNumbers(c, d);
    SameReceiptTexts(c, d);
    SameReceiptCost(c, d);
  }

  lemma SameRevisionCost(c: Command, d: Command)
    requires c.CmdRevise? && d.CmdRevise? && Similar(Encode(c), Encode(d))
    ensures c.revision.id == d.revision.id && c.revision.cost == d.revision.cost
  {
    SimilarAt(c, d, 1);
    SimilarAt(c, d, 2);
    SimilarCost(c.revision.cost, d.revision.cost);
  }

  lemma SameRevisionVersion(c: Command, d: Command)
    requires c.CmdRevise? && d.CmdRevise? && Similar(Encode(c), Encode(d))
    ensures c.revision.expectedVersion == d.revision.expectedVersion
  {
    SimilarAt(c, d, 3);
  }

  lemma SameRevisionReason(c: Command, d: Command)
    requires c.CmdRevise? && d.CmdRevise? && Similar(Encode(c), Encode(d))
    ensures c.revision.reason == d.revision.reason
  {
    SimilarAt(c, d, 4);
  }

  lemma SameRevisionSupplier(c: Command, d: Command)
    requires c.CmdRevise? && d.CmdRevise? && Similar(Encode(c), Encode(d))
    ensures c.revision.supplierId == d.revision.supplierId
  {
    SimilarAt(c, d, 5);
    SameId(c.revision.supplierId, d.revision.supplierId);
  }

  lemma SimilarRevision(c: Command, d: Command)
    requires c.CmdRevise? && d.CmdRevise? && c.revision.correct == d.revision.correct && Similar(Encode(c), Encode(d))
    ensures c == d
  {
    SameRevisionCost(c, d);
    SameRevisionVersion(c, d);
    SameRevisionReason(c, d);
    SameRevisionSupplier(c, d);
  }

  lemma SimilarOpening(c: Command, d: Command)
    requires c.CmdOpen? && d.CmdOpen? && Similar(Encode(c), Encode(d))
    ensures c == d
  {
    SimilarAt(c, d, 1);
    SimilarAt(c, d, 2);
    SimilarAt(c, d, 3);
    SimilarAt(c, d, 4);
    SimilarAt(c, d, 5);
  }

  lemma SimilarOther(c: Command, d: Command)
    requires (c.CmdAdjust? && d.CmdAdjust?) || (c.CmdReturn? && d.CmdReturn?)
    requires Similar(Encode(c), Encode(d))
    ensures c == d
  {
    SimilarAt(c, d, 1);
    SimilarAt(c, d, 2);
    SimilarAt(c, d, 3);
  }

  /** A payload carries at most one command. */
  lemma PayloadDeterminesCommand(c: Command, d: Command)
    requires Costed(c) && Costed(d) && Similar(Encode(c), Encode(d))
    ensures c == d
  {
    SameAction(c, d);
    ActionsDiffer(c, d);
    if c.CmdReceive? {
      SimilarReceipt(c, d);
    } else if c.CmdRevise? {
      SimilarRevision(c, d);
    } else if c.CmdOpen? {
      SimilarOpening(c, d);
    } else {
      SimilarOther(c, d);
    }
  }

  /** Two payloads hash alike exactly when they carry the same command. */
  lemma HashIdentifiesCommand(le: Collation<FieldName>, p: Payload, c: Command, q: Payload, d: Command)
    requires TotalOrder(le) && Carries(p, c) && Carries(q, d)
    ensures Canon(le, p) == Canon(le, q) <==> c == d
  {
    EncodeUnique(c);
    EncodeUnique(d);
    SimilarCanon(le, p, Encode(c));
    SimilarCanon(le, q, Encode(d));
    CanonIffSimilar(le, Encode(c), Encode(d));
    if Canon(le, p) == Canon(le, q) {
      PayloadDeterminesCommand(c, d);
    }
  }

  // -- The desk: a ledger and the receipts of the commands it served ---------------------

  datatype Reply = Reply(operation: Option<CostOperation>, valuation: Option<Valuation>, quantityAfter: Option<int>)

  /** `hash` stands for the digest of the canonical payload, taken to be collision-free. */
  datatype OperationReceipt = OperationReceipt(hash: Payload, reply: Reply)

  datatype Desk = Desk(ledger: Ledger, receipts: map<string, OperationReceipt>)

  datatype DeskError = InvalidKey | KeyReused | Refused(error: InventoryError)

  function Identity(subject: string, key: string): string {
    subject + ":" + key
  }

  /** Keys have a fixed length, so an identity belongs to one actor and one key. */
  lemma IdentityIsInjective(s: string, k: string, t: string, j: string)
    requires IsUuid(k, "4") && IsUuid(j, "4") && Identity(s, k) == Identity(t, j)
    ensures s == t && k == j
  {
    var a := Identity(s, k);
    assert s == a[..|a| - 37] && k == a[|a| - 36..];
    assert t == a[..|a| - 37] && j == a[|a| - 36..];
  }

  /** Checks on the request alone, made before the key is looked up. */
  function Precheck(cmd: Command): Option<InventoryError>
    requires Costed(cmd)
  {
    match cmd
    case CmdReceive(r) => if CalculateCost(r.cost).Err? then Some(Cost(CalculateCost(r.cost).error)) else None
    case CmdAdjust(_, _, _) => None
    case CmdOpen(_, o) =>
      if Cents(o.valueCents).None? then Some(Cost(InvalidAmount))
      else if Blank(o.reason) then Some(MissingReason)
      else if o.qty == 0 && Cents(o.valueCents).value != 0 then Some(ValueWithoutStock)
      else None
    case CmdRevise(r) =>
      if CalculateCost(r.cost).Err? then Some(Cost(CalculateCost(r.cost).error))
      else if CalculateCost(r.cost).value.None? || Blank(r.reason) then Some(MissingReason)
      else None
    case CmdReturn(r) => if Blank(r.reason) then Some(MissingReason) else None
  }

  /** The checks made first are the ones the command itself would have failed on. */
  lemma PrecheckForesees(l: Ledger, cmd: Command, actor: string)
    requires Costed(cmd) && Precheck(cmd).Some?
    ensures Perform(l, cmd, actor) == Err(Precheck(cmd).value)
  {
  }

  /** What a request is refused for whatever the tables hold: an unreadable cost or amount, no reason, or value without stock. */
  lemma PrecheckRefusesIff(cmd: Command)
    requires Costed(cmd)
    ensures Precheck(cmd).None? <==>
              && (cmd.CmdReceive? ==> CalculateCost(cmd.receipt.cost).Ok?)
              && (cmd.CmdOpen? ==> Cents(cmd.opening.valueCents).Some? && !Blank(cmd.opening.reason)
                                   && (cmd.opening.qty == 0 ==> Cents(cmd.opening.valueCents) == Some(0)))
              && (cmd.CmdRevise? ==> CalculateCost(cmd.revision.cost).Ok? && CalculateCost(cmd.revision.cost).value.Some? && !Blank(cmd.revision.reason))
              && (cmd.CmdReturn? ==> !Blank(cmd.giveBack.reason))
  {
  }

  function ReplyTo(cmd: Command, posted: Posted): Reply
    requires Costed(cmd)
  {
    match cmd
    case CmdReceive(r) => Reply(posted.operation, Some(Current(posted.ledger, r.itemId)), Some(Qty(posted.ledger, r.itemId)))
    case CmdAdjust(itemId, _, _) => Reply(None, None, Some(Qty(posted.ledger, itemId)))
    case CmdOpen(itemId, _) => Reply(posted.operation, Some(Current(posted.ledger, itemId)), Some(Qty(posted.ledger, itemId)))
    case CmdRevise(_) => Reply(posted.operation, None, None)
    case CmdReturn(_) =>
      if posted.operation.None? then Reply(None, None, None)
      else
        var itemId := posted.operation.value.itemId;
        Reply(posted.operation, Some(Current(posted.ledger, itemId)), Some(Qty(posted.ledger, itemId)))
  }

  datatype Answer = Answer(desk: Desk, result: Result<Reply, DeskError>)

  function Submit(le: Collation<FieldName>, desk: Desk, subject: string, key: string, payload: Payload, cmd: Command): Answer
    requires Costed(cmd)
  {
    if Precheck(cmd).Some? then Answer(desk, Err(Refused(Precheck(cmd).value)))
    else if !IsUuid(key, "4") then Answer(desk, Err(InvalidKey))
    else
      var identity := Identity(subject, key);
      var hash := Canon(le, payload);
      if identity in desk.receipts then
        Answer(desk, if desk.receipts[identity].hash != hash then Err(KeyReused) else Ok(desk.receipts[identity].reply))
      else
        var outcome := Perform(desk.ledger, cmd, subject);
        if outcome.Err? then Answer(desk, Err(Refused(outcome.error)))
        else
          var reply := ReplyTo(cmd, outcome.value);
          Answer(Desk(outcome.value.ledger, desk.receipts[identity := OperationReceipt(hash, reply)]), Ok(reply))
  }

  /** The item a costing command is about: the one it names, or the one of the record it names. */
  function ItemOf(l: Ledger, cmd: Command): Option<Id>
    requires Costed(cmd)
  {
    match cmd
    case CmdReceive(r) => Some(r.itemId)
    case CmdAdjust(itemId, _, _) => Some(itemId)
    case CmdOpen(itemId, _) => Some(itemId)
    case CmdRevise(r) => RecordItem(l, r.id)
    case CmdReturn(r) => RecordItem(l, r.id)
  }

  function RecordItem(l: Ledger, id: Id): Option<Id> {
    var found := FindOperation(l.operations, id);
    if found.Some? then Some(l.operations[found.value].itemId) else None
  }

  /**
   Under a free key a request is served exactly when its checks, its key and the command itself
   allow it; it then leaves the tables the command leaves, and tells the pieces and the
   valuation that the item of the command now has.
   */
  lemma FirstRequestIsServed(le: Collation<FieldName>, desk: Desk, subject: string, key: string, payload: Payload, cmd: Command)
    requires Costed(cmd) && Identity(subject, key) !in desk.receipts
    ensures var answer, done := Submit(le, desk, subject, key, payload, cmd), Perform(desk.ledger, cmd, subject);
            && (answer.result.Ok? <==> Precheck(cmd).None? && IsUuid(key, "4") && done.Ok?)
            && (answer.result == Err(InvalidKey) <==> Precheck(cmd).None? && !IsUuid(key, "4"))
            && (answer.result.Ok? ==>
                  && answer.desk.ledger == done.value.ledger
                  && answer.desk.receipts == desk.receipts[Identity(subject, key) := OperationReceipt(Canon(le, payload), answer.result.value)])
  {
  }

  lemma ReplyTells(desk: Desk, cmd: Command, actor: string)
    requires Costed(cmd) && Perform(desk.ledger, cmd, actor).Ok?
    ensures ItemOf(desk.ledger, cmd).Some?
    ensures var done := Perform(desk.ledger, cmd, actor).value;
            var reply, item := ReplyTo(cmd, done), ItemOf(desk.ledger, cmd).value;
            && (cmd.CmdRevise? ==> reply == Reply(done.operation, None, None))
            && (cmd.CmdAdjust? ==> reply == Reply(None, None, Some(Qty(done.ledger, item))))
            && (!cmd.CmdRevise? && !cmd.CmdAdjust? ==>
                  done.operation.Some? && item in done.ledger.valuation
                  && reply == Reply(done.operation, Some(done.ledger.valuation[item]), Some(Qty(done.ledger, item))))
  {
  }

  datatype DeskEvent =
    | Keyed(elapsed: nat, subject: string, key: string, payload: Payload, cmd: Command)
    | Unkeyed(event: Event)

  function DeskStep(le: Collation<FieldName>, desk: Desk, e: DeskEvent): Desk {
    match e
    case Keyed(elapsed, subject, key, payload, cmd) =>
      var ticked := desk.(ledger := Tick(desk.ledger, elapsed));
      if Costed(cmd) then Submit(le, ticked, subject, key, payload, cmd).desk else ticked
    case Unkeyed(event) => desk.(ledger := Step(desk.ledger, event))
  }

  function DeskRun(le: Collation<FieldName>, desk: Desk, events: seq<DeskEvent>): Desk {
    if events == [] then desk
    else DeskStep(le, DeskRun(le, desk, events[..|events| - 1]), events[|events| - 1])
  }

  /** Receipts are never removed or overwritten. */
  lemma {:induction false} ReceiptsAreKept(le: Collation<FieldName>, desk: Desk, events: seq<DeskEvent>, identity: string)
    requires identity in desk.receipts
    ensures var later := DeskRun(le, desk, events);
            identity in later.receipts && later.receipts[identity] == desk.receipts[identity]
  {
    if events != [] {
      ReceiptsAreKept(le, desk, events[..|events| - 1], identity);
    }
  }

  /** Serving a key, now or before, leaves its receipt under the hash of the data. */
  lemma ServedLeavesReceipt(le: Collation<FieldName>, desk: Desk, subject: string, key: string, payload: Payload, cmd: Command)
    requires Costed(cmd) && Submit(le, desk, subject, key, payload, cmd).result.Ok?
    ensures var first := Submit(le, desk, subject, key, payload, cmd);
            && Precheck(cmd).None? && IsUuid(key, "4")
            && Identity(subject, key) in first.desk.receipts
            && first.desk.receipts[Identity(subject, key)] == OperationReceipt(Canon(le, payload), first.result.value)
  {
  }

  /** Under a spent key nothing is performed: the hashes decide. */
  lemma SpentKeyAnswers(le: Collation<FieldName>, desk: Desk, subject: string, key: string, payload: Payload, cmd: Command)
    requires Costed(cmd) && IsUuid(key, "4") && Identity(subject, key) in desk.receipts
    ensures var receipt := desk.receipts[Identity(subject, key)];
            var answer := Submit(le, desk, subject, key, payload, cmd);
            && answer.desk == desk
            && (Precheck(cmd).Some? ==> answer.result == Err(Refused(Precheck(cmd).value)))
            && (Precheck(cmd).None? ==> answer.result == if receipt.hash != Canon(le, payload) then Err(KeyReused) else Ok(receipt.reply))
  {
  }

  /** A served command, resent after any run with its fields in any order, answers the same and changes nothing. */
  lemma ResendRecoversReply(
    le: Collation<FieldName>, desk: Desk, subject: string, key: string, payload: Payload, cmd: Command,
    events: seq<DeskEvent>, resent: Payload)
    requires TotalOrder(le) && Carries(payload, cmd) && Carries(resent, cmd)
    requires Submit(le, desk, subject, key, payload, cmd).result.Ok?
    ensures var first := Submit(le, desk, subject, key, payload, cmd);
            var later := DeskRun(le, first.desk, events);
            Submit(le, later, subject, key, resent, cmd) == Answer(later, first.result)
  {
    var first := Submit(le, desk, subject, key, payload, cmd);
    ServedLeavesReceipt(le, desk, subject, key, payload, cmd);
    ReceiptsAreKept(le, first.desk, events, Identity(subject, key));
    HashIdentifiesCommand(le, payload, cmd, resent, cmd);
    SpentKeyAnswers(le, DeskRun(le, first.desk, events), subject, key, resent, cmd);
  }

  /** The same key with other data is refused and changes nothing, after any run. */
  lemma OtherDataIsRefused(
    le: Collation<FieldName>, desk: Desk, subject: string, key: string, payload: Payload, cmd: Command,
    events: seq<DeskEvent>, other: Payload, otherCmd: Command)
    requires TotalOrder(le) && Carries(payload, cmd) && Carries(other, otherCmd) && otherCmd != cmd
    requires Submit(le, desk, subject, key, payload, cmd).result.Ok?
    ensures var later := DeskRun(le, Submit(le, desk, subject, key, payload, cmd).desk, events);
            var answer := Submit(le, later, subject, key, other, otherCmd);
            answer.desk == later && answer.result.Err?
            && (Precheck(otherCmd).None? ==> answer.result == Err(KeyReused))
  {
    var first := Submit(le, desk, subject, key, payload, cmd);
    ServedLeavesReceipt(le, desk, subject, key, payload, cmd);
    ReceiptsAreKept(le, first.desk, events, Identity(subject, key));
    HashIdentifiesCommand(le, payload, cmd, other, otherCmd);
    SpentKeyAnswers(le, DeskRun(le, first.desk, events), subject, key, other, otherCmd);
  }

  /**
   The same on the payloads alone, whatever they are taken to ask for: under a served key, a
   request that passes its own checks gets the first answer exactly when its payload is the
   first one up to the order of fields, and otherwise is refused; nothing changes either way.
   */
  lemma ResendIsAnsweredIff(
    le: Collation<FieldName>, desk: Desk, subject: string, key: string, payload: Payload, cmd: Command,
    events: seq<DeskEvent>, resent: Payload, resentCmd: Command)
    requires TotalOrder(le) && Unique(payload) && Unique(resent)
    requires Costed(cmd) && Submit(le, desk, subject, key, payload, cmd).result.Ok?
    requires Costed(resentCmd) && Precheck(resentCmd).None?
    ensures var first := Submit(le, desk, subject, key, payload, cmd);
            var later := DeskRun(le, first.desk, events);
            Submit(le, later, subject, key, resent, resentCmd)
            == Answer(later, if Similar(payload, resent) then first.result else Err(KeyReused))
  {
    var first := Submit(le, desk, subject, key, payload, cmd);
    ServedLeavesReceipt(le, desk, subject, key, payload, cmd);
    ReceiptsAreKept(le, first.desk, events, Identity(subject, key));
    CanonIffSimilar(le, payload, resent);
    SpentKeyAnswers(le, DeskRun(le, first.desk, events), subject, key, resent, resentCmd);
  }

  /**
   So a field sent as null is not the field left out: a request served without it, resent with
   null in its place, is refused although both ask for the same command.
   */
  lemma NullIsNotAbsent(
    le: Collation<FieldName>, desk: Desk, subject: string, key: string, fields: Fields, cmd: Command,
    events: seq<DeskEvent>, absent: FieldName)
    requires TotalOrder(le) && Unique(Object(fields)) && Get(fields, absent).None?
    requires Costed(cmd) && Submit(le, desk, subject, key, Object(fields), cmd).result.Ok?
    ensures var later := DeskRun(le, Submit(le, desk, subject, key, Object(fields), cmd).desk, events);
            Submit(le, later, subject, key, Object(fields + [Field(absent, Null)]), cmd) == Answer(later, Err(KeyReused))
  {
    var resent := fields + [Field(absent, Null)];
    GetNone(fields, absent);
    assert UniqueKeys(resent);
    ServedLeavesReceipt(le, desk, subject, key, Object(fields), cmd);
    ResendIsAnsweredIff(le, desk, subject, key, Object(fields), cmd, events, Object(resent), cmd);
  }

  /** A refused command leaves no receipt, so the key stays free for another attempt. */
  lemma RefusalLeavesNoTrace(le: Collation<FieldName>, desk: Desk, subject: string, key: string, payload: Payload, cmd: Command)
    requires Costed(cmd) && Submit(le, desk, subject, key, payload, cmd).result.Err?
    ensures Submit(le, desk, subject, key, payload, cmd).desk == desk
  {
  }
}
