/** What every run of the maintenance notices keeps, and where a sweep settles. */
module AndonLaws {
  import opened Wrappers
  import opened Andon
  import Inbox

  // -- Notices --------------------------------------------------------------------------

  /** Identifiers are distinct, and a unit has at most one notice that is not resolved. */
  ghost predicate BoardLaw(avisos: seq<Aviso>, nextId: Id) {
    && (forall i, j :: 0 <= i < j < |avisos| ==> avisos[i].id != avisos[j].id)
    && (forall i :: 0 <= i < |avisos| ==> avisos[i].id < nextId)
    && (forall i, j :: 0 <= i < j < |avisos| && avisos[i].unidadId == avisos[j].unidadId ==>
          avisos[i].estado == Resuelto || avisos[j].estado == Resuelto)
  }

  /** A notice keeps its origin, only moves forward, and is final once resolved. */
  ghost predicate Follows(a: Aviso, b: Aviso) {
    && b.id == a.id && b.unidadId == a.unidadId && b.abiertaAt == a.abiertaAt
    && b.kmAlAbrir == a.kmAlAbrir && b.diasAlAbrir == a.diasAlAbrir
    && (a.estado == Resuelto ==> b == a)
    && (a.estado == Enterado ==> b.estado != Abierto)
  }

  ghost predicate Evolves(before: seq<Aviso>, after: seq<Aviso>) {
    |before| <= |after| && forall i :: 0 <= i < |before| ==> Follows(before[i], after[i])
  }

  lemma {:induction false} UpdateReplaces(avisos: seq<Aviso>, k: nat, aviso: Aviso)
    requires forall i, j :: 0 <= i < j < |avisos| ==> avisos[i].id != avisos[j].id
    requires k < |avisos| && avisos[k].id == aviso.id
    ensures Update(avisos, aviso) == avisos[k := aviso]
  {
    if k > 0 {
      UpdateReplaces(avisos[1..], k - 1, aviso);
    }
  }

  lemma {:induction false} OpenIsOnly(avisos: seq<Aviso>, k: nat)
    requires forall i, j :: 0 <= i < j < |avisos| && avisos[i].unidadId == avisos[j].unidadId ==>
               avisos[i].estado == Resuelto || avisos[j].estado == Resuelto
    requires k < |avisos| && avisos[k].estado != Resuelto
    ensures NoResuelto(avisos, avisos[k].unidadId) == Some(avisos[k])
  {
    if k > 0 {
      OpenIsOnly(avisos[1..], k - 1);
    }
  }

  lemma ReplaceKeepsBoard(avisos: seq<Aviso>, nextId: Id, k: nat, aviso: Aviso)
    requires BoardLaw(avisos, nextId) && k < |avisos| && Follows(avisos[k], aviso) && avisos[k].estado != Resuelto
    ensures BoardLaw(avisos[k := aviso], nextId) && Evolves(avisos, avisos[k := aviso])
  {
  }

  lemma ReplacedOpen(avisos: seq<Aviso>, nextId: Id, k: nat, aviso: Aviso, v: Id)
    requires BoardLaw(avisos, nextId) && k < |avisos| && avisos[k].unidadId == aviso.unidadId && avisos[k].estado != Resuelto
    requires BoardLaw(avisos[k := aviso], nextId)
    ensures NoResuelto(avisos[k := aviso], v)
         == if v != aviso.unidadId then NoResuelto(avisos, v) else if aviso.estado == Resuelto then None else Some(aviso)
  {
    var after := avisos[k := aviso];
    if v != aviso.unidadId {
      SameOpen(avisos, after, v);
    } else if aviso.estado != Resuelto {
      OpenIsOnly(after, k);
    } else {
      assert forall i :: 0 <= i < |avisos| && i != k && avisos[i].unidadId == v ==> avisos[i].estado == Resuelto;
      assert forall i :: 0 <= i < |after| ==> after[i].unidadId != v || after[i].estado == Resuelto;
    }
  }

  /** Replacing a notice changes the open notice of its own unit only. */
  lemma ReplaceEffect(avisos: seq<Aviso>, nextId: Id, k: nat, aviso: Aviso)
    requires BoardLaw(avisos, nextId) && k < |avisos| && Follows(avisos[k], aviso) && avisos[k].estado != Resuelto
    ensures Update(avisos, aviso) == avisos[k := aviso]
    ensures BoardLaw(avisos[k := aviso], nextId) && Evolves(avisos, avisos[k := aviso])
    ensures forall v :: NoResuelto(avisos[k := aviso], v)
                        == if v != aviso.unidadId then NoResuelto(avisos, v) else if aviso.estado == Resuelto then None else Some(aviso)
  {
    UpdateReplaces(avisos, k, aviso);
    ReplaceKeepsBoard(avisos, nextId, k, aviso);
    var after := avisos[k := aviso];
    forall v
      ensures NoResuelto(after, v)
              == if v != aviso.unidadId then NoResuelto(avisos, v) else if aviso.estado == Resuelto then None else Some(aviso)
    {
      ReplacedOpen(avisos, nextId, k, aviso, v);
    }
  }

  /** Two lists that differ only in other units' notices show the same open notice. */
  lemma {:induction false} SameOpen(avisos: seq<Aviso>, after: seq<Aviso>, v: Id)
    requires |avisos| == |after|
    requires forall i :: 0 <= i < |avisos| && after[i] != avisos[i] ==> avisos[i].unidadId != v && after[i].unidadId != v
    ensures NoResuelto(after, v) == NoResuelto(avisos, v)
  {
    if avisos != [] {
      SameOpen(avisos[1..], after[1..], v);
    }
  }

  lemma {:induction false} AppendedOpen(avisos: seq<Aviso>, aviso: Aviso, v: Id)
    ensures NoResuelto(avisos + [aviso], v)
         == if NoResuelto(avisos, v).Some? then NoResuelto(avisos, v)
            else if v == aviso.unidadId && aviso.estado != Resuelto then Some(aviso) else None
  {
    if avisos != [] {
      assert (avisos + [aviso])[0] == avisos[0] && (avisos + [aviso])[1..] == avisos[1..] + [aviso];
      AppendedOpen(avisos[1..], aviso, v);
    }
  }

  lemma AppendEffect(avisos: seq<Aviso>, nextId: Id, aviso: Aviso)
    requires BoardLaw(avisos, nextId) && aviso.id == nextId && aviso.estado != Resuelto && NoResuelto(avisos, aviso.unidadId).None?
    ensures BoardLaw(avisos + [aviso], nextId + 1) && Evolves(avisos, avisos + [aviso])
    ensures forall v :: NoResuelto(avisos + [aviso], v) == if v == aviso.unidadId then Some(aviso) else NoResuelto(avisos, v)
  {
    forall v
      ensures NoResuelto(avisos + [aviso], v) == if v == aviso.unidadId then Some(aviso) else NoResuelto(avisos, v)
    {
      AppendedOpen(avisos, aviso, v);
    }
  }

  // -- What each operation does to its unit, and to no other ----------------------------

  ghost predicate Lawful(board: Board, box: Inbox.Box, now: Time) {
    BoardLaw(board.avisos, board.nextId) && Inbox.BoxLaw(box, now)
  }

  function Open(board: Board, u: Id): Option<Aviso> {
    NoResuelto(board.avisos, u)
  }

  function Entry(box: Inbox.Box, u: Id): Option<Inbox.Severity> {
    Inbox.Live(box, Key(u))
  }

  /** Only the given unit's notice and entry changed, to the given ones; history was kept. */
  ghost predicate Changed(
    board: Board, box: Inbox.Box, board': Board, box': Inbox.Box, now: Time, u: Id, aviso: Option<Aviso>, entry: Option<Inbox.Severity>)
  {
    && Lawful(board', box', now) && Evolves(board.avisos, board'.avisos)
    && (forall v :: Open(board', v) == if v == u then aviso else Open(board, v))
    && (forall v :: Entry(box', v) == if v == u then entry else Entry(box, v))
  }

  lemma ResolveEffect(board: Board, box: Inbox.Box, now: Time, u: Id, resolved: Aviso)
    requires Lawful(board, box, now) && Open(board, u).Some?
    requires Follows(Open(board, u).value, resolved) && resolved.estado == Resuelto
    ensures Changed(board, box, board.(avisos := Update(board.avisos, resolved)), Inbox.ExpireDedupe(box, Key(u), now), now, u, None, None)
  {
    var k :| 0 <= k < |board.avisos| && board.avisos[k] == Open(board, u).value;
    ReplaceEffect(board.avisos, board.nextId, k, resolved);
    Inbox.ExpireEffect(box, Key(u), now);
  }

  lemma RefreshEffect(board: Board, box: Inbox.Box, now: Time, aviso: Aviso, severity: Inbox.Severity)
    requires Lawful(board, box, now)
    ensures Changed(board, box, board, Inbox.Ingest(box, AvisoCommand(aviso, severity), now), now,
                    aviso.unidadId, Open(board, aviso.unidadId), Some(severity))
  {
    Inbox.IngestEffect(box, AvisoCommand(aviso, severity), now);
  }

  lemma OpenEffect(board: Board, box: Inbox.Box, active: bool, now: Time, aviso: Aviso)
    requires Lawful(board, box, now) && aviso.id == board.nextId && aviso.estado == Abierto && Open(board, aviso.unidadId).None?
    ensures Changed(board, box, board.(avisos := board.avisos + [aviso], nextId := board.nextId + 1),
                    if active then Inbox.Ingest(box, AvisoCommand(aviso, aviso.severity), now) else box, now,
                    aviso.unidadId, Some(aviso), if active then Some(aviso.severity) else Entry(box, aviso.unidadId))
  {
    AppendEffect(board.avisos, board.nextId, aviso);
    if active {
      Inbox.IngestEffect(box, AvisoCommand(aviso, aviso.severity), now);
    }
  }

  function NextNotice(board: Board, v: View, u: Id, now: Time): Option<Aviso> {
    if Withdraws(v) then None else if Opens(v) then Some(Opened(board, v, u, now)) else v.abierto
  }

  function NextEntry(v: View, active: bool, entry: Option<Inbox.Severity>): Option<Inbox.Severity> {
    if Withdraws(v) then None else if active && (Refreshes(v) || Opens(v)) then Severity(v) else entry
  }

  /** What an evaluation of u, having seen v, does. */
  ghost predicate Judgement(board: Board, box: Inbox.Box, active: bool, v: View, u: Id, now: Time, done: Evaluated) {
    && Changed(board, box, done.board, done.box, now, u, NextNotice(board, v, u, now), NextEntry(v, active, Entry(box, u)))
    && done.board.(avisos := board.avisos, nextId := board.nextId) == board
    && (done.aviso.Some? <==> Opens(v))
    && (!Withdraws(v) && !Opens(v) ==> done.board == board)
  }

  lemma WithdrawEffect(board: Board, box: Inbox.Box, active: bool, v: View, u: Id, now: Time)
    requires Lawful(board, box, now) && Withdraws(v) && v.abierto == Open(board, u)
    ensures Judgement(board, box, active, v, u, now,
                      Evaluated(board.(avisos := Update(board.avisos, Resolved(v.abierto.value, now, None))), Inbox.ExpireDedupe(box, Key(u), now), None))
  {
    ResolveEffect(board, box, now, u, Resolved(v.abierto.value, now, None));
  }

  lemma UrgencyEffect(board: Board, box: Inbox.Box, active: bool, v: View, u: Id, now: Time)
    requires Lawful(board, box, now) && Refreshes(v) && !Withdraws(v) && v.abierto == Open(board, u)
    ensures Judgement(board, box, active, v, u, now,
                      Evaluated(board, if active then Inbox.Ingest(box, AvisoCommand(v.abierto.value, Severity(v).value), now) else box, None))
  {
    if active {
      RefreshEffect(board, box, now, v.abierto.value, Severity(v).value);
    }
  }

  lemma OpeningEffect(board: Board, box: Inbox.Box, active: bool, v: View, u: Id, now: Time)
    requires Lawful(board, box, now) && Opens(v) && !Withdraws(v) && !Refreshes(v) && v.abierto == Open(board, u)
    ensures var aviso := Opened(board, v, u, now);
            Judgement(board, box, active, v, u, now,
                      Evaluated(board.(avisos := board.avisos + [aviso], nextId := board.nextId + 1),
                                if active then Inbox.Ingest(box, AvisoCommand(aviso, aviso.severity), now) else box, Some(aviso)))
  {
    OpenEffect(board, box, active, now, Opened(board, v, u, now));
  }

  lemma EvaluateEffect(board: Board, box: Inbox.Box, active: bool, catalog: seq<UnidadVista>, u: Id, currentKm: int, now: Time)
    requires Lawful(board, box, now)
    ensures Judgement(board, box, active, ViewOf(board, catalog, u, currentKm, now), u, now,
                      EvaluarUnidad(board, box, active, catalog, u, currentKm, now))
  {
    var v := ViewOf(board, catalog, u, currentKm, now);
    if Withdraws(v) {
      WithdrawEffect(board, box, active, v, u, now);
    } else if Refreshes(v) {
      UrgencyEffect(board, box, active, v, u, now);
    } else if Opens(v) {
      OpeningEffect(board, box, active, v, u, now);
    }
  }

  /** A closed visit leaves its unit without open notice or entry; a repeated delivery changes nothing. */
  lemma HandleEffect(board: Board, box: Inbox.Box, p: VisitaCerrada, now: Time)
    requires Lawful(board, box, now)
    ensures var done := HandleVisitaCerrada(board, box, p, now);
            && done.duplicate == (p.eventId in board.processed) && p.eventId in done.board.processed
            && (if done.duplicate then done.board == board && done.box == box
                else Changed(board, box, done.board, done.box, now, p.unidadId, None, if Open(board, p.unidadId).Some? then None else Entry(box, p.unidadId)))
  {
    var abierto := Open(board, p.unidadId);
    if p.eventId !in board.processed && abierto.Some? {
      ResolveEffect(board, box, now, p.unidadId, Resolved(abierto.value, p.cerradoAt, Some(p.visitaId)));
    }
  }

  /** Acknowledging never opens nor closes anything. */
  lemma EnteradoEffect(board: Board, avisoId: Id, supervisor: bool, user: Option<string>, now: Time)
    requires BoardLaw(board.avisos, board.nextId) && EnteradoTable(board, avisoId, supervisor, user, now).Ok?
    ensures var board' := EnteradoTable(board, avisoId, supervisor, user, now).value;
            && board'.(avisos := board.avisos) == board
            && BoardLaw(board'.avisos, board'.nextId) && Evolves(board.avisos, board'.avisos)
            && (forall v :: Open(board', v).Some? == Open(board, v).Some?)
  {
    var aviso := FindAviso(board.avisos, avisoId).value;
    if aviso.estado == Abierto {
      var k :| 0 <= k < |board.avisos| && board.avisos[k] == aviso;
      OpenIsOnly(board.avisos, k);
      ReplaceEffect(board.avisos, board.nextId, k, aviso.(estado := Enterado, enteradoAt := Some(now), enteradoBy := user));
    }
  }

  // -- The inbox follows ----------------------------------------------------------------

  /** Every entry has its open notice; if strict, every open notice has its entry. */
  ghost predicate InStep(board: Board, box: Inbox.Box, strict: bool) {
    && (forall u :: Entry(box, u).Some? ==> Open(board, u).Some?)
    && (strict ==> forall u :: Open(board, u).Some? ==> Entry(box, u).Some?)
  }

  /** Laws kept, inbox in step, history kept. */
  ghost predicate Progress(board: Board, box: Inbox.Box, board': Board, box': Inbox.Box, now: Time, strict: bool) {
    && Lawful(board', box', now) && InStep(board', box', strict)
    && Evolves(board.avisos, board'.avisos) && board'.processed == board.processed
  }

  lemma JudgementKeepsStep(board: Board, box: Inbox.Box, active: bool, v: View, u: Id, now: Time, done: Evaluated, strict: bool)
    requires Judgement(board, box, active, v, u, now, done) && v.abierto == Open(board, u)
    requires InStep(board, box, strict) && (strict ==> active)
    ensures Progress(board, box, done.board, done.box, now, strict)
  {
  }

  lemma EvaluateKeepsStep(board: Board, box: Inbox.Box, active: bool, catalog: seq<UnidadVista>, u: Id, currentKm: int, now: Time, strict: bool)
    requires Lawful(board, box, now) && InStep(board, box, strict) && (strict ==> active)
    ensures var done := EvaluarUnidad(board, box, active, catalog, u, currentKm, now);
            Progress(board, box, done.board, done.box, now, strict)
  {
    EvaluateEffect(board, box, active, catalog, u, currentKm, now);
    JudgementKeepsStep(board, box, active, ViewOf(board, catalog, u, currentKm, now), u, now,
                       EvaluarUnidad(board, box, active, catalog, u, currentKm, now), strict);
  }

  /** The sweep's own judgement of a unit: by the kilometres its notice carries and the days gone by. */
  function PendingView(board: Board, catalog: seq<UnidadVista>, u: Id, now: Time): View
    requires HasVisit(board, u)
  {
    ViewOf(board, catalog, u, board.lastClosed[u].km + Carried(board, u), now)
  }

  lemma PendingIsEvaluation(board: Board, box: Inbox.Box, active: bool, catalog: seq<UnidadVista>, w: Id, now: Time)
    requires HasVisit(board, w)
    ensures var km := board.lastClosed[w].km + Carried(board, w);
            && EvaluarPendiente(board, box, active, catalog, w, now) == EvaluarUnidad(board, box, active, catalog, w, km, now)
            && PendingView(board, catalog, w, now) == ViewOf(board, catalog, w, km, now)
  {
  }

  lemma PendingIsJudged(board: Board, box: Inbox.Box, active: bool, catalog: seq<UnidadVista>, w: Id, now: Time)
    requires Lawful(board, box, now) && HasVisit(board, w)
    ensures Judgement(board, box, active, PendingView(board, catalog, w, now), w, now, EvaluarPendiente(board, box, active, catalog, w, now))
  {
    EvaluateEffect(board, box, active, catalog, w, board.lastClosed[w].km + Carried(board, w), now);
    PendingIsEvaluation(board, box, active, catalog, w, now);
  }

  lemma EvolvesOn(a: seq<Aviso>, b: seq<Aviso>, c: seq<Aviso>)
    requires Evolves(a, b) && Evolves(b, c)
    ensures Evolves(a, c)
  {
    forall i | 0 <= i < |a|
      ensures Follows(a[i], c[i])
    {
      assert Follows(a[i], b[i]) && Follows(b[i], c[i]);
    }
  }

  lemma StandingStill(board: Board, box: Inbox.Box, now: Time, strict: bool)
    requires Lawful(board, box, now) && InStep(board, box, strict)
    ensures Progress(board, box, board, box, now, strict)
  {
  }

  lemma PendingKeepsStep(board: Board, box: Inbox.Box, active: bool, catalog: seq<UnidadVista>, u: Id, now: Time, strict: bool)
    requires Lawful(board, box, now) && InStep(board, box, strict) && (strict ==> active)
    ensures var done := EvaluarPendiente(board, box, active, catalog, u, now);
            Progress(board, box, done.board, done.box, now, strict)
  {
    if HasVisit(board, u) {
      PendingIsJudged(board, box, active, catalog, u, now);
      JudgementKeepsStep(board, box, active, PendingView(board, catalog, u, now), u, now,
                         EvaluarPendiente(board, box, active, catalog, u, now), strict);
    } else {
      StandingStill(board, box, now, strict);
    }
  }

  lemma {:induction false} SweepKeepsStep(
    board: Board, box: Inbox.Box, active: bool, catalog: seq<UnidadVista>, units: seq<UnidadVista>, now: Time, strict: bool)
    requires Lawful(board, box, now) && InStep(board, box, strict) && (strict ==> active)
    ensures var done := EvaluarLista(board, box, active, catalog, units, now);
            Progress(board, box, done.board, done.box, now, strict)
    decreases units
  {
    if units != [] {
      var first := EvaluarPendiente(board, box, active, catalog, units[0].unidadId, now);
      PendingKeepsStep(board, box, active, catalog, units[0].unidadId, now, strict);
      SweepKeepsStep(first.board, first.box, active, catalog, units[1..], now, strict);
      EvolvesOn(board.avisos, first.board.avisos, EvaluarLista(first.board, first.box, active, catalog, units[1..], now).board.avisos);
    } else {
      StandingStill(board, box, now, strict);
    }
  }

  /** A notice opened where an old entry had expired is unread for everyone. */
  lemma ReopeningClearsReads(
    board: Board, box: Inbox.Box, catalog: seq<UnidadVista>, u: Id, currentKm: int, now: Time, user: string)
    requires Lawful(board, box, now) && InStep(board, box, false)
    requires Opens(ViewOf(board, catalog, u, currentKm, now)) && Inbox.FindByDedupe(box.items, Key(u)).Some?
    ensures var done := EvaluarUnidad(board, box, true, catalog, u, currentKm, now);
            var item := Inbox.FindByDedupe(done.box.items, Key(u));
            item.Some? && item.value.expiresAt.None? && item.value.sourceRef == done.aviso.value.id
            && Inbox.ReadAt(done.box, user, item.value.id).None?
  {
    var v := ViewOf(board, catalog, u, currentKm, now);
    var aviso := Opened(board, v, u, now);
    var cmd := AvisoCommand(aviso, aviso.severity);
    assert Entry(box, u).None?;
    Inbox.IngestAndReads(box, cmd, now, user);
    Inbox.SaveKeepsLaw(box, Inbox.Ingest(box, cmd, now), Inbox.ApplyIngest(Inbox.FindByDedupe(box.items, Key(u)), cmd, now, box.nextId).item, now);
  }

  // -- Runs -----------------------------------------------------------------------------

  datatype System = System(board: Board, box: Inbox.Box, active: bool, catalog: seq<UnidadVista>, clock: Time)

  /** Engine operations, configuration, and whatever readers and other modules do to the inbox. */
  datatype Action =
    | Evaluar(unidadId: Id, currentKm: int)
    | Todas
    | Cerrar(visita: VisitaCerrada)
    | Enterar(avisoId: Id, supervisor: bool, user: Option<string>)
    | PonerUmbral(tipoId: Id, umbral: Umbral)
    | Alinear(unidadId: Id, last: LastClosed)
    | Catalogar(catalog: seq<UnidadVista>)
    | Switch(on: bool)
    | ReadOne(itemId: Inbox.Id, reader: string)
    | ReadEverything(reader: string)
    | OtherIngest(cmd: Inbox.IngestCommand)
    | OtherExpire(key: Inbox.DedupeKey)
    | Wait(elapsed: nat)

  predicate Expected(a: Action) {
    match a
    case OtherIngest(cmd) => !cmd.dedupeKey.AvisoAbierto?
    case OtherExpire(key) => !key.AvisoAbierto?
    case _ => true
  }

  function Act(s: System, a: Action): System {
    match a
    case Evaluar(u, km) =>
      var done := EvaluarUnidad(s.board, s.box, s.active, s.catalog, u, km, s.clock);
      s.(board := done.board, box := done.box)
    case Todas =>
      var done := EvaluarTodas(s.board, s.box, s.active, s.catalog, s.clock);
      s.(board := done.board, box := done.box)
    case Cerrar(p) =>
      var done := HandleVisitaCerrada(s.board, s.box, p, s.clock);
      s.(board := done.board, box := done.box)
    case Enterar(id, supervisor, user) =>
      var done := EnteradoTable(s.board, id, supervisor, user, s.clock);
      if done.Ok? then s.(board := done.value) else s
    case PonerUmbral(tipo, umbral) => s.(board := s.board.(umbrales := s.board.umbrales[tipo := umbral]))
    case Alinear(u, last) => s.(board := s.board.(lastClosed := s.board.lastClosed[u := last]))
    case Catalogar(catalog) => s.(catalog := catalog)
    case Switch(on) => s.(active := on)
    case ReadOne(itemId, reader) =>
      var done := Inbox.MarkRead(s.box, itemId, reader, s.clock);
      if done.Ok? then s.(box := done.value) else s
    case ReadEverything(reader) => s.(box := Inbox.MarkAllRead(s.box, reader, s.clock))
    case OtherIngest(cmd) => s.(box := Inbox.Ingest(s.box, cmd, s.clock))
    case OtherExpire(key) => s.(box := Inbox.ExpireDedupe(s.box, key, s.clock))
    case Wait(elapsed) => s.(clock := s.clock + elapsed)
  }

  function Run(s: System, actions: seq<Action>): System {
    if actions == [] then s else Act(Run(s, actions[..|actions| - 1]), actions[|actions| - 1])
  }

  ghost predicate Sound(s: System, strict: bool) {
    Lawful(s.board, s.box, s.clock) && InStep(s.board, s.box, strict) && (strict ==> s.active)
  }

  lemma NoticeActionKeeps(s: System, a: Action, strict: bool)
    requires Sound(s, strict) && (a.Evaluar? || a.Todas? || a.Cerrar? || a.Enterar?)
    ensures Sound(Act(s, a), strict) && Evolves(s.board.avisos, Act(s, a).board.avisos) && s.board.processed <= Act(s, a).board.processed
  {
    match a
    case Evaluar(u, km) => EvaluateKeepsStep(s.board, s.box, s.active, s.catalog, u, km, s.clock, strict);
    case Todas => SweepKeepsStep(s.board, s.box, s.active, s.catalog, s.catalog, s.clock, strict);
    case Cerrar(p) => HandleEffect(s.board, s.box, p, s.clock);
    case Enterar(id, supervisor, user) =>
      if EnteradoTable(s.board, id, supervisor, user, s.clock).Ok? {
        EnteradoEffect(s.board, id, supervisor, user, s.clock);
      }
  }

  lemma SameItemsInStep(board: Board, box: Inbox.Box, box': Inbox.Box, now: Time, strict: bool)
    requires Lawful(board, box, now) && InStep(board, box, strict) && box'.items == box.items && box'.nextId == box.nextId
    ensures Lawful(board, box', now) && InStep(board, box', strict)
  {
    assert forall u :: Entry(box', u) == Entry(box, u);
  }

  lemma OtherKeysInStep(board: Board, box: Inbox.Box, box': Inbox.Box, now: Time, strict: bool)
    requires Lawful(board, box, now) && InStep(board, box, strict) && Inbox.BoxLaw(box', now)
    requires forall u :: Inbox.Live(box', Key(u)) == Inbox.Live(box, Key(u))
    ensures Lawful(board, box', now) && InStep(board, box', strict)
  {
    assert forall u :: Entry(box', u) == Entry(box, u);
  }

  predicate OnInbox(a: Action) {
    a.ReadOne? || a.ReadEverything? || a.OtherIngest? || a.OtherExpire?
  }

  lemma InboxActionKeeps(s: System, a: Action, strict: bool)
    requires Sound(s, strict) && Expected(a) && OnInbox(a)
    ensures Sound(Act(s, a), strict) && Act(s, a).board == s.board
  {
    var box' := Act(s, a).box;
    match a
    case ReadOne(_, _) => SameItemsInStep(s.board, s.box, box', s.clock, strict);
    case ReadEverything(reader) =>
      Inbox.MarkAllReadEmptiesBadge(s.box, reader, s.clock);
      SameItemsInStep(s.board, s.box, box', s.clock, strict);
    case OtherIngest(cmd) =>
      Inbox.IngestEffect(s.box, cmd, s.clock);
      OtherKeysInStep(s.board, s.box, box', s.clock, strict);
    case OtherExpire(key) =>
      Inbox.ExpireEffect(s.box, key, s.clock);
      OtherKeysInStep(s.board, s.box, box', s.clock, strict);
  }

  lemma ConfigActionKeeps(s: System, a: Action, strict: bool)
    requires Sound(s, strict) && (a.PonerUmbral? || a.Alinear? || a.Catalogar? || a.Switch? || a.Wait?)
    requires strict ==> a != Switch(false)
    ensures Sound(Act(s, a), strict) && Act(s, a).board.avisos == s.board.avisos && s.board.processed == Act(s, a).board.processed
  {
    var s' := Act(s, a);
    Inbox.LawLater(s.box, s.clock, s'.clock);
    assert s'.box == s.box && s'.board.avisos == s.board.avisos;
    assert forall u :: Open(s'.board, u) == Open(s.board, u);
  }

  lemma ActKeeps(s: System, a: Action, strict: bool)
    requires Sound(s, strict) && Expected(a) && (strict ==> a != Switch(false))
    ensures Sound(Act(s, a), strict) && Evolves(s.board.avisos, Act(s, a).board.avisos) && s.board.processed <= Act(s, a).board.processed
  {
    if a.Evaluar? || a.Todas? || a.Cerrar? || a.Enterar? {
      NoticeActionKeeps(s, a, strict);
    } else if OnInbox(a) {
      InboxActionKeeps(s, a, strict);
    } else {
      ConfigActionKeeps(s, a, strict);
    }
  }

  ghost predicate ExpectedRun(actions: seq<Action>, strict: bool) {
    forall i :: 0 <= i < |actions| ==> Expected(actions[i]) && (strict ==> actions[i] != Switch(false))
  }

  /**
   Over any run with a non-decreasing clock: at most one unresolved notice per unit, resolved
   notices never change, and a live entry always has its unresolved notice. If the alert type
   stays active (`strict`), entries are live exactly for the units with an unresolved notice.
   */
  lemma {:induction false} InboxFollowsNotices(s: System, actions: seq<Action>, strict: bool)
    requires Sound(s, strict) && ExpectedRun(actions, strict)
    ensures Sound(Run(s, actions), strict) && Evolves(s.board.avisos, Run(s, actions).board.avisos)
    ensures s.board.processed <= Run(s, actions).board.processed
  {
    if actions != [] {
      var mid := Run(s, actions[..|actions| - 1]);
      InboxFollowsNotices(s, actions[..|actions| - 1], strict);
      ActKeeps(mid, actions[|actions| - 1], strict);
      EvolvesOn(s.board.avisos, mid.board.avisos, Run(s, actions).board.avisos);
    }
  }

  /** A closed-visit event delivered again, however much later, changes nothing. */
  lemma RedeliveryChangesNothing(s: System, p: VisitaCerrada, actions: seq<Action>)
    requires Sound(s, false) && ExpectedRun(actions, false)
    ensures var late := Run(Act(s, Cerrar(p)), actions);
            Act(late, Cerrar(p)) == late && HandleVisitaCerrada(late.board, late.box, p, late.clock).duplicate
  {
    NoticeActionKeeps(s, Cerrar(p), false);
    HandleEffect(s.board, s.box, p, s.clock);
    InboxFollowsNotices(Act(s, Cerrar(p)), actions, false);
  }

  // -- Where a sweep settles ------------------------------------------------------------

  ghost predicate ThresholdsOk(board: Board) {
    forall tipo :: tipo in board.umbrales ==> board.umbrales[tipo].tKm >= 1
  }

  predicate Judged(board: Board, catalog: seq<UnidadVista>, u: Id) {
    HasVisit(board, u) && Get(catalog, u).Some? && Get(catalog, u).value.activa
  }

  /** An unresolved notice exists exactly when the unit is overdue, and the entry shows how urgent it is. */
  ghost predicate Settled(board: Board, box: Inbox.Box, active: bool, catalog: seq<UnidadVista>, u: Id, now: Time)
    requires Judged(board, catalog, u)
  {
    var v := PendingView(board, catalog, u, now);
    && v.km == Carried(board, u)
    && (Open(board, u).Some? <==> v.km >= v.limits.tKm || v.dias >= v.limits.tDias)
    && (active ==> Entry(box, u) == Prioridad(v.km, v.dias, v.limits))
  }

  /** What evaluating one pending unit shows of another, or of itself. */
  lemma PendingEffect(board: Board, box: Inbox.Box, active: bool, catalog: seq<UnidadVista>, w: Id, now: Time, u: Id)
    requires Lawful(board, box, now) && HasVisit(board, w)
    ensures var done := EvaluarPendiente(board, box, active, catalog, w, now);
            Shows(board, box, active, PendingView(board, catalog, w, now), w, now, done, u)
  {
    PendingIsJudged(board, box, active, catalog, w, now);
    JudgementShows(board, box, active, PendingView(board, catalog, w, now), w, now, EvaluarPendiente(board, box, active, catalog, w, now), u);
  }

  /** A judgement of w, as unit u sees it. */
  ghost predicate Shows(board: Board, box: Inbox.Box, active: bool, v: View, w: Id, now: Time, done: Evaluated, u: Id) {
    && Lawful(done.board, done.box, now)
    && done.board.lastClosed == board.lastClosed && done.board.umbrales == board.umbrales
    && Open(done.board, u) == (if w == u then NextNotice(board, v, u, now) else Open(board, u))
    && Entry(done.box, u) == (if w == u then NextEntry(v, active, Entry(box, u)) else Entry(box, u))
    && (!Withdraws(v) && !Opens(v) ==> done.board == board)
  }

  lemma JudgementShows(board: Board, box: Inbox.Box, active: bool, v: View, w: Id, now: Time, done: Evaluated, u: Id)
    requires Judgement(board, box, active, v, w, now, done)
    ensures Shows(board, box, active, v, w, now, done, u)
  {
  }

  lemma PendingSettles(board: Board, box: Inbox.Box, active: bool, catalog: seq<UnidadVista>, u: Id, now: Time)
    requires Lawful(board, box, now) && InStep(board, box, false) && ThresholdsOk(board) && Judged(board, catalog, u)
    ensures var done := EvaluarPendiente(board, box, active, catalog, u, now);
            Judged(done.board, catalog, u) && Settled(done.board, done.box, active, catalog, u, now)
  {
    PendingEffect(board, box, active, catalog, u, now, u);
  }

  lemma PendingSparesOthers(board: Board, box: Inbox.Box, active: bool, catalog: seq<UnidadVista>, w: Id, now: Time, u: Id)
    requires Lawful(board, box, now) && Judged(board, catalog, u) && Settled(board, box, active, catalog, u, now) && w != u
    ensures var done := EvaluarPendiente(board, box, active, catalog, w, now);
            Judged(done.board, catalog, u) && Settled(done.board, done.box, active, catalog, u, now)
  {
    if HasVisit(board, w) {
      PendingEffect(board, box, active, catalog, w, now, u);
    }
  }

  lemma PendingKeepsSettings(board: Board, box: Inbox.Box, active: bool, catalog: seq<UnidadVista>, u: Id, now: Time)
    ensures var done := EvaluarPendiente(board, box, active, catalog, u, now);
            done.board.lastClosed == board.lastClosed && done.board.umbrales == board.umbrales
  {
  }

  predicate Within(units: seq<UnidadVista>, u: Id) {
    exists i :: 0 <= i < |units| && units[i].unidadId == u
  }

  lemma WithinRest(units: seq<UnidadVista>, u: Id)
    requires Within(units, u) && units[0].unidadId != u
    ensures Within(units[1..], u)
  {
    var i :| 0 <= i < |units| && units[i].unidadId == u;
    assert units[1..][i - 1].unidadId == u;
  }

  lemma {:induction false} ListSettles(
    board: Board, box: Inbox.Box, active: bool, catalog: seq<UnidadVista>, units: seq<UnidadVista>, now: Time, u: Id)
    requires Lawful(board, box, now) && InStep(board, box, false) && ThresholdsOk(board) && Judged(board, catalog, u)
    requires Within(units, u) || Settled(board, box, active, catalog, u, now)
    ensures var done := EvaluarLista(board, box, active, catalog, units, now);
            Judged(done.board, catalog, u) && Settled(done.board, done.box, active, catalog, u, now)
    decreases units
  {
    if units != [] {
      var w := units[0].unidadId;
      var first := EvaluarPendiente(board, box, active, catalog, w, now);
      PendingKeepsSettings(board, box, active, catalog, w, now);
      PendingKeepsStep(board, box, active, catalog, w, now, false);
      if w == u {
        PendingSettles(board, box, active, catalog, u, now);
      } else if Settled(board, box, active, catalog, u, now) {
        PendingSparesOthers(board, box, active, catalog, w, now, u);
      } else {
        WithinRest(units, u);
      }
      ListSettles(first.board, first.box, active, catalog, units[1..], now, u);
    }
  }

  lemma {:induction false} FoundIsListed(catalog: seq<UnidadVista>, u: Id)
    requires Get(catalog, u).Some?
    ensures Within(catalog, u)
  {
    if catalog[0].unidadId != u {
      FoundIsListed(catalog[1..], u);
      var i :| 0 <= i < |catalog[1..]| && catalog[1..][i].unidadId == u;
      assert catalog[i + 1].unidadId == u;
    }
  }

  /** After a sweep every active unit with a closed visit is settled, severity of its entry included. */
  lemma SweepSettles(board: Board, box: Inbox.Box, active: bool, catalog: seq<UnidadVista>, now: Time, u: Id)
    requires Lawful(board, box, now) && InStep(board, box, false) && ThresholdsOk(board) && Judged(board, catalog, u)
    ensures var done := EvaluarTodas(board, box, active, catalog, now);
            Judged(done.board, catalog, u) && Settled(done.board, done.box, active, catalog, u, now)
  {
    FoundIsListed(catalog, u);
    ListSettles(board, box, active, catalog, catalog, now, u);
  }

  lemma {:induction false} SweepKeepsSettings(board: Board, box: Inbox.Box, active: bool, catalog: seq<UnidadVista>, units: seq<UnidadVista>, now: Time)
    ensures var done := EvaluarLista(board, box, active, catalog, units, now).board;
            done.lastClosed == board.lastClosed && done.umbrales == board.umbrales
    decreases units
  {
    if units != [] {
      var first := EvaluarPendiente(board, box, active, catalog, units[0].unidadId, now);
      SweepKeepsSettings(first.board, first.box, active, catalog, units[1..], now);
    }
  }

  /** A unit whose evaluation leaves the notices alone, whatever the inbox shows. */
  ghost predicate Stable(board: Board, active: bool, catalog: seq<UnidadVista>, u: Id, now: Time) {
    forall box :: EvaluarPendiente(board, box, active, catalog, u, now).board == board
  }

  lemma SettledIsStable(board: Board, box: Inbox.Box, active: bool, catalog: seq<UnidadVista>, u: Id, now: Time)
    requires Judged(board, catalog, u) ==> Settled(board, box, active, catalog, u, now)
    ensures Stable(board, active, catalog, u, now)
  {
  }

  lemma {:induction false} StableSweep(board: Board, box: Inbox.Box, active: bool, catalog: seq<UnidadVista>, units: seq<UnidadVista>, now: Time)
    requires forall i :: 0 <= i < |units| ==> Stable(board, active, catalog, units[i].unidadId, now)
    ensures EvaluarLista(board, box, active, catalog, units, now).board == board
    decreases units
  {
    if units != [] {
      assert Stable(board, active, catalog, units[0].unidadId, now);
      var first := EvaluarPendiente(board, box, active, catalog, units[0].unidadId, now);
      StableSweep(board, first.box, active, catalog, units[1..], now);
    }
  }

  /** With thresholds of at least one kilometre, a second sweep at the same instant changes no notice. */
  lemma SecondSweepChangesNoNotice(board: Board, box: Inbox.Box, active: bool, catalog: seq<UnidadVista>, now: Time)
    requires Lawful(board, box, now) && InStep(board, box, false) && ThresholdsOk(board)
    ensures var once := EvaluarTodas(board, box, active, catalog, now);
            EvaluarTodas(once.board, once.box, active, catalog, now).board == once.board
  {
    var once := EvaluarTodas(board, box, active, catalog, now);
    SweepKeepsSettings(board, box, active, catalog, catalog, now);
    forall i | 0 <= i < |catalog|
      ensures Stable(once.board, active, catalog, catalog[i].unidadId, now)
    {
      var u := catalog[i].unidadId;
      if Judged(once.board, catalog, u) {
        SweepSettles(board, box, active, catalog, now, u);
      }
      SettledIsStable(once.board, once.box, active, catalog, u, now);
    }
    StableSweep(once.board, once.box, active, catalog, catalog, now);
  }

  /**
   Without that bound, evaluating a unit twice settles it exactly when the first evaluation
   does not withdraw a notice below a threshold that no kilometres at all already meet.
   */
  lemma TwiceSettlesUnless(board: Board, box: Inbox.Box, active: bool, catalog: seq<UnidadVista>, u: Id, now: Time)
    requires Lawful(board, box, now) && Judged(board, catalog, u)
    ensures var once := EvaluarPendiente(board, box, active, catalog, u, now);
            var v := PendingView(board, catalog, u, now);
            EvaluarPendiente(once.board, once.box, active, catalog, u, now).board == once.board
            <==> !(Open(board, u).Some? && v.km < v.limits.tKm <= 0 && v.dias < v.limits.tDias)
  {
    var once := EvaluarPendiente(board, box, active, catalog, u, now);
    PendingEffect(board, box, active, catalog, u, now, u);
    PendingEffect(once.board, once.box, active, catalog, u, now, u);
  }

  // -- Exactly when a second sweep is idle ----------------------------------------------

  /** All that a sweep asks about a unit besides its open notice: whether it is judged, its kilometre threshold, and whether its days are up. */
  datatype Terms = Terms(judged: bool, tKm: int, due: bool)

  function TermsOf(board: Board, catalog: seq<UnidadVista>, u: Id, now: Time): Terms {
    if !Judged(board, catalog, u) then Terms(false, 0, false)
    else
      var limits := LimitsFor(board, Get(catalog, u), LastOf(board, u));
      Terms(true, limits.tKm, DiasEntre(board.lastClosed[u].cerradoAt, now) >= limits.tDias)
  }

  /** Kilometres of the open notice, if there is one. */
  function Carry(board: Board, u: Id): Option<int> {
    if Open(board, u).Some? then Some(Open(board, u).value.kmAlAbrir) else None
  }

  /** A notice below both thresholds is withdrawn; without one, no kilometres at all may still be enough to open it. */
  function NextCarry(t: Terms, c: Option<int>): Option<int> {
    if !t.judged then c
    else if c.Some? then (if c.value < t.tKm && !t.due then None else c)
    else if t.tKm <= 0 || t.due then Some(0)
    else None
  }

  function Repeated(t: Terms, n: nat, c: Option<int>): Option<int> {
    if n == 0 then c else Repeated(t, n - 1, NextCarry(t, c))
  }

  /** Withdrawn below a threshold that no kilometres at all already meet. */
  predicate Flaps(t: Terms, c: Option<int>) {
    t.judged && c.Some? && c.value < t.tKm <= 0 && !t.due
  }

  lemma {:induction false} RepeatedRests(t: Terms, n: nat, c: Option<int>)
    requires NextCarry(t, c) == c
    ensures Repeated(t, n, c) == c
  {
    if n > 0 {
      RepeatedRests(t, n - 1, c);
    }
  }

  /** Evaluated n times a unit comes to rest, unless it flaps and n is one. */
  lemma RepeatedSettles(t: Terms, n: nat, c: Option<int>)
    requires n > 0
    ensures NextCarry(t, Repeated(t, n, c)) == Repeated(t, n, c) <==> !(Flaps(t, c) && n == 1)
    ensures Repeated(t, n, c) == c <==> NextCarry(t, c) == c
  {
    var once := NextCarry(t, c);
    var twice := NextCarry(t, once);
    if n == 1 {
      assert Repeated(t, 1, c) == Repeated(t, 0, once) == once;
    } else {
      assert Repeated(t, n, c) == Repeated(t, n - 1, once) == Repeated(t, n - 2, twice);
      RepeatedRests(t, n - 2, twice);
    }
  }

  function Listings(units: seq<UnidadVista>, u: Id): nat {
    if units == [] then 0 else (if units[0].unidadId == u then 1 else 0) + Listings(units[1..], u)
  }

  lemma {:induction false} ListedIsCounted(units: seq<UnidadVista>, i: nat)
    requires i < |units|
    ensures Listings(units, units[i].unidadId) > 0
  {
    if i > 0 {
      ListedIsCounted(units[1..], i - 1);
    }
  }

  lemma PendingCarries(board: Board, box: Inbox.Box, active: bool, catalog: seq<UnidadVista>, w: Id, now: Time, u: Id)
    requires Lawful(board, box, now)
    ensures var done := EvaluarPendiente(board, box, active, catalog, w, now);
            && Lawful(done.board, done.box, now)
            && TermsOf(done.board, catalog, u, now) == TermsOf(board, catalog, u, now)
            && Carry(done.board, u) == (if w == u then NextCarry(TermsOf(board, catalog, u, now), Carry(board, u)) else Carry(board, u))
            && (NextCarry(TermsOf(board, catalog, w, now), Carry(board, w)) == Carry(board, w) ==> done.board == board)
  {
    if HasVisit(board, w) {
      PendingEffect(board, box, active, catalog, w, now, u);
    }
  }

  lemma {:induction false} ListCarries(
    board: Board, box: Inbox.Box, active: bool, catalog: seq<UnidadVista>, units: seq<UnidadVista>, now: Time, u: Id)
    requires Lawful(board, box, now)
    ensures var done := EvaluarLista(board, box, active, catalog, units, now);
            && Lawful(done.board, done.box, now)
            && TermsOf(done.board, catalog, u, now) == TermsOf(board, catalog, u, now)
            && Carry(done.board, u) == Repeated(TermsOf(board, catalog, u, now), Listings(units, u), Carry(board, u))
    decreases units
  {
    if units != [] {
      var first := EvaluarPendiente(board, box, active, catalog, units[0].unidadId, now);
      PendingCarries(board, box, active, catalog, units[0].unidadId, now, u);
      ListCarries(first.board, first.box, active, catalog, units[1..], now, u);
    }
  }

  /** Evaluating the unit would leave its notice as it is. */
  predicate AtRest(board: Board, catalog: seq<UnidadVista>, u: Id, now: Time) {
    NextCarry(TermsOf(board, catalog, u, now), Carry(board, u)) == Carry(board, u)
  }

  lemma {:induction false} RestingListStands(
    board: Board, box: Inbox.Box, active: bool, catalog: seq<UnidadVista>, units: seq<UnidadVista>, now: Time)
    requires Lawful(board, box, now) && forall i :: 0 <= i < |units| ==> AtRest(board, catalog, units[i].unidadId, now)
    ensures EvaluarLista(board, box, active, catalog, units, now).board == board
    decreases units
  {
    if units != [] {
      var first := EvaluarPendiente(board, box, active, catalog, units[0].unidadId, now);
      PendingCarries(board, box, active, catalog, units[0].unidadId, now, units[0].unidadId);
      RestingListStands(board, first.box, active, catalog, units[1..], now);
    }
  }

  /** A sweep changes no notice exactly when every listed unit is at rest. */
  lemma SweepIsIdleIff(board: Board, box: Inbox.Box, active: bool, catalog: seq<UnidadVista>, now: Time)
    requires Lawful(board, box, now)
    ensures EvaluarTodas(board, box, active, catalog, now).board == board
            <==> forall i :: 0 <= i < |catalog| ==> AtRest(board, catalog, catalog[i].unidadId, now)
  {
    if EvaluarTodas(board, box, active, catalog, now).board == board {
      forall i | 0 <= i < |catalog|
        ensures AtRest(board, catalog, catalog[i].unidadId, now)
      {
        var u := catalog[i].unidadId;
        ListCarries(board, box, active, catalog, catalog, now, u);
        ListedIsCounted(catalog, i);
        RepeatedSettles(TermsOf(board, catalog, u, now), Listings(catalog, u), Carry(board, u));
      }
    } else if forall i :: 0 <= i < |catalog| ==> AtRest(board, catalog, catalog[i].unidadId, now) {
      RestingListStands(board, box, active, catalog, catalog, now);
    }
  }

  /**
   Without any bound on the thresholds: a second sweep at the same instant changes no notice
   exactly when before the first no unit, listed once, flaps.
   */
  lemma SecondSweepIsIdleIff(board: Board, box: Inbox.Box, active: bool, catalog: seq<UnidadVista>, now: Time)
    requires Lawful(board, box, now)
    ensures var once := EvaluarTodas(board, box, active, catalog, now);
            EvaluarTodas(once.board, once.box, active, catalog, now).board == once.board
            <==> forall i :: 0 <= i < |catalog| ==>
                   var u := catalog[i].unidadId;
                   !(Flaps(TermsOf(board, catalog, u, now), Carry(board, u)) && Listings(catalog, u) == 1)
  {
    var once := EvaluarTodas(board, box, active, catalog, now);
    ListCarries(board, box, active, catalog, catalog, now, 0);
    SweepIsIdleIff(once.board, once.box, active, catalog, now);
    forall i | 0 <= i < |catalog|
      ensures var u := catalog[i].unidadId;
              AtRest(once.board, catalog, u, now)
              <==> !(Flaps(TermsOf(board, catalog, u, now), Carry(board, u)) && Listings(catalog, u) == 1)
    {
      var u := catalog[i].unidadId;
      ListCarries(board, box, active, catalog, catalog, now, u);
      ListedIsCounted(catalog, i);
      RepeatedSettles(TermsOf(board, catalog, u, now), Listings(catalog, u), Carry(board, u));
    }
  }

  /** A unit whose notice was opened at minus five kilometres, now under a zero threshold. */
  function FlappingBoard(): Board {
    Board([Aviso(0, 1, 7, Inbox.Warning, Abierto, 0, None, None, None, None, -5, 90, -10, 90)],
          map[1 := LastClosed("v", 7, 100, 0)], map[7 := Umbral(0, 90, None, None)], {}, 1)
  }

  lemma FlappingView()
    ensures var v := ViewOf(FlappingBoard(), [UnidadVista(1, 7, true)], 1, 95, 0);
            HasVisit(FlappingBoard(), 1) && Carried(FlappingBoard(), 1) == -5
            && v.abierto.Some? && v.km == -5 && v.dias == 0 && v.limits.tKm == 0 && v.limits.tDias == 90
  {
    assert FlappingBoard().lastClosed[1].visitaId[0] == 'v';
    assert DiasEntre(0, 0) == 0;
  }

  /** Evaluated twice at one instant it is withdrawn and opened again, so the second evaluation is not idle. */
  lemma ZeroThresholdFlaps(box: Inbox.Box)
    requires Inbox.BoxLaw(box, 0)
    ensures var once := EvaluarPendiente(FlappingBoard(), box, false, [UnidadVista(1, 7, true)], 1, 0);
            EvaluarPendiente(once.board, once.box, false, [UnidadVista(1, 7, true)], 1, 0).board != once.board
  {
    FlappingView();
    TwiceSettlesUnless(FlappingBoard(), box, false, [UnidadVista(1, 7, true)], 1, 0);
  }
}
