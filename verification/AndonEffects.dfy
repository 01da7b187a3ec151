/** What each operation on the maintenance notices decides and stores, told from the rows it reads. */
module AndonEffects {
  import opened Wrappers
  import opened Texts
  import opened Andon
  import opened AndonLaws
  import Inbox

  // -- Thresholds and priority ----------------------------------------------------------

  /** Thresholds come from the catalogue's vehicle type, for a unit not in the catalogue from its last visit's, else the defaults. */
  lemma LimitsComeFromType(board: Board, unidad: Option<UnidadVista>, last: Option<LastClosed>)
    ensures var limits := LimitsFor(board, unidad, last);
            && (unidad.Some? && unidad.value.tipoVehiculoId in board.umbrales ==>
                  limits == LimitsOf(board.umbrales[unidad.value.tipoVehiculoId]))
            && (unidad.None? && last.Some? && last.value.tipoVehiculoId in board.umbrales ==>
                  limits == LimitsOf(board.umbrales[last.value.tipoVehiculoId]))
            && ((unidad.Some? && unidad.value.tipoVehiculoId !in board.umbrales)
                || (unidad.None? && (last.None? || last.value.tipoVehiculoId !in board.umbrales)) ==>
                  limits == Limits(10000, 90, 1000, 30))
  {
  }

  function LimitsOf(u: Umbral): Limits {
    Limits(u.tKm, u.tDias, if u.criticalOverdueKm.None? then 1000 else u.criticalOverdueKm.value,
           if u.criticalOverdueDays.None? then 30 else u.criticalOverdueDays.value)
  }

  predicate Overdue(km: int, dias: int, t: Limits) {
    km >= t.tKm || dias >= t.tDias
  }

  /** A unit has a priority when it is overdue by either measure, and a critical one when far enough over by either. */
  lemma PriorityIsByExcess(km: int, dias: int, t: Limits)
    ensures Prioridad(km, dias, t).Some? <==> Overdue(km, dias, t)
    ensures Prioridad(km, dias, t) == Some(Inbox.Critical) <==>
              Overdue(km, dias, t) && (km - t.tKm >= t.overdueKm || dias - t.tDias >= t.overdueDays)
    ensures Prioridad(km, dias, t) in {None, Some(Inbox.Warning), Some(Inbox.Critical)}
  {
  }

  function Weight(s: Option<Inbox.Severity>): nat {
    if s.None? then 0 else if s.value == Inbox.Critical then 2 else 1
  }

  /** More kilometres or more days never make a unit less urgent. */
  lemma UrgencyGrows(km: int, dias: int, km': int, dias': int, t: Limits)
    requires km <= km' && dias <= dias'
    ensures Weight(Prioridad(km, dias, t)) <= Weight(Prioridad(km', dias', t))
  {
  }

  // -- One evaluation -------------------------------------------------------------------

  predicate ActiveUnit(catalog: seq<UnidadVista>, u: Id) {
    Get(catalog, u).Some? && Get(catalog, u).value.activa
  }

  lemma {:induction false} CatalogueEntry(catalog: seq<UnidadVista>, u: Id)
    ensures Get(catalog, u).Some? ==> Get(catalog, u).value in catalog && Get(catalog, u).value.unidadId == u
    ensures Get(catalog, u).None? ==> forall i :: 0 <= i < |catalog| ==> catalog[i].unidadId != u
  {
    if catalog != [] {
      CatalogueEntry(catalog[1..], u);
    }
  }

  /** Kilometres and whole days since the unit's last closed visit, against its own thresholds. */
  predicate OverdueSince(board: Board, catalog: seq<UnidadVista>, u: Id, currentKm: int, now: Time)
    requires u in board.lastClosed
  {
    var last := board.lastClosed[u];
    Overdue(currentKm - last.km, DiasEntre(last.cerradoAt, now), LimitsFor(board, Get(catalog, u), Some(last)))
  }

  ghost predicate Withdrawn(board: Board, board': Board, u: Id, now: Time) {
    && Open(board, u).Some? && Open(board', u).None?
    && board' == board.(avisos := board'.avisos)
    && |board'.avisos| == |board.avisos|
    && (forall i :: 0 <= i < |board.avisos| ==>
          board'.avisos[i] == if board.avisos[i] == Open(board, u).value
                              then board.avisos[i].(estado := Resuelto, resueltoAt := Some(now), visitaResolutoriaId := None)
                              else board.avisos[i])
  }

  ghost predicate OpenedFrom(board: Board, catalog: seq<UnidadVista>, u: Id, currentKm: int, now: Time, aviso: Aviso)
    requires u in board.lastClosed
  {
    var last := board.lastClosed[u];
    var t := LimitsFor(board, Get(catalog, u), Some(last));
    var km, dias := currentKm - last.km, DiasEntre(last.cerradoAt, now);
    && Prioridad(km, dias, t).Some?
    && aviso == Aviso(board.nextId, u, last.tipoVehiculoId, Prioridad(km, dias, t).value, Abierto, now, None, None, None, None,
                      km, dias, t.tKm, t.tDias)
  }

  /** Only an active unit with a closed visit is judged: open notices are withdrawn when it is no longer overdue, new ones opened when it is. */
  lemma EvaluationDecides(board: Board, box: Inbox.Box, active: bool, catalog: seq<UnidadVista>, u: Id, currentKm: int, now: Time)
    requires Lawful(board, box, now)
    ensures var done := EvaluarUnidad(board, box, active, catalog, u, currentKm, now);
            if !ActiveUnit(catalog, u) || u !in board.lastClosed then done.board == board && done.aviso.None?
            else if OverdueSince(board, catalog, u, currentKm, now) then
              if Open(board, u).None? && !Blank(board.lastClosed[u].visitaId) then
                done.aviso.Some? && OpenedFrom(board, catalog, u, currentKm, now, done.aviso.value)
                && done.board == board.(avisos := board.avisos + [done.aviso.value], nextId := board.nextId + 1)
              else done.board == board && done.aviso.None?
            else
              done.aviso.None? && if Open(board, u).Some? then Withdrawn(board, done.board, u, now) else done.board == board
  {
    var v := ViewOf(board, catalog, u, currentKm, now);
    EvaluateEffect(board, box, active, catalog, u, currentKm, now);
    if Withdraws(v) {
      ResolvedInPlace(board.avisos, board.nextId, u, Resolved(v.abierto.value, now, None));
    }
  }

  lemma ResolvedInPlace(avisos: seq<Aviso>, nextId: Id, u: Id, resolved: Aviso)
    requires BoardLaw(avisos, nextId) && NoResuelto(avisos, u).Some? && resolved.id == NoResuelto(avisos, u).value.id
    ensures |Update(avisos, resolved)| == |avisos|
    ensures forall i :: 0 <= i < |avisos| ==> Update(avisos, resolved)[i] == if avisos[i] == NoResuelto(avisos, u).value then resolved else avisos[i]
  {
    var k :| 0 <= k < |avisos| && avisos[k] == NoResuelto(avisos, u).value;
    UpdateReplaces(avisos, k, resolved);
  }

  /** While the type is active the inbox entry of an overdue unit names its notice; a withdrawn one leaves none. */
  lemma EvaluationIsAnnounced(board: Board, box: Inbox.Box, active: bool, catalog: seq<UnidadVista>, u: Id, currentKm: int, now: Time)
    requires Lawful(board, box, now) && ActiveUnit(catalog, u) && u in board.lastClosed
    ensures var done := EvaluarUnidad(board, box, active, catalog, u, currentKm, now);
            var aviso := Open(done.board, u);
            && (active && aviso.Some? && OverdueSince(board, catalog, u, currentKm, now) ==>
                  var entry := Inbox.FindByDedupe(done.box.items, Key(u));
                  entry.Some? && entry.value.sourceRef == aviso.value.id && entry.value.expiresAt.None?
                  && (Entry(box, u).None? ==> entry.value.createdAt == aviso.value.abiertaAt)
                  && Some(entry.value.severity) == Prioridad(currentKm - board.lastClosed[u].km, DiasEntre(board.lastClosed[u].cerradoAt, now),
                                                             LimitsFor(board, Get(catalog, u), Some(board.lastClosed[u]))))
            && (Open(board, u).Some? && !OverdueSince(board, catalog, u, currentKm, now) ==> Entry(done.box, u).None?)
  {
    var v := ViewOf(board, catalog, u, currentKm, now);
    EvaluateEffect(board, box, active, catalog, u, currentKm, now);
    if active && !Withdraws(v) {
      if Refreshes(v) {
        Inbox.IngestRecords(box, AvisoCommand(v.abierto.value, Severity(v).value), now);
      } else if Opens(v) {
        var aviso := Opened(board, v, u, now);
        Inbox.IngestRecords(box, AvisoCommand(aviso, aviso.severity), now);
      }
    }
  }

  /** A unit whose visits were never told is judged at no use at all: nothing is announced of it under thresholds of at least one. */
  lemma UnvisitedIsQuiet(board: Board, box: Inbox.Box, active: bool, catalog: seq<UnidadVista>, u: Id, currentKm: int, now: Time)
    requires u !in board.lastClosed
    requires var t := LimitsFor(board, Get(catalog, u), None); t.tKm >= 1 && t.tDias >= 1
    ensures EvaluarUnidad(board, box, active, catalog, u, currentKm, now) == Evaluated(board, box, None)
  {
  }

  // -- Closed visits --------------------------------------------------------------------

  /** A first delivery becomes its unit's last closure and resolves its notice by that visit; other units' closures stay. */
  lemma ClosureIsStored(board: Board, box: Inbox.Box, p: VisitaCerrada, now: Time)
    requires Lawful(board, box, now) && p.eventId !in board.processed
    ensures var done := HandleVisitaCerrada(board, box, p, now);
            && !done.duplicate && done.board.processed == board.processed + {p.eventId}
            && p.unidadId in done.board.lastClosed
            && done.board.lastClosed[p.unidadId] == LastClosed(p.visitaId, p.tipoVehiculoId, p.km, p.cerradoAt)
            && done.board.lastClosed - {p.unidadId} == board.lastClosed - {p.unidadId}
            && done.board.umbrales == board.umbrales && done.board.nextId == board.nextId
            && (done.resolved.Some? <==> Open(board, p.unidadId).Some?)
            && |done.board.avisos| == |board.avisos|
            && (forall i :: 0 <= i < |board.avisos| ==>
                  done.board.avisos[i] == if Some(board.avisos[i]) == Open(board, p.unidadId)
                                          then board.avisos[i].(estado := Resuelto, resueltoAt := Some(p.cerradoAt), visitaResolutoriaId := Some(p.visitaId))
                                          else board.avisos[i])
            && (done.resolved.Some? ==>
                  done.resolved.value == Open(board, p.unidadId).value.(estado := Resuelto, resueltoAt := Some(p.cerradoAt),
                                                                       visitaResolutoriaId := Some(p.visitaId)))
  {
    if Open(board, p.unidadId).Some? {
      ResolvedInPlace(board.avisos, board.nextId, p.unidadId, Resolved(Open(board, p.unidadId).value, p.cerradoAt, Some(p.visitaId)));
    }
  }

  /** A repeated delivery tells the unit's notice of the moment and changes nothing. */
  lemma RepeatedClosureTells(board: Board, box: Inbox.Box, p: VisitaCerrada, now: Time)
    requires p.eventId in board.processed
    ensures HandleVisitaCerrada(board, box, p, now) == HandledVisit(board, box, true, Open(board, p.unidadId))
  {
  }

  /** Right after a closure a sweep finds its unit at no kilometres, and judges it by the days since that closure alone. */
  lemma ClosureStartsAfresh(board: Board, box: Inbox.Box, active: bool, catalog: seq<UnidadVista>, p: VisitaCerrada, now: Time, later: Time)
    requires Lawful(board, box, now) && p.eventId !in board.processed && !Blank(p.visitaId) && now <= later
    ensures var closed := HandleVisitaCerrada(board, box, p, now);
            var done := EvaluarPendiente(closed.board, closed.box, active, catalog, p.unidadId, later);
            var t := LimitsFor(closed.board, Get(catalog, p.unidadId), Some(LastClosed(p.visitaId, p.tipoVehiculoId, p.km, p.cerradoAt)));
            && (done.aviso.Some? <==> ActiveUnit(catalog, p.unidadId) && Overdue(0, DiasEntre(p.cerradoAt, later), t))
            && (done.aviso.Some? ==> done.aviso.value.kmAlAbrir == 0 && done.aviso.value.diasAlAbrir == DiasEntre(p.cerradoAt, later))
            && (done.aviso.None? ==> done.board == closed.board)
  {
    var closed := HandleVisitaCerrada(board, box, p, now);
    ClosureIsStored(board, box, p, now);
    HandleEffect(board, box, p, now);
    Inbox.LawLater(closed.box, now, later);
    EvaluationDecides(closed.board, closed.box, active, catalog, p.unidadId, p.km, later);
  }

  // -- Acknowledging --------------------------------------------------------------------

  /** Only a supervisor acknowledges, only an open notice changes, and it remembers who and when. */
  lemma AcknowledgementIsStored(board: Board, avisoId: Id, supervisor: bool, user: Option<string>, now: Time)
    requires BoardLaw(board.avisos, board.nextId)
    ensures var r := EnteradoTable(board, avisoId, supervisor, user, now);
            && (r == Err(NotSupervisor) <==> !supervisor)
            && (r == Err(AvisoNotFound) <==> supervisor && forall i :: 0 <= i < |board.avisos| ==> board.avisos[i].id != avisoId)
            && (r.Ok? ==>
                  && r.value == board.(avisos := r.value.avisos) && |r.value.avisos| == |board.avisos|
                  && forall i :: 0 <= i < |board.avisos| ==>
                       r.value.avisos[i] == if board.avisos[i].id == avisoId && board.avisos[i].estado == Abierto
                                            then board.avisos[i].(estado := Enterado, enteradoAt := Some(now), enteradoBy := user)
                                            else board.avisos[i])
  {
    AvisoIsFound(board.avisos, avisoId);
    var found := FindAviso(board.avisos, avisoId);
    if supervisor && found.Some? && found.value.estado == Abierto {
      var k :| 0 <= k < |board.avisos| && board.avisos[k] == found.value;
      UpdateReplaces(board.avisos, k, found.value.(estado := Enterado, enteradoAt := Some(now), enteradoBy := user));
    }
  }

  lemma {:induction false} AvisoIsFound(avisos: seq<Aviso>, id: Id)
    ensures FindAviso(avisos, id).None? <==> forall i :: 0 <= i < |avisos| ==> avisos[i].id != id
    ensures FindAviso(avisos, id).Some? ==> FindAviso(avisos, id).value in avisos && FindAviso(avisos, id).value.id == id
  {
    if avisos != [] {
      AvisoIsFound(avisos[1..], id);
    }
  }

  // -- Sweeps ---------------------------------------------------------------------------

  /** What a sweep tells: the notices it opened, in order, with the identifiers and rows they have in the table. */
  lemma {:induction false} SweepTellsItsOpenings(
    board: Board, box: Inbox.Box, active: bool, catalog: seq<UnidadVista>, units: seq<UnidadVista>, now: Time)
    requires Lawful(board, box, now) && InStep(board, box, false)
    ensures var done := EvaluarLista(board, box, active, catalog, units, now);
            && |done.board.avisos| == |board.avisos| + |done.nuevos| && done.board.nextId == board.nextId + |done.nuevos|
            && forall i :: 0 <= i < |done.nuevos| ==>
                 done.nuevos[i].id == board.nextId + i && Follows(done.nuevos[i], done.board.avisos[|board.avisos| + i])
    decreases units
  {
    if units != [] {
      var w := units[0].unidadId;
      var first := EvaluarPendiente(board, box, active, catalog, w, now);
      PendingOpensOne(board, box, active, catalog, w, now);
      PendingKeepsStep(board, box, active, catalog, w, now, false);
      SweepTellsItsOpenings(first.board, first.box, active, catalog, units[1..], now);
      SweepKeepsStep(first.board, first.box, active, catalog, units[1..], now, false);
      var rest := EvaluarLista(first.board, first.box, active, catalog, units[1..], now);
      var n := |board.avisos|;
      if first.aviso.Some? {
        assert Follows(first.board.avisos[n], rest.board.avisos[n]);
      }
    }
  }

  lemma PendingOpensOne(board: Board, box: Inbox.Box, active: bool, catalog: seq<UnidadVista>, w: Id, now: Time)
    requires Lawful(board, box, now)
    ensures var done := EvaluarPendiente(board, box, active, catalog, w, now);
            && |done.board.avisos| == |board.avisos| + |Listed(done.aviso)| && done.board.nextId == board.nextId + |Listed(done.aviso)|
            && (done.aviso.Some? ==> done.aviso.value.id == board.nextId && done.board.avisos[|board.avisos|] == done.aviso.value)
  {
    if HasVisit(board, w) {
      EvaluationDecides(board, box, active, catalog, w, board.lastClosed[w].km + Carried(board, w), now);
    }
  }
}
