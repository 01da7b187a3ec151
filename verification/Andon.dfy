/**
 The maintenance notices: a unit overdue since its last closed visit gets one notice,
 which a later evaluation or the next closed visit resolves, and the inbox follows.
 */
module Andon {
  import opened Wrappers
  import opened Texts
  import Inbox

  type Id = nat
  type Time = int

  const DEFAULT_T_KM := 10000
  const DEFAULT_T_DIAS := 90
  const DEFAULT_CRITICAL_OVERDUE_KM := 1000
  const DEFAULT_CRITICAL_OVERDUE_DAYS := 30

  datatype Estado = Abierto | Enterado | Resuelto

  datatype Aviso = Aviso(
    id: Id, unidadId: Id, tipoVehiculoId: Id, severity: Inbox.Severity, estado: Estado,
    abiertaAt: Time, enteradoAt: Option<Time>, enteradoBy: Option<string>,
    resueltoAt: Option<Time>, visitaResolutoriaId: Option<string>,
    kmAlAbrir: int, diasAlAbrir: int, umbralKm: int, umbralDias: int)

  datatype LastClosed = LastClosed(visitaId: string, tipoVehiculoId: Id, km: int, cerradoAt: Time)
  datatype Umbral = Umbral(tKm: int, tDias: int, criticalOverdueKm: Option<int>, criticalOverdueDays: Option<int>)
  datatype UnidadVista = UnidadVista(unidadId: Id, tipoVehiculoId: Id, activa: bool)
  datatype VisitaCerrada = VisitaCerrada(eventId: Id, visitaId: string, unidadId: Id, tipoVehiculoId: Id, km: int, cerradoAt: Time)

  /** The stored tables: notices in insertion order and the projections they are judged by. */
  datatype Board = Board(
    avisos: seq<Aviso>, lastClosed: map<Id, LastClosed>, umbrales: map<Id, Umbral>, processed: set<Id>, nextId: Id)

  // -- Rules ----------------------------------------------------------------------------

  /** Whole days of 86400000 milliseconds from one instant to another, rounded down even into the past. */
  function DiasEntre(from: Time, to: Time): int {
    (to - from) / 86400000
  }

  lemma DaysCount(from: Time, to: Time)
    ensures var days := DiasEntre(from, to);
            days * 86400000 <= to - from < (days + 1) * 86400000
  {
  }

  datatype Limits = Limits(tKm: int, tDias: int, overdueKm: int, overdueDays: int)

  function Prioridad(km: int, dias: int, t: Limits): Option<Inbox.Severity> {
    if km < t.tKm && dias < t.tDias then None
    else if km >= t.tKm + t.overdueKm || dias >= t.tDias + t.overdueDays then Some(Inbox.Critical)
    else Some(Inbox.Warning)
  }

  datatype Apertura = Apertura(abrir: bool, kmDesde: int, diasDesde: int)

  function EvaluarApertura(
    last: Option<LastClosed>, currentKm: int, now: Time, activa: bool, tieneNoResuelto: bool, tKm: int, tDias: int): Apertura
  {
    if last.None? || Blank(last.value.visitaId) then Apertura(false, 0, 0)
    else
      var km, dias := currentKm - last.value.km, DiasEntre(last.value.cerradoAt, now);
      Apertura(activa && !tieneNoResuelto && (km >= tKm || dias >= tDias), km, dias)
  }

  // -- The store ------------------------------------------------------------------------

  function NoResuelto(avisos: seq<Aviso>, unidadId: Id): (r: Option<Aviso>)
    ensures r.Some? ==> r.value in avisos && r.value.unidadId == unidadId && r.value.estado != Resuelto
    ensures r.None? ==> forall i :: 0 <= i < |avisos| ==> avisos[i].unidadId != unidadId || avisos[i].estado == Resuelto
  {
    if avisos == [] then None
    else if avisos[0].unidadId == unidadId && avisos[0].estado != Resuelto then Some(avisos[0])
    else NoResuelto(avisos[1..], unidadId)
  }

  function FindAviso(avisos: seq<Aviso>, id: Id): (r: Option<Aviso>)
    ensures r.Some? ==> r.value in avisos && r.value.id == id
  {
    if avisos == [] then None
    else if avisos[0].id == id then Some(avisos[0])
    else FindAviso(avisos[1..], id)
  }

  /** Replace the first notice with the same identifier, if there is one. */
  function Update(avisos: seq<Aviso>, aviso: Aviso): seq<Aviso> {
    if avisos == [] then []
    else if avisos[0].id == aviso.id then [aviso] + avisos[1..]
    else [avisos[0]] + Update(avisos[1..], aviso)
  }

  function Get(catalog: seq<UnidadVista>, unidadId: Id): Option<UnidadVista> {
    if catalog == [] then None
    else if catalog[0].unidadId == unidadId then Some(catalog[0])
    else Get(catalog[1..], unidadId)
  }

  function LastOf(board: Board, unidadId: Id): Option<LastClosed> {
    if unidadId in board.lastClosed then Some(board.lastClosed[unidadId]) else None
  }

  /** Thresholds of the catalogue's vehicle type, else of the last visit's, else the defaults. */
  function LimitsFor(board: Board, unidad: Option<UnidadVista>, last: Option<LastClosed>): Limits {
    var tipo := if unidad.Some? then Some(unidad.value.tipoVehiculoId)
                else if last.Some? then Some(last.value.tipoVehiculoId) else None;
    if tipo.Some? && tipo.value in board.umbrales then
      var u := board.umbrales[tipo.value];
      Limits(u.tKm, u.tDias,
             if u.criticalOverdueKm.Some? then u.criticalOverdueKm.value else DEFAULT_CRITICAL_OVERDUE_KM,
             if u.criticalOverdueDays.Some? then u.criticalOverdueDays.value else DEFAULT_CRITICAL_OVERDUE_DAYS)
    else Limits(DEFAULT_T_KM, DEFAULT_T_DIAS, DEFAULT_CRITICAL_OVERDUE_KM, DEFAULT_CRITICAL_OVERDUE_DAYS)
  }

  function Key(unidadId: Id): Inbox.DedupeKey {
    Inbox.AvisoAbierto(unidadId)
  }

  function AvisoCommand(aviso: Aviso, severity: Inbox.Severity): Inbox.IngestCommand {
    Inbox.IngestCommand(aviso.id, severity, Key(aviso.unidadId), Some(aviso.abiertaAt))
  }

  // -- Evaluating one unit --------------------------------------------------------------

  /** What an evaluation looks at. */
  datatype View = View(
    unidad: Option<UnidadVista>, last: Option<LastClosed>, abierto: Option<Aviso>, limits: Limits, km: int, dias: int)

  function ViewOf(board: Board, catalog: seq<UnidadVista>, unidadId: Id, currentKm: int, now: Time): View {
    var unidad, last := Get(catalog, unidadId), LastOf(board, unidadId);
    View(unidad, last, NoResuelto(board.avisos, unidadId), LimitsFor(board, unidad, last),
         if last.Some? then currentKm - last.value.km else 0,
         if last.Some? then DiasEntre(last.value.cerradoAt, now) else 0)
  }

  predicate Activa(v: View) {
    v.unidad.Some? && v.unidad.value.activa
  }

  /** The condition has gone although no visit closed: the open notice is withdrawn. */
  predicate Withdraws(v: View) {
    v.abierto.Some? && v.last.Some? && Activa(v) && v.km < v.limits.tKm && v.dias < v.limits.tDias
  }

  function Severity(v: View): Option<Inbox.Severity> {
    Prioridad(v.km, v.dias, v.limits)
  }

  predicate Refreshes(v: View) {
    v.abierto.Some? && Severity(v).Some? && Activa(v)
  }

  predicate Opens(v: View) {
    v.last.Some? && !Blank(v.last.value.visitaId) && Activa(v) && v.abierto.None? && (v.km >= v.limits.tKm || v.dias >= v.limits.tDias)
  }

  function Opened(board: Board, v: View, unidadId: Id, now: Time): Aviso
    requires v.last.Some?
  {
    Aviso(board.nextId, unidadId, v.last.value.tipoVehiculoId, if Severity(v).Some? then Severity(v).value else Inbox.Warning,
          Abierto, now, None, None, None, None, v.km, v.dias, v.limits.tKm, v.limits.tDias)
  }

  function Resolved(aviso: Aviso, at: Time, visitaId: Option<string>): Aviso {
    aviso.(estado := Resuelto, resueltoAt := Some(at), visitaResolutoriaId := visitaId)
  }

  datatype Evaluated = Evaluated(board: Board, box: Inbox.Box, aviso: Option<Aviso>)

  function EvaluarUnidad(
    board: Board, box: Inbox.Box, active: bool, catalog: seq<UnidadVista>, unidadId: Id, currentKm: int, now: Time): Evaluated
  {
    var v := ViewOf(board, catalog, unidadId, currentKm, now);
    if Withdraws(v) then
      Evaluated(board.(avisos := Update(board.avisos, Resolved(v.abierto.value, now, None))), Inbox.ExpireDedupe(box, Key(unidadId), now), None)
    else if Refreshes(v) then
      Evaluated(board, if active then Inbox.Ingest(box, AvisoCommand(v.abierto.value, Severity(v).value), now) else box, None)
    else if Opens(v) then
      var aviso := Opened(board, v, unidadId, now);
      Evaluated(board.(avisos := board.avisos + [aviso], nextId := board.nextId + 1),
                if active then Inbox.Ingest(box, AvisoCommand(aviso, aviso.severity), now) else box, Some(aviso))
    else Evaluated(board, box, None)
  }

  datatype HandledVisit = HandledVisit(board: Board, box: Inbox.Box, duplicate: bool, resolved: Option<Aviso>)

  function HandleVisitaCerrada(board: Board, box: Inbox.Box, p: VisitaCerrada, now: Time): HandledVisit {
    var abierto := NoResuelto(board.avisos, p.unidadId);
    if p.eventId in board.processed then HandledVisit(board, box, true, abierto)
    else
      var marked := board.(processed := board.processed + {p.eventId},
                           lastClosed := board.lastClosed[p.unidadId := LastClosed(p.visitaId, p.tipoVehiculoId, p.km, p.cerradoAt)]);
      if abierto.None? then HandledVisit(marked, box, false, None)
      else
        var resolved := Resolved(abierto.value, p.cerradoAt, Some(p.visitaId));
        HandledVisit(marked.(avisos := Update(board.avisos, resolved)), Inbox.ExpireDedupe(box, Key(p.unidadId), now), false, Some(resolved))
  }

  datatype EnteradoError = NotSupervisor | AvisoNotFound

  function EnteradoTable(board: Board, avisoId: Id, supervisor: bool, user: Option<string>, now: Time): Result<Board, EnteradoError> {
    if !supervisor then Err(NotSupervisor)
    else
      var aviso := FindAviso(board.avisos, avisoId);
      if aviso.None? then Err(AvisoNotFound)
      else if aviso.value.estado != Abierto then Ok(board)
      else Ok(board.(avisos := Update(board.avisos, aviso.value.(estado := Enterado, enteradoAt := Some(now), enteradoBy := user))))
  }

  predicate HasVisit(board: Board, unidadId: Id) {
    unidadId in board.lastClosed && !Blank(board.lastClosed[unidadId].visitaId)
  }

  /** Kilometres carried by the unit's open notice. */
  function Carried(board: Board, unidadId: Id): int {
    var abierto := NoResuelto(board.avisos, unidadId);
    if abierto.Some? then abierto.value.kmAlAbrir else 0
  }

  /** Tables after a sweep and the notices it opened, oldest first. */
  datatype Swept = Swept(board: Board, box: Inbox.Box, nuevos: seq<Aviso>)

  /** One unit of a sweep: judged only if it has a closed visit, by the kilometres its notice carries. */
  function EvaluarPendiente(
    board: Board, box: Inbox.Box, active: bool, catalog: seq<UnidadVista>, unidadId: Id, now: Time): Evaluated
  {
    if HasVisit(board, unidadId)
    then EvaluarUnidad(board, box, active, catalog, unidadId, board.lastClosed[unidadId].km + Carried(board, unidadId), now)
    else Evaluated(board, box, None)
  }

  function EvaluarLista(
    board: Board, box: Inbox.Box, active: bool, catalog: seq<UnidadVista>, units: seq<UnidadVista>, now: Time): Swept
    decreases units
  {
    if units == [] then Swept(board, box, [])
    else
      var first := EvaluarPendiente(board, box, active, catalog, units[0].unidadId, now);
      var rest := EvaluarLista(first.board, first.box, active, catalog, units[1..], now);
      Prepend(Listed(first.aviso), rest)
  }

  function Prepend(nuevos: seq<Aviso>, rest: Swept): Swept {
    rest.(nuevos := nuevos + rest.nuevos)
  }

  function Listed(aviso: Option<Aviso>): seq<Aviso> {
    if aviso.Some? then [aviso.value] else []
  }

  lemma SweepOne(
    nuevos: seq<Aviso>, board: Board, box: Inbox.Box, active: bool, catalog: seq<UnidadVista>, units: seq<UnidadVista>, now: Time)
    requires units != []
    ensures var first := EvaluarPendiente(board, box, active, catalog, units[0].unidadId, now);
            Prepend(nuevos, EvaluarLista(board, box, active, catalog, units, now))
            == Prepend(nuevos + Listed(first.aviso), EvaluarLista(first.board, first.box, active, catalog, units[1..], now))
  {
    var first := EvaluarPendiente(board, box, active, catalog, units[0].unidadId, now);
    var rest := EvaluarLista(first.board, first.box, active, catalog, units[1..], now);
    assert nuevos + (Listed(first.aviso) + rest.nuevos) == (nuevos + Listed(first.aviso)) + rest.nuevos;
  }

  function EvaluarTodas(board: Board, box: Inbox.Box, active: bool, catalog: seq<UnidadVista>, now: Time): Swept {
    EvaluarLista(board, box, active, catalog, catalog, now)
  }

  // -- The engine over its in-memory store ------------------------------------------------

  class AndonEngine {
    var avisos: seq<Aviso>
    var lastClosed: map<Id, LastClosed>
    var umbrales: map<Id, Umbral>
    var processed: set<Id>
    var nextId: Id
    var catalog: seq<UnidadVista>
    var active: bool
    const inbox: Inbox.InboxEngine

    ghost function Tables(): Board
      reads this
    {
      Board(avisos, lastClosed, umbrales, processed, nextId)
    }

    constructor (inbox: Inbox.InboxEngine, catalog: seq<UnidadVista>)
      ensures this.inbox == inbox && this.catalog == catalog && active && Tables() == Board([], map[], map[], {}, 0)
    {
      this.inbox, this.catalog, active := inbox, catalog, true;
      avisos, lastClosed, umbrales, processed, nextId := [], map[], map[], {}, 0;
    }

    method GetNoResuelto(unidadId: Id) returns (found: Option<Aviso>)
      ensures found == NoResuelto(avisos, unidadId)
    {
      var i := 0;
      while i < |avisos|
        invariant 0 <= i <= |avisos|
        invariant NoResuelto(avisos, unidadId) == NoResuelto(avisos[i..], unidadId)
      {
        if avisos[i].unidadId == unidadId && avisos[i].estado != Resuelto {
          return Some(avisos[i]);
        }
        i := i + 1;
      }
      return None;
    }

    method UpdateAviso(aviso: Aviso)
      modifies `avisos
      ensures avisos == Update(old(avisos), aviso)
    {
      var i := 0;
      while i < |avisos|
        invariant 0 <= i <= |avisos| && avisos == old(avisos)
        invariant Update(avisos, aviso) == avisos[..i] + Update(avisos[i..], aviso)
      {
        if avisos[i].id == aviso.id {
          avisos := avisos[i := aviso];
          assert avisos == old(avisos)[..i] + ([aviso] + old(avisos)[i..][1..]);
          return;
        }
        assert avisos[i..][0] == avisos[i] && avisos[i..][1..] == avisos[i + 1..];
        assert avisos[..i] + ([avisos[i]] + Update(avisos[i + 1..], aviso)) == avisos[..i + 1] + Update(avisos[i + 1..], aviso);
        i := i + 1;
      }
    }

    method Evaluate(unidadId: Id, currentKm: int, now: Time) returns (nuevo: Option<Aviso>)
      modifies `avisos, `nextId, inbox
      ensures Evaluated(Tables(), inbox.Contents(), nuevo)
           == EvaluarUnidad(old(Tables()), old(inbox.Contents()), active, catalog, unidadId, currentKm, now)
    {
      var unidad := Get(catalog, unidadId);
      var last := if unidadId in lastClosed then Some(lastClosed[unidadId]) else None;
      var abierto := GetNoResuelto(unidadId);
      var limits := LimitsFor(Board(avisos, lastClosed, umbrales, processed, nextId), unidad, last);
      var activa := unidad.Some? && unidad.value.activa;
      if abierto.Some? && last.Some? && activa
         && currentKm - last.value.km < limits.tKm && DiasEntre(last.value.cerradoAt, now) < limits.tDias
      {
        UpdateAviso(Resolved(abierto.value, now, None));
        var _ := inbox.Expire(Key(unidadId), now);
        return None;
      }
      var severity := Prioridad(if last.Some? then currentKm - last.value.km else 0,
                                if last.Some? then DiasEntre(last.value.cerradoAt, now) else 0, limits);
      if abierto.Some? && severity.Some? && activa && active {
        var _ := inbox.Receive(AvisoCommand(abierto.value, severity.value), now);
      }
      var result := EvaluarApertura(last, currentKm, now, activa, abierto.Some?, limits.tKm, limits.tDias);
      if !result.abrir {
        return None;
      }
      var aviso := Aviso(nextId, unidadId, last.value.tipoVehiculoId, if severity.Some? then severity.value else Inbox.Warning,
                         Abierto, now, None, None, None, None, result.kmDesde, result.diasDesde, limits.tKm, limits.tDias);
      avisos := avisos + [aviso];
      nextId := nextId + 1;
      if active {
        var _ := inbox.Receive(AvisoCommand(aviso, aviso.severity), now);
      }
      return Some(aviso);
    }

    method Handle(p: VisitaCerrada, now: Time) returns (duplicate: bool, resolved: Option<Aviso>)
      modifies `avisos, `processed, `lastClosed, inbox
      ensures HandledVisit(Tables(), inbox.Contents(), duplicate, resolved)
           == HandleVisitaCerrada(old(Tables()), old(inbox.Contents()), p, now)
    {
      var abierto := GetNoResuelto(p.unidadId);
      if p.eventId in processed {
        return true, abierto;
      }
      processed := processed + {p.eventId};
      resolved := None;
      if abierto.Some? {
        resolved := Some(Resolved(abierto.value, p.cerradoAt, Some(p.visitaId)));
        UpdateAviso(resolved.value);
        var _ := inbox.Expire(Key(p.unidadId), now);
      }
      lastClosed := lastClosed[p.unidadId := LastClosed(p.visitaId, p.tipoVehiculoId, p.km, p.cerradoAt)];
      return false, resolved;
    }

    method Acknowledge(avisoId: Id, supervisor: bool, user: Option<string>, now: Time) returns (error: Option<EnteradoError>)
      modifies `avisos
      ensures var spec := EnteradoTable(old(Tables()), avisoId, supervisor, user, now);
              && Tables() == (if spec.Ok? then spec.value else old(Tables()))
              && error == (if spec.Ok? then None else Some(spec.error))
    {
      if !supervisor {
        return Some(NotSupervisor);
      }
      var aviso := FindAviso(avisos, avisoId);
      if aviso.None? {
        return Some(AvisoNotFound);
      }
      if aviso.value.estado == Abierto {
        UpdateAviso(aviso.value.(estado := Enterado, enteradoAt := Some(now), enteradoBy := user));
      }
      return None;
    }

    method EvaluatePending(unidadId: Id, now: Time) returns (nuevo: Option<Aviso>)
      modifies `avisos, `nextId, inbox
      ensures Evaluated(Tables(), inbox.Contents(), nuevo)
           == EvaluarPendiente(old(Tables()), old(inbox.Contents()), active, catalog, unidadId, now)
    {
      if unidadId !in lastClosed || Blank(lastClosed[unidadId].visitaId) {
        return None;
      }
      var existing := GetNoResuelto(unidadId);
      nuevo := Evaluate(unidadId, lastClosed[unidadId].km + if existing.Some? then existing.value.kmAlAbrir else 0, now);
    }

    method EvaluateAll(now: Time) returns (nuevos: seq<Aviso>)
      modifies `avisos, `nextId, inbox
      ensures Swept(Tables(), inbox.Contents(), nuevos) == EvaluarTodas(old(Tables()), old(inbox.Contents()), active, catalog, now)
    {
      nuevos := [];
      var i := 0;
      while i < |catalog|
        invariant 0 <= i <= |catalog|
        invariant EvaluarTodas(old(Tables()), old(inbox.Contents()), active, catalog, now)
               == Prepend(nuevos, EvaluarLista(Tables(), inbox.Contents(), active, catalog, catalog[i..], now))
      {
        SweepOne(nuevos, Tables(), inbox.Contents(), active, catalog, catalog[i..], now);
        assert catalog[i..][0] == catalog[i] && catalog[i..][1..] == catalog[i + 1..];
        var aviso := EvaluatePending(catalog[i].unidadId, now);
        nuevos := nuevos + Listed(aviso);
        i := i + 1;
      }
    }
  }
}
