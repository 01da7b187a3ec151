/** Yard movements: units leave and come back, and no driver has two units out. */
module Flota {
  import opened Wrappers

  type Id = nat
  type Time = int

  datatype Tipo = Salida | Entrada
  datatype TipoFirma = FirmaChofer | FirmaAval
  datatype Firma = Firma(tipo: TipoFirma, dataUrl: string)
  datatype Sitio = Sitio(activo: bool)

  datatype Movimiento = Movimiento(id: Id, tipo: Tipo, unidadId: Id, choferId: Id, sitioId: Id, occurredAt: Time, km: int, firmas: seq<Firma>)

  datatype Operativa = Operativa(
    sitioId: Option<Id>, choferActualId: Option<Id>, choferUltimoId: Option<Id>, salidaAbiertaId: Option<Id>, ultimoMovimientoAt: Option<Time>)

  /** Date and kilometres are absent when they cannot be read as such. */
  datatype Input = Input(tipo: Tipo, unidadId: Id, choferId: Id, sitioId: Id, occurredAt: Option<Time>, km: Option<int>, firmas: seq<Firma>)

  /** Catalogue answers for one registration. */
  datatype Context = Context(now: Time, unidadExiste: bool, choferActivo: Option<bool>, ultimoKmVisita: Option<int>, andonAbierto: bool)

  datatype Yard = Yard(sitios: map<Id, Sitio>, movimientos: seq<Movimiento>, operativas: map<Id, Operativa>, nextId: Id)

  datatype MovementError =
    | UnidadDesconocida | ChoferDesconocido | ChoferInactivo | SitioDesconocido | SitioInactivo
    | FechaInvalida | FechaFutura | KmInvalido | FirmasIncompletas
    | SalidaYaAbierta | ChoferEnRuta | SinSalidaAbierta | EntradaAnterior | KmMenor

  datatype SoftWarning = MantenimientoVencido | KmMenorQueVisita

  /** What the rules look at. */
  datatype Case = Case(
    input: Input, now: Time, sitio: Option<Sitio>, choferActivo: Option<bool>, unidadExiste: bool,
    pointer: Option<Id>, abierta: Option<Movimiento>, choferEnRuta: bool)

  // -- Rules ----------------------------------------------------------------------------

  function FirmaDe(firmas: seq<Firma>, tipo: TipoFirma): string {
    if firmas == [] then "" else if firmas[0].tipo == tipo then firmas[0].dataUrl else FirmaDe(firmas[1..], tipo)
  }

  /** Exactly two signatures, one of each kind, neither empty. */
  predicate Signed(firmas: seq<Firma>) {
    |firmas| == 2 && firmas[0].tipo != firmas[1].tipo && firmas[0].dataUrl != "" && firmas[1].dataUrl != ""
  }

  predicate ExitOk(c: Case) {
    c.pointer.None? && !c.choferEnRuta
  }

  predicate EntryOk(c: Case) {
    && c.pointer.Some? && c.abierta.Some?
    && (c.input.occurredAt.Some? ==> c.abierta.value.occurredAt <= c.input.occurredAt.value)
    && (c.input.km.Some? ==> c.abierta.value.km <= c.input.km.value)
  }

  /** Every condition a movement must meet. */
  predicate Allowed(c: Case) {
    && c.unidadExiste && c.choferActivo == Some(true) && c.sitio == Some(Sitio(true))
    && c.input.occurredAt.Some? && c.input.occurredAt.value <= c.now
    && c.input.km.Some? && c.input.km.value >= 0
    && Signed(c.input.firmas)
    && (if c.input.tipo == Salida then ExitOk(c) else EntryOk(c))
  }

  function When(condition: bool, e: MovementError): seq<MovementError> {
    if condition then [e] else []
  }

  function PartyErrors(c: Case): seq<MovementError>
    requires c.choferActivo.Some? && c.sitio.Some?
  {
    When(!c.choferActivo.value, ChoferInactivo) + When(!c.sitio.value.activo, SitioInactivo)
  }

  function ReadingErrors(c: Case): seq<MovementError> {
    (if c.input.occurredAt.None? then [FechaInvalida] else When(c.input.occurredAt.value > c.now, FechaFutura))
    + When(c.input.km.None? || c.input.km.value < 0, KmInvalido)
  }

  function BasicErrors(c: Case): seq<MovementError>
    requires c.choferActivo.Some? && c.sitio.Some?
  {
    PartyErrors(c) + ReadingErrors(c) + When(!Signed(c.input.firmas), FirmasIncompletas)
  }

  function ExitErrors(c: Case): seq<MovementError> {
    When(c.pointer.Some?, SalidaYaAbierta) + When(c.choferEnRuta, ChoferEnRuta)
  }

  function EntryErrors(c: Case): seq<MovementError> {
    if c.abierta.None? || c.pointer.None? then [SinSalidaAbierta]
    else
      When(c.input.occurredAt.Some? && c.input.occurredAt.value < c.abierta.value.occurredAt, EntradaAnterior)
      + When(c.input.km.Some? && c.input.km.value < c.abierta.value.km, KmMenor)
  }

  /** All errors of a movement in the order they are reported; unknown unit, driver or site end the list. */
  function Errors(c: Case): seq<MovementError> {
    if !c.unidadExiste then [UnidadDesconocida]
    else if c.choferActivo.None? then [ChoferDesconocido]
    else if c.sitio.None? then When(!c.choferActivo.value, ChoferInactivo) + [SitioDesconocido]
    else BasicErrors(c) + if c.input.tipo == Salida then ExitErrors(c) else EntryErrors(c)
  }

  /** A movement is free of errors exactly when it meets every condition. */
  lemma NoErrorsIffAllowed(c: Case)
    ensures Errors(c) == [] <==> Allowed(c)
  {
    if c.unidadExiste && c.choferActivo.Some? && c.sitio.Some? {
      assert Errors(c) == [] <==> BasicErrors(c) == [] && (if c.input.tipo == Salida then ExitErrors(c) == [] else EntryErrors(c) == []);
    }
  }

  method ErroresMovimiento(c: Case) returns (errores: seq<MovementError>)
    ensures errores == Errors(c)
    ensures errores == [] <==> Allowed(c)
  {
    NoErrorsIffAllowed(c);
    if !c.unidadExiste {
      return [UnidadDesconocida];
    }
    if c.choferActivo.None? {
      return [ChoferDesconocido];
    }
    if c.sitio.None? {
      return (if !c.choferActivo.value then [ChoferInactivo] else []) + [SitioDesconocido];
    }
    errores := ErroresBasicos(c);
    if c.input.tipo == Salida {
      if c.pointer.Some? {
        errores := errores + [SalidaYaAbierta];
      }
      if c.choferEnRuta {
        errores := errores + [ChoferEnRuta];
      }
    } else if c.abierta.None? || c.pointer.None? {
      errores := errores + [SinSalidaAbierta];
    } else {
      if c.input.occurredAt.Some? && c.input.occurredAt.value < c.abierta.value.occurredAt {
        errores := errores + [EntradaAnterior];
      }
      if c.input.km.Some? && c.input.km.value < c.abierta.value.km {
        errores := errores + [KmMenor];
      }
    }
  }

  /** The part common to exits and entries. */
  method ErroresBasicos(c: Case) returns (errores: seq<MovementError>)
    requires c.choferActivo.Some? && c.sitio.Some?
    ensures errores == BasicErrors(c)
  {
    errores := [];
    if !c.choferActivo.value {
      errores := errores + [ChoferInactivo];
    }
    if !c.sitio.value.activo {
      errores := errores + [SitioInactivo];
    }
    assert errores == PartyErrors(c);
    if c.input.occurredAt.None? {
      errores := errores + [FechaInvalida];
    } else if c.input.occurredAt.value > c.now {
      errores := errores + [FechaFutura];
    }
    if c.input.km.None? || c.input.km.value < 0 {
      errores := errores + [KmInvalido];
    }
    assert errores == PartyErrors(c) + ReadingErrors(c);
    var complete := ReadSignatures(c.input.firmas);
    if !complete {
      errores := errores + [FirmasIncompletas];
    }
  }

  /** Signatures are read by kind: the first of each, two kinds, two in all. */
  method ReadSignatures(firmas: seq<Firma>) returns (complete: bool)
    ensures complete == Signed(firmas)
  {
    SignaturesRead(firmas);
    var tipos := set i | 0 <= i < |firmas| :: firmas[i].tipo;
    complete := FirmaDe(firmas, FirmaChofer) != "" && FirmaDe(firmas, FirmaAval) != "" && |tipos| == 2 && |firmas| == 2;
  }

  lemma SignaturesRead(firmas: seq<Firma>)
    ensures Signed(firmas)
            <==> FirmaDe(firmas, FirmaChofer) != "" && FirmaDe(firmas, FirmaAval) != ""
                 && |set i | 0 <= i < |firmas| :: firmas[i].tipo| == 2 && |firmas| == 2
  {
    if |firmas| == 2 {
      var tipos := set i | 0 <= i < |firmas| :: firmas[i].tipo;
      assert firmas[0].tipo in tipos && firmas[1].tipo in tipos;
      assert tipos == {firmas[0].tipo, firmas[1].tipo};
      assert firmas[1..][0] == firmas[1];
    }
  }

  function AvisosSuaves(tipo: Tipo, andonAbierto: bool, km: int, ultimoKmVisita: Option<int>): seq<SoftWarning> {
    (if tipo == Salida && andonAbierto then [MantenimientoVencido] else [])
    + if ultimoKmVisita.Some? && km < ultimoKmVisita.value then [KmMenorQueVisita] else []
  }

  // -- The store ------------------------------------------------------------------------

  function GetMovimiento(movimientos: seq<Movimiento>, id: Id): (r: Option<Movimiento>)
    ensures r.Some? ==> r.value in movimientos && r.value.id == id
    ensures r.None? ==> forall i :: 0 <= i < |movimientos| ==> movimientos[i].id != id
  {
    if movimientos == [] then None
    else if movimientos[0].id == id then Some(movimientos[0])
    else GetMovimiento(movimientos[1..], id)
  }

  /** The unit has an open exit registered by this driver. */
  predicate OutWith(yard: Yard, u: Id, choferId: Id)
    requires u in yard.operativas
  {
    var pointer := yard.operativas[u].salidaAbiertaId;
    pointer.Some? && GetMovimiento(yard.movimientos, pointer.value).Some?
    && GetMovimiento(yard.movimientos, pointer.value).value.choferId == choferId
  }

  predicate ChoferTieneSalidaAbierta(yard: Yard, choferId: Id, except: Id) {
    exists u :: u in yard.operativas && u != except && OutWith(yard, u, choferId)
  }

  // -- Registering a movement -----------------------------------------------------------

  function Pointer(yard: Yard, u: Id): Option<Id> {
    if u in yard.operativas then yard.operativas[u].salidaAbiertaId else None
  }

  function CaseOf(yard: Yard, input: Input, ctx: Context): Case {
    var pointer := Pointer(yard, input.unidadId);
    Case(input, ctx.now, if input.sitioId in yard.sitios then Some(yard.sitios[input.sitioId]) else None,
         ctx.choferActivo, ctx.unidadExiste, pointer,
         if pointer.Some? then GetMovimiento(yard.movimientos, pointer.value) else None,
         input.tipo == Salida && ChoferTieneSalidaAbierta(yard, input.choferId, input.unidadId))
  }

  /** The driver an entry is credited to: the one who took the unit out, as far as the row knows. */
  function UltimoChofer(yard: Yard, input: Input): Id {
    if input.unidadId !in yard.operativas then input.choferId
    else
      var op := yard.operativas[input.unidadId];
      if op.choferActualId.Some? then op.choferActualId.value
      else if op.choferUltimoId.Some? then op.choferUltimoId.value
      else input.choferId
  }

  function MovimientoDe(yard: Yard, input: Input): Movimiento
    requires input.occurredAt.Some? && input.km.Some?
  {
    Movimiento(yard.nextId, input.tipo, input.unidadId, input.choferId, input.sitioId, input.occurredAt.value, input.km.value, input.firmas)
  }

  function Siguiente(yard: Yard, input: Input): Operativa {
    if input.tipo == Salida
    then Operativa(Some(input.sitioId), Some(input.choferId), Some(input.choferId), Some(yard.nextId), input.occurredAt)
    else Operativa(Some(input.sitioId), None, Some(UltimoChofer(yard, input)), None, input.occurredAt)
  }

  function Registrar(yard: Yard, input: Input, ctx: Context): Option<Yard> {
    if !Allowed(CaseOf(yard, input, ctx)) then None
    else Some(yard.(movimientos := yard.movimientos + [MovimientoDe(yard, input)],
                    operativas := yard.operativas[input.unidadId := Siguiente(yard, input)],
                    nextId := yard.nextId + 1))
  }

  datatype Call = Call(input: Input, ctx: Context)

  function Run(yard: Yard, calls: seq<Call>): Yard {
    if calls == [] then yard
    else
      var before := Run(yard, calls[..|calls| - 1]);
      var after := Registrar(before, calls[|calls| - 1].input, calls[|calls| - 1].ctx);
      if after.Some? then after.value else before
  }

  // -- What every run keeps -------------------------------------------------------------

  /** The movements of one unit, oldest first. */
  function Of(movimientos: seq<Movimiento>, u: Id): seq<Movimiento> {
    if movimientos == [] then []
    else
      var last := movimientos[|movimientos| - 1];
      Of(movimientos[..|movimientos| - 1], u) + if last.unidadId == u then [last] else []
  }

  predicate Out(ms: seq<Movimiento>) {
    ms != [] && ms[|ms| - 1].tipo == Salida
  }

  /** The unit's row tells where its movements left it. */
  ghost predicate Told(ms: seq<Movimiento>, op: Operativa)
    requires ms != []
  {
    var last := ms[|ms| - 1];
    && op.salidaAbiertaId == (if Out(ms) then Some(last.id) else None)
    && op.choferActualId == (if Out(ms) then Some(last.choferId) else None)
    && (Out(ms) ==> op.choferUltimoId == Some(last.choferId))
    && (!Out(ms) ==> |ms| >= 2 && op.choferUltimoId == Some(ms[|ms| - 2].choferId))
    && op.sitioId == Some(last.sitioId) && op.ultimoMovimientoAt == Some(last.occurredAt)
  }

  /** Exits and entries alternate from an exit, and an entry is neither earlier nor shorter than its exit. */
  ghost predicate Alternates(ms: seq<Movimiento>) {
    && (ms != [] ==> ms[0].tipo == Salida)
    && (forall i :: 0 < i < |ms| ==> ms[i].tipo != ms[i - 1].tipo)
    && (forall i :: 0 < i < |ms| && ms[i].tipo == Entrada ==> ms[i - 1].occurredAt <= ms[i].occurredAt && ms[i - 1].km <= ms[i].km)
  }

  ghost predicate UnitLaw(yard: Yard, u: Id) {
    var ms := Of(yard.movimientos, u);
    && Alternates(ms)
    && (u in yard.operativas <==> ms != [])
    && (u in yard.operativas ==> Told(ms, yard.operativas[u]))
  }

  ghost predicate IdLaw(yard: Yard) {
    && (forall i, j :: 0 <= i < j < |yard.movimientos| ==> yard.movimientos[i].id != yard.movimientos[j].id)
    && (forall i :: 0 <= i < |yard.movimientos| ==> yard.movimientos[i].id < yard.nextId)
  }

  /** No driver has two units out. */
  ghost predicate DriverLaw(yard: Yard) {
    forall u, v :: u in yard.operativas && v in yard.operativas && u != v && yard.operativas[u].choferActualId.Some? ==>
      yard.operativas[u].choferActualId != yard.operativas[v].choferActualId
  }

  ghost predicate Law(yard: Yard) {
    IdLaw(yard) && (forall u: Id :: UnitLaw(yard, u)) && DriverLaw(yard)
  }

  lemma OfAppended(movimientos: seq<Movimiento>, m: Movimiento, u: Id)
    ensures Of(movimientos + [m], u) == Of(movimientos, u) + if m.unidadId == u then [m] else []
  {
    assert (movimientos + [m])[..|movimientos|] == movimientos;
  }

  lemma {:induction false} OfAreTheirs(movimientos: seq<Movimiento>, u: Id)
    ensures forall i :: 0 <= i < |Of(movimientos, u)| ==> Of(movimientos, u)[i] in movimientos && Of(movimientos, u)[i].unidadId == u
  {
    if movimientos != [] {
      OfAreTheirs(movimientos[..|movimientos| - 1], u);
    }
  }

  lemma {:induction false} IdNamesOne(movimientos: seq<Movimiento>, m: Movimiento)
    requires forall i, j :: 0 <= i < j < |movimientos| ==> movimientos[i].id != movimientos[j].id
    requires m in movimientos
    ensures GetMovimiento(movimientos, m.id) == Some(m)
  {
    var i :| 0 <= i < |movimientos| && movimientos[i] == m;
    var j :| 0 <= j < |movimientos| && GetMovimiento(movimientos, m.id) == Some(movimientos[j]);
  }

  /** An open pointer names an exit of that very unit, made by the driver its row shows. */
  lemma PointerNamesExit(yard: Yard, u: Id)
    requires Law(yard) && Pointer(yard, u).Some?
    ensures var m := GetMovimiento(yard.movimientos, Pointer(yard, u).value);
            m.Some? && m.value.tipo == Salida && m.value.unidadId == u && yard.operativas[u].choferActualId == Some(m.value.choferId)
            && Out(Of(yard.movimientos, u)) && m.value == Of(yard.movimientos, u)[|Of(yard.movimientos, u)| - 1]
  {
    var ms := Of(yard.movimientos, u);
    assert UnitLaw(yard, u);
    OfAreTheirs(yard.movimientos, u);
    IdNamesOne(yard.movimientos, ms[|ms| - 1]);
  }

  /** The fleet-wide driver check looks at movements; it amounts to looking at the rows. */
  lemma DriverCheckIsExact(yard: Yard, choferId: Id, except: Id)
    requires Law(yard)
    ensures ChoferTieneSalidaAbierta(yard, choferId, except)
            <==> exists u :: u in yard.operativas && u != except && yard.operativas[u].choferActualId == Some(choferId)
  {
    forall u | u in yard.operativas
      ensures OutWith(yard, u, choferId) <==> yard.operativas[u].choferActualId == Some(choferId)
    {
      assert UnitLaw(yard, u);
      if Pointer(yard, u).Some? {
        PointerNamesExit(yard, u);
      }
    }
  }

  lemma LeaverKeepsLaw(yard: Yard, input: Input, ctx: Context)
    requires Law(yard) && Registrar(yard, input, ctx).Some? && input.tipo == Salida
    ensures UnitLaw(Registrar(yard, input, ctx).value, input.unidadId)
  {
    assert UnitLaw(yard, input.unidadId);
    OfAppended(yard.movimientos, MovimientoDe(yard, input), input.unidadId);
  }

  lemma ComerKeepsLaw(yard: Yard, input: Input, ctx: Context)
    requires Law(yard) && Registrar(yard, input, ctx).Some? && input.tipo == Entrada
    ensures UnitLaw(Registrar(yard, input, ctx).value, input.unidadId)
  {
    assert UnitLaw(yard, input.unidadId);
    OfAppended(yard.movimientos, MovimientoDe(yard, input), input.unidadId);
    PointerNamesExit(yard, input.unidadId);
  }

  lemma MoverKeepsLaw(yard: Yard, input: Input, ctx: Context)
    requires Law(yard) && Registrar(yard, input, ctx).Some?
    ensures UnitLaw(Registrar(yard, input, ctx).value, input.unidadId)
  {
    if input.tipo == Salida {
      LeaverKeepsLaw(yard, input, ctx);
    } else {
      ComerKeepsLaw(yard, input, ctx);
    }
  }

  lemma OthersKeepLaw(yard: Yard, input: Input, ctx: Context, v: Id)
    requires Law(yard) && Registrar(yard, input, ctx).Some? && v != input.unidadId
    ensures UnitLaw(Registrar(yard, input, ctx).value, v)
  {
    assert UnitLaw(yard, v);
    OfAppended(yard.movimientos, MovimientoDe(yard, input), v);
    assert Of(Registrar(yard, input, ctx).value.movimientos, v) == Of(yard.movimientos, v);
  }

  lemma RegistrarKeepsLaw(yard: Yard, input: Input, ctx: Context)
    requires Law(yard) && Registrar(yard, input, ctx).Some?
    ensures Law(Registrar(yard, input, ctx).value)
  {
    var yard' := Registrar(yard, input, ctx).value;
    DriverCheckIsExact(yard, input.choferId, input.unidadId);
    MoverKeepsLaw(yard, input, ctx);
    forall v: Id
      ensures UnitLaw(yard', v)
    {
      if v != input.unidadId {
        OthersKeepLaw(yard, input, ctx, v);
      }
    }
  }

  /**
   Over any serial run: each unit's movements alternate from an exit, entries match their
   exits in time and kilometres and are credited to the driver who took the unit out, open
   pointers name that exit, and no driver has two units out.
   */
  lemma {:induction false} RunKeepsYard(yard: Yard, calls: seq<Call>)
    requires Law(yard)
    ensures Law(Run(yard, calls))
  {
    if calls != [] {
      var before := Run(yard, calls[..|calls| - 1]);
      RunKeepsYard(yard, calls[..|calls| - 1]);
      if Registrar(before, calls[|calls| - 1].input, calls[|calls| - 1].ctx).Some? {
        RegistrarKeepsLaw(before, calls[|calls| - 1].input, calls[|calls| - 1].ctx);
      }
    }
  }

  /** An entry is credited to the driver of the exit it closes, whoever drives the unit in. */
  lemma EntryCreditsExit(yard: Yard, input: Input, ctx: Context)
    requires Law(yard) && input.tipo == Entrada && Registrar(yard, input, ctx).Some?
    ensures Pointer(yard, input.unidadId).Some?
    ensures var salida := GetMovimiento(yard.movimientos, Pointer(yard, input.unidadId).value);
            var op := Registrar(yard, input, ctx).value.operativas[input.unidadId];
            salida.Some? && op.choferUltimoId == Some(salida.value.choferId) && op.choferActualId.None? && op.salidaAbiertaId.None?
            && salida.value.occurredAt <= input.occurredAt.value && salida.value.km <= input.km.value
  {
    PointerNamesExit(yard, input.unidadId);
  }

  // -- What a registration meets and records --------------------------------------------

  /** The catalogue knows unit, driver and site, the last two active. */
  ghost predicate KnownParties(yard: Yard, input: Input, ctx: Context) {
    && ctx.unidadExiste && ctx.choferActivo.Some? && ctx.choferActivo.value
    && input.sitioId in yard.sitios && yard.sitios[input.sitioId].activo
  }

  predicate SignedBy(firmas: seq<Firma>, tipo: TipoFirma) {
    exists i :: 0 <= i < |firmas| && firmas[i].tipo == tipo && firmas[i].dataUrl != ""
  }

  /** A date no later than now, kilometres from zero up, and the driver's and the warrantor's signatures. */
  ghost predicate Readable(input: Input, ctx: Context) {
    && input.occurredAt.Some? && input.occurredAt.value <= ctx.now && input.km.Some? && 0 <= input.km.value
    && |input.firmas| == 2 && SignedBy(input.firmas, FirmaChofer) && SignedBy(input.firmas, FirmaAval)
  }

  /** The unit is in and the driver has no other out; or the unit is out, and comes back no earlier and no shorter. */
  ghost predicate FitsYard(yard: Yard, input: Input) {
    var ms := Of(yard.movimientos, input.unidadId);
    if input.tipo == Salida then
      !Out(ms) && forall u :: u in yard.operativas && u != input.unidadId ==> yard.operativas[u].choferActualId != Some(input.choferId)
    else
      Out(ms)
      && (input.occurredAt.Some? ==> ms[|ms| - 1].occurredAt <= input.occurredAt.value)
      && (input.km.Some? ==> ms[|ms| - 1].km <= input.km.value)
  }

  lemma SignaturesAreByKind(firmas: seq<Firma>)
    ensures Signed(firmas) <==> |firmas| == 2 && SignedBy(firmas, FirmaChofer) && SignedBy(firmas, FirmaAval)
  {
    if Signed(firmas) {
      var i := if firmas[0].tipo == FirmaChofer then 0 else 1;
      assert firmas[i].tipo == FirmaChofer && firmas[1 - i].tipo == FirmaAval;
    }
  }

  lemma PointerIsOut(yard: Yard, u: Id)
    requires Law(yard)
    ensures Pointer(yard, u).Some? <==> Out(Of(yard.movimientos, u))
    ensures Pointer(yard, u).Some? ==>
              GetMovimiento(yard.movimientos, Pointer(yard, u).value) == Some(Of(yard.movimientos, u)[|Of(yard.movimientos, u)| - 1])
  {
    assert UnitLaw(yard, u);
    if Pointer(yard, u).Some? {
      PointerNamesExit(yard, u);
    }
  }

  /** In a lawful yard a registration is accepted exactly when its parties are known, its figures read and it fits where the unit and the driver are. */
  lemma RegistrationIsAcceptedIff(yard: Yard, input: Input, ctx: Context)
    requires Law(yard)
    ensures Registrar(yard, input, ctx).Some? <==> KnownParties(yard, input, ctx) && Readable(input, ctx) && FitsYard(yard, input)
  {
    SignaturesAreByKind(input.firmas);
    PointerIsOut(yard, input.unidadId);
    DriverCheckIsExact(yard, input.choferId, input.unidadId);
  }

  /** The movement is stored as it was sent, after all others, and no other unit's row moves. */
  lemma MovementIsRecorded(yard: Yard, input: Input, ctx: Context)
    requires Registrar(yard, input, ctx).Some?
    ensures input.occurredAt.Some? && input.km.Some?
    ensures var yard' := Registrar(yard, input, ctx).value;
            && yard'.movimientos == yard.movimientos + [Movimiento(yard.nextId, input.tipo, input.unidadId, input.choferId, input.sitioId,
                                                                   input.occurredAt.value, input.km.value, input.firmas)]
            && yard'.sitios == yard.sitios && yard'.nextId > yard.nextId
            && input.unidadId in yard'.operativas && yard'.operativas - {input.unidadId} == yard.operativas - {input.unidadId}
  {
  }

  /** Warnings never refuse: an exit with maintenance overdue, and kilometres below those of the last visit. */
  lemma WarningsAreTold(tipo: Tipo, andonAbierto: bool, km: int, ultimoKmVisita: Option<int>)
    ensures MantenimientoVencido in AvisosSuaves(tipo, andonAbierto, km, ultimoKmVisita) <==> tipo == Salida && andonAbierto
    ensures KmMenorQueVisita in AvisosSuaves(tipo, andonAbierto, km, ultimoKmVisita) <==> ultimoKmVisita.Some? && km < ultimoKmVisita.value
  {
  }

  /** The error told first is the first condition missed, in the order of the form. */
  lemma FirstErrorIsFirstMissed(yard: Yard, input: Input, ctx: Context)
    requires Registrar(yard, input, ctx).None?
    ensures Errors(CaseOf(yard, input, ctx)) != []
    ensures var e := Errors(CaseOf(yard, input, ctx))[0];
            && (e == UnidadDesconocida <==> !ctx.unidadExiste)
            && (e == ChoferDesconocido <==> ctx.unidadExiste && ctx.choferActivo.None?)
            && (e == ChoferInactivo <==> ctx.unidadExiste && ctx.choferActivo == Some(false))
            && (e == SitioDesconocido <==> ctx.unidadExiste && ctx.choferActivo == Some(true) && input.sitioId !in yard.sitios)
            && (e == SitioInactivo <==>
                  ctx.unidadExiste && ctx.choferActivo == Some(true) && input.sitioId in yard.sitios && !yard.sitios[input.sitioId].activo)
            && (KnownParties(yard, input, ctx) ==>
                  && (e == FechaInvalida <==> input.occurredAt.None?)
                  && (e == FechaFutura <==> input.occurredAt.Some? && input.occurredAt.value > ctx.now)
                  && (e == KmInvalido <==> GoodDate(input, ctx) && (input.km.None? || input.km.value < 0))
                  && (e == FirmasIncompletas <==> GoodDate(input, ctx) && input.km.Some? && 0 <= input.km.value && !Readable(input, ctx))
                  && (e == SalidaYaAbierta <==> Readable(input, ctx) && input.tipo == Salida && Pointer(yard, input.unidadId).Some?)
                  && (e == ChoferEnRuta <==> Readable(input, ctx) && input.tipo == Salida && Pointer(yard, input.unidadId).None?)
                  && (e == KmMenor ==> Readable(input, ctx) && input.tipo == Entrada)
                  && (e == EntradaAnterior ==> Readable(input, ctx) && input.tipo == Entrada))
  {
    NoErrorsIffAllowed(CaseOf(yard, input, ctx));
    SignaturesAreByKind(input.firmas);
  }

  predicate GoodDate(input: Input, ctx: Context) {
    input.occurredAt.Some? && input.occurredAt.value <= ctx.now
  }

  /** Of an entry: no exit to close, then a date before it, then kilometres below it. */
  lemma EntryErrorsInOrder(yard: Yard, input: Input, ctx: Context)
    requires Law(yard) && KnownParties(yard, input, ctx) && Readable(input, ctx) && input.tipo == Entrada
    requires Registrar(yard, input, ctx).None?
    ensures Errors(CaseOf(yard, input, ctx)) != []
    ensures var e, ms := Errors(CaseOf(yard, input, ctx))[0], Of(yard.movimientos, input.unidadId);
            e == if !Out(ms) then SinSalidaAbierta
                 else if input.occurredAt.value < ms[|ms| - 1].occurredAt then EntradaAnterior
                 else KmMenor
  {
    NoErrorsIffAllowed(CaseOf(yard, input, ctx));
    SignaturesAreByKind(input.firmas);
    PointerIsOut(yard, input.unidadId);
  }

  // -- The engine over its in-memory store ------------------------------------------------

  class FlotaEngine {
    var sitios: map<Id, Sitio>
    var movimientos: seq<Movimiento>
    var operativas: map<Id, Operativa>
    var nextId: Id

    ghost function Tables(): Yard
      reads this
    {
      Yard(sitios, movimientos, operativas, nextId)
    }

    constructor (sitios: map<Id, Sitio>)
      ensures Tables() == Yard(sitios, [], map[], 0)
    {
      this.sitios, movimientos, operativas, nextId := sitios, [], map[], 0;
    }

    method DriverIsOut(choferId: Id, except: Id) returns (out: bool)
      ensures out == ChoferTieneSalidaAbierta(Tables(), choferId, except)
    {
      var pending := operativas.Keys;
      while pending != {}
        invariant pending <= operativas.Keys
        invariant forall u :: u in operativas.Keys - pending && u != except ==> !OutWith(Tables(), u, choferId)
        decreases |pending|
      {
        var u :| u in pending;
        pending := pending - {u};
        var pointer := operativas[u].salidaAbiertaId;
        if pointer.Some? && u != except {
          var mov := GetMovimiento(movimientos, pointer.value);
          if mov.Some? && mov.value.choferId == choferId {
            assert OutWith(Tables(), u, choferId);
            return true;
          }
        }
      }
      return false;
    }

    method Register(input: Input, ctx: Context) returns (r: Result<Movimiento, MovementError>, avisos: seq<SoftWarning>)
      modifies this
      ensures var spec := Registrar(old(Tables()), input, ctx);
              && (r.Ok? <==> spec.Some?)
              && Tables() == (if spec.Some? then spec.value else old(Tables()))
              && (r.Ok? ==> r.value == movimientos[|old(movimientos)|])
              && (r.Err? ==> Errors(CaseOf(old(Tables()), input, ctx)) != [] && r.error == Errors(CaseOf(old(Tables()), input, ctx))[0])
      ensures r.Ok? ==> avisos == AvisosSuaves(input.tipo, ctx.andonAbierto, r.value.km, ctx.ultimoKmVisita)
    {
      var operativa := if input.unidadId in operativas then Some(operativas[input.unidadId]) else None;
      var sitio := if input.sitioId in sitios then Some(sitios[input.sitioId]) else None;
      var pointer := if operativa.Some? then operativa.value.salidaAbiertaId else None;
      var abierta := if pointer.Some? then GetMovimiento(movimientos, pointer.value) else None;
      var enRuta := false;
      if input.tipo == Salida {
        enRuta := DriverIsOut(input.choferId, input.unidadId);
      }
      var c := Case(input, ctx.now, sitio, ctx.choferActivo, ctx.unidadExiste, pointer, abierta, enRuta);
      assert c == CaseOf(Tables(), input, ctx);
      var errores := ErroresMovimiento(c);
      if |errores| > 0 {
        return Result.Err(errores[0]), [];
      }
      var movimiento := Movimiento(nextId, input.tipo, input.unidadId, input.choferId, input.sitioId,
                                   input.occurredAt.value, input.km.value, input.firmas);
      var ultimo := input.choferId;
      if input.tipo == Entrada && operativa.Some? {
        if operativa.value.choferActualId.Some? {
          ultimo := operativa.value.choferActualId.value;
        } else if operativa.value.choferUltimoId.Some? {
          ultimo := operativa.value.choferUltimoId.value;
        }
      }
      var next := Operativa(Some(input.sitioId), if input.tipo == Salida then Some(input.choferId) else None, Some(ultimo),
                            if input.tipo == Salida then Some(movimiento.id) else None, input.occurredAt);
      nextId := nextId + 1;
      movimientos := movimientos + [movimiento];
      operativas := operativas[input.unidadId := next];
      return Ok(movimiento), AvisosSuaves(input.tipo, ctx.andonAbierto, movimiento.km, ctx.ultimoKmVisita);
    }
  }
}
