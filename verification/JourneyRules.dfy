/** Journey commands as they arrive in request headers, and the rules a departure or return obeys. */
module JourneyRules {
  import opened Wrappers
  import opened Decimals
  import opened Texts
  import opened Uuids

  const BIGINT_MAX: nat := 9223372036854775807
  const SUBJECT_MAX: nat := 128

  datatype HistoryState = Available | KnownOpen | MissingPointer | MissingRow

  datatype JourneyCommand = JourneyCommand(
    commandId: string, expectedSubject: string, unitRevision: string,
    historyState: HistoryState, journeyRef: Option<string>, journeyRevision: Option<string>)

  datatype Headers = Headers(
    idempotencyKey: Option<string>, expectedSubject: Option<string>, unitRevision: Option<string>,
    historyState: Option<string>, journeyRef: Option<string>, journeyRevision: Option<string>)

  function Lower(s: string): string {
    seq(|s|, i requires 0 <= i < |s| => if 'A' <= s[i] <= 'Z' then (s[i] as int + 32) as char else s[i])
  }

  /** Absent and empty headers are alike to the state check. */
  predicate Missing(h: Option<string>) {
    h.None? || h.value == ""
  }

  /** A decimal of at most 19 digits that fits a signed 64-bit column. */
  predicate IsRevision(v: string) {
    Canonical(v) && |v| <= 19 && Parse(v) <= BIGINT_MAX
  }

  predicate IsLegacyRef(s: string) {
    && |s| >= 45
    && Lower(s[..7]) == "legacy:"
    && (forall i :: 7 <= i < 43 ==> IsHex(s[i]) || s[i] == '-')
    && s[43] == ':'
    && (forall i :: 44 <= i < |s| ==> IsDigit(s[i]))
  }

  predicate IsJourneyUuid(s: string) {
    IsUuid(s, "12345")
  }

  function StateNamed(name: string): Option<HistoryState> {
    if name == "AVAILABLE" then Some(Available)
    else if name == "KNOWN_OPEN" then Some(KnownOpen)
    else if name == "MISSING_ROW" then Some(MissingRow)
    else if name == "MISSING_POINTER" then Some(MissingPointer)
    else None
  }

  function NameOf(state: HistoryState): string {
    match state
    case Available => "AVAILABLE"
    case KnownOpen => "KNOWN_OPEN"
    case MissingRow => "MISSING_ROW"
    case MissingPointer => "MISSING_POINTER"
  }

  /** Which references and revisions go with each history state. */
  predicate ValidState(state: HistoryState, ref: Option<string>, rev: Option<string>) {
    match state
    case Available => Missing(ref) && Missing(rev)
    case KnownOpen => ref.Some? && IsJourneyUuid(ref.value) && rev == Some("1")
    case MissingRow => ref.Some? && IsJourneyUuid(ref.value) && Missing(rev)
    case MissingPointer => ref.Some? && IsLegacyRef(ref.value) && Missing(rev)
  }

  /** The command carried by the headers, or nothing when its context is incomplete. */
  function ParseCommand(h: Headers): Option<JourneyCommand> {
    var state := if h.historyState.Some? then StateNamed(h.historyState.value) else None;
    if state.None? || !ValidState(state.value, h.journeyRef, h.journeyRevision) then None
    else if h.idempotencyKey.None? || !IsJourneyUuid(h.idempotencyKey.value) then None
    else if h.expectedSubject.None? || Blank(h.expectedSubject.value) || |h.expectedSubject.value| > SUBJECT_MAX then None
    else if h.unitRevision.None? || !IsRevision(h.unitRevision.value) then None
    else Some(JourneyCommand(h.idempotencyKey.value, h.expectedSubject.value, h.unitRevision.value, state.value, h.journeyRef, h.journeyRevision))
  }

  lemma RevisionTextIsAccepted(n: nat)
    ensures IsRevision(Decimal(n)) <==> n <= 9223372036854775807
  {
    ParseAfterDecimal(n);
    DecimalLength(n, 19);
    assert Pow10(10) == 10000000000 && Pow10(19) == 10000000000000000000 by {
      assert Pow10(5) == 100000;
      assert Pow10(10) == 10000000000;
      assert Pow10(15) == 1000000000000000;
    }
  }

  // -- What headers are accepted --------------------------------------------------------

  /** Letters compare without case, everything else as it is. */
  lemma LowerFoldsLetters(s: string)
    ensures |Lower(s)| == |s|
    ensures forall i :: 0 <= i < |s| && !('A' <= s[i] <= 'Z') ==> Lower(s)[i] == s[i]
    ensures Lower("ABCDEFGHIJKLMNOPQRSTUVWXYZ") == "abcdefghijklmnopqrstuvwxyz"
  {
  }

  predicate HexOrDash(s: string) {
    forall i :: 0 <= i < |s| ==> IsHex(s[i]) || s[i] == '-'
  }

  /** A legacy reference is the word, thirty-six hexadecimal digits or dashes, and a number, parted by colons. */
  lemma LegacyRefHasThreeParts(s: string)
    ensures IsLegacyRef(s) <==>
              |s| > 44 && Lower(s[..7]) == "legacy:" && HexOrDash(s[7..43]) && s[43..44] == ":" && AllDigits(s[44..])
  {
    if |s| > 44 {
      assert HexOrDash(s[7..43]) <==> forall i :: 7 <= i < 43 ==> IsHex(s[i]) || s[i] == '-' by {
        assert forall i :: 7 <= i < 43 ==> s[7..43][i - 7] == s[i];
      }
      assert AllDigits(s[44..]) <==> forall i :: 44 <= i < |s| ==> IsDigit(s[i]) by {
        assert forall i :: 44 <= i < |s| ==> s[44..][i - 44] == s[i];
      }
    }
  }

  /** Groups of hexadecimal digits of a version from one to five. */
  lemma JourneyUuidHasVersion(s: string)
    ensures IsJourneyUuid(s) <==>
              && |s| == 36 && s[8] == s[13] == s[18] == s[23] == '-' && '1' <= s[14] <= '5' && s[19] in "89abAB"
              && (forall i :: 0 <= i < 36 && i !in {8, 13, 18, 23} ==> IsHex(s[i]))
  {
    assert |s| == 36 && s[14] in "12345" ==> '1' <= s[14] <= '5';
    assert |s| == 36 && '1' <= s[14] <= '5' ==> s[14] in "12345" by {
      assert forall c :: c in "12345" <==> c == '1' || c == '2' || c == '3' || c == '4' || c == '5';
    }
  }

  predicate Unset(h: Option<string>) {
    h.None? || |h.value| == 0
  }

  /** The situation a client may name: no journey; a known one of revision one; or a missing row or pointer. */
  predicate SituationNamed(h: Headers) {
    || (h.historyState == Some("AVAILABLE") && Unset(h.journeyRef) && Unset(h.journeyRevision))
    || (h.historyState == Some("KNOWN_OPEN") && h.journeyRef.Some? && IsJourneyUuid(h.journeyRef.value) && h.journeyRevision == Some("1"))
    || (h.historyState == Some("MISSING_ROW") && h.journeyRef.Some? && IsJourneyUuid(h.journeyRef.value) && Unset(h.journeyRevision))
    || (h.historyState == Some("MISSING_POINTER") && h.journeyRef.Some? && IsLegacyRef(h.journeyRef.value) && Unset(h.journeyRevision))
  }

  /** Headers are accepted exactly with a key, a subject that is neither blank nor over 128 characters, a unit revision and a situation; the command repeats them. */
  lemma HeadersAreAcceptedIff(h: Headers)
    ensures ParseCommand(h).Some? <==>
              && h.idempotencyKey.Some? && IsJourneyUuid(h.idempotencyKey.value)
              && h.expectedSubject.Some? && !Blank(h.expectedSubject.value) && |h.expectedSubject.value| <= 128
              && h.unitRevision.Some? && Canonical(h.unitRevision.value) && Parse(h.unitRevision.value) <= 9223372036854775807
              && SituationNamed(h)
    ensures ParseCommand(h).Some? ==>
              var c := ParseCommand(h).value;
              && Some(c.commandId) == h.idempotencyKey && Some(c.expectedSubject) == h.expectedSubject
              && Some(c.unitRevision) == h.unitRevision && Some(NameOf(c.historyState)) == h.historyState
              && c.journeyRef == h.journeyRef && c.journeyRevision == h.journeyRevision
  {
    if h.unitRevision.Some? && Canonical(h.unitRevision.value) {
      RevisionTextIsAccepted(Parse(h.unitRevision.value));
      DecimalAfterParse(h.unitRevision.value);
    }
  }

  // -- Rules ----------------------------------------------------------------------------

  datatype OpsEstado = Disponible | EnRuta
  datatype EstadoChofer = Activo | Inactivo
  datatype AssignError = ChoferInactivo | UnidadOcupada | ChoferOcupado

  /** An unknown driver or unit is reported elsewhere; here only conflicts of assignment are. */
  function ErrorAssign(
    estado: Option<EstadoChofer>, unidadExiste: bool, unidadChofer: Option<string>, choferTieneUnidad: bool, choferId: string): Option<AssignError>
  {
    if estado.None? then None
    else if estado.value != Activo then Some(ChoferInactivo)
    else if !unidadExiste then None
    else if unidadChofer.Some? && unidadChofer.value != choferId then Some(UnidadOcupada)
    else if choferTieneUnidad && unidadChofer != Some(choferId) then Some(ChoferOcupado)
    else None
  }

  predicate AmbitoOk(ambito: string) {
    ambito == "LOCAL" || ambito == "FORANEO"
  }
}
