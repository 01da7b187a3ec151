/** The textual form of identifiers that arrive in request headers. */
module Uuids {
  predicate IsHex(c: char) {
    '0' <= c <= '9' || 'a' <= c <= 'f' || 'A' <= c <= 'F'
  }

  predicate Dash(i: nat) {
    i == 8 || i == 13 || i == 18 || i == 23
  }

  /** Eight-four-four-four-twelve hexadecimal digits, with the version and variant digits restricted. */
  predicate IsUuid(s: string, versions: string) {
    && |s| == 36
    && (forall i :: 0 <= i < 36 ==> if Dash(i) then s[i] == '-' else IsHex(s[i]))
    && s[14] in versions
    && s[19] in "89abAB"
  }
}
