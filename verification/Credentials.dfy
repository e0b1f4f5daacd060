/** Credential values and the pure predicates on them
    (worker/internal/credential/store.go). Times are integers in nanoseconds,
    stored expiries and generations are in milliseconds. */
module Credentials {
  import opened Text

  const MAX_INT64: int := 0x7FFF_FFFF_FFFF_FFFF
  const MIN_INT64: int := -0x8000_0000_0000_0000
  const NANOS_PER_MILLI: int := 1_000_000

  /** Two's-complement wrap-around of a 64-bit addition or multiplication. */
  function Wrap64(n: int): (w: int)
    ensures MIN_INT64 <= w <= MAX_INT64
    ensures MIN_INT64 <= n <= MAX_INT64 ==> w == n
  {
    (n - MIN_INT64) % 0x1_0000_0000_0000_0000 + MIN_INT64
  }

  function Millis(nanos: int): int { nanos / NANOS_PER_MILLI }

  /** The three credential types after normalisation. */
  datatype Kind = OAuth | SetupToken | ApiKey

  datatype Credential = Credential(
    kind: string, accessToken: string, refreshToken: string, expiresAt: int, generation: int,
    email: string, accountUuid: string, orgUuid: string, scopes: seq<string>,
    apiKey: string, baseUrl: string, authScheme: string)

  const NO_CREDENTIAL := Credential("", "", "", 0, 0, "", "", "", [], "", "", "")

  function TrimSpace(s: string): string { Trim(s, GoSpace) }

  /** Unicode lower case, exact for every character whose lower case is ASCII:
      besides A-Z those are the Kelvin sign and the dotted capital I. */
  function GoLowerChar(c: char): char {
    if c == '\U{212A}' then 'k' else if c == '\U{130}' then 'i' else LowerChar(c)
  }

  function Canonical(raw: string, from: char, to: char): string {
    var swapped := seq(|raw|, i requires 0 <= i < |raw| => if raw[i] == from then to else raw[i]);
    var trimmed := TrimSpace(swapped);
    seq(|trimmed|, i requires 0 <= i < |trimmed| => GoLowerChar(trimmed[i]))
  }

  function KindText(kind: Kind): string {
    match kind
    case OAuth => "oauth"
    case SetupToken => "setup-token"
    case ApiKey => "apikey"
  }

  function NormalizeType(raw: string): Kind {
    var text := Canonical(raw, '_', '-');
    if text == "setup-token" || text == "inference" then SetupToken
    else if text == "apikey" || text == "api-key" || text == "console" then ApiKey
    else OAuth
  }

  const BEARER := "authorization_bearer"
  const X_API_KEY := "x_api_key"

  function NormalizeAuthScheme(raw: string, kind: string): (scheme: string)
    ensures scheme == BEARER || scheme == X_API_KEY
  {
    var text := Canonical(raw, '-', '_');
    if text == BEARER || text == "bearer" || text == "authorization" || text == "oauth" then BEARER
    else if text == X_API_KEY || text == "apikey" || text == "api_key" then X_API_KEY
    else if NormalizeType(kind) == ApiKey then X_API_KEY
    else BEARER
  }

  lemma CanonicalFixed(text: string, from: char, to: char)
    requires Trimmed(text, GoSpace)
    requires forall i | 0 <= i < |text| :: text[i] != from && GoLowerChar(text[i]) == text[i]
    ensures Canonical(text, from, to) == text
  {
    assert seq(|text|, i requires 0 <= i < |text| => if text[i] == from then to else text[i]) == text;
    TrimKeepsTrimmed(text, GoSpace);
  }

  /** The stored spelling of a type reads back as that type. */
  lemma KindTextReadsBack(kind: Kind)
    ensures NormalizeType(KindText(kind)) == kind
  {
    CanonicalFixed(KindText(kind), '_', '-');
  }

  /** A normalised scheme stays what it is, whatever type it is normalised for. */
  lemma SchemeSettles(raw: string, kind: string, other: string)
    ensures NormalizeAuthScheme(NormalizeAuthScheme(raw, kind), other) == NormalizeAuthScheme(raw, kind)
  {
    CanonicalFixed(BEARER, '-', '_');
    CanonicalFixed(X_API_KEY, '-', '_');
  }

  predicate IsApiKey(c: Credential) { NormalizeType(c.kind) == ApiKey }

  function Token(c: Credential): string {
    if IsApiKey(c) && TrimSpace(c.apiKey) != "" then TrimSpace(c.apiKey) else TrimSpace(c.accessToken)
  }

  predicate Valid(c: Credential) { Token(c) != "" }

  predicate Expiring(expiresAt: int, now: int, skew: int) {
    expiresAt * NANOS_PER_MILLI - now <= skew
  }

  predicate NeedsRefresh(c: Credential, now: int, skew: int) {
    if IsApiKey(c) then false
    else if !Valid(c) then true
    else if NormalizeType(c.kind) == SetupToken && TrimSpace(c.refreshToken) == "" then
      c.expiresAt > 0 && Expiring(c.expiresAt, now, skew)
    else c.expiresAt <= 0 || Expiring(c.expiresAt, now, skew)
  }
}
