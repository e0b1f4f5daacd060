/** The credential document and the store that loads and saves it
    (worker/internal/credential/store.go). */
module CredentialStore {
  import opened Text
  import opened Credentials
  import Decimal

  /** Member names of the credential document. The names the code reads or writes have a
      constructor each; `Snake` marks the snake_case alias; any other name is `Other`. */
  datatype Key =
    | TypeKey | AuthSchemeKey | AuthSchemeSnake | ClaudeAiOauth | AnthropicApiKey
    | AccessToken | AccessTokenSnake | RefreshToken | RefreshTokenSnake
    | ExpiresAt | ExpiresAtSnake | KinGeneration | KinGenerationSnake | TokenVersion
    | Email | EmailAddress | EmailAddressSnake | AccountUuid | AccountUuidSnake
    | OrgUuid | OrgUuidSnake | OrganizationUuid | Scopes
    | ApiKeyKey | ApiKeySnake | BaseUrl | BaseUrlSnake
    | Other(name: string)

  datatype Value =
    | Null | Bool(b: bool) | Num(n: int) | Str(s: string)
    | List(items: seq<Value>) | Map(entries: map<Key, Value>)

  type Document = map<Key, Value>

  const ACCESS_KEYS := [AccessToken, AccessTokenSnake]
  const REFRESH_KEYS := [RefreshToken, RefreshTokenSnake]
  const EMAIL_KEYS := [Email, EmailAddress, EmailAddressSnake]
  const ACCOUNT_KEYS := [AccountUuid, AccountUuidSnake]
  const ORG_KEYS := [OrgUuid, OrgUuidSnake, OrganizationUuid]
  const SCHEME_KEYS := [AuthSchemeKey, AuthSchemeSnake]
  const EXPIRY_KEYS := [ExpiresAt, ExpiresAtSnake]
  const GENERATION_KEYS := [KinGeneration, KinGenerationSnake, TokenVersion]

  /** The nested object under a key, when there is one. */
  predicate HasNested(doc: Document, key: Key) { key in doc && doc[key].Map? }

  function Nested(doc: Document, key: Key): Document {
    if HasNested(doc, key) then doc[key].entries else map[]
  }

  function FirstValue(doc: Document, keys: seq<Key>): Value {
    if keys == [] then Null
    else if keys[0] in doc then doc[keys[0]]
    else FirstValue(doc, keys[1..])
  }

  function FirstString(doc: Document, keys: seq<Key>): string {
    if keys == [] then ""
    else if keys[0] in doc && doc[keys[0]].Str? then TrimSpace(doc[keys[0]].s)
    else FirstString(doc, keys[1..])
  }

  /** strconv.ParseInt in base 10 with its error ignored: 0 for malformed text, clamped when out of range. */
  function ParseInt64(text: string): int {
    var signed := text != [] && (text[0] == '+' || text[0] == '-');
    var digits := if signed then text[1..] else text;
    if digits == [] || !Decimal.AllDigits(digits) then 0
    else
      var magnitude: int := Decimal.Value(digits);
      var n := if signed && text[0] == '-' then -magnitude else magnitude;
      if n > MAX_INT64 then MAX_INT64 else if n < MIN_INT64 then MIN_INT64 else n
  }

  function AsInt64(value: Value): int {
    match value
    case Num(n) => n
    case Str(s) => ParseInt64(TrimSpace(s))
    case _ => 0
  }

  function FirstInt64(doc: Document, keys: seq<Key>): int {
    if keys == [] then 0
    else if keys[0] in doc && AsInt64(doc[keys[0]]) != 0 then AsInt64(doc[keys[0]])
    else FirstInt64(doc, keys[1..])
  }

  /** Expiries below 10^10 are taken to be in seconds. */
  function NormalizeExpiry(expiry: int): int {
    if 0 < expiry < 10_000_000_000 then expiry * 1000 else expiry
  }

  /** strings.Fields: the maximal runs of non-blank characters. */
  function Fields(text: string): seq<string> {
    FieldsFrom(text, "")
  }

  function FieldsFrom(text: string, word: string): seq<string> {
    var flushed := if word == "" then [] else [word];
    if text == [] then flushed
    else if GoSpace(text[0]) then flushed + FieldsFrom(text[1..], "")
    else FieldsFrom(text[1..], word + [text[0]])
  }

  function Strings(items: seq<Value>): seq<string> {
    if items == [] then []
    else (if items[0].Str? then [items[0].s] else []) + Strings(items[1..])
  }

  function StringSlice(value: Value): seq<string> {
    match value
    case List(items) => Strings(items)
    case Str(s) => Fields(s)
    case _ => []
  }

  function StringList(items: seq<string>): Value {
    List(seq(|items|, i requires 0 <= i < |items| => Str(items[i])))
  }

  lemma {:induction false} StringListReadsBack(items: seq<string>)
    ensures StringSlice(StringList(items)) == items
  {
    if items != [] {
      StringListReadsBack(items[1..]);
      assert StringList(items).items[1..] == StringList(items[1..]).items;
    }
  }

  /** The part of the document that holds the OAuth fields: the nested object, or the document itself. */
  function OauthPart(doc: Document): Document {
    if HasNested(doc, ClaudeAiOauth) then doc[ClaudeAiOauth].entries else doc
  }

  function ApiKeyText(doc: Document): string {
    FirstString(Nested(doc, AnthropicApiKey), [ApiKeyKey, ApiKeySnake])
  }

  function StoredGeneration(doc: Document): int {
    var inner := FirstInt64(OauthPart(doc), GENERATION_KEYS);
    if inner == 0 then FirstInt64(doc, GENERATION_KEYS) else inner
  }

  /** The type recorded in the document, before an API key entry overrides it. */
  function RecordedKind(doc: Document): Kind {
    var outer := NormalizeType(FirstString(doc, [TypeKey]));
    var inner := FirstString(OauthPart(doc), [TypeKey]);
    if inner != "" && outer == OAuth then NormalizeType(inner) else outer
  }

  function OrElse(text: string, fallback: string): string { if text == "" then fallback else text }

  function ScopesOf(oauth: Document): Value { if Scopes in oauth then oauth[Scopes] else Null }

  /** What Load decodes from a document. */
  function Decode(doc: Document): Credential {
    var oauth := OauthPart(doc);
    var api := Nested(doc, AnthropicApiKey);
    var key := ApiKeyText(doc);
    var email := FirstString(oauth, EMAIL_KEYS);
    var scheme := FirstString(doc, SCHEME_KEYS);
    var keyed := if key == "" then scheme
                 else OrElse(scheme, FirstString(api, SCHEME_KEYS));
    Credential(
      KindText(if key == "" then RecordedKind(doc) else ApiKey),
      if key == "" then FirstString(oauth, ACCESS_KEYS) else key,
      FirstString(oauth, REFRESH_KEYS),
      NormalizeExpiry(AsInt64(FirstValue(oauth, EXPIRY_KEYS))),
      StoredGeneration(doc),
      if key == "" then email else OrElse(email, FirstString(api, [Email])),
      FirstString(oauth, ACCOUNT_KEYS),
      FirstString(oauth, ORG_KEYS),
      StringSlice(ScopesOf(oauth)),
      key,
      if key == "" then "" else FirstString(api, [BaseUrl, BaseUrlSnake]),
      OrElse(keyed, FirstString(oauth, SCHEME_KEYS)))
  }

  /** The generation given to a save: above the stored one and never behind the clock. */
  function NextGeneration(carried: int, stored: int, now: int): int {
    var bumped := if carried <= stored then Wrap64(stored + 1) else carried;
    if bumped < Millis(now) then Millis(now) else bumped
  }

  /** The credential with its type and scheme normalised and its generation assigned. */
  function Stamped(c: Credential, doc: Document, now: int): Credential {
    var kind := KindText(NormalizeType(c.kind));
    var stored := if IsApiKey(c) then FirstInt64(doc, GENERATION_KEYS)
                  else FirstInt64(Nested(doc, ClaudeAiOauth), GENERATION_KEYS);
    c.(kind := kind,
       authScheme := NormalizeAuthScheme(c.authScheme, kind),
       generation := NextGeneration(c.generation, stored, now))
  }

  /** What a save does to one entry of an object. */
  datatype Change = Keep | Drop | Put(value: Value)

  function PutText(text: string): Change { if text == "" then Keep else Put(Str(text)) }

  /** What a save of `c` does to the entry `key` of the nested OAuth object. */
  function ChangeAt(c: Credential, setup: bool, key: Key): Change {
    match key
    case AccessToken => Put(Str(c.accessToken))
    case RefreshToken => if c.refreshToken == "" && setup then Drop else PutText(c.refreshToken)
    case ExpiresAt => if c.expiresAt > 0 then Put(Num(c.expiresAt)) else Keep
    case KinGeneration => Put(Num(c.generation))
    case Email => PutText(c.email)
    case AccountUuid => PutText(c.accountUuid)
    case OrgUuid => PutText(c.orgUuid)
    case Scopes => if c.scopes == [] then Keep else Put(StringList(c.scopes))
    case TypeKey => if setup then Put(Str(KindText(SetupToken))) else Keep
    case _ => Keep
  }

  /** The entries of the nested object that a save owns. */
  const OWNED := {AccessToken, RefreshToken, ExpiresAt, KinGeneration, Email, AccountUuid, OrgUuid, Scopes, TypeKey}

  /** The nested OAuth object after a save. */
  function OauthEntries(c: Credential, setup: bool, prior: Document): Document {
    map key | key in prior.Keys + OWNED && (ChangeAt(c, setup, key).Put? || (ChangeAt(c, setup, key).Keep? && key in prior))
      :: if ChangeAt(c, setup, key).Put? then ChangeAt(c, setup, key).value else prior[key]
  }

  ghost predicate Changed(change: Change, prior: Document, after: Document, key: Key) {
    match change
    case Keep => (key in after <==> key in prior) && (key in after ==> after[key] == prior[key])
    case Drop => key !in after
    case Put(value) => key in after && after[key] == value
  }

  /** A save changes exactly the entries it owns; every other entry of the nested object is untouched. */
  lemma EntryAfterSave(c: Credential, setup: bool, prior: Document, key: Key)
    ensures Changed(ChangeAt(c, setup, key), prior, OauthEntries(c, setup, prior), key)
  {
  }

  /** The order in which a save writes the entries it owns; 9 for all others. */
  function Turn(key: Key): nat {
    match key
    case AccessToken => 0
    case RefreshToken => 1
    case ExpiresAt => 2
    case KinGeneration => 3
    case Email => 4
    case AccountUuid => 5
    case OrgUuid => 6
    case Scopes => 7
    case TypeKey => 8
    case _ => 9
  }

  /** The first `turn` owned entries have been written over `prior`, no other one yet. */
  ghost predicate Progress(c: Credential, setup: bool, prior: Document, o: Document, turn: nat) {
    forall key :: Reached(c, setup, prior, o, turn, key)
  }

  ghost predicate Reached(c: Credential, setup: bool, prior: Document, o: Document, turn: nat, key: Key) {
    Changed(if Turn(key) < turn then ChangeAt(c, setup, key) else Keep, prior, o, key)
  }

  lemma ProgressCompletes(c: Credential, setup: bool, prior: Document, o: Document)
    requires Progress(c, setup, prior, o, 9)
    ensures o == OauthEntries(c, setup, prior)
  {
    var want := OauthEntries(c, setup, prior);
    forall key ensures (key in o <==> key in want) && (key in o ==> o[key] == want[key]) {
      assert Reached(c, setup, prior, o, 9, key);
      EntryAfterSave(c, setup, prior, key);
    }
  }

  function ApiKeyEntries(c: Credential, prior: Document): Document {
    var api := prior[ApiKeyKey := Str(Token(c))];
    if c.baseUrl == "" then api else api[BaseUrl := Str(c.baseUrl)]
  }

  /** The document with its four top-level OAuth entries replaced. */
  function WithOauth(c: Credential, doc: Document, oauth: Document): Document {
    doc[TypeKey := Str(c.kind)][AuthSchemeKey := Str(c.authScheme)]
       [ClaudeAiOauth := Map(oauth)][KinGeneration := Num(c.generation)]
  }

  function WithApiKey(c: Credential, doc: Document, api: Document): Document {
    (doc[TypeKey := Str(c.kind)][AuthSchemeKey := Str(c.authScheme)]
        [AnthropicApiKey := Map(api)] - {ClaudeAiOauth})[KinGeneration := Num(c.generation)]
  }

  /** The document a save of the stamped credential writes. */
  function Encode(c: Credential, doc: Document): Document {
    if IsApiKey(c) then WithApiKey(c, doc, ApiKeyEntries(c, Nested(doc, AnthropicApiKey)))
    else WithOauth(c, doc, OauthEntries(c, NormalizeType(c.kind) == SetupToken, Nested(doc, ClaudeAiOauth)))
  }

  function Saved(c: Credential, doc: Document, now: int): Document {
    Encode(Stamped(c, doc, now), doc)
  }

  /** What is on disk at the credential path. */
  datatype File = Missing | Malformed | Stored(doc: Document)

  datatype Error = ReadFailed | DecodeFailed | TokenRequired | WriteFailed

  datatype Result<T> = Ok(value: T) | Err(error: Error)

  /** How the atomic replacement of the file may go: the directory or temp file fails
      before the rename, or the permission change fails after it. */
  datatype Write = Written | FailedBefore | FailedAfter

  class Store {
    var file: File

    constructor (file: File)
      ensures this.file == file
    {
      this.file := file;
    }

    method Load() returns (r: Result<(Credential, Document)>)
      ensures file.Missing? ==> r == Err(ReadFailed)
      ensures file.Malformed? ==> r == Err(DecodeFailed)
      ensures file.Stored? ==> r == Ok((Decode(file.doc), file.doc))
    {
      match file
      case Missing => r := Err(ReadFailed);
      case Malformed => r := Err(DecodeFailed);
      case Stored(doc) => r := Ok((Decode(doc), doc));
    }

    method Save(c: Credential, document: Document, now: int, write: Write) returns (r: Result<Credential>)
      modifies this
      ensures !Valid(c) ==> r == Err(TokenRequired)
      ensures Valid(c) && write.Written? ==> r == Ok(Stamped(c, document, now))
      ensures Valid(c) && !write.Written? ==> r == Err(WriteFailed)
      ensures file == if Valid(c) && !write.FailedBefore? then Stored(Saved(c, document, now)) else old(file)
    {
      if !Valid(c) {
        return Err(TokenRequired);
      }
      var credential := Stamp(c, document, now);
      var doc := Compose(credential, document);
      if write.FailedBefore? {
        return Err(WriteFailed);
      }
      file := Stored(doc);
      if write.FailedAfter? {
        return Err(WriteFailed);
      }
      r := Ok(credential);
    }

    static method Stamp(c: Credential, document: Document, now: int) returns (credential: Credential)
      ensures credential == Stamped(c, document, now)
    {
      credential := c.(kind := KindText(NormalizeType(c.kind)));
      credential := credential.(authScheme := NormalizeAuthScheme(credential.authScheme, credential.kind));
      var stored := FirstInt64(if IsApiKey(c) then document else Nested(document, ClaudeAiOauth), GENERATION_KEYS);
      if credential.generation <= stored {
        credential := credential.(generation := Wrap64(stored + 1));
      }
      if credential.generation < Millis(now) {
        credential := credential.(generation := Millis(now));
      }
    }

    /** The edits Save makes to the document, in order. */
    static method Compose(c: Credential, document: Document) returns (doc: Document)
      ensures doc == Encode(c, document)
    {
      doc := document[TypeKey := Str(c.kind)];
      doc := doc[AuthSchemeKey := Str(c.authScheme)];
      if IsApiKey(c) {
        var api := Nested(document, AnthropicApiKey);
        api := api[ApiKeyKey := Str(Token(c))];
        if c.baseUrl != "" {
          api := api[BaseUrl := Str(c.baseUrl)];
        }
        doc := doc[AnthropicApiKey := Map(api)];
        doc := doc - {ClaudeAiOauth};
      } else {
        var oauth := UpdateOauth(c, NormalizeType(c.kind) == SetupToken, Nested(document, ClaudeAiOauth));
        ProgressCompletes(c, NormalizeType(c.kind) == SetupToken, Nested(document, ClaudeAiOauth), oauth);
        doc := doc[ClaudeAiOauth := Map(oauth)];
      }
      doc := doc[KinGeneration := Num(c.generation)];
    }

    /** The updates Save makes to the nested OAuth object, in order. */
    static method UpdateOauth(c: Credential, setup: bool, prior: Document) returns (oauth: Document)
      ensures Progress(c, setup, prior, oauth, 9)
    {
      oauth := Edit(c, setup, prior, prior, AccessToken, Put(Str(c.accessToken)));
      oauth := Edit(c, setup, prior, oauth, RefreshToken,
                    if c.refreshToken != "" then Put(Str(c.refreshToken)) else if setup then Drop else Keep);
      oauth := Edit(c, setup, prior, oauth, ExpiresAt, if c.expiresAt > 0 then Put(Num(c.expiresAt)) else Keep);
      oauth := Edit(c, setup, prior, oauth, KinGeneration, Put(Num(c.generation)));
      oauth := UpdateIdentity(c, setup, prior, oauth);
    }

    static method UpdateIdentity(c: Credential, setup: bool, ghost prior: Document, tokens: Document) returns (oauth: Document)
      requires Progress(c, setup, prior, tokens, 4)
      ensures Progress(c, setup, prior, oauth, 9)
    {
      oauth := Edit(c, setup, prior, tokens, Email, PutText(c.email));
      oauth := Edit(c, setup, prior, oauth, AccountUuid, PutText(c.accountUuid));
      oauth := Edit(c, setup, prior, oauth, OrgUuid, PutText(c.orgUuid));
      oauth := Edit(c, setup, prior, oauth, Scopes, if c.scopes == [] then Keep else Put(StringList(c.scopes)));
      oauth := Edit(c, setup, prior, oauth, TypeKey, if setup then Put(Str(KindText(SetupToken))) else Keep);
    }

    static method Edit(ghost c: Credential, ghost setup: bool, ghost prior: Document, doc: Document, key: Key, change: Change)
      returns (after: Document)
      requires Turn(key) < 9 && change == ChangeAt(c, setup, key)
      requires Progress(c, setup, prior, doc, Turn(key))
      ensures Progress(c, setup, prior, after, Turn(key) + 1)
    {
      after := doc;
      if change.Put? {
        after := after[key := change.value];
      } else if change.Drop? {
        after := after - {key};
      }
      ghost var turn, next := Turn(key), Turn(key) + 1;
      forall other
        ensures Reached(c, setup, prior, after, next, other)
      {
        assert Reached(c, setup, prior, doc, turn, other);
      }
    }
  }
}
