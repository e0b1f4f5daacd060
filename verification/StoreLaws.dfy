/** Laws of loading and saving the credential document. */
module StoreLaws {
  import opened Text
  import opened Credentials
  import opened CredentialStore

  /** Two documents hold the same thing under the given keys. */
  ghost predicate AgreeOn(a: Document, b: Document, keys: seq<Key>) {
    forall i | 0 <= i < |keys| :: (keys[i] in a <==> keys[i] in b) && (keys[i] in a ==> a[keys[i]] == b[keys[i]])
  }

  lemma {:induction false} LookupsAgree(a: Document, b: Document, keys: seq<Key>)
    requires AgreeOn(a, b, keys)
    ensures FirstString(a, keys) == FirstString(b, keys)
    ensures FirstValue(a, keys) == FirstValue(b, keys)
    ensures FirstInt64(a, keys) == FirstInt64(b, keys)
  {
    if keys != [] {
      LookupsAgree(a, b, keys[1..]);
    }
  }

  /** The type left over in the nested object by an earlier save. */
  function LeftoverType(doc: Document): string {
    FirstString(Nested(doc, ClaudeAiOauth), [TypeKey])
  }

  function Overlaid(text: string, earlier: string): string {
    if text == "" then earlier else TrimSpace(text)
  }

  predicate Storable(c: Credential) { Valid(c) && !IsApiKey(c) }

  /** A text field reads as the saved text, or as before when the saved text is empty. */
  lemma TextAfterSave(prior: Document, o: Document, keys: seq<Key>, text: string)
    requires keys != [] && Changed(PutText(text), prior, o, keys[0])
    requires AgreeOn(prior, o, keys[1..])
    ensures FirstString(o, keys) == Overlaid(text, FirstString(prior, keys))
  {
    if text == "" { LookupsAgree(o, prior, keys); }
  }

  ghost predicate OwnedChanged(c: Credential, setup: bool, prior: Document, o: Document, keys: set<Key>) {
    forall key | key in keys :: Changed(ChangeAt(c, setup, key), prior, o, key)
  }

  lemma EntriesAfterSave(c: Credential, setup: bool, prior: Document, keys: set<Key>)
    ensures OwnedChanged(c, setup, prior, OauthEntries(c, setup, prior), keys)
  {
    forall key | key in keys
      ensures Changed(ChangeAt(c, setup, key), prior, OauthEntries(c, setup, prior), key)
    {
      EntryAfterSave(c, setup, prior, key);
    }
  }

  lemma RefreshTokenAfterSave(c: Credential, setup: bool, prior: Document, o: Document)
    requires OwnedChanged(c, setup, prior, o, {RefreshToken, RefreshTokenSnake})
    ensures FirstString(o, REFRESH_KEYS)
            == Overlaid(c.refreshToken,
                        FirstString(if setup then prior - {RefreshToken} else prior, REFRESH_KEYS))
  {
    assert Changed(ChangeAt(c, setup, RefreshToken), prior, o, RefreshToken);
    if c.refreshToken == "" {
      LookupsAgree(o, if setup then prior - {RefreshToken} else prior, REFRESH_KEYS);
    }
  }

  lemma ExpiryAfterSave(c: Credential, setup: bool, prior: Document, o: Document)
    requires OwnedChanged(c, setup, prior, o, {ExpiresAt, ExpiresAtSnake})
    ensures FirstValue(o, EXPIRY_KEYS) == if c.expiresAt > 0 then Num(c.expiresAt) else FirstValue(prior, EXPIRY_KEYS)
  {
    assert Changed(ChangeAt(c, setup, ExpiresAt), prior, o, ExpiresAt);
    if c.expiresAt <= 0 { LookupsAgree(o, prior, EXPIRY_KEYS); }
  }

  lemma TypeAfterSave(c: Credential, setup: bool, prior: Document, o: Document)
    requires OwnedChanged(c, setup, prior, o, {TypeKey})
    ensures FirstString(o, [TypeKey]) == if setup then "setup-token" else FirstString(prior, [TypeKey])
  {
    assert Changed(ChangeAt(c, setup, TypeKey), prior, o, TypeKey);
    if setup { TrimKeepsTrimmed("setup-token", GoSpace); } else { LookupsAgree(o, prior, [TypeKey]); }
  }

  lemma ScopesAfterSave(c: Credential, setup: bool, prior: Document, o: Document)
    requires OwnedChanged(c, setup, prior, o, {AccountUuid, AccountUuidSnake, Scopes})
    ensures StringSlice(ScopesOf(o)) == if c.scopes == [] then StringSlice(ScopesOf(prior)) else c.scopes
  {
    assert Changed(ChangeAt(c, setup, Scopes), prior, o, Scopes);
    if c.scopes != [] { StringListReadsBack(c.scopes); }
  }

  predicate IsSetup(c: Credential) { NormalizeType(c.kind) == SetupToken }

  /** `o` is the nested object and `d` the document after saving `s` over `doc`: four owned
      top-level entries, every other entry as before. */
  ghost predicate SavedAs(s: Credential, setup: bool, doc: Document, d: Document, o: Document) {
    && HasNested(d, ClaudeAiOauth) && d[ClaudeAiOauth].entries == o
    && TypeKey in d && d[TypeKey] == Str(s.kind)
    && AuthSchemeKey in d && d[AuthSchemeKey] == Str(s.authScheme)
    && KinGeneration in d && d[KinGeneration] == Num(s.generation)
    && forall key | key !in {TypeKey, AuthSchemeKey, ClaudeAiOauth, KinGeneration} ::
         (key in d <==> key in doc) && (key in d ==> d[key] == doc[key])
  }

  lemma EncodedShape(s: Credential, setup: bool, doc: Document, o: Document)
    ensures SavedAs(s, setup, doc, WithOauth(s, doc, o), o)
  {
  }

  lemma StampedShape(c: Credential, doc: Document, now: int)
    ensures var s := Stamped(c, doc, now);
            && NormalizeType(s.kind) == NormalizeType(c.kind) && s.kind == KindText(NormalizeType(c.kind))
            && (s.authScheme == BEARER || s.authScheme == X_API_KEY)
  {
    KindTextReadsBack(NormalizeType(c.kind));
  }

  lemma NoApiKeyAfterSave(s: Credential, setup: bool, doc: Document, d: Document, o: Document)
    requires SavedAs(s, setup, doc, d, o)
    ensures ApiKeyText(d) == ApiKeyText(doc)
  {
    assert AnthropicApiKey !in {TypeKey, AuthSchemeKey, ClaudeAiOauth, KinGeneration};
    assert Nested(d, AnthropicApiKey) == Nested(doc, AnthropicApiKey);
  }

  /** Load after Save, token fields. A setup token saved without a refresh token keeps only
      what the snake_case alias of the earlier document holds. */
  lemma TokensAfterSave(s: Credential, setup: bool, doc: Document, d: Document, o: Document)
    requires SavedAs(s, setup, doc, d, o) && ApiKeyText(doc) == ""
    requires OwnedChanged(s, setup, Nested(doc, ClaudeAiOauth), o, {AccessToken, RefreshToken, RefreshTokenSnake})
    ensures Decode(d).accessToken == TrimSpace(s.accessToken)
    ensures Decode(d).refreshToken == Overlaid(s.refreshToken, KeptRefreshToken(setup, doc))
    ensures Decode(d).apiKey == "" && Decode(d).baseUrl == ""
  {
    var prior := Nested(doc, ClaudeAiOauth);
    NoApiKeyAfterSave(s, setup, doc, d, o);
    RefreshTokenAfterSave(s, setup, prior, o);
    assert Changed(ChangeAt(s, setup, AccessToken), prior, o, AccessToken);
  }

  function KeptRefreshToken(setup: bool, doc: Document): string {
    var prior := Nested(doc, ClaudeAiOauth);
    FirstString(if setup then prior - {RefreshToken} else prior, REFRESH_KEYS)
  }

  /** Load after Save, expiry: seconds are taken for milliseconds, and no expiry keeps the earlier one. */
  lemma LoadedExpiry(s: Credential, setup: bool, doc: Document, d: Document, o: Document)
    requires SavedAs(s, setup, doc, d, o)
    requires OwnedChanged(s, setup, Nested(doc, ClaudeAiOauth), o, {ExpiresAt, ExpiresAtSnake})
    ensures Decode(d).expiresAt
            == NormalizeExpiry(if s.expiresAt > 0 then s.expiresAt
                               else AsInt64(FirstValue(Nested(doc, ClaudeAiOauth), EXPIRY_KEYS)))
  {
    ExpiryAfterSave(s, setup, Nested(doc, ClaudeAiOauth), o);
  }

  /** Load after Save, generation. */
  lemma LoadedGeneration(s: Credential, setup: bool, doc: Document, d: Document, o: Document)
    requires SavedAs(s, setup, doc, d, o) && s.generation != 0
    requires OwnedChanged(s, setup, Nested(doc, ClaudeAiOauth), o, {KinGeneration})
    ensures Decode(d).generation == s.generation
  {
    assert Changed(ChangeAt(s, setup, KinGeneration), Nested(doc, ClaudeAiOauth), o, KinGeneration);
    assert FirstInt64(o, GENERATION_KEYS) == s.generation;
  }

  /** Load after Save, identity. */
  lemma IdentityAfterSave(s: Credential, setup: bool, doc: Document, d: Document, o: Document)
    requires SavedAs(s, setup, doc, d, o) && ApiKeyText(doc) == ""
    requires OwnedChanged(s, setup, Nested(doc, ClaudeAiOauth), o, {Email, EmailAddress, EmailAddressSnake})
    requires OwnedChanged(s, setup, Nested(doc, ClaudeAiOauth), o, {AccountUuid, AccountUuidSnake, Scopes})
    requires OwnedChanged(s, setup, Nested(doc, ClaudeAiOauth), o, {OrgUuid, OrgUuidSnake, OrganizationUuid})
    ensures Decode(d).email == Overlaid(s.email, FirstString(Nested(doc, ClaudeAiOauth), EMAIL_KEYS))
    ensures Decode(d).accountUuid == Overlaid(s.accountUuid, FirstString(Nested(doc, ClaudeAiOauth), ACCOUNT_KEYS))
    ensures Decode(d).orgUuid == Overlaid(s.orgUuid, FirstString(Nested(doc, ClaudeAiOauth), ORG_KEYS))
    ensures Decode(d).scopes == if s.scopes == [] then StringSlice(ScopesOf(Nested(doc, ClaudeAiOauth))) else s.scopes
  {
    var prior := Nested(doc, ClaudeAiOauth);
    NoApiKeyAfterSave(s, setup, doc, d, o);
    EmailsAfterSave(s, setup, prior, o);
    AccountsAfterSave(s, setup, prior, o);
    OrgsAfterSave(s, setup, prior, o);
    ScopesAfterSave(s, setup, prior, o);
  }

  lemma EmailsAfterSave(s: Credential, setup: bool, prior: Document, o: Document)
    requires OwnedChanged(s, setup, prior, o, {Email, EmailAddress, EmailAddressSnake})
    ensures FirstString(o, EMAIL_KEYS) == Overlaid(s.email, FirstString(prior, EMAIL_KEYS))
  {
    assert Changed(ChangeAt(s, setup, Email), prior, o, Email);
    assert Changed(ChangeAt(s, setup, EmailAddress), prior, o, EmailAddress);
    assert Changed(ChangeAt(s, setup, EmailAddressSnake), prior, o, EmailAddressSnake);
    TextAfterSave(prior, o, EMAIL_KEYS, s.email);
  }

  lemma AccountsAfterSave(s: Credential, setup: bool, prior: Document, o: Document)
    requires OwnedChanged(s, setup, prior, o, {AccountUuid, AccountUuidSnake, Scopes})
    ensures FirstString(o, ACCOUNT_KEYS) == Overlaid(s.accountUuid, FirstString(prior, ACCOUNT_KEYS))
  {
    assert Changed(ChangeAt(s, setup, AccountUuid), prior, o, AccountUuid);
    assert Changed(ChangeAt(s, setup, AccountUuidSnake), prior, o, AccountUuidSnake);
    TextAfterSave(prior, o, ACCOUNT_KEYS, s.accountUuid);
  }

  lemma OrgsAfterSave(s: Credential, setup: bool, prior: Document, o: Document)
    requires OwnedChanged(s, setup, prior, o, {OrgUuid, OrgUuidSnake, OrganizationUuid})
    ensures FirstString(o, ORG_KEYS) == Overlaid(s.orgUuid, FirstString(prior, ORG_KEYS))
  {
    assert Changed(ChangeAt(s, setup, OrgUuid), prior, o, OrgUuid);
    assert Changed(ChangeAt(s, setup, OrgUuidSnake), prior, o, OrgUuidSnake);
    assert Changed(ChangeAt(s, setup, OrganizationUuid), prior, o, OrganizationUuid);
    TextAfterSave(prior, o, ORG_KEYS, s.orgUuid);
  }

  /** Load after Save, type: the nested object's leftover type wins over a saved `oauth`. */
  lemma LoadedKind(s: Credential, kind: Kind, doc: Document, d: Document, o: Document)
    requires SavedAs(s, kind == SetupToken, doc, d, o) && s.kind == KindText(kind)
    requires OwnedChanged(s, kind == SetupToken, Nested(doc, ClaudeAiOauth), o, {TypeKey})
    ensures RecordedKind(d)
            == if kind == OAuth && LeftoverType(doc) != "" then NormalizeType(LeftoverType(doc)) else kind
  {
    TypeAfterSave(s, kind == SetupToken, Nested(doc, ClaudeAiOauth), o);
    TrimKeepsTrimmed(s.kind, GoSpace);
    assert FirstString(d, [TypeKey]) == s.kind;
    KindTextReadsBack(kind);
  }

  lemma LoadedScheme(s: Credential, setup: bool, doc: Document, d: Document, o: Document)
    requires SavedAs(s, setup, doc, d, o) && (s.authScheme == BEARER || s.authScheme == X_API_KEY)
    ensures Decode(d).authScheme == s.authScheme
  {
    TrimKeepsTrimmed(s.authScheme, GoSpace);
    assert FirstString(d, SCHEME_KEYS) == s.authScheme;
  }

  /** What Load returns after `s` was saved over `doc`: every field of `s`, trimmed, and for
      each empty one what the earlier nested object held. */
  function Reloaded(s: Credential, doc: Document): Credential {
    var prior := Nested(doc, ClaudeAiOauth);
    var kind := NormalizeType(s.kind);
    Credential(
      KindText(if kind == OAuth && LeftoverType(doc) != "" then NormalizeType(LeftoverType(doc)) else kind),
      TrimSpace(s.accessToken),
      Overlaid(s.refreshToken, KeptRefreshToken(kind == SetupToken, doc)),
      NormalizeExpiry(if s.expiresAt > 0 then s.expiresAt else AsInt64(FirstValue(prior, EXPIRY_KEYS))),
      s.generation,
      Overlaid(s.email, FirstString(prior, EMAIL_KEYS)),
      Overlaid(s.accountUuid, FirstString(prior, ACCOUNT_KEYS)),
      Overlaid(s.orgUuid, FirstString(prior, ORG_KEYS)),
      if s.scopes == [] then StringSlice(ScopesOf(prior)) else s.scopes,
      "", "", s.authScheme)
  }

  /** Load after Save, for every OAuth or setup-token credential and every document without an API key. */
  lemma LoadAfterSave(c: Credential, doc: Document, now: int)
    requires Storable(c) && ApiKeyText(doc) == "" && Stamped(c, doc, now).generation != 0
    ensures Decode(Saved(c, doc, now)) == Reloaded(Stamped(c, doc, now), doc)
  {
    var s := Stamped(c, doc, now);
    StampedShape(c, doc, now);
    LoadAfterEncode(s, NormalizeType(s.kind), doc);
  }

  lemma LoadAfterEncode(s: Credential, kind: Kind, doc: Document)
    requires kind == NormalizeType(s.kind) && kind != ApiKey && s.kind == KindText(kind)
    requires ApiKeyText(doc) == "" && s.generation != 0 && (s.authScheme == BEARER || s.authScheme == X_API_KEY)
    ensures Decode(Encode(s, doc)) == Reloaded(s, doc)
  {
    var setup, prior := kind == SetupToken, Nested(doc, ClaudeAiOauth);
    var o := OauthEntries(s, setup, prior);
    var d := WithOauth(s, doc, o);
    EncodedShape(s, setup, doc, o);
    EntriesAfterSave(s, setup, prior, {AccessToken, RefreshToken, RefreshTokenSnake});
    EntriesAfterSave(s, setup, prior, {ExpiresAt, ExpiresAtSnake});
    EntriesAfterSave(s, setup, prior, {KinGeneration});
    EntriesAfterSave(s, setup, prior, {Email, EmailAddress, EmailAddressSnake});
    EntriesAfterSave(s, setup, prior, {AccountUuid, AccountUuidSnake, Scopes});
    EntriesAfterSave(s, setup, prior, {OrgUuid, OrgUuidSnake, OrganizationUuid});
    EntriesAfterSave(s, setup, prior, {TypeKey});
    FieldsAfterSave(s, kind, doc, d, o);
  }

  lemma FieldsAfterSave(s: Credential, kind: Kind, doc: Document, d: Document, o: Document)
    requires kind == NormalizeType(s.kind) && s.kind == KindText(kind) && SavedAs(s, kind == SetupToken, doc, d, o)
    requires ApiKeyText(doc) == "" && s.generation != 0 && (s.authScheme == BEARER || s.authScheme == X_API_KEY)
    requires var prior := Nested(doc, ClaudeAiOauth);
             && OwnedChanged(s, kind == SetupToken, prior, o, {AccessToken, RefreshToken, RefreshTokenSnake})
             && OwnedChanged(s, kind == SetupToken, prior, o, {ExpiresAt, ExpiresAtSnake})
             && OwnedChanged(s, kind == SetupToken, prior, o, {KinGeneration})
             && OwnedChanged(s, kind == SetupToken, prior, o, {Email, EmailAddress, EmailAddressSnake})
             && OwnedChanged(s, kind == SetupToken, prior, o, {AccountUuid, AccountUuidSnake, Scopes})
             && OwnedChanged(s, kind == SetupToken, prior, o, {OrgUuid, OrgUuidSnake, OrganizationUuid})
             && OwnedChanged(s, kind == SetupToken, prior, o, {TypeKey})
    ensures Decode(d) == Reloaded(s, doc)
  {
    var setup := kind == SetupToken;
    NoApiKeyAfterSave(s, setup, doc, d, o);
    TokensAfterSave(s, setup, doc, d, o);
    LoadedExpiry(s, setup, doc, d, o);
    LoadedGeneration(s, setup, doc, d, o);
    IdentityAfterSave(s, setup, doc, d, o);
    LoadedKind(s, kind, doc, d, o);
    LoadedScheme(s, setup, doc, d, o);
  }

  /** The texts of a credential are trimmed, as Load itself leaves them. */
  predicate TrimmedTexts(c: Credential) {
    && Trimmed(c.accessToken, GoSpace) && Trimmed(c.refreshToken, GoSpace) && Trimmed(c.email, GoSpace)
    && Trimmed(c.accountUuid, GoSpace) && Trimmed(c.orgUuid, GoSpace)
  }

  /** The earlier nested object contributes nothing to a save of `c`. */
  predicate NothingKept(c: Credential, doc: Document) {
    var prior := Nested(doc, ClaudeAiOauth);
    && (c.refreshToken != "" || KeptRefreshToken(IsSetup(c), doc) == "")
    && (c.expiresAt > 0 || AsInt64(FirstValue(prior, EXPIRY_KEYS)) == 0)
    && (c.email != "" || FirstString(prior, EMAIL_KEYS) == "")
    && (c.accountUuid != "" || FirstString(prior, ACCOUNT_KEYS) == "")
    && (c.orgUuid != "" || FirstString(prior, ORG_KEYS) == "")
    && (c.scopes != [] || StringSlice(ScopesOf(prior)) == [])
  }

  /** Load returns exactly what Save reported. */
  lemma RoundTrip(c: Credential, doc: Document, now: int)
    requires Storable(c) && ApiKeyText(doc) == "" && Stamped(c, doc, now).generation != 0
    requires TrimmedTexts(c) && (c.expiresAt == 0 || c.expiresAt >= 10_000_000_000)
    requires c.apiKey == "" && c.baseUrl == "" && NothingKept(c, doc)
    requires IsSetup(c) || LeftoverType(doc) == ""
    ensures Decode(Saved(c, doc, now)) == Stamped(c, doc, now)
  {
    var s := Stamped(c, doc, now);
    LoadAfterSave(c, doc, now);
    StampedShape(c, doc, now);
    TrimKeepsTrimmed(c.accessToken, GoSpace);
    TrimKeepsTrimmed(c.refreshToken, GoSpace);
    TrimKeepsTrimmed(c.email, GoSpace);
    TrimKeepsTrimmed(c.accountUuid, GoSpace);
    TrimKeepsTrimmed(c.orgUuid, GoSpace);
    assert Reloaded(s, doc) == s;
  }

  /** Exactly when the type survives: no API key is left in the document, and no leftover nested
      type contradicts a saved `oauth`. */
  lemma KindSurvives(c: Credential, doc: Document, now: int)
    requires Storable(c)
    ensures Decode(Saved(c, doc, now)).kind == KindText(NormalizeType(c.kind))
            <==> ApiKeyText(doc) == ""
                 && (IsSetup(c) || LeftoverType(doc) == "" || NormalizeType(LeftoverType(doc)) == OAuth)
  {
    var s := Stamped(c, doc, now);
    var kind, setup, prior := NormalizeType(c.kind), IsSetup(c), Nested(doc, ClaudeAiOauth);
    StampedShape(c, doc, now);
    var o := OauthEntries(s, setup, prior);
    EncodedShape(s, setup, doc, o);
    EntriesAfterSave(s, setup, prior, {TypeKey});
    KindOfLoaded(s, kind, doc, WithOauth(s, doc, o), o);
  }

  lemma KindOfLoaded(s: Credential, kind: Kind, doc: Document, d: Document, o: Document)
    requires SavedAs(s, kind == SetupToken, doc, d, o) && s.kind == KindText(kind) && kind != ApiKey
    requires OwnedChanged(s, kind == SetupToken, Nested(doc, ClaudeAiOauth), o, {TypeKey})
    ensures Decode(d).kind == KindText(kind)
            <==> ApiKeyText(doc) == ""
                 && (kind == SetupToken || LeftoverType(doc) == "" || NormalizeType(LeftoverType(doc)) == OAuth)
  {
    NoApiKeyAfterSave(s, kind == SetupToken, doc, d, o);
    LoadedKind(s, kind, doc, d, o);
    KindTextReadsBack(kind);
    KindTextReadsBack(RecordedKind(d));
    KindTextReadsBack(ApiKey);
  }

  /** A setup token saved without a refresh token drops the stored one exactly when no
      snake_case alias is left. */
  lemma SetupTokenDropsRefresh(c: Credential, doc: Document, now: int)
    requires Storable(c) && IsSetup(c) && c.refreshToken == ""
    ensures Decode(Saved(c, doc, now)).refreshToken == ""
            <==> FirstString(Nested(doc, ClaudeAiOauth), [RefreshTokenSnake]) == ""
  {
    var s, prior := Stamped(c, doc, now), Nested(doc, ClaudeAiOauth);
    StampedShape(c, doc, now);
    var o := OauthEntries(s, true, prior);
    EncodedShape(s, true, doc, o);
    EntriesAfterSave(s, true, prior, {AccessToken, RefreshToken, RefreshTokenSnake});
    RefreshTokenAfterSave(s, true, prior, o);
    LookupsAgree(prior - {RefreshToken}, prior, [RefreshTokenSnake]);
    assert REFRESH_KEYS[1..] == [RefreshTokenSnake];
    assert KeptRefreshToken(true, doc) == FirstString(prior - {RefreshToken}, REFRESH_KEYS[1..]);
  }

  /** Saving an API key: Load returns it as such whatever the document held. */
  lemma ApiKeyAfterSave(c: Credential, doc: Document, now: int)
    requires Valid(c) && IsApiKey(c) && Stamped(c, doc, now).generation != 0
    ensures var after := Decode(Saved(c, doc, now));
            && after.kind == KindText(ApiKey) && after.apiKey == Token(c) && after.accessToken == Token(c)
            && after.generation == Stamped(c, doc, now).generation
            && !HasNested(Saved(c, doc, now), ClaudeAiOauth)
  {
    var s := Stamped(c, doc, now);
    StampedShape(c, doc, now);
    var api := ApiKeyEntries(s, Nested(doc, AnthropicApiKey));
    assert Token(s) == Token(c);
    ApiKeyEncoded(s, doc, api);
  }

  lemma ApiKeyEncoded(s: Credential, doc: Document, api: Document)
    requires s.generation != 0 && Valid(s) && ApiKeyKey in api && api[ApiKeyKey] == Str(Token(s))
    ensures var d := WithApiKey(s, doc, api);
            && Decode(d).kind == KindText(ApiKey) && Decode(d).apiKey == Token(s) && Decode(d).accessToken == Token(s)
            && StoredGeneration(d) == s.generation && !HasNested(d, ClaudeAiOauth)
  {
    var d := WithApiKey(s, doc, api);
    TrimTrims(s.apiKey, GoSpace);
    TrimTrims(s.accessToken, GoSpace);
    assert Nested(d, AnthropicApiKey) == api;
    assert FirstString(api, [ApiKeyKey, ApiKeySnake]) == Token(s);
    assert FirstInt64(d, GENERATION_KEYS) == s.generation;
  }

  /** The document keeps its generation where a save of this kind looks for it. */
  predicate Anchored(doc: Document, api: bool) {
    && HasNested(doc, ClaudeAiOauth) == !api
    && FirstInt64(OauthPart(doc), GENERATION_KEYS) > 0
  }

  /** The assigned generation passes the stored one exactly when the 64-bit increment does not wrap. */
  lemma GenerationPasses(carried: int, stored: int, now: int)
    requires MIN_INT64 <= carried <= MAX_INT64 && MIN_INT64 <= stored <= MAX_INT64 && Millis(now) <= MAX_INT64
    ensures NextGeneration(carried, stored, now) > stored <==> stored < MAX_INT64
    ensures NextGeneration(carried, stored, now) >= Millis(now)
  {
  }

  lemma StampedGeneration(c: Credential, doc: Document, now: int)
    requires Anchored(doc, IsApiKey(c)) && StoredGeneration(doc) < MAX_INT64
    ensures Stamped(c, doc, now).generation > StoredGeneration(doc) > 0
    ensures Stamped(c, doc, now).generation >= Millis(now)
  {
    assert StoredGeneration(doc) == FirstInt64(OauthPart(doc), GENERATION_KEYS);
  }

  /** One save over an anchored document: the stored generation grows and is not behind the clock. */
  lemma GenerationGrows(c: Credential, doc: Document, now: int)
    requires Anchored(doc, IsApiKey(c)) && StoredGeneration(doc) < MAX_INT64
    ensures Anchored(Saved(c, doc, now), IsApiKey(c))
    ensures StoredGeneration(Saved(c, doc, now)) > StoredGeneration(doc)
    ensures StoredGeneration(Saved(c, doc, now)) >= Millis(now)
  {
    var s := Stamped(c, doc, now);
    StampedShape(c, doc, now);
    StampedGeneration(c, doc, now);
    GenerationEncoded(s, doc);
  }

  /** Whatever the document was, a save leaves its generation where the next save of the kind looks for it. */
  lemma SavedIsAnchored(c: Credential, doc: Document, now: int)
    requires Stamped(c, doc, now).generation > 0
    ensures Anchored(Saved(c, doc, now), IsApiKey(c))
    ensures StoredGeneration(Saved(c, doc, now)) == Stamped(c, doc, now).generation
  {
    StampedShape(c, doc, now);
    GenerationEncoded(Stamped(c, doc, now), doc);
  }

  lemma GenerationEncoded(s: Credential, doc: Document)
    requires s.generation > 0
    ensures Anchored(Encode(s, doc), IsApiKey(s)) && StoredGeneration(Encode(s, doc)) == s.generation
  {
    if IsApiKey(s) {
      GenerationKeptFlat(s, doc, ApiKeyEntries(s, Nested(doc, AnthropicApiKey)));
    } else {
      var o := OauthEntries(s, IsSetup(s), Nested(doc, ClaudeAiOauth));
      EntryAfterSave(s, IsSetup(s), Nested(doc, ClaudeAiOauth), KinGeneration);
      GenerationKeptNested(s, doc, o);
    }
  }

  lemma GenerationKeptFlat(s: Credential, doc: Document, api: Document)
    requires s.generation > 0
    ensures var d := WithApiKey(s, doc, api); Anchored(d, true) && StoredGeneration(d) == s.generation
  {
    var d := WithApiKey(s, doc, api);
    assert FirstInt64(d, GENERATION_KEYS) == s.generation;
  }

  lemma GenerationKeptNested(s: Credential, doc: Document, o: Document)
    requires s.generation > 0 && KinGeneration in o && o[KinGeneration] == Num(s.generation)
    ensures var d := WithOauth(s, doc, o); Anchored(d, false) && StoredGeneration(d) == s.generation
  {
    assert FirstInt64(o, GENERATION_KEYS) == s.generation;
  }

  /** A run of saves of one credential kind over one document; the 64-bit generation does not reach its limit. */
  ghost predicate SaveRun(docs: seq<Document>, saves: seq<(Credential, int)>, api: bool) {
    && |docs| == |saves| + 1
    && Anchored(docs[0], api)
    && forall i {:trigger saves[i]} | 0 <= i < |saves| ::
         IsApiKey(saves[i].0) == api && docs[i + 1] == Saved(saves[i].0, docs[i], saves[i].1)
         && StoredGeneration(docs[i]) < MAX_INT64
  }

  /** One step of a chain of stored generations: kept anchored, growing, not behind the clock. */
  predicate Grows(before: (bool, int), after: (bool, int), millis: int) {
    before.0 ==> after.0 && before.1 < after.1 && millis <= after.1
  }

  lemma {:induction false} ChainGrows(chain: seq<(bool, int)>, millis: seq<int>, i: nat, j: nat)
    requires |chain| == |millis| + 1 && chain[0].0 && i < j < |chain|
    requires forall k {:trigger millis[k]} | 0 <= k < |millis| :: Grows(chain[k], chain[k + 1], millis[k])
    ensures chain[i].0 && chain[j].0 && chain[i].1 < chain[j].1 && millis[j - 1] <= chain[j].1
    decreases j
  {
    assert Grows(chain[j - 1], chain[j], millis[j - 1]);
    if i + 1 < j {
      ChainGrows(chain, millis, i, j - 1);
    } else if i > 0 {
      ChainGrows(chain, millis, i - 1, i);
    }
  }

  /** Where a document stands in such a chain. */
  function Standing(doc: Document, api: bool): (bool, int) { (Anchored(doc, api), StoredGeneration(doc)) }

  lemma SaveGrows(c: Credential, before: Document, after: Document, now: int, api: bool)
    requires IsApiKey(c) == api && after == Saved(c, before, now) && StoredGeneration(before) < MAX_INT64
    ensures Grows(Standing(before, api), Standing(after, api), Millis(now))
  {
    if Anchored(before, api) {
      GenerationGrows(c, before, now);
    }
  }

  lemma StepsGrow(docs: seq<Document>, saves: seq<(Credential, int)>, api: bool)
    requires SaveRun(docs, saves, api)
    ensures forall k {:trigger saves[k]} | 0 <= k < |saves| ::
              Grows(Standing(docs[k], api), Standing(docs[k + 1], api), Millis(saves[k].1))
  {
    forall k {:trigger saves[k]} | 0 <= k < |saves|
      ensures Grows(Standing(docs[k], api), Standing(docs[k + 1], api), Millis(saves[k].1))
    {
      SaveGrows(saves[k].0, docs[k], docs[k + 1], saves[k].1, api);
    }
  }

  lemma StandingsGrow(docs: seq<Document>, saves: seq<(Credential, int)>, api: bool, i: nat, j: nat)
    requires |docs| == |saves| + 1 && Standing(docs[0], api).0 && i < j < |docs|
    requires forall k {:trigger saves[k]} | 0 <= k < |saves| ::
               Grows(Standing(docs[k], api), Standing(docs[k + 1], api), Millis(saves[k].1))
    ensures Standing(docs[j], api).0 && Standing(docs[i], api).1 < Standing(docs[j], api).1
    ensures Millis(saves[j - 1].1) <= Standing(docs[j], api).1
  {
    var chain := seq(|docs|, k requires 0 <= k < |docs| => Standing(docs[k], api));
    var millis := seq(|saves|, k requires 0 <= k < |saves| => Millis(saves[k].1));
    ChainGrows(chain, millis, i, j);
  }

  /** Over every run of saves, whatever the clock does, the stored generation strictly
      increases and never trails the clock. */
  lemma GenerationsIncrease(docs: seq<Document>, saves: seq<(Credential, int)>, api: bool, i: nat, j: nat)
    requires SaveRun(docs, saves, api) && i < j < |docs|
    ensures Anchored(docs[j], api)
    ensures StoredGeneration(docs[i]) < StoredGeneration(docs[j])
    ensures Millis(saves[j - 1].1) <= StoredGeneration(docs[j])
  {
    StepsGrow(docs, saves, api);
    StandingsGrow(docs, saves, api, i, j);
  }

  /** A credential that was stored with an expiry is not due for refresh before that expiry nears. */
  lemma FreshAfterSave(c: Credential, doc: Document, now: int, later: int, skew: int)
    requires Storable(c) && c.expiresAt > 0
    ensures NeedsRefresh(Decode(Saved(c, doc, now)), later, skew) ==> Expiring(c.expiresAt, later, skew)
  {
    var s, prior := Stamped(c, doc, now), Nested(doc, ClaudeAiOauth);
    StampedShape(c, doc, now);
    var o := OauthEntries(s, IsSetup(s), prior);
    EncodedShape(s, IsSetup(s), doc, o);
    EntriesAfterSave(s, IsSetup(s), prior, {AccessToken, RefreshToken, RefreshTokenSnake});
    EntriesAfterSave(s, IsSetup(s), prior, {ExpiresAt, ExpiresAtSnake});
    FreshAfterEncode(s, IsSetup(s), doc, WithOauth(s, doc, o), o, later, skew);
  }

  lemma FreshAfterEncode(s: Credential, setup: bool, doc: Document, d: Document, o: Document, later: int, skew: int)
    requires SavedAs(s, setup, doc, d, o) && s.expiresAt > 0 && TrimSpace(s.accessToken) != ""
    requires OwnedChanged(s, setup, Nested(doc, ClaudeAiOauth), o, {AccessToken, RefreshToken, RefreshTokenSnake})
    requires OwnedChanged(s, setup, Nested(doc, ClaudeAiOauth), o, {ExpiresAt, ExpiresAtSnake})
    ensures NeedsRefresh(Decode(d), later, skew) ==> Expiring(s.expiresAt, later, skew)
  {
    NoApiKeyAfterSave(s, setup, doc, d, o);
    if ApiKeyText(doc) == "" {
      TokensAfterSave(s, setup, doc, d, o);
      LoadedExpiry(s, setup, doc, d, o);
      TrimTrims(s.accessToken, GoSpace);
      DueOnlyWhenExpiring(Decode(d), s.expiresAt, later, skew);
    } else {
      KindTextReadsBack(ApiKey);
    }
  }

  lemma DueOnlyWhenExpiring(c: Credential, stored: int, later: int, skew: int)
    requires c.apiKey == "" && TrimSpace(c.accessToken) != "" && stored > 0 && c.expiresAt == NormalizeExpiry(stored)
    ensures NeedsRefresh(c, later, skew) ==> Expiring(stored, later, skew)
  {
    assert TrimSpace("") == "";
  }
}
