/** libs/api_key_auth.py: `ApiKeyAuthorizationServerProvider`, the OAuth 2.0
    authorization-code and refresh-token provider (sections 4.1 and 6 of RFC 6749)
    whose clients are rows of the API-key table.

    The table is the `records` field of a `KeyStore`; `authorize` rewrites the
    `description` of the client's row, every other operation only reads it. The fresh
    code from `secrets.token_urlsafe(16)` and the clock are parameters. */
module ApiKeyAuth {
  import opened Text
  import opened Values

  /** The `description` column as `json.loads` reads it. */
  datatype Description =
    | NoDescription    // NULL: `json.loads(None)` raises `TypeError`
    | NotJson          // text that is not a JSON document
    | Json(doc: Value)

  /** A row of the API-key table. */
  datatype KeyRecord = KeyRecord(id: int, name: string, description: Description, apiKey: string, hashKey: string,
                                 source: Option<string>)

  /** The parts of `OAuthClientInformationFull` the provider reads; `info` is its
      `model_dump(exclude_none=True)`. */
  datatype Client = Client(clientId: string, scope: Option<string>, redirectUris: Option<seq<string>>, info: Value)

  /** `AuthorizationParams` */
  datatype AuthParams = AuthParams(state: Option<string>, scopes: Option<seq<string>>, codeChallenge: string,
                                   redirectUri: string, redirectUriProvidedExplicitly: bool)

  /** What `construct_redirect_uri` builds: the redirect URI with `code` and `state` added
      to its query. */
  datatype Redirect = Redirect(base: string, code: string, state: Option<string>)

  /** `AuthorizationCode` */
  datatype AuthCode = AuthCode(code: string, scopes: seq<string>, expiresAt: int, clientId: string,
                               codeChallenge: Value, redirectUri: Value, redirectUriProvidedExplicitly: Value)

  /** `RefreshToken` (its `expires_at` is always None). */
  datatype RefreshGrant = RefreshGrant(token: string, clientId: string, scopes: seq<string>)

  /** `OAuthToken` */
  datatype Token = Token(accessToken: string, expiresIn: int, refreshToken: string, scope: Option<string>)

  function BadRequest(message: string): PyError
  {
    PyError("BadRequestError", message)
  }

  const DefaultBadRequest: PyError := BadRequest("bad request")
  const Unauthorized: PyError := PyError("UnauthorizedError", "unauthorized")
  const CodeInvalid: PyError := PyError("ValidationError", "validation error for AuthorizationCode")
  const RefreshInvalid: PyError := PyError("ValidationError", "validation error for RefreshToken")

  /** Seconds an issued access token lasts. */
  const TokenLifetime: int := 36000

  // ---------------------------------------------------------------------------
  // Looking up the client's row
  // ---------------------------------------------------------------------------

  /** The first row from `from` on that satisfies `p`. */
  function FirstIndex(records: seq<KeyRecord>, p: KeyRecord -> bool, from: nat): (r: Option<nat>)
    requires from <= |records|
    ensures r.Some? ==> from <= r.value < |records| && p(records[r.value])
    ensures r.Some? ==> forall j :: from <= j < r.value ==> !p(records[j])
    ensures r.None? ==> forall j :: from <= j < |records| ==> !p(records[j])
    decreases |records| - from
  {
    if from == |records| then None
    else if p(records[from]) then Some(from)
    else FirstIndex(records, p, from + 1)
  }

  /** Rows that agree on `p` row by row give the same first match. */
  lemma {:induction false} FirstIndexAgrees(a: seq<KeyRecord>, b: seq<KeyRecord>, p: KeyRecord -> bool, from: nat)
    requires from <= |a| == |b|
    requires forall k :: 0 <= k < |a| ==> p(a[k]) == p(b[k])
    ensures FirstIndex(a, p, from) == FirstIndex(b, p, from)
    decreases |a| - from
  {
    if from < |a| {
      FirstIndexAgrees(a, b, p, from + 1);
    }
  }

  /** `ApiKeyService.get_api_key_by_name(name)`: the first row whose name the database
      compares equal to `name`; `collate` is the key it compares names by. */
  function FindByName(records: seq<KeyRecord>, collate: string -> string, name: string): (r: Option<nat>)
    ensures r.Some? ==> r.value < |records| && collate(records[r.value].name) == collate(name)
    ensures r.Some? ==> forall j :: 0 <= j < r.value ==> collate(records[j].name) != collate(name)
    ensures r.None? ==> forall j :: 0 <= j < |records| ==> collate(records[j].name) != collate(name)
  {
    FirstIndex(records, (k: KeyRecord) => collate(k.name) == collate(name), 0)
  }

  /** The row the provider works on: `BadRequestError` when no row is found or the row's
      name is not exactly the client id. */
  function Identify(records: seq<KeyRecord>, collate: string -> string, clientId: string): (r: Outcome<nat>)
    ensures r.Ok? <==> FindByName(records, collate, clientId).Some?
                       && records[FindByName(records, collate, clientId).value].name == clientId
    ensures r.Ok? ==> r.value == FindByName(records, collate, clientId).value
    ensures r.Err? ==> r.error == DefaultBadRequest
  {
    match FindByName(records, collate, clientId)
    case None => Err(DefaultBadRequest)
    case Some(i) => if records[i].name != clientId then Err(DefaultBadRequest) else Ok(i)
  }

  /** Where the database compares names exactly, the name check never rejects a row the
      lookup found: the client is identified exactly when some row carries its id as
      name. */
  lemma ExactNamesIdentify(records: seq<KeyRecord>, collate: string -> string, clientId: string)
    requires forall s :: collate(s) == s
    ensures Identify(records, collate, clientId).Ok?
            <==> exists k :: 0 <= k < |records| && records[k].name == clientId
  {
    if exists k :: 0 <= k < |records| && records[k].name == clientId {
      var k :| 0 <= k < |records| && records[k].name == clientId;
      assert collate(records[k].name) == collate(clientId);
    }
  }

  /** A database that ignores case finds a row whose name differs in case only, and the
      name check then rejects it. */
  lemma CaseInsensitiveLookupRejected(records: seq<KeyRecord>, collate: string -> string, clientId: string)
    requires |records| == 1 && records[0].name != clientId && collate(records[0].name) == collate(clientId)
    ensures FindByName(records, collate, clientId) == Some(0)
    ensures Identify(records, collate, clientId) == Err(DefaultBadRequest)
  {
  }

  /** `json.loads(api_key.description)` */
  function LoadDocument(d: Description): (r: Outcome<Value>)
    ensures r.Ok? <==> d.Json?
    ensures d.Json? ==> r.value == d.doc
  {
    match d
    case NoDescription => Err(PyError("TypeError", "the JSON object must be str, bytes or bytearray, not NoneType"))
    case NotJson => Err(PyError("JSONDecodeError", "Expecting value"))
    case Json(doc) => Ok(doc)
  }

  /** `json.loads(api_key.description)["auth_params"]` */
  function StoredParams(d: Description): (r: Outcome<Value>)
    ensures r.Ok? <==> d.Json? && d.doc.VDict? && Lookup(d.doc.entries, "auth_params").Some?
    ensures r.Ok? ==> r.value == Lookup(d.doc.entries, "auth_params").value
  {
    match LoadDocument(d)
    case Err(e) => Err(e)
    case Ok(doc) => Subscript(doc, "auth_params")
  }

  // ---------------------------------------------------------------------------
  // Scope and redirect checks
  // ---------------------------------------------------------------------------

  /** The first requested scope that is not among the registered ones. */
  function FirstUnregistered(requested: seq<string>, registered: seq<string>): (r: Option<string>)
    ensures r.None? <==> forall k :: 0 <= k < |requested| ==> requested[k] in registered
    ensures r.Some? ==> exists k :: 0 <= k < |requested| && requested[k] == r.value && r.value !in registered
                                    && forall j :: 0 <= j < k ==> requested[j] in registered
  {
    if requested == [] then None
    else if requested[0] !in registered then Some(requested[0])
    else
      assert forall k :: 1 <= k < |requested| ==> requested[k] == requested[1..][k - 1];
      FirstUnregistered(requested[1..], registered)
  }

  /** The scope check of `authorize` and both exchanges: when the client has a scope and
      scopes are requested, each requested scope must be one of the client's
      space-separated scopes. */
  function ScopeError(clientScope: Option<string>, requested: seq<string>): (r: Option<PyError>)
    ensures r.Some? <==> clientScope.Some? && clientScope.value != ""
                         && exists k :: 0 <= k < |requested| && requested[k] !in SplitOn(clientScope.value, ' ')
    ensures r.Some? ==> exists k :: 0 <= k < |requested| && requested[k] !in SplitOn(clientScope.value, ' ')
                                    && r.value == BadRequest("Client was not registered with scope " + requested[k])
  {
    if clientScope.Some? && clientScope.value != "" && requested != [] then
      match FirstUnregistered(requested, SplitOn(clientScope.value, ' '))
      case Some(s) => Some(BadRequest("Client was not registered with scope " + s))
      case None => None
    else None
  }

  /** Every piece of the client's own scope passes the check. */
  lemma OwnScopesAccepted(scope: string)
    ensures ScopeError(Some(scope), SplitOn(scope, ' ')).None?
  {
  }

  /** The redirect check of `authorize`: when the client registered redirect URIs, the
      requested one must be among them. */
  function RedirectError(redirectUris: Option<seq<string>>, uri: string): (r: Option<PyError>)
    ensures r.Some? <==> redirectUris.Some? && redirectUris.value != [] && uri !in redirectUris.value
    ensures r.Some? ==> r.value == BadRequest("Redirect URI '" + uri + "' not registered for client")
  {
    if redirectUris.Some? && redirectUris.value != [] && uri !in redirectUris.value then
      Some(BadRequest("Redirect URI '" + uri + "' not registered for client"))
    else None
  }

  /** `params.scopes`, with None read as no scopes (both are falsy). */
  function RequestedScopes(params: AuthParams): seq<string>
  {
    if params.scopes.Some? then params.scopes.value else []
  }

  /** The error `authorize` raises before it stores anything, if any. */
  function AuthorizeError(records: seq<KeyRecord>, collate: string -> string, client: Client, params: AuthParams)
    : (r: Option<PyError>)
    ensures Identify(records, collate, client.clientId).Err? ==> r == Some(DefaultBadRequest)
    ensures Identify(records, collate, client.clientId).Ok? ==>
      (r.None? <==> ScopeError(client.scope, RequestedScopes(params)).None?
                    && RedirectError(client.redirectUris, params.redirectUri).None?)
    ensures r.Some? ==> r.value.kind == "BadRequestError"
  {
    if Identify(records, collate, client.clientId).Err? then Some(DefaultBadRequest)
    else if ScopeError(client.scope, RequestedScopes(params)).Some? then ScopeError(client.scope, RequestedScopes(params))
    else RedirectError(client.redirectUris, params.redirectUri)
  }

  // ---------------------------------------------------------------------------
  // What `authorize` stores
  // ---------------------------------------------------------------------------

  function Strings(items: seq<string>): (r: Value)
    ensures r.VList? && |r.items| == |items|
  {
    VList(seq(|items|, i requires 0 <= i < |items| => VStr(items[i])))
  }

  /** `params.model_dump(exclude_none=True)`, in field order. */
  function ParamsDump(params: AuthParams): (r: seq<(string, Value)>)
  {
    OptionalFields(params) + RequiredFields(params)
  }

  /** The dumped fields that are left out when None. */
  function OptionalFields(params: AuthParams): (r: seq<(string, Value)>)
    ensures forall k :: 0 <= k < |r| ==> r[k].0 == "state" || r[k].0 == "scopes"
  {
    (if params.state.Some? then [("state", VStr(params.state.value))] else [])
    + (if params.scopes.Some? then [("scopes", Strings(params.scopes.value))] else [])
  }

  /** The dumped fields that are always present. */
  function RequiredFields(params: AuthParams): (r: seq<(string, Value)>)
  {
    [("code_challenge", VStr(params.codeChallenge)),
     ("redirect_uri", VStr(params.redirectUri)),
     ("redirect_uri_provided_explicitly", VBool(params.redirectUriProvidedExplicitly))]
  }

  /** A key other than `state` and `scopes` is looked up in the required fields. */
  lemma DumpLookup(params: AuthParams, key: string)
    requires key != "state" && key != "scopes"
    ensures Lookup(ParamsDump(params), key) == Lookup(RequiredFields(params), key)
  {
    var head := OptionalFields(params);
    LookupAppend(head, RequiredFields(params), key);
    assert Lookup(head, key).None?;
  }

  /** The dump has no `code` and holds each required field. */
  lemma DumpFields(params: AuthParams)
    ensures Lookup(ParamsDump(params), "code").None?
    ensures Lookup(ParamsDump(params), "code_challenge") == Some(VStr(params.codeChallenge))
    ensures Lookup(ParamsDump(params), "redirect_uri") == Some(VStr(params.redirectUri))
    ensures Lookup(ParamsDump(params), "redirect_uri_provided_explicitly")
            == Some(VBool(params.redirectUriProvidedExplicitly))
  {
    DumpHasNoCode(params);
    DumpChallenge(params);
    DumpRedirect(params);
  }

  lemma DumpHasNoCode(params: AuthParams)
    ensures Lookup(ParamsDump(params), "code").None?
  {
    assert "code"[2] != "state"[2] && "code"[0] != "scopes"[0];
    DumpLookup(params, "code");
    assert |"code"| != |"code_challenge"|;
  }

  lemma DumpChallenge(params: AuthParams)
    ensures Lookup(ParamsDump(params), "code_challenge") == Some(VStr(params.codeChallenge))
  {
    assert "code_challenge"[0] != "state"[0] && "code_challenge"[1] != "scopes"[1];
    DumpLookup(params, "code_challenge");
    LookupFirst(RequiredFields(params), 0, "code_challenge");
  }

  lemma DumpRedirect(params: AuthParams)
    ensures Lookup(ParamsDump(params), "redirect_uri") == Some(VStr(params.redirectUri))
    ensures Lookup(ParamsDump(params), "redirect_uri_provided_explicitly")
            == Some(VBool(params.redirectUriProvidedExplicitly))
  {
    var tail := RequiredFields(params);
    var r := "redirect_uri";
    var e := "redirect_uri_provided_explicitly";
    assert r[0] == e[0] == 'r' && "state"[0] == 's' && "scopes"[0] == 's' && "code_challenge"[0] == 'c';
    assert |r| == 12 && |e| == 32;
    assert tail[0].0[0] == 'c' && tail[1].0 == r && tail[2].0 == e;
    DumpLookup(params, r);
    DumpLookup(params, e);
    LookupFirst(tail, 1, r);
    LookupFirst(tail, 2, e);
  }

  /** The document `authorize` writes to the client's row: the client information and
      the dumped params with the new code added. */
  function GrantDocument(client: Client, params: AuthParams, code: string): (r: Value)
    ensures r.VDict? && Lookup(r.entries, "client_info") == Some(client.info)
    ensures Lookup(r.entries, "auth_params").Some? && Lookup(r.entries, "auth_params").value.VDict?
  {
    VDict([("client_info", client.info), ("auth_params", VDict(Put(ParamsDump(params), "code", VStr(code))))])
  }

  /** The params with the code added hold the code and the three fields
      `load_authorization_code` reads back. */
  lemma StoredFields(params: AuthParams, code: string)
    ensures Lookup(Put(ParamsDump(params), "code", VStr(code)), "code") == Some(VStr(code))
    ensures Lookup(Put(ParamsDump(params), "code", VStr(code)), "code_challenge") == Some(VStr(params.codeChallenge))
    ensures Lookup(Put(ParamsDump(params), "code", VStr(code)), "redirect_uri") == Some(VStr(params.redirectUri))
    ensures Lookup(Put(ParamsDump(params), "code", VStr(code)), "redirect_uri_provided_explicitly")
            == Some(VBool(params.redirectUriProvidedExplicitly))
  {
    DumpFields(params);
    PutKeepsOther(ParamsDump(params), "code", VStr(code), "code_challenge");
    PutKeepsOther(ParamsDump(params), "code", VStr(code), "redirect_uri");
    PutKeepsOther(ParamsDump(params), "code", VStr(code), "redirect_uri_provided_explicitly");
  }

  /** Adding a key leaves a key of another length as it was. */
  lemma PutKeepsOther(entries: seq<(string, Value)>, k: string, v: Value, other: string)
    requires |other| != |k|
    ensures Lookup(Put(entries, k, v), other) == Lookup(entries, other)
  {
  }

  /** The document `authorize` writes reads back as those params. */
  lemma GrantDocumentParams(client: Client, params: AuthParams, code: string)
    ensures StoredParams(Json(GrantDocument(client, params, code)))
            == Ok(VDict(Put(ParamsDump(params), "code", VStr(code))))
  {
    var doc := GrantDocument(client, params, code);
    assert "client_info"[0] != "auth_params"[0];
    LookupFirst(doc.entries, 1, "auth_params");
  }

  /** Loading from a row that holds a grant: the granted code comes back, any other is
      refused. */
  lemma LoadCodeFromGrant(records: seq<KeyRecord>, collate: string -> string, client: Client, params: AuthParams,
                          code: string, presented: string, scopes: seq<string>, expiresAt: int)
    requires Identify(records, collate, client.clientId).Ok?
    requires records[Identify(records, collate, client.clientId).value].description
             == Json(GrantDocument(client, params, code))
    ensures LoadCode(records, collate, client, presented, Ok(scopes), expiresAt)
            == if presented == code
               then Ok(AuthCode(code, scopes, expiresAt, client.clientId, VStr(params.codeChallenge),
                                VStr(params.redirectUri), VBool(params.redirectUriProvidedExplicitly)))
               else Err(Unauthorized)
  {
    var i := Identify(records, collate, client.clientId).value;
    var stored := VDict(Put(ParamsDump(params), "code", VStr(code)));
    GrantDocumentParams(client, params, code);
    StoredFields(params, code);
    assert StoredParams(records[i].description) == Ok(stored);
    assert Subscript(stored, "code") == Ok(VStr(code));
    assert Subscript(stored, "code_challenge") == Ok(VStr(params.codeChallenge));
    assert Subscript(stored, "redirect_uri") == Ok(VStr(params.redirectUri));
    assert Subscript(stored, "redirect_uri_provided_explicitly") == Ok(VBool(params.redirectUriProvidedExplicitly));
    LoadCodeFromStored(records, collate, client, presented, scopes, expiresAt, stored, code,
                       VStr(params.codeChallenge), VStr(params.redirectUri), VBool(params.redirectUriProvidedExplicitly));
  }

  /** Loading from a row whose stored parameters hold a text code and the three other
      fields: the stored code comes back with those fields, any other is refused. */
  lemma LoadCodeFromStored(records: seq<KeyRecord>, collate: string -> string, client: Client, presented: string,
                           scopes: seq<string>, expiresAt: int, stored: Value, code: string,
                           challenge: Value, uri: Value, explicit: Value)
    requires Identify(records, collate, client.clientId).Ok?
    requires StoredParams(records[Identify(records, collate, client.clientId).value].description) == Ok(stored)
    requires Subscript(stored, "code") == Ok(VStr(code))
    requires Subscript(stored, "code_challenge") == Ok(challenge)
    requires Subscript(stored, "redirect_uri") == Ok(uri)
    requires Subscript(stored, "redirect_uri_provided_explicitly") == Ok(explicit)
    ensures LoadCode(records, collate, client, presented, Ok(scopes), expiresAt)
            == if presented == code then Ok(AuthCode(code, scopes, expiresAt, client.clientId, challenge, uri, explicit))
               else Err(Unauthorized)
  {
  }

  /** Exchanging a code against a row that holds the grant of that code. */
  lemma ExchangeFromGrant(records: seq<KeyRecord>, collate: string -> string, client: Client, params: AuthParams,
                          code: string, grant: AuthCode)
    requires Identify(records, collate, client.clientId).Ok?
    requires records[Identify(records, collate, client.clientId).value].description
             == Json(GrantDocument(client, params, code))
    requires grant.code == code
    ensures
      var row := records[Identify(records, collate, client.clientId).value];
      ExchangeAuthorizationCode(records, collate, client, grant)
        == if ScopeError(client.scope, grant.scopes).Some? then Err(ScopeError(client.scope, grant.scopes).value)
           else Ok(Token(row.hashKey, TokenLifetime, row.apiKey, ScopeText(grant.scopes)))
  {
    GrantDocumentParams(client, params, code);
    StoredFields(params, code);
  }

  /** `ApiKeyService.update_api_key(row.id, row.name, document, row.source)` for the row
      at `i`: the first row with that id gets the row's name and source and the new
      description. */
  function Granted(records: seq<KeyRecord>, i: nat, doc: Value): (r: seq<KeyRecord>)
    requires i < |records|
    ensures |r| == |records|
  {
    var j := FirstIndex(records, (k: KeyRecord) => k.id == records[i].id, 0).value;
    records[j := records[j].(name := records[i].name, description := Json(doc), source := records[i].source)]
  }

  /** No two rows share an id (the table's primary key). */
  predicate UniqueIds(records: seq<KeyRecord>)
  {
    forall a, b :: 0 <= a < b < |records| ==> records[a].id != records[b].id
  }

  /** With unique ids, storing a grant changes the description of that one row and
      nothing else. */
  lemma GrantedRow(records: seq<KeyRecord>, i: nat, doc: Value)
    requires i < |records| && UniqueIds(records)
    ensures Granted(records, i, doc) == records[i := records[i].(description := Json(doc))]
  {
    var j := FirstIndex(records, (k: KeyRecord) => k.id == records[i].id, 0).value;
    assert j == i;
  }

  /** Storing a grant keeps every row's name, so the client is found at the same row. */
  lemma GrantedKeepsIdentity(records: seq<KeyRecord>, collate: string -> string, i: nat, doc: Value, clientId: string)
    requires i < |records| && UniqueIds(records)
    ensures Identify(Granted(records, i, doc), collate, clientId) == Identify(records, collate, clientId)
  {
    var after := Granted(records, i, doc);
    GrantedRow(records, i, doc);
    var p := (k: KeyRecord) => collate(k.name) == collate(clientId);
    assert forall k :: 0 <= k < |records| ==> after[k].name == records[k].name;
    FirstIndexAgrees(records, after, p, 0);
  }

  // ---------------------------------------------------------------------------
  // The key store and `authorize`
  // ---------------------------------------------------------------------------

  /** The API-key table as the provider sees it. */
  class KeyStore {
    var records: seq<KeyRecord>
    const collate: string -> string

    constructor(records: seq<KeyRecord>, collate: string -> string)
      ensures this.records == records && this.collate == collate
    {
      this.records := records;
      this.collate := collate;
    }

    /** `authorize(client, params)` with `code` the fresh `secrets.token_urlsafe(16)`:
        the checks, then the grant written to the client's row and the redirect. */
    method Authorize(client: Client, params: AuthParams, code: string) returns (r: Outcome<Redirect>)
      modifies this
      ensures AuthorizeError(old(records), collate, client, params).Some? ==>
        r == Err(AuthorizeError(old(records), collate, client, params).value) && records == old(records)
      ensures AuthorizeError(old(records), collate, client, params).None? ==>
        r == Ok(Redirect(params.redirectUri, code, params.state))
        && records == Granted(old(records), Identify(old(records), collate, client.clientId).value,
                              GrantDocument(client, params, code))
    {
      var found := Identify(records, collate, client.clientId);
      if found.Err? {
        return Err(found.error);
      }
      var scopeError := ScopeError(client.scope, RequestedScopes(params));
      if scopeError.Some? {
        return Err(scopeError.value);
      }
      var redirectError := RedirectError(client.redirectUris, params.redirectUri);
      if redirectError.Some? {
        return Err(redirectError.value);
      }
      records := Granted(records, found.value, GrantDocument(client, params, code));
      r := Ok(Redirect(params.redirectUri, code, params.state));
    }

    /** `revoke_token(token)`: API keys cannot be revoked, so nothing changes. */
    method RevokeToken(token: string)
      ensures records == old(records)
    {
    }
  }

  // ---------------------------------------------------------------------------
  // Loading and exchanging the code
  // ---------------------------------------------------------------------------

  /** The shared body of `load_authorization_code`: the row, its stored params, the
      `AuthorizationCode` built from them with the given scopes and expiry, and the
      code comparison. */
  function LoadCode(records: seq<KeyRecord>, collate: string -> string, client: Client, code: string,
                    scopes: Outcome<seq<string>>, expiresAt: int): (r: Outcome<AuthCode>)
    ensures Identify(records, collate, client.clientId).Err? ==> r == Err(DefaultBadRequest)
    ensures r.Ok? ==> Identify(records, collate, client.clientId).Ok?
                      && StoredParams(records[Identify(records, collate, client.clientId).value].description).Ok?
    ensures r.Ok? ==> scopes == Ok(r.value.scopes) && r.value.code == code
                      && r.value.clientId == client.clientId && r.value.expiresAt == expiresAt
  {
    match Identify(records, collate, client.clientId)
    case Err(e) => Err(e)
    case Ok(i) =>
      match StoredParams(records[i].description)
      case Err(e) => Err(e)
      case Ok(params) =>
        match Subscript(params, "code")
        case Err(e) => Err(e)
        case Ok(stored) =>
          match Subscript(params, "code_challenge")
          case Err(e) => Err(e)
          case Ok(challenge) =>
            match Subscript(params, "redirect_uri")
            case Err(e) => Err(e)
            case Ok(uri) =>
              match Subscript(params, "redirect_uri_provided_explicitly")
              case Err(e) => Err(e)
              case Ok(explicit) =>
                if !stored.VStr? || scopes.Err? then Err(CodeInvalid)
                else if stored.s != code then Err(Unauthorized)
                else Ok(AuthCode(stored.s, scopes.value, expiresAt, client.clientId, challenge, uri, explicit))
  }

  /** `load_authorization_code(client, code)` at time `now`, as written: the code's
      scopes are the one-element list holding the client's whole scope text, which
      fails validation when the client has none, and it expires 30000 seconds on. */
  function LoadAuthorizationCodeAsWritten(records: seq<KeyRecord>, collate: string -> string, client: Client,
                                          code: string, now: int): (r: Outcome<AuthCode>)
    ensures r.Ok? ==> client.scope.Some? && r.value.scopes == [client.scope.value] && r.value.expiresAt == now + 30000
  {
    LoadCode(records, collate, client, code,
             if client.scope.Some? then Ok([client.scope.value]) else Err(CodeInvalid), now + 30000)
  }

  /** The scopes a client registered: its scope text split on spaces, none when it has
      no scope. */
  function ClientScopes(client: Client): (r: seq<string>)
    ensures ScopeError(client.scope, r).None?
  {
    if client.scope.Some? && client.scope.value != "" then SplitOn(client.scope.value, ' ') else []
  }

  /** `load_authorization_code(client, code)` at time `now` with the code carrying the
      client's registered scopes one by one and living the thirty seconds the source
      means it to. */
  function LoadAuthorizationCode(records: seq<KeyRecord>, collate: string -> string, client: Client,
                                 code: string, now: int): (r: Outcome<AuthCode>)
    ensures r.Ok? ==> r.value.scopes == ClientScopes(client) && r.value.expiresAt == now + 30
    ensures r.Ok? ==> r.value.code == code && r.value.clientId == client.clientId
  {
    LoadCode(records, collate, client, code, Ok(ClientScopes(client)), now + 30)
  }

  /** `" ".join(scopes) if scopes else None` */
  function ScopeText(scopes: seq<string>): (r: Option<string>)
    ensures r.None? <==> scopes == []
  {
    if scopes != [] then Some(Join(scopes, " ")) else None
  }

  /** `exchange_authorization_code(client, grant)`: the row, the scope check, the stored
      code, then the token: the row's hash key to access, its API key to refresh. */
  function ExchangeAuthorizationCode(records: seq<KeyRecord>, collate: string -> string, client: Client,
                                     grant: AuthCode): (r: Outcome<Token>)
    ensures Identify(records, collate, client.clientId).Err? ==> r == Err(DefaultBadRequest)
    ensures Identify(records, collate, client.clientId).Ok? && ScopeError(client.scope, grant.scopes).Some? ==>
      r == Err(ScopeError(client.scope, grant.scopes).value)
    ensures r.Ok? ==> Identify(records, collate, client.clientId).Ok?
    ensures r.Ok? ==>
      var row := records[Identify(records, collate, client.clientId).value];
      r.value == Token(row.hashKey, TokenLifetime, row.apiKey, ScopeText(grant.scopes))
      && StoredParams(row.description).Ok?
      && Subscript(StoredParams(row.description).value, "code") == Ok(VStr(grant.code))
  {
    match Identify(records, collate, client.clientId)
    case Err(e) => Err(e)
    case Ok(i) =>
      if ScopeError(client.scope, grant.scopes).Some? then Err(ScopeError(client.scope, grant.scopes).value)
      else
        match StoredParams(records[i].description)
        case Err(e) => Err(e)
        case Ok(params) =>
          match Subscript(params, "code")
          case Err(e) => Err(e)
          case Ok(stored) =>
            if stored != VStr(grant.code) then Err(Unauthorized)
            else Ok(Token(records[i].hashKey, TokenLifetime, records[i].apiKey, ScopeText(grant.scopes)))
  }

  /** After `authorize` succeeds, loading the code it issued gives that code back with
      the client's scopes; any other code is refused. */
  lemma AuthorizeThenLoad(records: seq<KeyRecord>, collate: string -> string, client: Client, params: AuthParams,
                          code: string, other: string, now: int)
    requires UniqueIds(records) && AuthorizeError(records, collate, client, params).None?
    requires other != code
    ensures
      var after := Granted(records, Identify(records, collate, client.clientId).value, GrantDocument(client, params, code));
      LoadAuthorizationCode(after, collate, client, code, now)
        == Ok(AuthCode(code, ClientScopes(client), now + 30, client.clientId, VStr(params.codeChallenge),
                       VStr(params.redirectUri), VBool(params.redirectUriProvidedExplicitly)))
      && LoadAuthorizationCode(after, collate, client, other, now) == Err(Unauthorized)
  {
    var i := Identify(records, collate, client.clientId).value;
    var doc := GrantDocument(client, params, code);
    var after := Granted(records, i, doc);
    GrantedKeepsIdentity(records, collate, i, doc, client.clientId);
    GrantedRow(records, i, doc);
    assert after[i].description == Json(doc);
    LoadCodeFromGrant(after, collate, client, params, code, code, ClientScopes(client), now + 30);
    LoadCodeFromGrant(after, collate, client, params, code, other, ClientScopes(client), now + 30);
  }

  /** The whole code flow: after `authorize`, the loaded code exchanges for the row's hash
      key as access token and its API key as refresh token, with the client's scope
      text as the token's scope. */
  lemma AuthorizeLoadExchange(records: seq<KeyRecord>, collate: string -> string, client: Client,
                              params: AuthParams, code: string, now: int)
    requires UniqueIds(records) && AuthorizeError(records, collate, client, params).None?
    ensures
      var i := Identify(records, collate, client.clientId).value;
      var after := Granted(records, i, GrantDocument(client, params, code));
      var loaded := LoadAuthorizationCode(after, collate, client, code, now);
      loaded.Ok?
      && ExchangeAuthorizationCode(after, collate, client, loaded.value)
         == Ok(Token(records[i].hashKey, TokenLifetime, records[i].apiKey,
                     if client.scope.Some? && client.scope.value != "" then client.scope else None))
  {
    var i := Identify(records, collate, client.clientId).value;
    var doc := GrantDocument(client, params, code);
    var after := Granted(records, i, doc);
    AuthorizeThenLoad(records, collate, client, params, code, code + "x", now);
    GrantedKeepsIdentity(records, collate, i, doc, client.clientId);
    GrantedRow(records, i, doc);
    assert after[i] == records[i].(description := Json(doc));
    var loaded := LoadAuthorizationCode(after, collate, client, code, now).value;
    ExchangeFromGrant(after, collate, client, params, code, loaded);
    if client.scope.Some? && client.scope.value != "" {
      JoinSplitOn(client.scope.value, ' ');
    }
  }

  /** As written, a client registered with two or more scopes gets a code whose single
      scope is the whole scope text, and exchanging it is refused. */
  lemma MultiScopeCodeRefused(records: seq<KeyRecord>, collate: string -> string, client: Client, params: AuthParams,
                              code: string, now: int)
    requires UniqueIds(records) && AuthorizeError(records, collate, client, params).None?
    requires client.scope.Some? && Contains(client.scope.value, " ")
    ensures
      var after := Granted(records, Identify(records, collate, client.clientId).value, GrantDocument(client, params, code));
      var loaded := LoadAuthorizationCodeAsWritten(after, collate, client, code, now);
      loaded.Ok? && loaded.value.scopes == [client.scope.value] && loaded.value.expiresAt == now + 30000
      && ExchangeAuthorizationCode(after, collate, client, loaded.value)
         == Err(BadRequest("Client was not registered with scope " + client.scope.value))
  {
    var i := Identify(records, collate, client.clientId).value;
    var doc := GrantDocument(client, params, code);
    var after := Granted(records, i, doc);
    var scope := client.scope.value;
    GrantedKeepsIdentity(records, collate, i, doc, client.clientId);
    GrantedRow(records, i, doc);
    assert after[i].description == Json(doc);
    LoadCodeFromGrant(after, collate, client, params, code, code, [scope], now + 30000);
    var loaded := AuthCode(code, [scope], now + 30000, client.clientId, VStr(params.codeChallenge),
                           VStr(params.redirectUri), VBool(params.redirectUriProvidedExplicitly));
    assert LoadAuthorizationCodeAsWritten(after, collate, client, code, now) == Ok(loaded);
    ExchangeFromGrant(after, collate, client, params, code, loaded);
    WholeScopeRefused(scope);
  }

  /** A scope text holding a space is not one of its own pieces, so asking for it
      whole is refused. */
  lemma WholeScopeRefused(scope: string)
    requires Contains(scope, " ")
    ensures ScopeError(Some(scope), [scope]) == Some(BadRequest("Client was not registered with scope " + scope))
  {
    SplitPiecesShorter(scope, ' ');
    assert scope !in SplitOn(scope, ' ');
  }

  // ---------------------------------------------------------------------------
  // Refresh tokens
  // ---------------------------------------------------------------------------

  /** `load_refresh_token(client, token)`: the row, then the token must be the row's API
      key. */
  function LoadRefreshToken(records: seq<KeyRecord>, collate: string -> string, client: Client, token: string)
    : (r: Outcome<RefreshGrant>)
    ensures Identify(records, collate, client.clientId).Err? ==> r == Err(DefaultBadRequest)
    ensures (Identify(records, collate, client.clientId).Ok?
             && records[Identify(records, collate, client.clientId).value].apiKey != token) ==> r == Err(Unauthorized)
    ensures r.Ok? <==> Identify(records, collate, client.clientId).Ok?
                       && records[Identify(records, collate, client.clientId).value].apiKey == token
                       && client.scope.Some?
    ensures r.Ok? ==> r.value == RefreshGrant(token, client.clientId, [client.scope.value])
  {
    match Identify(records, collate, client.clientId)
    case Err(e) => Err(e)
    case Ok(i) =>
      if records[i].apiKey != token then Err(Unauthorized)
      else if client.scope.None? then Err(RefreshInvalid)
      else Ok(RefreshGrant(token, client.clientId, [client.scope.value]))
  }

  /** `exchange_refresh_token(client, refresh_token, scopes)` with `token` the refresh
      token's text. */
  function ExchangeRefreshToken(records: seq<KeyRecord>, collate: string -> string, client: Client, token: string,
                                scopes: seq<string>): (r: Outcome<Token>)
    ensures Identify(records, collate, client.clientId).Err? ==> r == Err(DefaultBadRequest)
    ensures (Identify(records, collate, client.clientId).Ok?
             && records[Identify(records, collate, client.clientId).value].apiKey != token) ==> r == Err(Unauthorized)
    ensures r.Ok? <==> Identify(records, collate, client.clientId).Ok?
                       && records[Identify(records, collate, client.clientId).value].apiKey == token
                       && ScopeError(client.scope, scopes).None?
    ensures r.Ok? ==>
      var row := records[Identify(records, collate, client.clientId).value];
      r.value == Token(row.hashKey, TokenLifetime, token, ScopeText(scopes))
  {
    match Identify(records, collate, client.clientId)
    case Err(e) => Err(e)
    case Ok(i) =>
      if records[i].apiKey != token then Err(Unauthorized)
      else if ScopeError(client.scope, scopes).Some? then Err(ScopeError(client.scope, scopes).value)
      else Ok(Token(records[i].hashKey, TokenLifetime, records[i].apiKey, ScopeText(scopes)))
  }

  /** The refresh token an exchange issues is accepted by the next refresh, which issues
      the same token again. */
  lemma RefreshRepeats(records: seq<KeyRecord>, collate: string -> string, client: Client, token: string,
                       scopes: seq<string>)
    requires ExchangeRefreshToken(records, collate, client, token, scopes).Ok?
    ensures
      var issued := ExchangeRefreshToken(records, collate, client, token, scopes).value;
      ExchangeRefreshToken(records, collate, client, issued.refreshToken, scopes).Ok?
      && ExchangeRefreshToken(records, collate, client, issued.refreshToken, scopes).value == issued
  {
  }

  /** The refresh token a code exchange issues is one `load_refresh_token` accepts for a
      client with a scope. */
  lemma CodeTokenRefreshes(records: seq<KeyRecord>, collate: string -> string, client: Client, grant: AuthCode)
    requires ExchangeAuthorizationCode(records, collate, client, grant).Ok? && client.scope.Some?
    ensures
      var issued := ExchangeAuthorizationCode(records, collate, client, grant).value;
      LoadRefreshToken(records, collate, client, issued.refreshToken)
        == Ok(RefreshGrant(issued.refreshToken, client.clientId, [client.scope.value]))
  {
  }
}
