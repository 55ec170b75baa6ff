/** AdminApiClientsController: the administration of API client
 *  credentials. A client gets an identifier derived from its name, a
 *  secret when it authenticates by API key or OAuth, and a status that an
 *  update can change and a delete sets to REVOKED; nothing is ever
 *  removed from the api_clients table. */
module AdminApiClients {
  import opened Common
  import opened Calendar

  // ---------------------------------------------------------------- the client id

  /** The class `[a-z0-9]`. */
  predicate IsAlnum(c: char)
  {
    'a' <= c <= 'z' || '0' <= c <= '9'
  }

  /** The characters of a sanitised name. */
  predicate IsSlugChar(c: char)
  {
    IsAlnum(c) || c == '_'
  }

  /** The letters and digits of a text, in order. */
  function Alnums(s: string): (r: string)
    ensures forall i :: 0 <= i < |r| ==> IsAlnum(r[i])
  {
    if s == [] then [] else (if IsAlnum(s[0]) then [s[0]] else []) + Alnums(s[1..])
  }

  lemma {:induction false} AlnumsAppend(a: string, b: string)
    ensures Alnums(a + b) == Alnums(a) + Alnums(b)
  {
    if a != [] {
      assert (a + b)[1..] == a[1..] + b;
      AlnumsAppend(a[1..], b);
    } else {
      assert a + b == b;
    }
  }

  /** The text after a leading run of characters outside `[a-z0-9]`. */
  function SkipRun(s: string): (r: string)
    ensures |r| <= |s| && r == s[|s| - |r|..]
    ensures r == [] || IsAlnum(r[0])
    ensures Alnums(r) == Alnums(s)
  {
    if s != [] && !IsAlnum(s[0]) then
      var r := SkipRun(s[1..]);
      assert Alnums(s) == Alnums(s[1..]) by {
        assert Alnums(s) == [] + Alnums(s[1..]);
      }
      assert s[1..][|s| - 1 - |r|..] == s[|s| - |r|..];
      r
    else s
  }

  /** Letters, digits and underscores only. */
  predicate SlugChars(s: string)
  {
    forall i :: 0 <= i < |s| ==> IsSlugChar(s[i])
  }

  /** No two underscores side by side. */
  predicate SingleUnderscores(s: string)
  {
    forall i :: 0 <= i < |s| - 1 ==> !(s[i] == '_' && s[i + 1] == '_')
  }

  /** replaceAll("[^a-z0-9]+", "_"): every maximal run of other characters
   *  becomes one underscore. */
  function Collapse(s: string): (r: string)
    ensures SlugChars(r) && SingleUnderscores(r)
    ensures s == [] <==> r == []
    ensures s != [] ==> r[0] == if IsAlnum(s[0]) then s[0] else '_'
    ensures Alnums(r) == Alnums(s)
    decreases |s|
  {
    if s == [] then []
    else if IsAlnum(s[0]) then
      var rest := Collapse(s[1..]);
      var r := [s[0]] + rest;
      assert r[1..] == rest;
      r
    else
      var rest := Collapse(SkipRun(s[1..]));
      var r := "_" + rest;
      assert r[1..] == rest;
      r
  }

  /** replaceAll("^_+|_+$", ""): leading and trailing underscores go. */
  function StripLeading(s: string): (r: string)
    ensures |r| <= |s| && r == s[|s| - |r|..]
    ensures r == [] || r[0] != '_'
    ensures Alnums(r) == Alnums(s)
    ensures SlugChars(s) ==> SlugChars(r)
    ensures SingleUnderscores(s) ==> SingleUnderscores(r)
  {
    if s != [] && s[0] == '_' then StripLeading(s[1..]) else s
  }

  function StripTrailing(s: string): (r: string)
    ensures |r| <= |s| && r == s[..|r|]
    ensures r == [] || r[|r| - 1] != '_'
    ensures Alnums(r) == Alnums(s)
    ensures SlugChars(s) ==> SlugChars(r)
    ensures SingleUnderscores(s) ==> SingleUnderscores(r)
  {
    if s != [] && s[|s| - 1] == '_' then
      var front := s[..|s| - 1];
      AlnumsAppend(front, "_");
      assert s == front + "_";
      StripTrailing(front)
    else s
  }

  /** The sanitised name: lowercased, runs of other characters turned into
   *  single underscores, and no underscore at either end. */
  function Sanitize(name: string): string
  {
    StripTrailing(StripLeading(Collapse(Lower(name))))
  }

  /** A well-formed sanitised name: letters, digits and single underscores,
   *  with no underscore at either end. */
  predicate IsSlug(s: string)
  {
    SlugChars(s) && SingleUnderscores(s) && (s == [] || (s[0] != '_' && s[|s| - 1] != '_'))
  }

  /** The sanitised name is well formed and keeps exactly the letters and
   *  digits of the lowercased name, in order. */
  lemma SanitizeShape(name: string)
    ensures IsSlug(Sanitize(name))
    ensures Alnums(Sanitize(name)) == Alnums(Lower(name))
  {
    var l := StripLeading(Collapse(Lower(name)));
    var r := StripTrailing(l);
    if r != [] {
      assert r[0] == l[0];
    }
  }

  /** A well-formed name is its own collapse. */
  lemma {:induction false} CollapseOfSlugChars(s: string)
    requires SlugChars(s) && SingleUnderscores(s)
    ensures Collapse(s) == s
  {
    if s != [] {
      CollapseOfSlugChars(s[1..]);
      if !IsAlnum(s[0]) {
        assert s[1..] == [] || IsAlnum(s[1..][0]);
        assert SkipRun(s[1..]) == s[1..];
      }
    }
  }

  lemma LowerOfSlugChars(s: string)
    requires SlugChars(s)
    ensures Lower(s) == s
  {
  }

  /** Sanitising a sanitised name changes nothing. */
  lemma SanitizeIsIdempotent(name: string)
    ensures Sanitize(Sanitize(name)) == Sanitize(name)
  {
    var s := Sanitize(name);
    SanitizeShape(name);
    LowerOfSlugChars(s);
    CollapseOfSlugChars(s);
    assert StripLeading(s) == s;
  }

  // ---------------------------------------------------------------- random values as text

  predicate IsHexDigit(c: char)
  {
    '0' <= c <= '9' || 'a' <= c <= 'f'
  }

  /** The 32 hexadecimal digits of a random UUID. */
  predicate IsUuidHex(h: string)
  {
    |h| == 32 && forall i :: 0 <= i < 32 ==> IsHexDigit(h[i])
  }

  /** UUID.toString: the digits in groups of 8-4-4-4-12. */
  function UuidText(h: string): string
    requires IsUuidHex(h)
  {
    h[..8] + "-" + (h[8..12] + "-" + (h[12..16] + "-" + (h[16..20] + "-" + h[20..])))
  }

  /** replace("-", "") */
  function RemoveDashes(s: string): string
  {
    if s == [] then [] else (if s[0] == '-' then [] else [s[0]]) + RemoveDashes(s[1..])
  }

  lemma {:induction false} RemoveDashesOfHex(s: string)
    requires forall i :: 0 <= i < |s| ==> IsHexDigit(s[i])
    ensures RemoveDashes(s) == s
  {
    if s != [] {
      RemoveDashesOfHex(s[1..]);
    }
  }

  /** A group of digits, a dash and the rest lose just the dash. */
  lemma {:induction false} RemoveDashesAfterGroup(g: string, rest: string)
    requires forall i :: 0 <= i < |g| ==> IsHexDigit(g[i])
    ensures RemoveDashes(g + "-" + rest) == g + RemoveDashes(rest)
  {
    var s := g + "-" + rest;
    if g == [] {
      assert s == "-" + rest && s[1..] == rest;
    } else {
      assert s[0] == g[0] && s[1..] == g[1..] + "-" + rest;
      RemoveDashesAfterGroup(g[1..], rest);
      assert g == [g[0]] + g[1..];
    }
  }

  /** A UUID's text without its dashes is its 32 digits. */
  lemma UndashedUuid(h: string)
    requires IsUuidHex(h)
    ensures RemoveDashes(UuidText(h)) == h
  {
    var g1, g2, g3, g4, g5 := h[..8], h[8..12], h[12..16], h[16..20], h[20..];
    var s4 := g4 + "-" + g5;
    var s3 := g3 + "-" + s4;
    var s2 := g2 + "-" + s3;
    RemoveDashesOfHex(g5);
    RemoveDashesAfterGroup(g4, g5);
    RemoveDashesAfterGroup(g3, s4);
    RemoveDashesAfterGroup(g2, s3);
    RemoveDashesAfterGroup(g1, s2);
    assert g1 + (g2 + (g3 + (g4 + g5))) == h;
  }

  /** generateClientId: the sanitised name, an underscore and the first
   *  eight characters of a random UUID. */
  function ClientId(name: string, suffix: string): string
    requires IsUuidHex(suffix)
  {
    Sanitize(name) + "_" + UuidText(suffix)[..8]
  }

  lemma SlugCharsAppend(a: string, b: string)
    requires SlugChars(a) && SlugChars(b)
    ensures SlugChars(a + b)
  {
    assert forall i :: |a| <= i < |a + b| ==> (a + b)[i] == b[i - |a|];
  }

  /** A client id is the sanitised name followed by "_" and the first
   *  eight digits of the random UUID. */
  lemma ClientIdParts(name: string, suffix: string)
    requires IsUuidHex(suffix)
    ensures ClientId(name, suffix) == Sanitize(name) + "_" + suffix[..8]
  {
    assert UuidText(suffix)[..8] == suffix[..8];
  }

  /** Letters, digits and underscores, ending with an underscore and eight
   *  hexadecimal digits. */
  predicate ClientIdForm(id: string)
  {
    |id| >= 9 && id[|id| - 9] == '_' && (forall i :: |id| - 8 <= i < |id| ==> IsHexDigit(id[i]))
    && SlugChars(id)
  }

  /** A client id is made of letters, digits and underscores, and ends with
   *  an underscore and eight hexadecimal digits. */
  lemma ClientIdShape(name: string, suffix: string)
    requires IsUuidHex(suffix)
    ensures ClientIdForm(ClientId(name, suffix))
  {
    var sanitized := Sanitize(name);
    ClientIdParts(name, suffix);
    SanitizeShape(name);
    assert SlugChars(sanitized);
    SuffixedShape(sanitized, suffix);
  }

  lemma SuffixedShape(s: string, suffix: string)
    requires SlugChars(s) && IsUuidHex(suffix)
    ensures ClientIdForm(s + "_" + suffix[..8])
  {
    var tail := "_" + suffix[..8];
    assert forall i :: 1 <= i < 9 ==> tail[i] == suffix[i - 1] && IsHexDigit(suffix[i - 1]);
    SlugCharsAppend(s, tail);
    assert s + "_" + suffix[..8] == s + tail;
    assert forall i :: |s| <= i < |s| + 9 ==> (s + tail)[i] == tail[i - |s|];
  }

  /** generateClientSecret: "sk_" and the digits of two random UUIDs. */
  function ClientSecret(h1: string, h2: string): string
    requires IsUuidHex(h1) && IsUuidHex(h2)
  {
    "sk_" + RemoveDashes(UuidText(h1)) + RemoveDashes(UuidText(h2))
  }

  /** A secret is "sk_" followed by 64 hexadecimal digits. */
  lemma ClientSecretShape(h1: string, h2: string)
    requires IsUuidHex(h1) && IsUuidHex(h2)
    ensures var s := ClientSecret(h1, h2);
            |s| == 67 && s[..3] == "sk_" && forall i :: 3 <= i < 67 ==> IsHexDigit(s[i])
  {
    UndashedUuid(h1);
    UndashedUuid(h2);
    var s := ClientSecret(h1, h2);
    assert s == "sk_" + h1 + h2;
    assert forall i :: 3 <= i < 35 ==> s[i] == h1[i - 3];
    assert forall i :: 35 <= i < 67 ==> s[i] == h2[i - 35];
  }

  // ---------------------------------------------------------------- the api_clients table

  datatype ApiClient = ApiClient(
    id: Uuid,
    tenantId: Uuid,
    clientId: string,
    clientName: string,
    clientType: string,
    authMethod: string,
    clientSecretHash: Option<string>,
    allowedScopes: Option<seq<string>>,
    allowedIps: Option<seq<string>>,
    rateLimitPerHour: Option<int>,
    redirectUris: Option<seq<string>>,
    description: Option<string>,
    status: string,
    createdAt: Instant,
    updatedAt: Instant)

  type ClientTable = map<Uuid, ApiClient>

  datatype CreateRequest = CreateRequest(
    tenantId: Uuid,
    name: string,
    clientType: string,
    authMethod: string,
    scopes: Option<seq<string>>,
    allowedIps: Option<seq<string>>,
    redirectUris: Option<seq<string>>,
    rateLimitPerHour: Option<int>,
    description: Option<string>)

  datatype UpdateRequest = UpdateRequest(
    status: Option<string>,
    scopes: Option<seq<string>>,
    allowedIps: Option<seq<string>>,
    rateLimitPerHour: Option<int>,
    rotateSecret: Option<bool>)

  /** The creation response, the only place a new secret is shown. */
  datatype CreateResponse = CreateResponse(
    id: Uuid,
    clientId: string,
    clientSecret: Option<string>,
    name: string,
    authMethod: string,
    scopes: seq<string>,
    status: string)

  /** ApiClientResponse: the client without its secret hash. */
  datatype ClientView = ClientView(
    id: Uuid,
    tenantId: Uuid,
    clientId: string,
    name: string,
    clientType: string,
    authMethod: string,
    scopes: seq<string>,
    allowedIps: seq<string>,
    rateLimitPerHour: Option<int>,
    status: string,
    description: Option<string>,
    createdAt: Instant,
    updatedAt: Instant)

  /** The replies of the lookup, update and delete endpoints. */
  datatype Reply =
    | NotFound(error: string, message: string)
    | Found(client: ClientView)
    | Updated(client: ClientView, newClientSecret: Option<string>)
    | Revoked(message: string, clientId: string)

  function StatusCode(r: Reply): int
  {
    if r.NotFound? then 404 else 200
  }

  function ClientNotFound(id: Uuid): Reply
  {
    NotFound("API_CLIENT_NOT_FOUND", "API client not found: " + id)
  }

  /** Whether an authentication method works with a client secret. */
  predicate UsesSecret(authMethod: string)
  {
    authMethod == "API_KEY" || authMethod == "OAUTH"
  }

  /** The status a new client starts in. */
  function InitialStatus(authMethod: string): string
  {
    if authMethod == "MTLS" then "PENDING_CERTIFICATE" else "ACTIVE"
  }

  /** The lists of a request or a row, with null read as empty. */
  function OrEmpty(xs: Option<seq<string>>): seq<string>
  {
    if xs.Some? then xs.value else []
  }

  /** mapToResponse */
  function View(c: ApiClient): (v: ClientView)
    ensures v.id == c.id && v.clientId == c.clientId && v.status == c.status
    ensures v.scopes == OrEmpty(c.allowedScopes) && v.allowedIps == OrEmpty(c.allowedIps)
  {
    ClientView(c.id, c.tenantId, c.clientId, c.clientName, c.clientType, c.authMethod, OrEmpty(c.allowedScopes),
               OrEmpty(c.allowedIps), c.rateLimitPerHour, c.status, c.description, c.createdAt, c.updatedAt)
  }

  /** The row a creation inserts. */
  function NewClient(req: CreateRequest, id: Uuid, clientId: string, hash: Option<string>, now: Instant): ApiClient
  {
    ApiClient(id, req.tenantId, clientId, req.name, req.clientType, req.authMethod, hash,
              Some(OrEmpty(req.scopes)), req.allowedIps,
              Some(if req.rateLimitPerHour.Some? then req.rateLimitPerHour.value else 1000),
              req.redirectUris, req.description, InitialStatus(req.authMethod), now, now)
  }

  /** createApiClient. The random UUIDs are parameters: `suffix` for the
   *  client id, `h1` and `h2` for the secret, `id` for the row; `encode`
   *  is the password encoder. The row is inserted under `id`. */
  function Create(t: ClientTable, req: CreateRequest, id: Uuid, suffix: string, h1: string, h2: string,
                  encode: string -> string, now: Instant): (r: (CreateResponse, ClientTable))
    requires IsUuidHex(suffix) && IsUuidHex(h1) && IsUuidHex(h2)
    ensures id in r.1 && r.1 == t[id := r.1[id]]
  {
    var clientId := ClientId(req.name, suffix);
    var secret := if UsesSecret(req.authMethod) then Some(ClientSecret(h1, h2)) else None;
    var hash := if secret.Some? then Some(encode(secret.value)) else None;
    var c := NewClient(req, id, clientId, hash, now);
    (CreateResponse(id, clientId, secret, req.name, req.authMethod, OrEmpty(req.scopes), c.status), t[id := c])
  }

  /** What a creation stores and shows: the client id from the name; a
   *  secret, shown once and stored hashed, exactly for API_KEY and OAUTH
   *  clients; PENDING_CERTIFICATE for MTLS clients and ACTIVE for the
   *  rest; 1000 requests per hour and no scopes unless given. */
  lemma CreateRules(t: ClientTable, req: CreateRequest, id: Uuid, suffix: string, h1: string, h2: string,
                    encode: string -> string, now: Instant)
    requires IsUuidHex(suffix) && IsUuidHex(h1) && IsUuidHex(h2)
    ensures var r := Create(t, req, id, suffix, h1, h2, encode, now);
            var c := r.1[id];
            c.id == id && c.tenantId == req.tenantId && c.clientName == req.name && c.authMethod == req.authMethod
            && c.clientId == ClientId(req.name, suffix) && r.0.clientId == c.clientId
            && (c.status == "PENDING_CERTIFICATE" <==> req.authMethod == "MTLS")
            && (req.authMethod != "MTLS" ==> c.status == "ACTIVE") && r.0.status == c.status
            && c.allowedScopes == Some(r.0.scopes)
            && (req.scopes.None? ==> r.0.scopes == []) && (req.scopes.Some? ==> r.0.scopes == req.scopes.value)
            && (req.rateLimitPerHour.None? ==> c.rateLimitPerHour == Some(1000))
            && (req.rateLimitPerHour.Some? ==> c.rateLimitPerHour == req.rateLimitPerHour)
            && (r.0.clientSecret.Some? <==> req.authMethod == "API_KEY" || req.authMethod == "OAUTH")
            && (r.0.clientSecret.None? ==> c.clientSecretHash.None?)
            && (r.0.clientSecret.Some? ==> c.clientSecretHash == Some(encode(r.0.clientSecret.value))
                                           && r.0.clientSecret.value == ClientSecret(h1, h2))
            && c.createdAt == now && c.updatedAt == now
  {
  }

  /** getApiClient */
  function Get(t: ClientTable, id: Uuid): (r: Reply)
    ensures id !in t <==> r == ClientNotFound(id)
    ensures id in t ==> r == Found(View(t[id]))
  {
    if id !in t then ClientNotFound(id) else Found(View(t[id]))
  }

  /** Whether an update rotates the client's secret: asked for, and the
   *  client authenticates with one. */
  predicate Rotates(c: ApiClient, req: UpdateRequest)
  {
    req.rotateSecret == Some(true) && UsesSecret(c.authMethod)
  }

  /** A field of the update request: kept when null, replaced otherwise. */
  function Patch<T>(old_: T, given: Option<T>): T
  {
    if given.Some? then given.value else old_
  }

  /** The row an update leaves: the rotated secret's hash when `Rotates`,
   *  every non-null field of the request in place of the stored one. */
  function Patched(c: ApiClient, req: UpdateRequest, hash: string, now: Instant): ApiClient
  {
    c.(clientSecretHash := if Rotates(c, req) then Some(hash) else c.clientSecretHash,
       status := Patch(c.status, req.status),
       allowedScopes := Patch(c.allowedScopes, if req.scopes.Some? then Some(req.scopes) else None),
       rateLimitPerHour := Patch(c.rateLimitPerHour, if req.rateLimitPerHour.Some? then Some(req.rateLimitPerHour) else None),
       allowedIps := Patch(c.allowedIps, if req.allowedIps.Some? then Some(req.allowedIps) else None),
       updatedAt := now)
  }

  /** updateApiClient: an unknown id is 404 with nothing written; otherwise
   *  the patched row is written back and shown, with the new secret when
   *  one was generated. */
  function Update(t: ClientTable, id: Uuid, req: UpdateRequest, h1: string, h2: string, encode: string -> string,
                  now: Instant): (r: (Reply, ClientTable))
    requires IsUuidHex(h1) && IsUuidHex(h2)
    ensures id !in t <==> r == (ClientNotFound(id), t)
    ensures r.1.Keys == t.Keys && forall other :: other in t && other != id ==> r.1[other] == t[other]
  {
    if id !in t then (ClientNotFound(id), t)
    else
      var c := t[id];
      var secret := ClientSecret(h1, h2);
      var c1 := Patched(c, req, encode(secret), now);
      (Updated(View(c1), if Rotates(c, req) then Some(secret) else None), t[id := c1])
  }

  /** The update rules: the secret is rotated, and shown once, exactly when
   *  asked for on an API_KEY or OAUTH client; a null field of the request
   *  leaves the stored value, a given one replaces it; the identity of
   *  the client does not change. */
  lemma UpdateRules(t: ClientTable, id: Uuid, req: UpdateRequest, h1: string, h2: string, encode: string -> string,
                    now: Instant)
    requires IsUuidHex(h1) && IsUuidHex(h2) && id in t
    ensures var r := Update(t, id, req, h1, h2, encode, now);
            var c := t[id];
            var c1 := r.1[id];
            r.0.Updated? && r.0.client == View(c1)
            && (r.0.newClientSecret.Some? <==> req.rotateSecret == Some(true) && (c.authMethod == "API_KEY" || c.authMethod == "OAUTH"))
            && (r.0.newClientSecret.Some? ==> r.0.newClientSecret.value == ClientSecret(h1, h2)
                                              && c1.clientSecretHash == Some(encode(ClientSecret(h1, h2))))
            && (r.0.newClientSecret.None? ==> c1.clientSecretHash == c.clientSecretHash)
            && (req.status.None? ==> c1.status == c.status) && (req.status.Some? ==> c1.status == req.status.value)
            && (req.scopes.None? ==> c1.allowedScopes == c.allowedScopes) && (req.scopes.Some? ==> c1.allowedScopes == req.scopes)
            && (req.rateLimitPerHour.None? ==> c1.rateLimitPerHour == c.rateLimitPerHour)
            && (req.rateLimitPerHour.Some? ==> c1.rateLimitPerHour == req.rateLimitPerHour)
            && (req.allowedIps.None? ==> c1.allowedIps == c.allowedIps) && (req.allowedIps.Some? ==> c1.allowedIps == req.allowedIps)
            && c1.id == c.id && c1.clientId == c.clientId && c1.authMethod == c.authMethod && c1.tenantId == c.tenantId
            && c1.createdAt == c.createdAt && c1.updatedAt == now
  {
  }

  /** deleteApiClient: a soft delete that sets the status to REVOKED. */
  function Delete(t: ClientTable, id: Uuid, now: Instant): (r: (Reply, ClientTable))
    ensures id !in t ==> r == (ClientNotFound(id), t)
    ensures id in t ==> r.0 == Revoked("API client revoked successfully", t[id].clientId)
                        && r.1 == t[id := t[id].(status := "REVOKED", updatedAt := now)]
  {
    if id !in t then (ClientNotFound(id), t)
    else (Revoked("API client revoked successfully", t[id].clientId), t[id := t[id].(status := "REVOKED", updatedAt := now)])
  }

  /** Deleting keeps the row: only its status, now REVOKED, and its update
   *  time change, and a second delete finds it and revokes it again. */
  lemma DeleteIsSoft(t: ClientTable, id: Uuid, now: Instant, later: Instant)
    requires id in t
    ensures var t1 := Delete(t, id, now).1;
            t1.Keys == t.Keys && t1[id].status == "REVOKED"
            && t1[id] == t[id].(status := t1[id].status, updatedAt := t1[id].updatedAt)
            && Delete(t1, id, later).0 == Delete(t, id, now).0
            && Delete(t1, id, later).1[id].status == "REVOKED"
  {
  }

  /** A created client can be looked up, and the lookup shows what the
   *  creation response showed, without the secret. */
  lemma CreatedClientIsFound(t: ClientTable, req: CreateRequest, id: Uuid, suffix: string, h1: string, h2: string,
                             encode: string -> string, now: Instant)
    requires IsUuidHex(suffix) && IsUuidHex(h1) && IsUuidHex(h2)
    ensures var r := Create(t, req, id, suffix, h1, h2, encode, now);
            var g := Get(r.1, id);
            g.Found? && g.client.id == r.0.id && g.client.clientId == r.0.clientId && g.client.status == r.0.status
            && g.client.scopes == r.0.scopes && g.client.name == r.0.name && g.client.authMethod == r.0.authMethod
  {
  }

  /** An update that asks for nothing only moves the update time. */
  lemma EmptyUpdateTouchesNothing(t: ClientTable, id: Uuid, h1: string, h2: string, encode: string -> string,
                                  now: Instant)
    requires IsUuidHex(h1) && IsUuidHex(h2) && id in t
    ensures var t1 := Update(t, id, UpdateRequest(None, None, None, None, None), h1, h2, encode, now).1;
            t1 == t[id := t[id].(updatedAt := now)]
  {
  }

  // ---------------------------------------------------------------- the controller

  class Controller {
    var clients: ClientTable

    constructor(t: ClientTable)
      ensures clients == t
    {
      clients := t;
    }

    method CreateApiClient(req: CreateRequest, id: Uuid, suffix: string, h1: string, h2: string,
                           encode: string -> string, now: Instant) returns (response: CreateResponse)
      requires IsUuidHex(suffix) && IsUuidHex(h1) && IsUuidHex(h2)
      modifies this
      ensures (response, clients) == Create(old(clients), req, id, suffix, h1, h2, encode, now)
    {
      var clientId := ClientId(req.name, suffix);
      var clientSecret: Option<string> := None;
      var clientSecretHash: Option<string> := None;
      if req.authMethod == "API_KEY" || req.authMethod == "OAUTH" {
        clientSecret := Some(ClientSecret(h1, h2));
        clientSecretHash := Some(encode(clientSecret.value));
      }
      var client := ApiClient(id, req.tenantId, clientId, req.name, req.clientType, req.authMethod,
                              clientSecretHash, Some(OrEmpty(req.scopes)), req.allowedIps,
                              Some(if req.rateLimitPerHour.Some? then req.rateLimitPerHour.value else 1000),
                              req.redirectUris, req.description, "", now, now);
      if req.authMethod == "MTLS" {
        client := client.(status := "PENDING_CERTIFICATE");
      } else {
        client := client.(status := "ACTIVE");
      }
      assert clientSecret == if UsesSecret(req.authMethod) then Some(ClientSecret(h1, h2)) else None;
      assert clientSecretHash == if clientSecret.Some? then Some(encode(clientSecret.value)) else None;
      assert client == NewClient(req, id, clientId, clientSecretHash, now);
      clients := clients[id := client];
      response := CreateResponse(id, clientId, clientSecret, req.name, req.authMethod, OrEmpty(req.scopes),
                                 client.status);
    }

    method GetApiClient(id: Uuid) returns (reply: Reply)
      ensures reply == Get(clients, id)
    {
      if id !in clients {
        return ClientNotFound(id);
      }
      reply := Found(View(clients[id]));
    }

    method UpdateApiClient(id: Uuid, req: UpdateRequest, h1: string, h2: string, encode: string -> string,
                           now: Instant) returns (reply: Reply)
      requires IsUuidHex(h1) && IsUuidHex(h2)
      modifies this
      ensures (reply, clients) == Update(old(clients), id, req, h1, h2, encode, now)
    {
      if id !in clients {
        return ClientNotFound(id);
      }
      var client := clients[id];
      var newSecret: Option<string> := None;
      if req.rotateSecret == Some(true) {
        if client.authMethod == "API_KEY" || client.authMethod == "OAUTH" {
          newSecret := Some(ClientSecret(h1, h2));
          client := client.(clientSecretHash := Some(encode(newSecret.value)));
        }
      }
      if req.status.Some? {
        client := client.(status := req.status.value);
      }
      if req.scopes.Some? {
        client := client.(allowedScopes := req.scopes);
      }
      if req.rateLimitPerHour.Some? {
        client := client.(rateLimitPerHour := req.rateLimitPerHour);
      }
      if req.allowedIps.Some? {
        client := client.(allowedIps := req.allowedIps);
      }
      client := client.(updatedAt := now);
      assert client == Patched(old(clients)[id], req, encode(ClientSecret(h1, h2)), now);
      clients := clients[id := client];
      reply := Updated(View(client), newSecret);
    }

    method DeleteApiClient(id: Uuid, now: Instant) returns (reply: Reply)
      modifies this
      ensures (reply, clients) == Delete(old(clients), id, now)
    {
      if id !in clients {
        return ClientNotFound(id);
      }
      var client := clients[id];
      client := client.(status := "REVOKED");
      client := client.(updatedAt := now);
      clients := clients[id := client];
      reply := Revoked("API client revoked successfully", client.clientId);
    }
  }
}
