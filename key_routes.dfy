/** The dashboard's key-management routes: create a key, revoke an owned key. */
module KeyRoutes {
  import opened Wrappers
  import opened Strings
  import opened Http
  import opened Schema
  import opened Stores
  import opened ApiKeys
  import opened RequestSchemas
  import opened InternalAuth

  // ---------------------------------------------------------------------
  // POST /api/internal/api-keys/create

  const TierNames := ["STARTER", "GROWTH", "ENTERPRISE"]
  const EnvironmentNames := ["PRODUCTION", "TESTING"]

  function ApiKeyTierFromName(s: string): (t: Option<ApiKeyTier>)
    ensures t.Some? <==> s in TierNames
    ensures t.Some? ==> ApiKeyTierName(t.value) == s
  {
    if s == "STARTER" then Some(Starter) else if s == "GROWTH" then Some(Growth)
    else if s == "ENTERPRISE" then Some(Enterprise) else None
  }

  function EnvironmentFromName(s: string): (e: Option<Environment>)
    ensures e.Some? <==> s in EnvironmentNames
    ensures e == Some(Production) <==> s == "PRODUCTION"
  {
    if s == "PRODUCTION" then Some(Production) else if s == "TESTING" then Some(Testing) else None
  }

  datatype CreateRequest = CreateRequest(name: string, tier: ApiKeyTier, environment: Environment)

  predicate CreateWellFormed(body: Json)
  {
    && body.JObj?
    && "name" in body.fields && body.fields["name"].JStr? && 1 <= |body.fields["name"].s| <= 100
    && "tier" in body.fields && body.fields["tier"].JStr? && body.fields["tier"].s in TierNames
    && "environment" in body.fields && body.fields["environment"].JStr? && body.fields["environment"].s in EnvironmentNames
  }

  /** name, then tier, then environment; the first issue is the one reported. */
  function CreateIssue(body: Json): (r: Option<Issue>)
    ensures r.None? <==> CreateWellFormed(body)
  {
    if !body.JObj? then Some(Expected("object", Some(body), ""))
    else
      var checks := [RequiredString(Field(body, "name"), "name", 1, AtLeast(1), 100, AtMost(100)),
                     EnumIssue(Field(body, "tier"), "tier", TierNames, "'STARTER' | 'GROWTH' | 'ENTERPRISE'"),
                     EnumIssue(Field(body, "environment"), "environment", EnvironmentNames, "'PRODUCTION' | 'TESTING'")];
      assert CreateWellFormed(body) <==> forall i :: 0 <= i < |checks| ==> checks[i].None? by {
        assert checks[0].None? <==> "name" in body.fields && body.fields["name"].JStr? && 1 <= |body.fields["name"].s| <= 100;
        assert checks[1].None? <==> "tier" in body.fields && body.fields["tier"].JStr? && body.fields["tier"].s in TierNames;
        assert checks[2].None? <==>
               "environment" in body.fields && body.fields["environment"].JStr? && body.fields["environment"].s in EnvironmentNames;
      }
      FirstIssue(checks)
  }

  function ParseCreateRequest(body: Json): (r: Result<CreateRequest, Issue>)
    ensures r.Success? <==> CreateWellFormed(body)
    ensures r.Failure? ==> r.error == CreateIssue(body).value
    ensures r.Success? ==> && r.value.name == body.fields["name"].s
                           && ApiKeyTierName(r.value.tier) == body.fields["tier"].s
                           && (r.value.environment == Production <==> body.fields["environment"].s == "PRODUCTION")
  {
    match CreateIssue(body)
    case Some(issue) => Failure(issue)
    case None =>
      Success(CreateRequest(body.fields["name"].s, ApiKeyTierFromName(body.fields["tier"].s).value,
                            EnvironmentFromName(body.fields["environment"].s).value))
  }

  function GeneratedJson(g: GeneratedKey): Json
  {
    JObj(map["id" := JStr(g.id), "key" := JStr(g.key), "prefix" := JStr(g.prefix), "lastFour" := JStr(g.lastFour)])
  }

  function Ok(data: Json): Response
  {
    JsonResponse(JObj(map["success" := JBool(true), "data" := data]), 200)
  }

  /**
   * 401 and 404 come before the body is read; a rejected body is 400 with the
   * first issue's message and creates nothing; otherwise the generated key,
   * plaintext included, is returned and its row inserted.
   */
  method CreateKeyRoute(db: Db, session: Option<string>, body: Result<Json, string>, random: seq<byte>,
                        sha: string -> string, newId: string, now: int)
    returns (resp: Response)
    requires |random| == 32
    modifies db`apiKeys
    ensures Authenticate(db.users, session).Failure? ==>
            resp == Authenticate(db.users, session).error && db.apiKeys == old(db.apiKeys)
    ensures Authenticate(db.users, session).Success? && body.Success? && !CreateWellFormed(body.value) ==>
            resp == InternalRouteError(CreateIssue(body.value).value.message, 400) && db.apiKeys == old(db.apiKeys)
    ensures Authenticate(db.users, session).Success? && body.Success? && CreateWellFormed(body.value) ==>
            var c := ParseCreateRequest(body.value).value;
            var key := FullKey(c.environment, random);
            var user := db.users[Authenticate(db.users, session).value];
            if sha(key) in old(db.apiKeys) then resp == Unhandled && db.apiKeys == old(db.apiKeys)
            else
              && resp == Ok(GeneratedJson(GeneratedKey(newId, key, Take(key, 20), LastFour(key))))
              && db.apiKeys == old(db.apiKeys)[sha(key) := NewKeyRecord(newId, user.id, c.name, c.tier, c.environment, key, sha(key), now)]
    ensures Authenticate(db.users, session).Success? && body.Failure? ==> resp == Unhandled && db.apiKeys == old(db.apiKeys)
    ensures KeyTableValid(old(db.apiKeys)) && !HasKeyId(old(db.apiKeys), newId) ==> KeyTableValid(db.apiKeys)
  {
    var caller := Authenticate(db.users, session);
    if caller.Failure? {
      return caller.error;
    }
    var user := db.users[caller.value];
    if body.Failure? {
      return Unhandled;
    }
    var validation := ParseCreateRequest(body.value);
    if validation.Failure? {
      return InternalRouteError(validation.error.message, 400);
    }
    var c := validation.value;
    var result := GenerateApiKey(db, user.id, c.name, c.tier, c.environment, random, sha, newId, now);
    if result.Failure? {
      return Unhandled;
    }
    resp := Ok(GeneratedJson(result.value));
  }

  /** An over-long name is reported with the library's wording, before tier and environment are looked at. */
  lemma NameCheckedFirst(body: Json)
    requires body.JObj? && "name" in body.fields && body.fields["name"].JStr? && |body.fields["name"].s| > 100
    ensures ParseCreateRequest(body) == Failure(Issue("String must contain at most 100 character(s)", "name"))
  {
    var checks := [RequiredString(Field(body, "name"), "name", 1, AtLeast(1), 100, AtMost(100)),
                   EnumIssue(Field(body, "tier"), "tier", TierNames, "'STARTER' | 'GROWTH' | 'ENTERPRISE'"),
                   EnumIssue(Field(body, "environment"), "environment", EnvironmentNames, "'PRODUCTION' | 'TESTING'")];
    assert checks[0] == Some(Issue(AtMost(100), "name"));
    assert CreateIssue(body) == FirstIssue(checks);
    assert FirstIssue(checks) == checks[0];
    AtMostHundredText();
  }

  lemma AtMostHundredText()
    ensures AtMost(100) == "String must contain at most 100 character(s)"
  {
    assert NatToString(100) == "100" by {
      assert NatToString(1) == "1";
      assert NatToString(10) == "10";
    }
  }

  /** A generated key returned by the route is accepted by the key-format check, with `live` exactly for production. */
  lemma CreatedKeyValidates(c: CreateRequest, random: seq<byte>)
    requires |random| == 32
    ensures IsWellFormedKey(FullKey(c.environment, random))
    ensures FullKey(c.environment, random)[3..7] == (if c.environment == Production then "live" else "test")
  {
    GeneratedKeyWellFormed(c.environment, random);
  }

  // ---------------------------------------------------------------------
  // POST /api/internal/api-keys/revoke

  /** `findFirst({ where: { id: keyId, userId } })`: ownership is id and owner together, whatever the key's state. */
  predicate Owns(keys: map<string, ApiKey>, userId: string, keyId: string)
  {
    exists h :: h in keys && keys[h].id == keyId && keys[h].userId == userId
  }

  predicate HasAnyKey(keys: map<string, ApiKey>, userId: string)
  {
    exists h :: h in keys && keys[h].userId == userId
  }

  const KeyNotFoundResponse := InternalRouteError("API key not found", 404)
  const Revoked := JsonResponse(JObj(map["success" := JBool(true)]), 200)

  /**
   * A key the caller owns is revoked and evicted from the cache; a key id
   * the caller does not own (including another user's key) is 404 with no
   * write.  Re-revoking an owned, already revoked key succeeds again, and
   * its reason is then kept, cleared or replaced as the body's `reason` is
   * absent, null or a string.  A body that does not parse, a null body
   * (which cannot be destructured) and a reason of any other type throw:
   * 500 with no write.
   */
  method RevokeKeyRoute(db: Db, redis: Redis, session: Option<string>, body: Result<Json, string>, now: int)
    returns (resp: Response)
    requires KeyTableValid(db.apiKeys)
    modifies db`apiKeys, redis`keyCache
    ensures Authenticate(db.users, session).Failure? ==>
            resp == Authenticate(db.users, session).error && db.apiKeys == old(db.apiKeys) && redis.keyCache == old(redis.keyCache)
    ensures Authenticate(db.users, session).Success? && (body.Failure? || body.value.JNull?) ==>
            resp == Unhandled && db.apiKeys == old(db.apiKeys) && redis.keyCache == old(redis.keyCache)
    ensures Authenticate(db.users, session).Success? && body.Success? &&
            Field(body.value, "keyId").Some? && Field(body.value, "keyId").value.JStr? ==>
            var user := db.users[Authenticate(db.users, session).value];
            var keyId := Field(body.value, "keyId").value.s;
            var reason := AssignOf(Field(body.value, "reason"));
            if !Owns(old(db.apiKeys), user.id, keyId) then
              resp == KeyNotFoundResponse && db.apiKeys == old(db.apiKeys) && redis.keyCache == old(redis.keyCache)
            else if reason.BadAssign? then
              resp == Unhandled && db.apiKeys == old(db.apiKeys) && redis.keyCache == old(redis.keyCache)
            else
              && resp == Revoked
              && exists h :: h in old(db.apiKeys) && old(db.apiKeys)[h].id == keyId && old(db.apiKeys)[h].userId == user.id
                             && db.apiKeys == old(db.apiKeys)[h := RevokedRecord(old(db.apiKeys)[h], reason, now)]
                             && redis.keyCache == old(redis.keyCache) - {CacheKey(h)}
    ensures Authenticate(db.users, session).Success? && body.Success? && !body.value.JNull? && Field(body.value, "keyId").None? ==>
            var user := db.users[Authenticate(db.users, session).value];
            resp == (if HasAnyKey(old(db.apiKeys), user.id) then Unhandled else KeyNotFoundResponse)
            && db.apiKeys == old(db.apiKeys) && redis.keyCache == old(redis.keyCache)
    ensures Authenticate(db.users, session).Success? && body.Success? &&
            Field(body.value, "keyId").Some? && !Field(body.value, "keyId").value.JStr? ==>
            resp == Unhandled && db.apiKeys == old(db.apiKeys) && redis.keyCache == old(redis.keyCache)
  {
    var caller := Authenticate(db.users, session);
    if caller.Failure? {
      return caller.error;
    }
    var user := db.users[caller.value];
    if body.Failure? || body.value.JNull? {
      // `request.json()` throws, or `const { keyId, reason } = null` does.
      return Unhandled;
    }
    var keyId := Field(body.value, "keyId");
    if keyId.None? {
      // An absent id drops out of the filter: the caller's first key matches, and the update by an absent id throws.
      return if HasAnyKey(db.apiKeys, user.id) then Unhandled else KeyNotFoundResponse;
    }
    if !keyId.value.JStr? {
      return Unhandled;
    }
    if !Owns(db.apiKeys, user.id, keyId.value.s) {
      return KeyNotFoundResponse;
    }
    var h :| h in db.apiKeys && db.apiKeys[h].id == keyId.value.s && db.apiKeys[h].userId == user.id;
    var result := RevokeApiKey(db, redis, keyId.value.s, AssignOf(Field(body.value, "reason")), now);
    if result.Failure? {
      return Unhandled;
    }
    assert result.value.hashedKey == h by {
      assert old(db.apiKeys)[result.value.hashedKey].id == keyId.value.s;
    }
    resp := Revoked;
  }

  /** Ownership needs the caller's own id: a key owned by someone else is never found for this caller. */
  lemma OwnershipIsPerUser(keys: map<string, ApiKey>, h: string, caller: string)
    requires KeyTableValid(keys) && h in keys && keys[h].userId != caller
    ensures !Owns(keys, caller, keys[h].id)
  {
  }
}
