/**
 * The GCM and APN device handlers. Each request is authorised, routed by
 * the handler's path pattern, and then either replaces the device's row
 * (PUT), deletes it (DELETE) or is refused; exactly one status is written.
 * The two handlers differ only in their route, captured in `Route`.
 */
module Handlers {
  import opened Wrappers
  import opened Matching
  import Utils
  import opened Data
  import opened Context

  const StatusOK := 200
  const StatusCreated := 201
  const StatusBadRequest := 400
  const StatusUnauthorized := 401
  const StatusInternalServerError := 500

  /**
   * What distinguishes a vendor handler: its path pattern, the vendor tag it
   * writes, and the status of a successful DELETE.
   */
  datatype Route = Route(pattern: Pattern, vendor: string, deleteStatus: int)

  /** `/gcm/devices/(?P<token>[\w:-]*)`; a successful DELETE answers 201. */
  const GcmRoute := Route(Pattern("/gcm/devices/", WordColonDash, "token"), "GCM", StatusCreated)

  /** `/apn/devices/(?P<token>[\w]*)`; a successful DELETE answers 200. */
  const ApnRoute := Route(Pattern("/apn/devices/", Word, "token"), "APN", StatusOK)

  /** `path, _ := url.QueryUnescape(r.URL.Path)`: a failed unescape leaves "". */
  function UnescapedPath(unescaped: Option<string>): string {
    if unescaped.Some? then unescaped.value else ""
  }

  /** The device token a path routes to: the `token` capture, or None when the pattern does not match. */
  function RouteToken(route: Route, path: string): Option<string> {
    if MatchString(route.pattern, path) then
      var captures := Utils.NamedCaptures(FindStringSubmatch(route.pattern, path), SubexpNames(route.pattern));
      Some(Utils.Get(captures, route.pattern.group))
    else
      None
  }

  /** The row a successful PUT writes. */
  function RowOf(vendor: string, d: Data): Row {
    Row(vendor, d.userInfo, d.clab.appID, d.clab.language)
  }

  /** The status written and the table afterwards. */
  datatype Response = Response(status: int, devices: map<string, Row>)

  /**
   * The decision `ServeHTTP` makes for one request. `unescaped` is the
   * outcome of unescaping the URL path, `decoded` that of decoding the body
   * into `NewData()`, and `storeOk` whether the database statement succeeded.
   */
  function Respond(route: Route, authKey: string, header: string, unescaped: Option<string>,
                   verb: string, decoded: Option<Data>, storeOk: bool,
                   devices: map<string, Row>): Response
  {
    Decide(route, ValidateAuthToken(authKey, header), RouteToken(route, UnescapedPath(unescaped)),
           verb, decoded, storeOk, devices)
  }

  /**
   * The part of `Respond` after the header check (`authorised`) and the
   * path match (`routed`, the captured token if any).
   */
  function Decide(route: Route, authorised: bool, routed: Option<string>, verb: string,
                  decoded: Option<Data>, storeOk: bool, devices: map<string, Row>): Response
  {
    if !authorised then Response(StatusUnauthorized, devices)
    else
      match routed
      case None => Response(StatusBadRequest, devices)
      case Some(token) =>
        if verb == "PUT" then
          if decoded.None? then Response(StatusBadRequest, devices)
          else if !storeOk then Response(StatusInternalServerError, devices)
          else Response(StatusCreated, devices[token := RowOf(route.vendor, decoded.value)])
        else if verb == "DELETE" then
          if !storeOk then Response(StatusInternalServerError, devices)
          else Response(route.deleteStatus, devices - {token})
        else Response(StatusBadRequest, devices)
  }

  /**
   * The token is the longest class run after the first occurrence of the
   * route prefix; no occurrence means no route.
   */
  lemma RouteTokenIsRun(route: Route, path: string)
    requires route.pattern.group != ""
    ensures RouteToken(route, path) ==
              match IndexOf(path, route.pattern.literal)
              case None => None
              case Some(i) => Some(LongestRun(path[i + |route.pattern.literal|..], route.pattern.cls))
  {
    var p := route.pattern;
    var found := FindStringSubmatch(p, path);
    if found.Some? {
      Utils.NamedCapturesSpec(found.value, SubexpNames(p));
      assert Utils.LastWithName(SubexpNames(p), 1, 2);
    }
  }

  /** The two routes the server registers. */
  predicate IsVendorRoute(route: Route) {
    route == GcmRoute || route == ApnRoute
  }

  /** An invalid Authorization header gives 401 and leaves the table alone, whatever else the request holds. */
  lemma UnauthorizedIsInert(route: Route, authKey: string, header: string, unescaped: Option<string>,
                            verb: string, decoded: Option<Data>, storeOk: bool, devices: map<string, Row>)
    requires !ValidateAuthToken(authKey, header)
    ensures Respond(route, authKey, header, unescaped, verb, decoded, storeOk, devices)
            == Response(StatusUnauthorized, devices)
  {
  }

  /**
   * A path without the route prefix gives 400 with the table unchanged; so
   * does a failed unescape, which leaves the empty path.
   */
  lemma UnroutedIsBadRequest(route: Route, authKey: string, header: string, unescaped: Option<string>,
                             verb: string, decoded: Option<Data>, storeOk: bool, devices: map<string, Row>)
    requires IsVendorRoute(route)
    requires ValidateAuthToken(authKey, header)
    requires unescaped.Some? ==> forall j :: 0 <= j <= |unescaped.value| ==> !OccursAt(unescaped.value, route.pattern.literal, j)
    ensures Respond(route, authKey, header, unescaped, verb, decoded, storeOk, devices)
            == Response(StatusBadRequest, devices)
  {
    RouteTokenIsRun(route, UnescapedPath(unescaped));
  }

  /** A PUT whose body does not decode gives 400 with the table unchanged. */
  lemma BadBodyIsBadRequest(route: Route, authKey: string, header: string, path: string,
                            storeOk: bool, devices: map<string, Row>)
    requires ValidateAuthToken(authKey, header) && MatchString(route.pattern, path)
    ensures Respond(route, authKey, header, Some(path), "PUT", None, storeOk, devices)
            == Response(StatusBadRequest, devices)
  {
  }

  /**
   * A successful PUT gives 201; the routed token's row becomes exactly the
   * vendor tag and the decoded fields, replacing any previous row, and every
   * other row is unchanged.
   */
  lemma PutReplacesRow(route: Route, authKey: string, header: string, path: string,
                       d: Data, devices: map<string, Row>)
    requires IsVendorRoute(route)
    requires ValidateAuthToken(authKey, header) && MatchString(route.pattern, path)
    ensures var token := LongestRun(path[IndexOf(path, route.pattern.literal).value + |route.pattern.literal|..], route.pattern.cls);
            var r := Respond(route, authKey, header, Some(path), "PUT", Some(d), true, devices);
            && r.status == StatusCreated
            && r.devices.Keys == devices.Keys + {token}
            && r.devices[token] == Row(route.vendor, d.userInfo, d.clab.appID, d.clab.language)
            && forall t :: t in devices && t != token ==> r.devices[t] == devices[t]
  {
    RouteTokenIsRun(route, path);
  }

  /** A store failure on PUT or DELETE gives 500 and nothing else happens. */
  lemma StoreFailureIsServerError(route: Route, authKey: string, header: string, path: string,
                                  verb: string, decoded: Option<Data>, devices: map<string, Row>)
    requires ValidateAuthToken(authKey, header) && MatchString(route.pattern, path)
    requires verb == "PUT" || verb == "DELETE"
    requires verb == "PUT" ==> decoded.Some?
    ensures Respond(route, authKey, header, Some(path), verb, decoded, false, devices)
            == Response(StatusInternalServerError, devices)
  {
  }

  /**
   * A successful DELETE gives the route's delete status (201 for GCM, 200
   * for APN), the token is absent afterwards and the other rows are
   * untouched; whether the token was present makes no difference.
   */
  lemma DeleteRemovesToken(route: Route, authKey: string, header: string, path: string,
                           decoded: Option<Data>, devices: map<string, Row>, previous: Row)
    requires IsVendorRoute(route)
    requires ValidateAuthToken(authKey, header) && MatchString(route.pattern, path)
    ensures var token := LongestRun(path[IndexOf(path, route.pattern.literal).value + |route.pattern.literal|..], route.pattern.cls);
            var r := Respond(route, authKey, header, Some(path), "DELETE", decoded, true, devices);
            && r.status == route.deleteStatus
            && r.devices.Keys == devices.Keys - {token}
            && (forall t :: t in r.devices ==> r.devices[t] == devices[t])
            && r == Respond(route, authKey, header, Some(path), "DELETE", decoded, true, devices[token := previous])
  {
    RouteTokenIsRun(route, path);
    var token := LongestRun(path[IndexOf(path, route.pattern.literal).value + |route.pattern.literal|..], route.pattern.cls);
    assert devices - {token} == devices[token := previous] - {token};
  }

  /** Any method other than PUT and DELETE on a routed path gives 400 with the table unchanged. */
  lemma OtherMethodIsBadRequest(route: Route, authKey: string, header: string, path: string,
                                verb: string, decoded: Option<Data>, storeOk: bool, devices: map<string, Row>)
    requires ValidateAuthToken(authKey, header)
    requires verb != "PUT" && verb != "DELETE"
    ensures Respond(route, authKey, header, Some(path), verb, decoded, storeOk, devices)
            == Response(StatusBadRequest, devices)
  {
  }

  /**
   * For either vendor every request ends in one of the five statuses, and
   * the table changes only on a 2xx answer.
   */
  lemma OneStatusPerRequest(route: Route, authKey: string, header: string, unescaped: Option<string>,
                            verb: string, decoded: Option<Data>, storeOk: bool, devices: map<string, Row>)
    requires IsVendorRoute(route)
    ensures var r := Respond(route, authKey, header, unescaped, verb, decoded, storeOk, devices);
            && r.status in {StatusOK, StatusCreated, StatusBadRequest, StatusUnauthorized, StatusInternalServerError}
            && (r.status !in {StatusOK, StatusCreated} ==> r.devices == devices)
  {
    var ok := ValidateAuthToken(authKey, header);
    var t := RouteToken(route, UnescapedPath(unescaped));
    assert Respond(route, authKey, header, unescaped, verb, decoded, storeOk, devices)
        == Decide(route, ok, t, verb, decoded, storeOk, devices);
    assert route.deleteStatus in {StatusOK, StatusCreated};
  }

  /** Repeating a request that succeeded leaves the table as one request did. */
  lemma SuccessfulRequestIdempotent(route: Route, authKey: string, header: string, unescaped: Option<string>,
                                    verb: string, decoded: Option<Data>, devices: map<string, Row>)
    ensures var once := Respond(route, authKey, header, unescaped, verb, decoded, true, devices);
            var twice := Respond(route, authKey, header, unescaped, verb, decoded, true, once.devices);
            twice == once
  {
    var ok := ValidateAuthToken(authKey, header);
    var t := RouteToken(route, UnescapedPath(unescaped));
    var once := Decide(route, ok, t, verb, decoded, true, devices);
    assert Respond(route, authKey, header, unescaped, verb, decoded, true, devices) == once;
    assert Respond(route, authKey, header, unescaped, verb, decoded, true, once.devices)
        == Decide(route, ok, t, verb, decoded, true, once.devices);
    if ok && t.Some? && verb == "PUT" && decoded.Some? {
      var row := RowOf(route.vendor, decoded.value);
      assert devices[t.value := row][t.value := row] == devices[t.value := row];
    }
  }

  /** A PUT then a DELETE of the same token, both successful, leaves the token absent and the rest unchanged. */
  lemma PutThenDelete(route: Route, authKey: string, header: string, path: string,
                      d: Data, devices: map<string, Row>)
    requires IsVendorRoute(route)
    requires ValidateAuthToken(authKey, header) && MatchString(route.pattern, path)
    ensures var put := Respond(route, authKey, header, Some(path), "PUT", Some(d), true, devices);
            var del := Respond(route, authKey, header, Some(path), "DELETE", None, true, put.devices);
            var token := RouteToken(route, path).value;
            del.devices == devices - {token}
  {
    var token := RouteToken(route, path).value;
    assert devices[token := RowOf(route.vendor, d)] - {token} == devices - {token};
  }

  /**
   * A path that starts with the route prefix routes to the class run that
   * follows it; whatever comes after the run (for example "/extra") is ignored.
   */
  lemma PrefixedPathRoutes(route: Route, token: string, rest: string)
    requires route.pattern.group != ""
    requires AllInClass(token, route.pattern.cls)
    requires rest != [] ==> !InClass(rest[0], route.pattern.cls)
    ensures RouteToken(route, route.pattern.literal + token + rest) == Some(token)
  {
    var prefix := route.pattern.literal;
    var path := prefix + token + rest;
    assert path[..|prefix|] == prefix;
    FirstOccurrenceAtStart(path, prefix);
    RouteTokenIsRun(route, path);
    assert path[|prefix|..] == token + rest;
    LongestRunUnique(token + rest, route.pattern.cls, token);
  }

  /** GCM tokens may contain ':' and '-'. */
  lemma GcmTokenKeepsColonDash(path: string)
    requires path == "/gcm/devices/ab:c-d"
    ensures RouteToken(GcmRoute, path) == Some("ab:c-d")
  {
    assert AllInClass("ab:c-d", WordColonDash);
    assert path == GcmRoute.pattern.literal + "ab:c-d" + "";
    PrefixedPathRoutes(GcmRoute, "ab:c-d", "");
  }

  /** APN tokens stop at '-'. */
  lemma ApnTokenStopsAtDash()
    ensures RouteToken(ApnRoute, "/apn/devices/ab-cd") == Some("ab")
  {
    PrefixedPathRoutes(ApnRoute, "ab", "-cd");
    assert ApnRoute.pattern.literal + "ab" + "-cd" == "/apn/devices/ab-cd";
  }

  /** APN tokens stop at ':'. */
  lemma ApnTokenStopsAtColon(path: string)
    requires path == "/apn/devices/ab:cd"
    ensures RouteToken(ApnRoute, path) == Some("ab")
  {
    assert AllInClass("ab", Word) && !InClass(':', Word);
    assert path == ApnRoute.pattern.literal + "ab" + ":cd";
    PrefixedPathRoutes(ApnRoute, "ab", ":cd");
  }

  /** Text after the token run is ignored. */
  lemma TrailingPathIgnored()
    ensures RouteToken(GcmRoute, "/gcm/devices/abc/extra") == Some("abc")
  {
    PrefixedPathRoutes(GcmRoute, "abc", "/extra");
    assert GcmRoute.pattern.literal + "abc" + "/extra" == "/gcm/devices/abc/extra";
  }

  /** A routed, authorised, successful PUT, stated for a known token. */
  lemma RoutedPut(route: Route, authKey: string, header: string, path: string, token: string,
                  d: Data, devices: map<string, Row>)
    requires ValidateAuthToken(authKey, header) && RouteToken(route, path) == Some(token)
    ensures Respond(route, authKey, header, Some(path), "PUT", Some(d), true, devices)
            == Response(StatusCreated, devices[token := RowOf(route.vendor, d)])
  {
  }

  /** A routed, authorised, successful DELETE, stated for a known token. */
  lemma RoutedDelete(route: Route, authKey: string, header: string, path: string, token: string,
                     decoded: Option<Data>, devices: map<string, Row>)
    requires ValidateAuthToken(authKey, header) && RouteToken(route, path) == Some(token)
    ensures Respond(route, authKey, header, Some(path), "DELETE", decoded, true, devices)
            == Response(route.deleteStatus, devices - {token})
  {
  }

  /** The example path routes to "abc123" in the GCM handler. */
  lemma GcmExamplePathRoutes(path: string)
    requires path == "/gcm/devices/abc123"
    ensures RouteToken(GcmRoute, path) == Some("abc123")
  {
    assert AllInClass("abc123", WordColonDash);
    assert path == GcmRoute.pattern.literal + "abc123" + "";
    PrefixedPathRoutes(GcmRoute, "abc123", "");
  }

  /** The example path routes to "abc123" in the APN handler. */
  lemma ApnExamplePathRoutes(path: string)
    requires path == "/apn/devices/abc123"
    ensures RouteToken(ApnRoute, path) == Some("abc123")
  {
    assert AllInClass("abc123", Word);
    assert path == ApnRoute.pattern.literal + "abc123" + "";
    PrefixedPathRoutes(ApnRoute, "abc123", "");
  }

  /** The example header carries the example key. */
  lemma ExampleKeyAccepted(authKey: string, header: string)
    requires authKey == "mysecret" && header == "Token mysecret"
    ensures ValidateAuthToken(authKey, header)
  {
    assert AllInClass(authKey, LowerAlnum);
    assert header == "Token " + authKey;
    ExactHeaderAccepted(authKey);
  }

  /**
   * PUT /gcm/devices/abc123 with the right key stores the decoded fields
   * under the GCM tag and answers 201.
   */
  lemma GcmPutExample(authKey: string, header: string, path: string, devices: map<string, Row>)
    requires authKey == "mysecret" && header == "Token mysecret" && path == "/gcm/devices/abc123"
    ensures var d := Data(CLabInfo("com.x", "en"), "uinfo");
            Respond(GcmRoute, authKey, header, Some(path), "PUT", Some(d), true, devices)
            == Response(StatusCreated, devices["abc123" := Row("GCM", "uinfo", "com.x", "en")])
  {
    ExampleKeyAccepted(authKey, header);
    GcmExamplePathRoutes(path);
    RoutedPut(GcmRoute, authKey, header, path, "abc123", Data(CLabInfo("com.x", "en"), "uinfo"), devices);
  }

  /** The same request with a wrong key answers 401 and changes nothing. */
  lemma WrongKeyExample(authKey: string, header: string, path: string, devices: map<string, Row>, decoded: Option<Data>)
    requires authKey == "mysecret" && header == "Token wrong"
    ensures Respond(GcmRoute, authKey, header, Some(path), "PUT", decoded, true, devices)
            == Response(StatusUnauthorized, devices)
  {
    FirstOccurrenceAtStart(header, "Token ");
    assert header[6..] == "wrong";
    LongestRunUnique("wrong", LowerAlnum, "wrong");
    ValidateIsCapturedKey(authKey, header);
  }

  /** DELETE /apn/devices/abc123 with the right key answers 200 and removes the row. */
  lemma ApnDeleteExample(authKey: string, header: string, path: string, devices: map<string, Row>)
    requires authKey == "mysecret" && header == "Token mysecret" && path == "/apn/devices/abc123"
    ensures Respond(ApnRoute, authKey, header, Some(path), "DELETE", None, true, devices)
            == Response(StatusOK, devices - {"abc123"})
  {
    ExampleKeyAccepted(authKey, header);
    ApnExamplePathRoutes(path);
    RoutedDelete(ApnRoute, authKey, header, path, "abc123", None, devices);
  }

  /**
   * Both handlers work on the one table of the shared context: a row written
   * through GCM is removed by a DELETE through APN routed to the same token.
   */
  lemma VendorsShareTable(authKey: string, header: string, gcmPath: string, apnPath: string, token: string,
                          d: Data, devices: map<string, Row>)
    requires ValidateAuthToken(authKey, header)
    requires RouteToken(GcmRoute, gcmPath) == Some(token) && RouteToken(ApnRoute, apnPath) == Some(token)
    ensures var put := Respond(GcmRoute, authKey, header, Some(gcmPath), "PUT", Some(d), true, devices);
            var del := Respond(ApnRoute, authKey, header, Some(apnPath), "DELETE", None, true, put.devices);
            put.devices[token].vendor == "GCM" && del.devices == devices - {token}
  {
    RoutedPut(GcmRoute, authKey, header, gcmPath, token, d, devices);
    var after := devices[token := RowOf("GCM", d)];
    RoutedDelete(ApnRoute, authKey, header, apnPath, token, None, after);
    assert after - {token} == devices - {token};
  }

  /**
   * `ServeHTTP`, shared by both handlers: early-return branches, each
   * writing one status, with the REPLACE and DELETE statements applied to
   * the context's table when the store reports success.
   */
  method Serve(ctx: AppContext, route: Route, header: string, unescaped: Option<string>,
               verb: string, decoded: Option<Data>, storeOk: bool)
    returns (status: int)
    modifies ctx
    ensures var r := Respond(route, ctx.authKey, header, unescaped, verb, decoded, storeOk, old(ctx.devices));
            status == r.status && ctx.devices == r.devices
  {
    if !ValidateAuthToken(ctx.authKey, header) {
      return StatusUnauthorized;
    }
    var path := UnescapedPath(unescaped);
    if MatchString(route.pattern, path) {
      var captures := Utils.FindStringNamedSubmatches(FindStringSubmatch(route.pattern, path), SubexpNames(route.pattern));
      var token := Utils.Get(captures, route.pattern.group);
      if verb == "PUT" {
        if decoded.None? {
          return StatusBadRequest;
        }
        if !storeOk {
          return StatusInternalServerError;
        }
        ctx.devices := ctx.devices[token := RowOf(route.vendor, decoded.value)];
        return StatusCreated;
      } else if verb == "DELETE" {
        if !storeOk {
          return StatusInternalServerError;
        }
        ctx.devices := ctx.devices - {token};
        return route.deleteStatus;
      }
    }
    return StatusBadRequest;
  }

  /** `GCMHandler`: the shared context and the GCM route. */
  class GCMHandler {
    const ctx: AppContext
    const route: Route := GcmRoute

    /** `NewGCMHandler`. */
    constructor(ctx: AppContext)
      ensures this.ctx == ctx
    {
      this.ctx := ctx;
    }

    method ServeHTTP(header: string, unescaped: Option<string>, verb: string,
                     decoded: Option<Data>, storeOk: bool)
      returns (status: int)
      modifies ctx
      ensures var r := Respond(GcmRoute, ctx.authKey, header, unescaped, verb, decoded, storeOk, old(ctx.devices));
              status == r.status && ctx.devices == r.devices
    {
      status := Serve(ctx, route, header, unescaped, verb, decoded, storeOk);
    }
  }

  /** `APNHandler`: the shared context and the APN route. */
  class APNHandler {
    const ctx: AppContext
    const route: Route := ApnRoute

    /** `NewAPNHandler`. */
    constructor(ctx: AppContext)
      ensures this.ctx == ctx
    {
      this.ctx := ctx;
    }

    method ServeHTTP(header: string, unescaped: Option<string>, verb: string,
                     decoded: Option<Data>, storeOk: bool)
      returns (status: int)
      modifies ctx
      ensures var r := Respond(ApnRoute, ctx.authKey, header, unescaped, verb, decoded, storeOk, old(ctx.devices));
              status == r.status && ctx.devices == r.devices
    {
      status := Serve(ctx, route, header, unescaped, verb, decoded, storeOk);
    }
  }
}
