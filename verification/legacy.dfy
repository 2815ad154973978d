/**
 * The earlier, single-file revision of the server. Authorisation, routing
 * and the capture map are the same code as the later package (and are
 * modelled by `Context.ValidateAuthToken`, `Handlers.RouteToken` and
 * `Utils.FindStringNamedSubmatches`); the handlers differ: a PUT stores the
 * raw body without decoding it, and each statement is built by pasting the
 * token and the body into SQL text.
 */
module Legacy {
  import opened Wrappers
  import opened Matching
  import Utils
  import opened Context
  import Data
  import Handlers

  /** The two handlers of this revision. */
  datatype Vendor = GCM | APN

  /** Both handlers use the same route patterns as the later revision. */
  function RouteOf(v: Vendor): Handlers.Route {
    if v == GCM then Handlers.GcmRoute else Handlers.ApnRoute
  }

  /** A row of this revision's table: the vendor tag and the raw body. */
  datatype LegacyRow = LegacyRow(vendor: string, data: string)

  // ---------------------------------------------------------------------
  // SQL text

  /** The text of a REPLACE statement up to the opening quote of the data value. */
  function PutPrefix(token: string, tag: string): string {
    "REPLACE INTO devices (token, vendor, data) VALUES ('" + token + "', '" + tag + "', '"
  }

  /** The REPLACE statement as written: token and body pasted between quotes. */
  function PutQuery(token: string, tag: string, data: string): (q: string)
    ensures q == PutPrefix(token, tag) + data + "')"
  {
    "REPLACE INTO devices (token, vendor, data) VALUES ('" + token + "', '" + tag + "', '" + data + "')"
  }

  const DeletePrefix := "DELETE FROM devices WHERE token = '"

  /** The GCM DELETE statement as written (WHERE is misspelt). */
  function GcmDeleteQuery(token: string): string {
    "DELETE FROM devices WHETE token = '" + token + "'"
  }

  /** The APN DELETE statement as written (it names table `device`). */
  function ApnDeleteQuery(token: string): string {
    "DELETE FROM device WHERE token = '" + token + "'"
  }

  /** The DELETE statement each handler sends. */
  function DeleteQueryOf(v: Vendor, token: string): string {
    if v == GCM then GcmDeleteQuery(token) else ApnDeleteQuery(token)
  }

  /**
   * How SQL reads a quoted literal: `s` starts just after the opening quote;
   * a doubled quote stands for one quote, a single quote closes the literal.
   * The result is the literal's value and the text after its closing quote.
   */
  function ReadLiteral(s: string): Option<(string, string)>
    decreases |s|
  {
    if s == [] then None
    else if s[0] == '\'' then
      if |s| >= 2 && s[1] == '\'' then
        match ReadLiteral(s[2..])
        case None => None
        case Some(p) => Some(("'" + p.0, p.1))
      else Some(("", s[1..]))
    else
      match ReadLiteral(s[1..])
      case None => None
      case Some(p) => Some(([s[0]] + p.0, p.1))
  }

  /** Escapes a value for a quoted literal by doubling every quote. */
  function Quote(s: string): (r: string)
    ensures |r| >= |s|
    decreases |s|
  {
    if s == [] then []
    else if s[0] == '\'' then "''" + Quote(s[1..])
    else [s[0]] + Quote(s[1..])
  }

  /** A quoted value followed by its closing quote reads back as the value. */
  lemma {:induction false} QuoteReadsBack(s: string, after: string)
    requires after == [] || after[0] != '\''
    ensures ReadLiteral(Quote(s) + "'" + after) == Some((s, after))
    decreases |s|
  {
    var t := Quote(s) + "'" + after;
    if s == [] {
      assert t == "'" + after;
      assert t[1..] == after;
      assert ReadLiteral(t) == Some(("", after));
    } else if s[0] == '\'' {
      var u := Quote(s[1..]) + "'" + after;
      QuoteReadsBack(s[1..], after);
      assert t == "''" + u;
      assert t[0] == '\'' && t[1] == '\'' && t[2..] == u;
      assert ReadLiteral(t) == Some(("'" + s[1..], after));
      assert "'" + s[1..] == s;
    } else {
      var u := Quote(s[1..]) + "'" + after;
      QuoteReadsBack(s[1..], after);
      assert t == [s[0]] + u;
      assert t[0] == s[0] && t[1..] == u;
      assert ReadLiteral(t) == Some(([s[0]] + s[1..], after));
      assert [s[0]] + s[1..] == s;
    }
  }

  /** A value without quotes needs no escaping. */
  lemma {:induction false} QuoteFreeUnchanged(s: string)
    requires '\'' !in s
    ensures Quote(s) == s
    decreases |s|
  {
    if s != [] {
      QuoteFreeUnchanged(s[1..]);
    }
  }

  /**
   * The data value SQL reads from the REPLACE statement as written: the
   * literal that starts after the statement's prefix.
   */
  function StoredData(token: string, tag: string, data: string): Option<(string, string)> {
    var q := PutQuery(token, tag, data);
    ReadLiteral(q[|PutPrefix(token, tag)|..])
  }

  /** Without a quote in the body, the statement as written carries the body intact. */
  lemma QuoteFreeBodyReadsBack(token: string, tag: string, data: string)
    requires '\'' !in data
    ensures StoredData(token, tag, data) == Some((data, ")"))
  {
    var q := PutQuery(token, tag, data);
    assert q[|PutPrefix(token, tag)|..] == data + "'" + ")";
    QuoteFreeUnchanged(data);
    QuoteReadsBack(data, ")");
  }

  /**
   * A quote in the body ends the literal early: for a body made of a
   * quote-free `value`, a quote and `rest`, the value read is `value` and
   * `rest` becomes SQL text.
   */
  lemma QuoteEndsLiteralEarly(token: string, tag: string, value: string, rest: string)
    requires '\'' !in value
    requires rest != [] && rest[0] != '\''
    ensures StoredData(token, tag, value + "'" + rest) == Some((value, rest + "')"))
  {
    var q := PutQuery(token, tag, value + "'" + rest);
    assert q[|PutPrefix(token, tag)|..] == Quote(value) + "'" + (rest + "')") by {
      QuoteFreeUnchanged(value);
    }
    QuoteReadsBack(value, rest + "')");
  }

  /** For the body `a'b` the value read is `a`, and `b')` is left as SQL text. */
  lemma QuoteInBodyEndsLiteral(token: string, tag: string)
    ensures StoredData(token, tag, "a'b") == Some(("a", "b')"))
  {
    QuoteEndsLiteralEarly(token, tag, "a", "b");
    assert "a" + "'" + "b" == "a'b" && "b" + "')" == "b')";
  }

  /**
   * A body can close the literal and the value list and append its own
   * statement: for `x'` followed by `); DELETE FROM devices; --` the value
   * read is `x` and a second statement emptying the table follows in the text.
   */
  lemma InjectedBodyBecomesSql(token: string, tag: string, injected: string)
    requires injected == "); DELETE FROM devices; --"
    ensures StoredData(token, tag, "x'" + injected) == Some(("x", injected + "')"))
  {
    QuoteEndsLiteralEarly(token, tag, "x", injected);
    assert "x" + "'" + injected == "x'" + injected;
  }

  /** The REPLACE statement with both values escaped. */
  function EscapedPutQuery(token: string, tag: string, data: string): string {
    PutPrefix(Quote(token), tag) + Quote(data) + "')"
  }

  /** With escaping, SQL reads back exactly the body, whatever it holds. */
  lemma EscapedPutQueryReadsBack(token: string, tag: string, data: string)
    ensures var q := EscapedPutQuery(token, tag, data);
            ReadLiteral(q[|PutPrefix(Quote(token), tag)|..]) == Some((data, ")"))
  {
    var q := EscapedPutQuery(token, tag, data);
    assert q[|PutPrefix(Quote(token), tag)|..] == Quote(data) + "'" + ")";
    QuoteReadsBack(data, ")");
  }

  /**
   * The token a statement of the form `DELETE FROM devices WHERE token = '…'`
   * deletes, or None for any other text.
   */
  function DeleteTarget(q: string): Option<string> {
    if |q| >= |DeletePrefix| && q[..|DeletePrefix|] == DeletePrefix then
      match ReadLiteral(q[|DeletePrefix|..])
      case Some(p) => if p.1 == [] then Some(p.0) else None
      case None => None
    else None
  }

  /** The intended DELETE statement, with the token escaped. */
  function DeleteQuery(token: string): string {
    DeletePrefix + Quote(token) + "'"
  }

  /** The intended DELETE statement deletes exactly the given token. */
  lemma DeleteQueryReadsBack(token: string)
    ensures DeleteTarget(DeleteQuery(token)) == Some(token)
  {
    var q := DeleteQuery(token);
    assert q[..|DeletePrefix|] == DeletePrefix;
    assert q[|DeletePrefix|..] == Quote(token) + "'" + "";
    QuoteReadsBack(token, "");
  }

  /** The GCM DELETE statement as written is never a DELETE … WHERE of any token. */
  lemma GcmDeleteQueryMalformed(token: string)
    ensures DeleteTarget(GcmDeleteQuery(token)) == None
  {
    var q := GcmDeleteQuery(token);
    assert q[23] == 'T' && DeletePrefix[23] == 'R';
    assert q[..|DeletePrefix|][23] == 'T';
  }

  /** The APN DELETE statement as written targets another table, `device`. */
  lemma ApnDeleteQueryWrongTable(token: string)
    ensures DeleteTarget(ApnDeleteQuery(token)) == None
  {
    var q := ApnDeleteQuery(token);
    assert q[18] == ' ' && DeletePrefix[18] == 's';
    assert q[..|DeletePrefix|][18] == ' ';
  }

  // ---------------------------------------------------------------------
  // What the database makes of the statements

  /**
   * The table after the REPLACE statement as written, or None when the
   * database rejects the text: the data literal must read back and be
   * followed by exactly the closing `)`. The stored value is what the
   * literal reads as.
   */
  function PutEffect(token: string, tag: string, body: string,
                     devices: map<string, LegacyRow>): Option<map<string, LegacyRow>>
  {
    match StoredData(token, tag, body)
    case Some(p) => if p.1 == ")" then Some(devices[token := LegacyRow(tag, p.0)]) else None
    case None => None
  }

  /**
   * The table after a DELETE statement, or None when the text is not a
   * DELETE … WHERE token of the `devices` table (a syntax error, or a table
   * the database does not hold).
   */
  function DeleteEffect(q: string, devices: map<string, LegacyRow>): Option<map<string, LegacyRow>> {
    match DeleteTarget(q)
    case Some(t) => Some(devices - {t})
    case None => None
  }

  /** A body without quotes is stored as sent. */
  lemma QuoteFreeBodyStored(token: string, tag: string, body: string, devices: map<string, LegacyRow>)
    requires '\'' !in body
    ensures PutEffect(token, tag, body, devices) == Some(devices[token := LegacyRow(tag, body)])
  {
    QuoteFreeBodyReadsBack(token, tag, body);
  }

  /** The body `a'b` leaves `b')` after the literal, which the database rejects. */
  lemma QuotedBodyRejected(token: string, tag: string, devices: map<string, LegacyRow>)
    ensures PutEffect(token, tag, "a'b", devices) == None
  {
    QuoteInBodyEndsLiteral(token, tag);
  }

  /** The corrected DELETE statement removes exactly its token. */
  lemma CorrectedDeleteRemovesToken(token: string, devices: map<string, LegacyRow>)
    ensures DeleteEffect(DeleteQuery(token), devices) == Some(devices - {token})
  {
    DeleteQueryReadsBack(token);
  }

  /** Neither DELETE statement as written is accepted by the database. */
  lemma DeleteQueryOfRejected(v: Vendor, token: string, devices: map<string, LegacyRow>)
    ensures DeleteEffect(DeleteQueryOf(v, token), devices) == None
  {
    if v == GCM {
      GcmDeleteQueryMalformed(token);
    } else {
      ApnDeleteQueryWrongTable(token);
    }
  }

  // ---------------------------------------------------------------------
  // Handlers

  /** The status written, the statement sent (if any) and the table afterwards. */
  datatype Response = Response(status: int, query: Option<string>, devices: map<string, LegacyRow>)

  /**
   * The decision the legacy `ServeHTTP` makes. A PUT needs no decoding: the
   * raw body is pasted into the statement. The statement succeeds when the
   * database accepts its text (`PutEffect`, `DeleteEffect`) and `storeOk`,
   * which stands for every other cause of failure, holds; the table then
   * takes the statement's effect.
   */
  function Respond(v: Vendor, authKey: string, header: string, unescaped: Option<string>,
                   verb: string, body: string, storeOk: bool,
                   devices: map<string, LegacyRow>): Response
  {
    Decide(v, ValidateAuthToken(authKey, header), Handlers.RouteToken(RouteOf(v), Handlers.UnescapedPath(unescaped)),
           verb, body, storeOk, devices)
  }

  /**
   * The part of `Respond` after the header check (`authorised`) and the
   * path match (`routed`, the captured token if any).
   */
  function Decide(v: Vendor, authorised: bool, routed: Option<string>, verb: string, body: string,
                  storeOk: bool, devices: map<string, LegacyRow>): Response
  {
    var route := RouteOf(v);
    if !authorised then Response(Handlers.StatusUnauthorized, None, devices)
    else
      match routed
      case None => Response(Handlers.StatusBadRequest, None, devices)
      case Some(token) =>
        if verb == "PUT" then
          var q := Some(PutQuery(token, route.vendor, body));
          var e := PutEffect(token, route.vendor, body, devices);
          if storeOk && e.Some? then Response(Handlers.StatusCreated, q, e.value)
          else Response(Handlers.StatusInternalServerError, q, devices)
        else if verb == "DELETE" then
          var q := DeleteQueryOf(v, token);
          var e := DeleteEffect(q, devices);
          if storeOk && e.Some? then Response(route.deleteStatus, Some(q), e.value)
          else Response(Handlers.StatusInternalServerError, Some(q), devices)
        else Response(Handlers.StatusBadRequest, None, devices)
  }

  /** An invalid header gives 401 before the path is looked at: nothing is sent, nothing changes. */
  lemma LegacyUnauthorizedIsInert(v: Vendor, authKey: string, header: string, unescaped: Option<string>,
                                  verb: string, body: string, storeOk: bool, devices: map<string, LegacyRow>)
    requires !ValidateAuthToken(authKey, header)
    ensures Respond(v, authKey, header, unescaped, verb, body, storeOk, devices)
            == Response(Handlers.StatusUnauthorized, None, devices)
  {
  }

  /**
   * An authorised request whose path holds no occurrence of the route
   * prefix, or whose verb is neither PUT nor DELETE, falls through to 400:
   * no statement is sent and the table is unchanged.
   */
  lemma LegacyUnroutedOrOtherMethodIsBadRequest(v: Vendor, authKey: string, header: string,
                                                unescaped: Option<string>, verb: string, body: string,
                                                storeOk: bool, devices: map<string, LegacyRow>)
    requires ValidateAuthToken(authKey, header)
    requires (verb != "PUT" && verb != "DELETE")
             || (unescaped.Some? ==> forall j :: 0 <= j <= |unescaped.value| ==> !OccursAt(unescaped.value, RouteOf(v).pattern.literal, j))
    ensures Respond(v, authKey, header, unescaped, verb, body, storeOk, devices)
            == Response(Handlers.StatusBadRequest, None, devices)
  {
    if verb == "PUT" || verb == "DELETE" {
      Handlers.RouteTokenIsRun(RouteOf(v), Handlers.UnescapedPath(unescaped));
    }
  }

  /**
   * A PUT on a routed path never gives 400: the statement sent carries the
   * token and the body verbatim; it answers 201 exactly when the store
   * works and the database accepts the text, with the statement's effect,
   * and otherwise 500 with the table unchanged.
   */
  lemma LegacyPutNeverBadRequest(v: Vendor, authKey: string, header: string, path: string,
                                 body: string, storeOk: bool, devices: map<string, LegacyRow>)
    requires ValidateAuthToken(authKey, header) && MatchString(RouteOf(v).pattern, path)
    ensures var r := Respond(v, authKey, header, Some(path), "PUT", body, storeOk, devices);
            var token := Handlers.RouteToken(RouteOf(v), path).value;
            var tag := if v == GCM then "GCM" else "APN";
            var e := PutEffect(token, tag, body, devices);
            && r.query == Some(PutPrefix(token, tag) + body + "')")
            && (r.status == Handlers.StatusCreated || r.status == Handlers.StatusInternalServerError)
            && (r.status == Handlers.StatusCreated <==> storeOk && e.Some?)
            && (r.status == Handlers.StatusCreated ==> r.devices == e.value)
            && (r.status == Handlers.StatusInternalServerError ==> r.devices == devices)
  {
  }

  /** A working store and a quote-free body: 201, and the body is stored as sent. */
  lemma LegacyQuoteFreePutStores(v: Vendor, authKey: string, header: string, path: string,
                                 body: string, devices: map<string, LegacyRow>)
    requires ValidateAuthToken(authKey, header) && MatchString(RouteOf(v).pattern, path)
    requires '\'' !in body
    ensures var token := Handlers.RouteToken(RouteOf(v), path).value;
            var tag := if v == GCM then "GCM" else "APN";
            Respond(v, authKey, header, Some(path), "PUT", body, true, devices)
            == Response(Handlers.StatusCreated, Some(PutQuery(token, tag, body)), devices[token := LegacyRow(tag, body)])
  {
    var token := Handlers.RouteToken(RouteOf(v), path).value;
    QuoteFreeBodyStored(token, RouteOf(v).vendor, body, devices);
  }

  /**
   * Every routed DELETE fails: the statement each handler sends is not one
   * the database accepts, so the answer is 500 and the table is unchanged.
   */
  lemma LegacyDeleteAlwaysFails(v: Vendor, authKey: string, header: string, path: string,
                                body: string, storeOk: bool, devices: map<string, LegacyRow>)
    requires ValidateAuthToken(authKey, header) && MatchString(RouteOf(v).pattern, path)
    ensures var token := Handlers.RouteToken(RouteOf(v), path).value;
            Respond(v, authKey, header, Some(path), "DELETE", body, storeOk, devices)
            == Response(Handlers.StatusInternalServerError, Some(DeleteQueryOf(v, token)), devices)
  {
    var token := Handlers.RouteToken(RouteOf(v), path).value;
    DeleteQueryOfRejected(v, token, devices);
  }

  /**
   * For the same store outcome, the two revisions write the same status
   * for every request other than DELETE, provided a PUT's body decodes for
   * the later revision and holds no quote for this one.
   */
  lemma StatusesAgreeAcrossRevisions(v: Vendor, authKey: string, header: string, unescaped: Option<string>,
                                     verb: string, body: string, decoded: Option<Data.Data>, storeOk: bool,
                                     devices: map<string, LegacyRow>, table: map<string, Data.Row>)
    requires verb != "DELETE"
    requires verb == "PUT" ==> decoded.Some? && '\'' !in body
    ensures Respond(v, authKey, header, unescaped, verb, body, storeOk, devices).status
            == Handlers.Respond(RouteOf(v), authKey, header, unescaped, verb, decoded, storeOk, table).status
  {
    var t := Handlers.RouteToken(RouteOf(v), Handlers.UnescapedPath(unescaped));
    if verb == "PUT" && t.Some? {
      QuoteFreeBodyStored(t.value, RouteOf(v).vendor, body, devices);
    }
  }

  /**
   * A routed, authorised DELETE with a working store is where the revisions
   * part: this one answers 500, the later one its route's delete status.
   */
  lemma DeleteDiffersAcrossRevisions(v: Vendor, authKey: string, header: string, path: string,
                                     body: string, decoded: Option<Data.Data>,
                                     devices: map<string, LegacyRow>, table: map<string, Data.Row>)
    requires ValidateAuthToken(authKey, header) && MatchString(RouteOf(v).pattern, path)
    ensures Respond(v, authKey, header, Some(path), "DELETE", body, true, devices).status
            == Handlers.StatusInternalServerError
    ensures Handlers.Respond(RouteOf(v), authKey, header, Some(path), "DELETE", decoded, true, table).status
            == (if v == GCM then 201 else 200)
  {
    LegacyDeleteAlwaysFails(v, authKey, header, path, body, true, devices);
  }

  /** The legacy application context: the key and this revision's table. */
  class AppContext {
    const authKey: string
    var devices: map<string, LegacyRow>

    /** `NewAppContext`. */
    constructor(db: map<string, LegacyRow>, authKey: string)
      ensures this.authKey == authKey && devices == db
    {
      this.authKey := authKey;
      devices := db;
    }
  }

  /**
   * The legacy `ServeHTTP` of either handler: one status per request, the
   * statement it sends, and the statement's effect when the database
   * accepts it.
   */
  method Serve(ctx: AppContext, v: Vendor, header: string, unescaped: Option<string>,
               verb: string, body: string, storeOk: bool)
    returns (status: int, query: Option<string>)
    modifies ctx
    ensures var r := Respond(v, ctx.authKey, header, unescaped, verb, body, storeOk, old(ctx.devices));
            status == r.status && query == r.query && ctx.devices == r.devices
  {
    query := None;
    ghost var routed := Handlers.RouteToken(RouteOf(v), Handlers.UnescapedPath(unescaped));
    assert Respond(v, ctx.authKey, header, unescaped, verb, body, storeOk, ctx.devices)
        == Decide(v, ValidateAuthToken(ctx.authKey, header), routed, verb, body, storeOk, ctx.devices);
    if !ValidateAuthToken(ctx.authKey, header) {
      return Handlers.StatusUnauthorized, query;
    }
    var route := RouteOf(v);
    var path := Handlers.UnescapedPath(unescaped);
    if MatchString(route.pattern, path) {
      var captures := Utils.FindStringNamedSubmatches(FindStringSubmatch(route.pattern, path), SubexpNames(route.pattern));
      var token := Utils.Get(captures, route.pattern.group);
      assert routed == Some(token);
      if verb == "PUT" {
        query := Some(PutQuery(token, route.vendor, body));
        var effect := PutEffect(token, route.vendor, body, ctx.devices);
        if storeOk && effect.Some? {
          ctx.devices := effect.value;
          return Handlers.StatusCreated, query;
        } else {
          return Handlers.StatusInternalServerError, query;
        }
      } else if verb == "DELETE" {
        var q := DeleteQueryOf(v, token);
        query := Some(q);
        var effect := DeleteEffect(q, ctx.devices);
        if storeOk && effect.Some? {
          ctx.devices := effect.value;
          return route.deleteStatus, query;
        } else {
          return Handlers.StatusInternalServerError, query;
        }
      }
    }
    return Handlers.StatusBadRequest, query;
  }

  /** The legacy `APNHandler`. */
  class APNHandler {
    const ctx: AppContext

    /** `NewAPNHandler`. */
    constructor(ctx: AppContext)
      ensures this.ctx == ctx
    {
      this.ctx := ctx;
    }

    method ServeHTTP(header: string, unescaped: Option<string>, verb: string, body: string, storeOk: bool)
      returns (status: int, query: Option<string>)
      modifies ctx
      ensures var r := Respond(APN, ctx.authKey, header, unescaped, verb, body, storeOk, old(ctx.devices));
              status == r.status && query == r.query && ctx.devices == r.devices
    {
      status, query := Serve(ctx, APN, header, unescaped, verb, body, storeOk);
    }
  }

  /** The legacy `GCMHandler`. */
  class GCMHandler {
    const ctx: AppContext

    /** `NewGCMHandler`. */
    constructor(ctx: AppContext)
      ensures this.ctx == ctx
    {
      this.ctx := ctx;
    }

    method ServeHTTP(header: string, unescaped: Option<string>, verb: string, body: string, storeOk: bool)
      returns (status: int, query: Option<string>)
      modifies ctx
      ensures var r := Respond(GCM, ctx.authKey, header, unescaped, verb, body, storeOk, old(ctx.devices));
              status == r.status && query == r.query && ctx.devices == r.devices
    {
      status, query := Serve(ctx, GCM, header, unescaped, verb, body, storeOk);
    }
  }
}
