# CLABPush-Go push-token server and CSV exporter, modelled in Dafny

CLABPush-Go is a small HTTP service that mobile apps call to register
(`PUT`) or unregister (`DELETE`) their push-notification device tokens.
There is one route per push vendor: `/gcm/devices/<token>` for Google Cloud
Messaging and `/apn/devices/<token>` for Apple Push Notification service.
Every request must carry an `Authorization: Token <key>` header that matches
the server's configured key. A `PUT` body is a JSON document holding the app
id, the language and an opaque `UserInfo` string. A registration replaces the
row for that token in a `devices` table, and a deletion removes the row. A
separate exporter tool writes the table as CSV. It writes either every column
raw, or the first four columns followed by values picked out of the
`UserInfo` JSON by dotted paths.

The model has these modules:

- `Matching` replaces Go's `regexp` for the three patterns the program
  compiles. Each pattern is a literal followed by a named group
  `(?P<name>[class]*)`. Go's leftmost-first, greedy semantics make such a
  match the first occurrence of the literal followed by the longest run of
  class characters (`IndexOf`, `LongestRun`).
- `Utils` holds the named-capture map builder (`FindStringNamedSubmatches`,
  a loop proved against the function `NamedCaptures`) and Go's map lookup,
  where a missing key reads as `""`.
- `Data` holds the request body records and the table row.
- `Context` holds the token check and the shared application context. The
  context is a class whose `devices` map stands for the table behind the
  database handle.
- `Handlers` holds the two current route handlers. They are classes that
  share one context, and one `Serve` method parameterised by a `Route` does
  the work for both. `Serve` is proved against the response function
  `Respond`.
- `Exporter` holds the CSV exporters, the JSON path walk, the field-path
  parser and the exporter selection.
- `Legacy` models the single-file earlier revision (`server.go`). Its handlers
  build SQL by string concatenation, so the model keeps the query text.

### Points where the code decides (the model follows the code)

- A successful GCM `DELETE` writes 201 (server/gcmhandler.go:82) while the
  log line after it says "200 - OK" (server/gcmhandler.go:83). A successful
  APN `DELETE` writes 200 (server/apnhandler.go:84). `Route.deleteStatus`
  carries the difference.
- `UserInfo` is a plain string field of the request body (server/data.go:12),
  not an arbitrary JSON value.
- Go's JSON decoder matches object keys to struct field names ignoring case
  only. So body keys spelled `app_id` or `user_info` would not fill `AppID`
  or `UserInfo`, because they differ by an underscore. The decode outcome is
  an input of the model (`decoded: Option<Data>`), so this shows up only in
  which inputs are realistic.
- The database schema is not in the code. The model assumes that it holds
  the `devices` table the REPLACE statements write, and no table named
  `device`.

## Model

| member | source | states |
|---|---|---|
| Matching.IndexOf | server/appcontext.go:21 | the match position is the first occurrence of the pattern literal, and no match means the literal occurs nowhere (leftmost-first semantics) |
| Matching.FirstOccurrenceAtStart | server/gcmhandler.go:23 | a string that starts with the literal matches at position 0 |
| Matching.LongestRun | server/gcmhandler.go:23 | the greedy `[class]*` group is a prefix of the rest, lies wholly in the class, and stops only at the end or at a character outside the class |
| Matching.LongestRunUnique | server/apnhandler.go:23 | any prefix that is in the class and maximal equals the greedy run, so the captured group is uniquely determined |
| Matching.SubexpNames | utils/utils.go:17 | a compiled pattern has two sub-expression names: "" for the whole match and the group name |
| Matching.MatchString | server/appcontext.go:29 | no contract of its own; a match is an occurrence of the literal, as IndexOf states |
| Matching.FindStringSubmatch | utils/utils.go:12-15 | a submatch list exists exactly when the pattern matches, and it has one entry per sub-expression name |
| Matching.GroupIsRunAfterFirstLiteral | server/appcontext.go:21 | on a match, the whole match is the literal plus the group, and the group is the longest class run right after the first literal |
| Utils.Get | server/gcmhandler.go:44 | looking up a key present in the map gives its value; a missing key gives "" |
| Utils.CapturesUpToSpec | utils/utils.go:17-25 | after k names, the map's keys are exactly the non-empty names at positions 1..k-1, and each holds the group of its last position |
| Utils.NamedCapturesSpec | utils/utils.go:8-27 | the full capture map has exactly the named groups as keys; a name repeated later takes the later group's text |
| Utils.LaterGroupWins | utils/utils.go:23 | with two groups of the same name, the second group's text overwrites the first |
| Utils.FindStringNamedSubmatches | utils/utils.go:8-27 | the loop builds the capture map: empty when there is no match, otherwise exactly the named groups, with last-named-wins values |
| Data.NewData | server/data.go:16-18 | a fresh request body has an empty app id, language and user info |
| Context.ValidateAuthToken | server/appcontext.go:27-36 | no contract of its own; specified by ValidateIsCapturedKey and ValidateMatchesReference |
| Context.ValidateIsCapturedKey | server/appcontext.go:27-36 | a key is accepted exactly when the header matches and its `token` capture equals the configured key |
| Context.AcceptedFromValidate | server/appcontext.go:27-36 | an accepted header has "Token " at its first occurrence, followed by the configured key, which then ends or is followed by a non-[a-z0-9] character |
| Context.ValidateFromAcceptedAt | server/appcontext.go:27-36 | a header of that shape is accepted |
| Context.ValidateMatchesReference | server/appcontext.go:27-36 | acceptance holds if and only if the independent description of an accepted header holds |
| Context.NoLiteralRejected | server/appcontext.go:29-30 | a header without "Token " anywhere is rejected |
| Context.UnanchoredAccepted | server/appcontext.go:21 | the pattern is not anchored: text before the first "Token " does not prevent acceptance |
| Context.ExactHeaderAccepted | server/appcontext.go:27-36 | "Token " followed by a lower-case alphanumeric key is accepted |
| Context.KeyOutsideClassNeverAccepted | server/appcontext.go:21 | a configured key with a character outside [a-z0-9] can never be matched by any header |
| Context.EmptyKeyAcceptance | server/appcontext.go:27-36 | with an empty configured key, a header is accepted exactly when its first "Token " is followed by a non-[a-z0-9] character or by nothing |
| Context.LongerRunRejected | server/appcontext.go:21-32 | a header whose run is longer than the key ("Token abcd" against "abc") is rejected, because the group is greedy |
| Context.RunEndedByOtherCharAccepted | server/appcontext.go:21-32 | for the configured key abc, the header "Token abc" followed by any non-[a-z0-9] character is still accepted |
| Context.AppContext.constructor | server/appcontext.go:19-23 | the context holds the given table and auth key |
| Handlers.UnescapedPath | server/gcmhandler.go:38 | no contract of its own; the unescaped path, or "" when unescaping fails |
| Handlers.RouteToken | server/gcmhandler.go:40-44 | no contract of its own; specified by RouteTokenIsRun and PrefixedPathRoutes |
| Handlers.Respond | server/gcmhandler.go:27-90 | no contract of its own; the response function Serve is proved against, specified by the lemmas below |
| Handlers.Decide | server/gcmhandler.go:46-89 | no contract of its own; the branches of Respond after the header check and the path match |
| Handlers.RouteTokenIsRun | server/gcmhandler.go:40-44 | a routed path's token is the longest class run after the first route prefix; an unmatched path has no token |
| Handlers.UnauthorizedIsInert | server/gcmhandler.go:31-36 | a request whose header fails the check gets 401 and leaves the table unchanged, whatever its path, method and body |
| Handlers.UnroutedIsBadRequest | server/gcmhandler.go:88-89 | an authorised request whose path does not contain the route prefix gets 400, table unchanged |
| Handlers.BadBodyIsBadRequest | server/gcmhandler.go:53-59 | an authorised, routed PUT whose body does not decode gets 400, table unchanged |
| Handlers.PutReplacesRow | server/gcmhandler.go:46-71 | an authorised, routed PUT with a decoded body and a working store gets 201, and the token's row is replaced by (vendor, user info, app id, language) |
| Handlers.StoreFailureIsServerError | server/gcmhandler.go:62-66 | a failed store on a PUT with a decoded body, or on any DELETE, answers 500 and leaves the table unchanged |
| Handlers.DeleteRemovesToken | server/gcmhandler.go:73-84 | an authorised, routed DELETE removes the token's row and answers the route's delete status (201 for GCM, 200 for APN) |
| Handlers.OtherMethodIsBadRequest | server/gcmhandler.go:88-89 | any method other than PUT or DELETE gets 400, table unchanged |
| Handlers.OneStatusPerRequest | server/apnhandler.go:27-92 | every request answers exactly one of 200, 201, 400, 401 and 500; only 200 or 201 changes the table |
| Handlers.SuccessfulRequestIdempotent | server/apnhandler.go:64-86 | repeating a successful request leaves the same table (REPLACE and DELETE are idempotent) |
| Handlers.PutThenDelete | server/apnhandler.go:53-86 | a successful PUT followed by a successful DELETE of the same path gives the original table without the token |
| Handlers.PrefixedPathRoutes | server/apnhandler.go:43-47 | a path made of the prefix, a class run and text starting outside the class routes to exactly that run |
| Handlers.GcmTokenKeepsColonDash | server/gcmhandler.go:23 | GCM tokens may contain ':' and '-': "/gcm/devices/ab:c-d" routes to "ab:c-d" |
| Handlers.ApnTokenStopsAtDash | server/apnhandler.go:23 | APN tokens stop at '-' |
| Handlers.ApnTokenStopsAtColon | server/apnhandler.go:23 | APN tokens stop at ':' |
| Handlers.TrailingPathIgnored | server/gcmhandler.go:23 | text after the token (such as "/extra") is ignored; the match is unanchored |
| Handlers.RoutedPut | server/gcmhandler.go:46-71 | for any routed token, a successful PUT answers 201 and stores the row under that token |
| Handlers.RoutedDelete | server/gcmhandler.go:73-84 | for any routed token, a successful DELETE removes exactly that token |
| Handlers.GcmExamplePathRoutes | server/gcmhandler.go:40-44 | "/gcm/devices/abc123" routes to the token "abc123" |
| Handlers.ApnExamplePathRoutes | server/apnhandler.go:43-47 | "/apn/devices/abc123" routes to the token "abc123" |
| Handlers.ExampleKeyAccepted | server/appcontext.go:27-36 | "Token mysecret" passes the check with the key "mysecret" |
| Handlers.GcmPutExample | server/gcmhandler.go:27-71 | a concrete authorised GCM registration answers 201 and stores the GCM row |
| Handlers.WrongKeyExample | server/gcmhandler.go:31-36 | a wrong key answers 401 and stores nothing |
| Handlers.ApnDeleteExample | server/apnhandler.go:77-86 | a concrete authorised APN deletion answers 200 and removes the token |
| Handlers.VendorsShareTable | server/apnhandler.go:77-79 | both vendors write one table: an APN DELETE removes a row that a GCM PUT stored under the same token |
| Handlers.Serve | server/gcmhandler.go:27-90 | the handler's status and the new table are exactly the response function's, computed from the old table |
| Handlers.GCMHandler.constructor | server/gcmhandler.go:22-25 | the GCM handler keeps the shared context and uses the GCM route |
| Handlers.GCMHandler.ServeHTTP | server/gcmhandler.go:27-90 | GCM requests are served by the response function on the GCM route |
| Handlers.APNHandler.constructor | server/apnhandler.go:22-25 | the APN handler keeps the shared context and uses the APN route |
| Handlers.APNHandler.ServeHTTP | server/apnhandler.go:27-92 | APN requests are served by the response function on the APN route |
| Exporter.Columns | exporter/main.go:216-224 | a device becomes five CSV columns |
| Exporter.ColumnsRoundTrip | exporter/main.go:216-224 | the five columns read back as the same device, and any five-column record is the columns of the device it reads as |
| Exporter.Device.ToCSV | exporter/main.go:216-224 | the record has five columns that read back as the device (token, vendor, app id, language, user info) |
| Exporter.RawExporter.ToCSV | exporter/main.go:140-148 | the raw exporter's record reads back as the whole device, user info included as a string |
| Exporter.UnmarshalObject | exporter/main.go:198-204 | no contract of its own; an object gives its fields, `null` an empty map, anything else an error; specified through FieldExporter.ToCSV and ExportRecord |
| Exporter.StringAtEmptyCases | exporter/main.go:167-184 | a path value is "" for an empty path, a missing key, a non-object on the way, or a final value that is not a string |
| Exporter.LookupPrefix | exporter/main.go:170-182 | walking a path equals walking its first k steps and then the rest |
| Exporter.StringAtStep | exporter/main.go:170-182 | a path value is the first key's value when the path ends there, and otherwise the rest's value inside that object |
| Exporter.FieldExporter.FindValueAtPath | exporter/main.go:167-184 | the loop returns the string at the path, or "" on any missing or non-string step |
| Exporter.FieldExporter.ToCSV | exporter/main.go:187-213 | the record starts with token, vendor, app id and language; with fields and a user info that is a JSON object or `null` it adds one path value per field, in order (all empty for `null`); otherwise it has just those four |
| Exporter.Split | exporter/main.go:160 | splitting always gives at least one part |
| Exporter.SplitJoin | exporter/main.go:160 | joining the split parts gives back the path |
| Exporter.SplitPiecesSeparatorFree | exporter/main.go:160 | no part of a split contains the separator |
| Exporter.JoinSplit | exporter/main.go:160 | splitting joined separator-free parts gives back those parts |
| Exporter.NewFieldExporterAsWritten | exporter/main.go:157-162 | the code as written yields an exporter only when there are no fields (otherwise the index into a nil slice panics) |
| Exporter.NewFieldExporter | exporter/main.go:157-162 | one field per path, each the path split on '.', and each joins back to its path |
| Exporter.SelectExporterAsWritten | exporter/main.go:72-79 | the code as written picks the raw exporter exactly when export fields are configured |
| Exporter.SelectExporter | exporter/main.go:72-79 | the field exporter is picked exactly when fields are configured, built from those fields |
| Exporter.ExportRecordAsWritten | exporter/main.go:275 | as written, configured fields give the raw five-column record and no fields give four columns |
| Exporter.ExportRecord | exporter/main.go:275 | as intended, no fields give the raw record; fields give four columns plus one path value per field when the user info is a JSON object or `null` (all empty for `null`), and exactly four columns otherwise |
| Legacy.PutQuery | server.go:96 | the legacy registration statement is the fixed prefix, the raw body, and "')" |
| Legacy.GcmDeleteQuery | server.go:208 | no contract of its own; specified by GcmDeleteQueryMalformed |
| Legacy.ApnDeleteQuery | server.go:111 | no contract of its own; specified by ApnDeleteQueryWrongTable |
| Legacy.QuoteFreeBodyReadsBack | server.go:96 | a body without quotes reads back from the statement as sent, followed by ")" |
| Legacy.QuoteEndsLiteralEarly | server.go:96 | a quote in the body ends the data literal: the part before it is the value, and the rest of the body becomes SQL text |
| Legacy.QuoteInBodyEndsLiteral | server.go:96 | for the body "a'b" only "a" is data, and "b')" is left as SQL text |
| Legacy.InjectedBodyBecomesSql | server.go:96 | the body "x'); DELETE FROM devices; --" closes the value list and appends a statement that empties the table |
| Legacy.EscapedPutQueryReadsBack | server.go:194 | with quoting, any body reads back as data, whole |
| Legacy.DeleteQueryReadsBack | server.go:111 | a well-formed DELETE FROM devices WHERE token statement is recognised with its token |
| Legacy.GcmDeleteQueryMalformed | server.go:208 | the legacy GCM delete statement (WHETE) is not a DELETE ... WHERE statement |
| Legacy.ApnDeleteQueryWrongTable | server.go:111 | the legacy APN delete statement names table `device`, not `devices` |
| Legacy.PutEffect | server.go:96-97 | no contract of its own; specified by QuoteFreeBodyStored and QuotedBodyRejected |
| Legacy.DeleteEffect | server.go:111-112 | no contract of its own; specified by CorrectedDeleteRemovesToken and DeleteQueryOfRejected |
| Legacy.QuoteFreeBodyStored | server.go:96-97 | the database stores a quote-free body as sent under the token |
| Legacy.QuotedBodyRejected | server.go:96-97 | the database rejects the statement built from the body "a'b" |
| Legacy.CorrectedDeleteRemovesToken | server.go:208-209 | the corrected DELETE statement removes exactly its token |
| Legacy.DeleteQueryOfRejected | server.go:111-112 | the database rejects the DELETE statement of either legacy handler |
| Legacy.Respond | server.go:68-128 | no contract of its own; the response function Serve is proved against, specified by the lemmas below |
| Legacy.Decide | server.go:90-127 | no contract of its own; the branches of Respond after the header check and the path match |
| Legacy.LegacyUnauthorizedIsInert | server.go:74-78 | a failed token check answers 401 with no query and the table unchanged |
| Legacy.LegacyUnroutedOrOtherMethodIsBadRequest | server.go:84-127 | an authorised request whose path holds no route prefix, or whose verb is neither PUT nor DELETE, answers 400 with no statement sent and the table unchanged |
| Legacy.LegacyPutNeverBadRequest | server.go:90-107 | a legacy routed PUT never answers 400 (the body is not decoded). It sends the statement with the body verbatim, and answers 201 exactly when the store works and the database accepts the text (table as the statement leaves it), otherwise 500 with the table unchanged |
| Legacy.LegacyQuoteFreePutStores | server.go:90-101 | with a working store, a quote-free body answers 201 and is stored as sent under the token and vendor tag |
| Legacy.LegacyDeleteAlwaysFails | server.go:109-121 | every routed legacy DELETE sends its handler's statement and answers 500 with the table unchanged, whatever the store does |
| Legacy.StatusesAgreeAcrossRevisions | server.go:167-225 | for the same store outcome, the two revisions answer the same status on every request other than DELETE, when a PUT's body decodes for the later revision and has no quote |
| Legacy.DeleteDiffersAcrossRevisions | server.go:205-220 | with a working store, a routed DELETE answers 500 in the legacy revision and 201 (GCM) or 200 (APN) in the later one |
| Legacy.AppContext.constructor | server.go:37-41 | the legacy context holds the given table and auth key |
| Legacy.Serve | server.go:68-128 | the legacy handler's status, query text and new table are the legacy response function's |
| Legacy.APNHandler.constructor | server.go:63-66 | the legacy APN handler keeps the shared context |
| Legacy.APNHandler.ServeHTTP | server.go:68-128 | legacy APN requests follow the legacy response function |
| Legacy.GCMHandler.constructor | server.go:137-140 | the legacy GCM handler keeps the shared context |
| Legacy.GCMHandler.ServeHTTP | server.go:167-225 | legacy GCM requests follow the legacy response function |

## Left out

- Regular-expression engine: only the three literal-plus-class patterns the program compiles are modelled. `\w` is ASCII `[0-9A-Za-z_]`.
- `url.QueryUnescape`: its outcome is an input (`unescaped: Option<string>`). An unescape error gives the path "", as the ignored error does in the code.
- JSON decoding of request bodies and of `UserInfo`: the outcome is an input (`decoded: Option<Data>`, `parsed: Option<Json>`). Number formatting and Go's case-insensitive key matching are not modelled.
- The SQL engine: a successful `REPLACE`/`DELETE` is modelled as its effect on the `devices` map. Failure is the input `storeOk`. In the legacy revision the statement text is read as well (`PutEffect`, `DeleteEffect`): text the reader does not accept fails.
- Legacy.PutEffect, Legacy.Respond: a PUT body that closes the data literal is rejected (`PutEffect` is None) and answered 500 with the table unchanged. The database rejects most such statements. One that goes on with valid SQL (see Findings, server.go:96) would run the appended statements, and the model does not execute them.
- Logging, response bodies, HTTP header parsing, reading the request body, concurrency between requests, and the database connection pool.
- Configuration loading, flag parsing, process start-up and the HTTP mux (`main.go`, `server.go` `LoadConfig`/`main`, exporter `LoadConfig`). The uploader, `exporter/exporter.go` and `server/handler.go` are not part of this model.
- Exporter `prepareCSV`: its database query, its row scanning and the CSV writer's quoting are left out. `ExportRecord` models the record it produces for one device.
- Go strings are byte sequences. They are modelled as `seq<char>`, which is the same for the ASCII inputs the patterns accept.
- Exporter.NewFieldExporterAsWritten: models only the outcome of the first loop iteration (the panic). No later iteration runs in the code either.

## Findings

| source | as written | input that shows it | evidently intended | confidence | as-written member | corrected member |
|---|---|---|---|---|---|---|
| exporter/main.go:72-79 | the raw exporter is chosen when export fields are configured, and the field exporter when there are none | any configuration with `Fields = ["a.b"]` exports raw rows | field exporter exactly when fields are configured (the comment on line 72 says so) | high, not executed | Exporter.SelectExporterAsWritten | Exporter.SelectExporter |
| exporter/main.go:157-162 | `NewFieldExporter` assigns into `exporter.Fields[i]` on a nil slice | `fields = ["a"]` indexes a nil slice and panics | allocate one entry per path, then split each | high, not executed | Exporter.NewFieldExporterAsWritten | Exporter.NewFieldExporter |
| server.go:96 | the raw request body is pasted between quotes in the REPLACE statement (SQL injection) | body `x'); DELETE FROM devices; --` ends the data literal after `x` and appends a statement that empties the table | escape quotes so the whole body is stored as data | high, not executed | Legacy.InjectedBodyBecomesSql | Legacy.EscapedPutQueryReadsBack |
| server.go:208 | the GCM delete statement reads `WHETE`, a syntax error | any routed GCM DELETE answers 500 and deletes nothing | `DELETE FROM devices WHERE token = '<token>'` | high, not executed | Legacy.GcmDeleteQueryMalformed | Legacy.CorrectedDeleteRemovesToken |
| server.go:111 | the APN delete statement names table `device` | any routed APN DELETE targets a table that is not `devices`, answers 500 and deletes nothing | `DELETE FROM devices WHERE token = '<token>'` | high, not executed | Legacy.ApnDeleteQueryWrongTable | Legacy.CorrectedDeleteRemovesToken |
