# ShareTome: backend request decisions, the `user_tables` store, and the frontend request wrapper

ShareTome lets signed-in users create named tables of uploaded documents, list and search the
documents of a table, and make a table public. This project models three parts of it in Dafny and
proves properties of the model:

- **The backend handlers** (`backend/internal/server/routes.go`). A request is a record with the
  method, URL path, query parameters, `Authorization` header and parsed JSON body. Each handler is
  a chain of early returns that picks the status code. The user id is the header with one leading
  `"Bearer "` removed. Handlers that only read are pure functions of the request and the store's
  rows. The two document handlers end in a search request for Elasticsearch. The model builds that
  request, with its two must-clauses, and does not run it. The handlers that write
  (`create_table` and the visibility `PATCH`) are methods on the live store object.
  `create_table` keeps the source's two loops: the search for the first table with the requested
  name, and the pass over the documents that runs the ingestion script once per document and
  ignores failures.
- **The `user_tables` store** (`backend/internal/database/database.go`). The class
  `Database.Service` holds the table as a sequence of rows (user_id, table_id, table_name, public).
  Each SQL statement gets its plain meaning. INSERT appends a row under a fresh id. The SELECT is a
  filter followed by a stable sort by name. UPDATE rewrites the `public` column of matching rows
  and counts them. EXISTS is an existential. `Globals.New` keeps the package-level singleton. The
  health message is a priority function of the pool statistics. `Service.Health` overwrites the
  message step by step, as the source does, and is proved equal to that function.
- **The frontend wrapper** (`frontend/lib/api.ts`). `fetchWithAuth` is a function of the session,
  the configured base URL, the endpoint, the caller's options and the backend's reply. Its
  `calls` list shows whether a request was sent at all.

Values that come from outside are parameters:
- the id `uuid.New()` returns;
- driver errors (`fault`);
- the `ELASTICSEARCH_INDEX` and `OPENAI_API_KEY` values;
- whether the embedding service answered;
- the outcome of each ingestion-script run;
- the session, `NEXT_PUBLIC_API_URL`, and the backend's reply.

Points where the code behaves in a way a reader might not expect, and which the model keeps:
- In `fetchWithAuth` the caller's headers always override the two defaults, because
  `...options.headers` is spread last (frontend/lib/api.ts:12-16).
- The `api` helpers send to `/api/v1/tables`, which is not a path the backend registers
  (`/tables`, `/create_table`, ...). `createUserTable` posts `{tableName}`, while the backend reads
  `table_name`. `Integration.CreateHelperBodyLosesName` shows that this body decodes to a request
  with an empty name.
- `api.ts` has no fallback to an unauthenticated read of public tables. The backend handlers do
  no batch validation of uploads. Neither appears in the model.

## Model

| member | source | states |
|---|---|---|
| `Routes.BearerUser` | backend/internal/server/routes.go:95-102 | a non-empty id is exactly the header after one leading "Bearer "; the id is empty iff the prefix is absent or the header is only the prefix |
| `Routes.BearerRoundTrip` | backend/internal/server/routes.go:95-97 | the header "Bearer " + id is read back as id |
| `Routes.Cors` | backend/internal/server/routes.go:35-53 | OPTIONS gets 204 with only the CORS headers; any other request gets the wrapped handler's status, body and headers, and exactly the CORS headers plus the handler's; the four CORS headers are on every response |
| `Routes.PreflightIgnoresHandler` | backend/internal/server/routes.go:43-47 | a preflight's response does not depend on the wrapped handler |
| `Routes.AllDocuments` | backend/internal/server/routes.go:80-136 | not GET → 405, then no table_id → 400, then no bearer user → 401, then no index → 500; otherwise (and only then) exactly one search of size 1000 on that index, with no kNN, whose two must-clauses are the request's table_id and bearer user |
| `Routes.SearchDocuments` | backend/internal/server/routes.go:167-261 | not GET → 405, then no q → 400 (before table_id and auth), then no table_id → 400, no user → 401, no API key / failed embedding / no index → 500 with each message; otherwise (and only then) exactly one search with a kNN clause (k 10, 100 candidates) on q, total hits tracked, and the same owner filter |
| `Routes.SameOwnerFilter` | backend/internal/server/routes.go:110-129 | when both document handlers reach Elasticsearch for a request, they send the same two must-clauses |
| `Routes.UploadGate` | backend/internal/server/routes.go:297-317 | not POST → 405, no bearer user → 401, otherwise accepted with the bearer id, and accepted only then |
| `Routes.UserTables` | backend/internal/server/routes.go:480-511 | not GET → 405, no user → 401, a store error → 500 with the wrapped message; otherwise 200 with the bearer user's listing as JSON (null for none), and 200 only then |
| `Routes.TableByID` | backend/internal/server/routes.go:513-542 | not GET → 405, empty table_id → 400, a store error → 500; without error, 404 iff no row has the id and 200 otherwise; a 200 carries the table of a row with that id, and of the only such row when ids are unique |
| `Routes.TableByIDIgnoresAuthorization` | backend/internal/server/routes.go:513-537 | the response is the same whatever the Authorization header |
| `Routes.VisibilityPathAccepted` | backend/internal/server/routes.go:554-560 | every path a/b/id/visibility with slash-free pieces is accepted with table id id |
| `Routes.VisibilityPathShape` | backend/internal/server/routes.go:554-560 | an accepted path is exactly four slash-free pieces joined by "/", the last "visibility", the id the third |
| `Routes.UpdateTableVisibilityHandler` | backend/internal/server/routes.go:548-583 | not PATCH → 405, bad path → 400, bad body → 400 (store untouched); error text "table not found" or no matching row → 404, another error → 500 with its text, otherwise 200 and exactly the `public` column of rows with the id set |
| `Routes.ParseVisibilityPath` | backend/internal/server/routes.go:555-560 | accepted iff strings.Split gives four pieces the last of which is "visibility"; the id is the third piece, which holds no slash |
| `Routes.TablesJson` | backend/internal/server/routes.go:507-508 | an empty listing (the nil slice GetUserTables returns when no row was appended, database.go:172-185) encodes as JSON null; otherwise an array of the tables' objects, one per table, in order |
| `Routes.FirstNamed` | backend/internal/server/routes.go:433-446 | None iff no listed table has the name; otherwise the id of the first one that has it |
| `Routes.FindTableByName` | backend/internal/server/routes.go:434-446 | the loop sets found iff some table has the name, and then the id of the first such table |
| `Routes.ProcessDocuments` | backend/internal/server/routes.go:449-472 | one script run per document, in list order, with arguments script, file_path, file_name, user, table; every run happens whether earlier ones failed |
| `Routes.CreateUserTableHandler` | backend/internal/server/routes.go:387-478 | 405 / 401 / 400 checks first with the store untouched; without skip the id is the one the INSERT returns (store error → 500); with skip it is the first listed table of that name (none → 404, no script run); the response on success is always {table_id} |
| `Database.OwnedByCount` | backend/internal/database/database.go:160-164 | WHERE user_id = u keeps each of u's rows with its multiplicity and no other row |
| `Database.InsertByNameCount` | backend/internal/database/database.go:164 | inserting adds exactly the one row to the multiset |
| `Database.SortByNameCount` | backend/internal/database/database.go:164 | ORDER BY returns a permutation of its input |
| `Database.SortIsSorted` | backend/internal/database/database.go:164 | ORDER BY returns the rows in non-decreasing table_name order |
| `Database.SelectSpec` | backend/internal/database/database.go:159-185 | the query yields exactly u's rows, with multiplicity, sorted by name |
| `Database.ListingSpec` | backend/internal/database/database.go:159-185 | GetUserTables' answer is sorted by name and holds a table iff one of u's rows projects to it |
| `Database.HasTableIffListed` | backend/internal/database/database.go:189-202 | EXISTS (user u, name n) holds iff some table in u's listing is named n |
| `Database.LookupById` | backend/internal/database/database.go:206-222 | None (no row, no error) iff no row has the id; otherwise the columns of a row with that id, which is the row's when ids are unique |
| `Database.HealthMessage` | backend/internal/database/database.go:97-125 | each message is chosen exactly when its threshold is exceeded and no later check's is (lifetime closes over idle closes over wait events over load); "It's healthy" exactly when none is |
| `Database.SetPublic` | backend/internal/database/database.go:227 | the UPDATE changes only `public`, only on rows with the id, setting it to the given value |
| `Database.Affected` | backend/internal/database/database.go:233-240 | the rows-affected count is zero iff no row has the id |
| `Database.SetPublicIdempotent` | backend/internal/database/database.go:226-242 | repeating the same visibility update changes nothing more |
| `Database.SetPublicUnmatched` | backend/internal/database/database.go:238-240 | an update that matches no row leaves the table as it was |
| `Database.SetPublicKeepsIds` | backend/internal/database/database.go:227 | table ids stay unique across an UPDATE |
| `Database.InsertThenLookup` | backend/internal/database/database.go:140-155 | after the INSERT the new id finds the new row and every other id finds what it found before |
| `Database.InsertThenListing` | backend/internal/database/database.go:140-155 | after the INSERT the owner's listing includes the new table and other users' listings are unchanged |
| `Database.Service.Health` | backend/internal/database/database.go:96-125 | status "up", the counts in decimal, wait_duration as its Duration string (an input of the model), and the message chosen by the last exceeded threshold (heavy load, wait events, idle closes, lifetime closes; half of open truncated) or "It's healthy" |
| `Database.Service.CreateUserTable` | backend/internal/database/database.go:140-155 | appends exactly one row with the given user, name, flag and the fresh id and returns that id; an error leaves the rows as they were |
| `Database.Service.GetUserTables` | backend/internal/database/database.go:159-185 | the rows.Next() loop returns the user's listing, or the wrapped query error |
| `Database.Service.TableExists` | backend/internal/database/database.go:189-202 | true iff some row has the user and the name; an error gives the wrapped message |
| `Database.Service.GetTableByID` | backend/internal/database/database.go:206-222 | the lookup by id, or the wrapped error |
| `Database.Service.UpdateTableVisibility` | backend/internal/database/database.go:226-242 | a driver error is returned as it is with no change; zero affected rows → "table not found" with no change; otherwise the public column of the rows with the id is set |
| `Database.Globals.New` | backend/internal/database/database.go:63-77 | the cached service when there is one (returned unchanged), otherwise a fresh service that is cached |
| `Payloads.DecodeDocuments` | backend/internal/server/routes.go:378-385 | a documents array decodes iff every element does, element by element |
| `Payloads.DecodeEncodeCreateTable` | backend/internal/server/routes.go:375-385 | a create_table body with every member present decodes back to the request it encodes |
| `Payloads.DecodeVisibilityBody` | backend/internal/server/routes.go:544-546 | the body {"is_public": p} decodes to p |
| `Text.HasPrefix` | backend/internal/server/routes.go:95 | strings.HasPrefix: true iff the prefix is no longer than the string and agrees with it position by position |
| `Text.TrimPrefix` | backend/internal/server/routes.go:96 | strings.TrimPrefix: with the prefix present, prefix + result is the string; without it the string is unchanged |
| `Text.Split` | backend/internal/server/routes.go:555 | strings.Split always gives at least one piece |
| `Text.SplitSingle` | backend/internal/server/routes.go:555 | a single piece comes back exactly when the string has no separator |
| `Text.SplitPiecesFree` | backend/internal/server/routes.go:555 | no piece contains the separator |
| `Text.SplitCons` | backend/internal/server/routes.go:555 | a separator-free prefix followed by the separator splits off as the first piece |
| `Http.Error` | backend/internal/server/routes.go:82 | http.Error: the given status, the body is the message followed by a newline, and exactly the Content-Type text/plain and X-Content-Type-Options nosniff headers |
| `Payloads.DecodeCreateTable` | backend/internal/server/routes.go:375-385 | null and {} decode to the zero request; another non-object is an error; an object decodes iff each declared member is absent, null or of its Go type (a table_name of another kind is an error); a present string or bool member is kept, a missing or null member keeps Go's zero value ("", false, an empty list), and a documents array decodes element by element, each {file_path, file_name} kept |
| `Payloads.DecodeIgnoresUnknownMember` | backend/internal/server/routes.go:375-380 | a member the struct does not declare does not change the result |
| `Payloads.DecodeVisibility` | backend/internal/server/routes.go:544-546 | null, {} and a null is_public give false; a bool is_public gives its value; any other kind, or a non-object body, is an error |
| `Text.JoinSplit` | backend/internal/server/routes.go:555 | splitting a path on "/" loses nothing: joining the pieces gives it back |
| `Api.ApiBase` | frontend/lib/api.ts:3 | the base is the configured URL when it is set and non-empty, otherwise http://localhost:8080 |
| `Api.MergeHeaders` | frontend/lib/api.ts:12-16 | the headers are the caller's keys plus Content-Type and Authorization; caller values win; otherwise application/json and "Bearer " + email |
| `Api.Settle` | frontend/lib/api.ts:23-28 | a transport failure is a network error; a non-ok response fails with its body text, or its status text when the body is empty; an ok response yields its parsed JSON, or fails when it is not JSON |
| `Api.FetchWithAuth` | frontend/lib/api.ts:5-29 | without a session user: "Not authenticated" and no request; otherwise exactly one request to base + endpoint with the caller's method and body and the merged headers, answered as Settle says |
| `Api.GetUserTables` | frontend/lib/api.ts:33-35 | signed out: no request and "Not authenticated"; signed in: exactly one plain request to /api/v1/tables with only the default headers, answered as Settle says |
| `Api.CreateUserTable` | frontend/lib/api.ts:37-42 | signed out: no request and "Not authenticated"; signed in: exactly one POST of {tableName} to /api/v1/tables with only the default headers, answered as Settle says |
| `Api.UnauthenticatedSendsNothing` | frontend/lib/api.ts:6-10 | without a session user nothing is sent, the answer does not depend on the backend, and the message is "Not authenticated" |
| `Integration.HeaderNamesSessionUser` | frontend/lib/api.ts:14 | the backend reads the wrapper's Authorization header as the session's email; an email-less user is read as "undefined" or "null", not as a missing user |
| `Integration.CreateHelperBodyLosesName` | frontend/lib/api.ts:37-42 | the {tableName} body, decoded as a create_table request, is the empty request: no name, private, no documents, no skip |

## Left out

- Elasticsearch: running the search, the response decoding and the `hits` type assertions that panic on an unexpected shape. The model stops at the search request.
- The OpenAI embedding (HTTP and float32 vectors): the kNN clause carries the query text whose embedding it would hold.
- Routes.SearchDocuments: the debug log of `queryVector[:5]` (routes.go:214-215) is not modelled. For an embedding of 1 to 4 entries Go panics there and sends no search, while the model answers `RunSearch`. The embedding's length is not part of the model.
- `uploadHandler` after the method and Authorization checks: multipart parsing, directory creation, the time-stamped file name and the copy are file-system I/O.
- The ingestion script `doc_upload.py` and its ETL pipeline: each run is an external command whose success is a parameter.
- The database connection string, ping, `log.Fatalf` on a failed ping, and `Close`: connection I/O and process termination.
- Driver errors are one `fault` parameter per store call. The scan and row-iteration errors of GetUserTables, which carry other message prefixes, are folded into the query error.
- `Database.Service.UpdateTableVisibility`: an error from `RowsAffected` after an UPDATE that did change rows is modelled as leaving the rows unchanged.
- `Database.Service.CreateUserTable`: the fresh id is a parameter required to be unused. This is the uniqueness that `uuid.New()` provides; a collision error is not modelled.
- `Database.SortByName`: ORDER BY compares names code point by code point and keeps ties in storage order. The database's own collation and its tie order are not modelled.
- JSON decoding: Go's case-insensitive member matching, non-integer numbers, duplicate members and trailing data after the first value are not modelled. A body that is not JSON is `Malformed`.
- Routing (`RegisterRoutes`, ServeMux path cleaning and redirects), `HelloWorldHandler`, `healthHandler`'s marshalling, all logging, and failures to write the response.
- Query parameters and the Authorization header keep only their first value.
- Frontend: the network call inside `getSession()` (the session is a parameter); `Headers` objects and header arrays in `options.headers` (only plain objects are modelled); the text of `JSON.stringify`; and the case-insensitive header names that fetch applies.
- The route guard in `frontend/middleware.ts` (next-auth's `withAuth`, which admits a request iff it carries a token, over the matcher's paths) is left out, because it is framework configuration. The pages, components, layouts and the dashboard's demo `handleAddData` are left out as UI rendering.
- Integration.HeaderNamesSessionUser: states the Authorization header as fetchWithAuth builds it. Both fetch and Go's net/http strip leading and trailing whitespace from header values, so an email that ends in spaces reaches the backend without them. That trimming is not modelled.
