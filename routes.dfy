/** The backend's HTTP handlers (server/routes.go): each one a run of early-return checks that
    picks the status code, then a call into the store or a search request for Elasticsearch.
    Handlers that only read are functions of the request and the store's rows; handlers that
    write are methods on the live store. */
module Routes {
  import opened Wrappers
  import opened Json
  import opened Http
  import opened Text
  import opened Database
  import opened Payloads

  // ---------------------------------------------------------------------------
  // The user id: the Authorization header with one leading "Bearer " removed.

  const BearerPrefix := "Bearer "

  /** The user id every authenticated handler extracts; "" stands for "no user". */
  function BearerUser(authorization: string): (userId: string)
    ensures userId != "" ==> BearerPrefix + userId == authorization
    ensures userId == "" <==> !HasPrefix(authorization, BearerPrefix) || authorization == BearerPrefix
  {
    if HasPrefix(authorization, BearerPrefix) then TrimPrefix(authorization, BearerPrefix) else ""
  }

  /** A header the frontend builds is read back as the id it carries. */
  lemma BearerRoundTrip(id: string)
    ensures BearerUser(BearerPrefix + id) == id
  {
    assert (BearerPrefix + id)[..|BearerPrefix|] == BearerPrefix;
    assert (BearerPrefix + id)[|BearerPrefix|..] == id;
  }

  const MissingAuthMessage := "Invalid or missing Authorization header"

  // ---------------------------------------------------------------------------
  // corsMiddleware

  const CorsHeaders: map<string, string> := map[
    "Access-Control-Allow-Origin" := "*",
    "Access-Control-Allow-Methods" := "GET, POST, PUT, DELETE, OPTIONS, PATCH",
    "Access-Control-Allow-Headers" := "Accept, Authorization, Content-Type, X-CSRF-Token",
    "Access-Control-Allow-Credentials" := "false"]

  /** The four CORS headers go on every response; a preflight OPTIONS request is answered 204
      on the spot, anything else is passed to `next`, whose headers are written after them. */
  function Cors(req: Request, next: Request -> Response): (resp: Response)
    ensures req.httpMethod == "OPTIONS" ==> resp == Response(StatusNoContent, CorsHeaders, NoBody)
    ensures req.httpMethod != "OPTIONS" ==>
      resp.status == next(req).status && resp.payload == next(req).payload &&
      forall k :: k in next(req).headers ==> k in resp.headers && resp.headers[k] == next(req).headers[k]
    ensures req.httpMethod != "OPTIONS" ==> resp.headers.Keys == CorsHeaders.Keys + next(req).headers.Keys
    ensures forall k :: k in CorsHeaders ==> k in resp.headers
    ensures forall k :: k in CorsHeaders && (req.httpMethod == "OPTIONS" || k !in next(req).headers) ==>
      resp.headers[k] == CorsHeaders[k]
  {
    if req.httpMethod == "OPTIONS" then Response(StatusNoContent, CorsHeaders, NoBody)
    else
      var inner := next(req);
      inner.(headers := CorsHeaders + inner.headers)
  }

  /** A preflight never depends on the wrapped handler. */
  lemma PreflightIgnoresHandler(req: Request, next1: Request -> Response, next2: Request -> Response)
    requires req.httpMethod == "OPTIONS"
    ensures Cors(req, next1) == Cors(req, next2)
  {
  }

  // ---------------------------------------------------------------------------
  // The Elasticsearch requests of getAllDocumentsHandler and searchDocumentsHandler

  const TableIdField := "properties.properties.table_id"
  const UserIdField := "properties.properties.user_id"
  const SourceFields := ["properties", "text_representation"]

  datatype Clause = Match(field: string, value: string)

  /** The kNN part of a search; the vector itself is the embedding of `queryText`. */
  datatype Knn = Knn(field: string, queryText: string, k: int, numCandidates: int)

  /** The search body: an optional kNN, the bool query's must-clauses and the _source fields. */
  datatype EsQuery = EsQuery(knn: Option<Knn>, must: seq<Clause>, source: seq<string>)

  datatype SearchCall = SearchCall(index: string, size: int, trackTotalHits: bool, query: EsQuery)

  /** A document handler either answers at once or sends one search to Elasticsearch. */
  datatype Decision = Reply(resp: Response) | RunSearch(call: SearchCall)

  function OwnerFilter(tableId: string, userId: string): seq<Clause>
  {
    [Match(TableIdField, tableId), Match(UserIdField, userId)]
  }

  /** The request's table and its bearer user, as the two must-clauses of a query. */
  predicate FiltersOwner(must: seq<Clause>, req: Request)
  {
    |must| == 2 &&
    must[0] == Match(TableIdField, QueryGet(req.query, "table_id")) &&
    must[1].field == UserIdField && must[1].value != "" &&
    BearerPrefix + must[1].value == req.authorization
  }

  /** getAllDocumentsHandler up to the search call. */
  function AllDocuments(req: Request, indexName: string): (d: Decision)
    ensures req.httpMethod != "GET" ==> d == Reply(Error("Method not allowed", StatusMethodNotAllowed))
    ensures req.httpMethod == "GET" && QueryGet(req.query, "table_id") == "" ==>
      d == Reply(Error("Query parameter 'table_id' is required", StatusBadRequest))
    ensures req.httpMethod == "GET" && QueryGet(req.query, "table_id") != "" && BearerUser(req.authorization) == "" ==>
      d == Reply(Error(MissingAuthMessage, StatusUnauthorized))
    ensures (req.httpMethod == "GET" && QueryGet(req.query, "table_id") != "" && BearerUser(req.authorization) != "" &&
             indexName == "") ==> d == Reply(Error("Elasticsearch index not configured", StatusInternalServerError))
    ensures (req.httpMethod == "GET" && QueryGet(req.query, "table_id") != "" && BearerUser(req.authorization) != "" &&
             indexName != "") ==>
      d == RunSearch(SearchCall(indexName, 1000, false,
        EsQuery(None, OwnerFilter(QueryGet(req.query, "table_id"), BearerUser(req.authorization)), SourceFields)))
    ensures d.RunSearch? ==>
      d.call.index == indexName && indexName != "" && d.call.size == 1000 && !d.call.trackTotalHits &&
      d.call.query.knn.None? && d.call.query.source == SourceFields &&
      QueryGet(req.query, "table_id") != "" && FiltersOwner(d.call.query.must, req)
  {
    if req.httpMethod != "GET" then Reply(Error("Method not allowed", StatusMethodNotAllowed))
    else
      var tableId := QueryGet(req.query, "table_id");
      if tableId == "" then Reply(Error("Query parameter 'table_id' is required", StatusBadRequest))
      else
        var userId := BearerUser(req.authorization);
        if userId == "" then Reply(Error(MissingAuthMessage, StatusUnauthorized))
        else if indexName == "" then Reply(Error("Elasticsearch index not configured", StatusInternalServerError))
        else RunSearch(SearchCall(indexName, 1000, false, EsQuery(None, OwnerFilter(tableId, userId), SourceFields)))
  }

  /** The request passes the method, `q`, `table_id` and Authorization checks of a search. */
  predicate SearchAdmitted(req: Request)
  {
    req.httpMethod == "GET" && QueryGet(req.query, "q") != "" && QueryGet(req.query, "table_id") != "" &&
    BearerUser(req.authorization) != ""
  }

  /** searchDocumentsHandler up to the search call. `embeds(q, key)` says whether the
      embedding service produced a vector for q; it is consulted only once the key is set. */
  function SearchDocuments(req: Request, apiKey: string, embeds: (string, string) -> bool, indexName: string): (d: Decision)
    ensures req.httpMethod != "GET" ==> d == Reply(Error("Method not allowed", StatusMethodNotAllowed))
    ensures req.httpMethod == "GET" && QueryGet(req.query, "q") == "" ==>
      d == Reply(Error("Query parameter 'q' is required", StatusBadRequest))
    ensures req.httpMethod == "GET" && QueryGet(req.query, "q") != "" && QueryGet(req.query, "table_id") == "" ==>
      d == Reply(Error("Query parameter 'table_id' is required", StatusBadRequest))
    ensures (req.httpMethod == "GET" && QueryGet(req.query, "q") != "" && QueryGet(req.query, "table_id") != "" &&
             BearerUser(req.authorization) == "") ==> d == Reply(Error(MissingAuthMessage, StatusUnauthorized))
    ensures SearchAdmitted(req) && apiKey == "" ==>
      d == Reply(Error("OpenAI API key not configured", StatusInternalServerError))
    ensures SearchAdmitted(req) && apiKey != "" && !embeds(QueryGet(req.query, "q"), apiKey) ==>
      d == Reply(Error("Failed to process query", StatusInternalServerError))
    ensures (SearchAdmitted(req) && apiKey != "" && embeds(QueryGet(req.query, "q"), apiKey) && indexName == "") ==>
      d == Reply(Error("Elasticsearch index not configured", StatusInternalServerError))
    ensures (SearchAdmitted(req) && apiKey != "" && embeds(QueryGet(req.query, "q"), apiKey) && indexName != "") ==>
      d == RunSearch(SearchCall(indexName, 1000, true,
        EsQuery(Some(Knn("embedding", QueryGet(req.query, "q"), 10, 100)),
                OwnerFilter(QueryGet(req.query, "table_id"), BearerUser(req.authorization)), SourceFields)))
    ensures d.RunSearch? ==>
      d.call.index == indexName && indexName != "" && d.call.size == 1000 && d.call.trackTotalHits &&
      d.call.query.knn == Some(Knn("embedding", QueryGet(req.query, "q"), 10, 100)) &&
      d.call.query.source == SourceFields && apiKey != "" && embeds(QueryGet(req.query, "q"), apiKey) &&
      QueryGet(req.query, "table_id") != "" && FiltersOwner(d.call.query.must, req)
  {
    if req.httpMethod != "GET" then Reply(Error("Method not allowed", StatusMethodNotAllowed))
    else
      var q := QueryGet(req.query, "q");
      if q == "" then Reply(Error("Query parameter 'q' is required", StatusBadRequest))
      else
        var tableId := QueryGet(req.query, "table_id");
        if tableId == "" then Reply(Error("Query parameter 'table_id' is required", StatusBadRequest))
        else
          var userId := BearerUser(req.authorization);
          if userId == "" then Reply(Error(MissingAuthMessage, StatusUnauthorized))
          else if apiKey == "" then Reply(Error("OpenAI API key not configured", StatusInternalServerError))
          else if !embeds(q, apiKey) then Reply(Error("Failed to process query", StatusInternalServerError))
          else
            var query := EsQuery(Some(Knn("embedding", q, 10, 100)), OwnerFilter(tableId, userId), SourceFields);
            if indexName == "" then Reply(Error("Elasticsearch index not configured", StatusInternalServerError))
            else RunSearch(SearchCall(indexName, 1000, true, query))
  }

  /** The two document handlers filter a request the same way: the same two must-clauses. */
  lemma SameOwnerFilter(req: Request, indexName: string, apiKey: string,
                         embeds: (string, string) -> bool, searchIndex: string)
    requires AllDocuments(req, indexName).RunSearch?
    requires SearchDocuments(req, apiKey, embeds, searchIndex).RunSearch?
    ensures AllDocuments(req, indexName).call.query.must == SearchDocuments(req, apiKey, embeds, searchIndex).call.query.must
  {
  }

  // ---------------------------------------------------------------------------
  // uploadHandler, up to the multipart form

  datatype UploadDecision = Refused(resp: Response) | Accepted(userId: string)

  /** The method and Authorization checks that precede reading the uploaded file. */
  function UploadGate(req: Request): (d: UploadDecision)
    ensures req.httpMethod != "POST" ==> d == Refused(Error("Method not allowed", StatusMethodNotAllowed))
    ensures req.httpMethod == "POST" && BearerUser(req.authorization) == "" ==>
      d == Refused(Error(MissingAuthMessage, StatusUnauthorized))
    ensures req.httpMethod == "POST" && BearerUser(req.authorization) != "" ==> d == Accepted(BearerUser(req.authorization))
    ensures d.Accepted? ==> req.httpMethod == "POST" && d.userId != "" && BearerPrefix + d.userId == req.authorization
  {
    if req.httpMethod != "POST" then Refused(Error("Method not allowed", StatusMethodNotAllowed))
    else
      var userId := BearerUser(req.authorization);
      if userId == "" then Refused(Error(MissingAuthMessage, StatusUnauthorized)) else Accepted(userId)
  }

  // ---------------------------------------------------------------------------
  // Tables as JSON

  function TableJson(t: UserTable): Json
  {
    JObj(map["table_id" := JStr(t.tableId), "table_name" := JStr(t.tableName), "public" := JBool(t.isPublic)])
  }

  function TableJsonAll(ts: seq<UserTable>): (items: seq<Json>)
    ensures |items| == |ts| && forall k :: 0 <= k < |ts| ==> items[k] == TableJson(ts[k])
  {
    if ts == [] then [] else [TableJson(ts[0])] + TableJsonAll(ts[1..])
  }

  /** Encoding a Go slice: a nil slice (no rows were appended) encodes as null. */
  function TablesJson(ts: seq<UserTable>): (j: Json)
    ensures j == JNull <==> ts == []
    ensures ts != [] ==> j.JArr? && |j.items| == |ts| && forall k :: 0 <= k < |ts| ==> j.items[k] == TableJson(ts[k])
  {
    if ts == [] then JNull else JArr(TableJsonAll(ts))
  }

  // ---------------------------------------------------------------------------
  // getUserTablesHandler

  function UserTables(req: Request, rows: seq<Row>, fault: Option<string>): (resp: Response)
    ensures req.httpMethod != "GET" ==> resp == Error("Method not allowed", StatusMethodNotAllowed)
    ensures req.httpMethod == "GET" && BearerUser(req.authorization) == "" ==>
      resp == Error(MissingAuthMessage, StatusUnauthorized)
    ensures req.httpMethod == "GET" && BearerUser(req.authorization) != "" && fault.Some? ==>
      resp == Error("Failed to get user tables: " + ("failed to query user tables: " + fault.value), StatusInternalServerError)
    ensures req.httpMethod == "GET" && BearerUser(req.authorization) != "" && fault.None? ==>
      resp == JsonResponse(TablesJson(Listing(rows, BearerUser(req.authorization))))
    ensures resp.status == StatusOK ==>
      resp == JsonResponse(TablesJson(Listing(rows, BearerUser(req.authorization)))) &&
      BearerPrefix + BearerUser(req.authorization) == req.authorization
  {
    if req.httpMethod != "GET" then Error("Method not allowed", StatusMethodNotAllowed)
    else
      var userId := BearerUser(req.authorization);
      if userId == "" then Error(MissingAuthMessage, StatusUnauthorized)
      else match GetUserTablesResult(rows, userId, fault)
        case Err(e) => Error("Failed to get user tables: " + e, StatusInternalServerError)
        case Ok(tables) => JsonResponse(TablesJson(tables))
  }

  // ---------------------------------------------------------------------------
  // getTableByIDHandler

  function TableByID(req: Request, rows: seq<Row>, fault: Option<string>): (resp: Response)
    ensures req.httpMethod != "GET" ==> resp == Error("Method not allowed", StatusMethodNotAllowed)
    ensures req.httpMethod == "GET" && QueryGet(req.query, "table_id") == "" ==>
      resp == Error("table_id is required", StatusBadRequest)
    ensures req.httpMethod == "GET" && QueryGet(req.query, "table_id") != "" && fault.Some? ==>
      resp == Error("Error getting table: " + ("error getting table by ID: " + fault.value), StatusInternalServerError)
    ensures req.httpMethod == "GET" && QueryGet(req.query, "table_id") != "" && fault.None? ==>
      (resp == Error("Table not found", StatusNotFound) <==> IdUnused(rows, QueryGet(req.query, "table_id")))
    ensures (req.httpMethod == "GET" && QueryGet(req.query, "table_id") != "" && fault.None? &&
             !IdUnused(rows, QueryGet(req.query, "table_id"))) ==> resp.status == StatusOK
    ensures resp.status == StatusOK ==>
      exists i :: 0 <= i < |rows| && rows[i].tableId == QueryGet(req.query, "table_id") &&
        resp == JsonResponse(TableJson(Project(rows[i])))
    ensures UniqueIds(rows) && req.httpMethod == "GET" && QueryGet(req.query, "table_id") != "" && fault.None? ==>
      forall i :: 0 <= i < |rows| && rows[i].tableId == QueryGet(req.query, "table_id") ==>
        resp == JsonResponse(TableJson(Project(rows[i])))
  {
    if req.httpMethod != "GET" then Error("Method not allowed", StatusMethodNotAllowed)
    else
      var tableId := QueryGet(req.query, "table_id");
      if tableId == "" then Error("table_id is required", StatusBadRequest)
      else match GetTableByIdResult(rows, tableId, fault)
        case Err(e) => Error("Error getting table: " + e, StatusInternalServerError)
        case Ok(None) => Error("Table not found", StatusNotFound)
        case Ok(Some(t)) => JsonResponse(TableJson(t))
  }

  /** Reading a table by id is open to anyone: the Authorization header plays no part. */
  lemma TableByIDIgnoresAuthorization(req: Request, authorization: string, rows: seq<Row>, fault: Option<string>)
    ensures TableByID(req.(authorization := authorization), rows, fault) == TableByID(req, rows, fault)
  {
  }

  // ---------------------------------------------------------------------------
  // updateTableVisibilityHandler

  const VisibilitySegment := "visibility"

  /** strings.Split(path, "/") must give exactly four pieces, the last "visibility";
      the table id is the third. */
  function ParseVisibilityPath(path: string): (id: Option<string>)
    ensures id.Some? <==> |Split(path, '/')| == 4 && Split(path, '/')[3] == VisibilitySegment
    ensures id.Some? ==> id.value == Split(path, '/')[2] && '/' !in id.value && '/' in path
  {
    var parts := Split(path, '/');
    SplitPiecesFree(path, '/');
    SplitSingle(path, '/');
    if |parts| != 4 || parts[3] != VisibilitySegment then None else Some(parts[2])
  }

  /** Every path of the shape a/b/id/visibility with slash-free pieces is accepted, with that id. */
  lemma VisibilityPathAccepted(a: string, b: string, id: string)
    requires '/' !in a && '/' !in b && '/' !in id
    ensures ParseVisibilityPath(a + "/" + b + "/" + id + "/" + VisibilitySegment) == Some(id)
  {
    var sep := ['/'];
    assert "/" == sep;
    assert '/' !in VisibilitySegment;
    ConcatAssoc6(a, sep, b, id, VisibilitySegment);
    SplitFour(a, b, id, VisibilitySegment, '/');
  }

  /** ... and only those: an accepted path is its four slash-free pieces joined by slashes. */
  lemma VisibilityPathShape(path: string)
    requires ParseVisibilityPath(path).Some?
    ensures var parts := Split(path, '/');
      '/' !in parts[0] && '/' !in parts[1] && '/' !in ParseVisibilityPath(path).value &&
      path == parts[0] + "/" + parts[1] + "/" + ParseVisibilityPath(path).value + "/" + VisibilitySegment
  {
    var parts := Split(path, '/');
    var sep := ['/'];
    assert "/" == sep;
    JoinSplit(path, '/');
    SplitPiecesFree(path, '/');
    JoinFour(parts, '/');
    ConcatAssoc6(parts[0], sep, parts[1], parts[2], parts[3]);
  }

  function VisibilityBody(b: Body): Option<bool>
  {
    match b
    case Malformed => None
    case Parsed(j) => DecodeVisibility(j)
  }

  const NotFoundError := "table not found"

  /** PATCH /table/{id}/visibility against the live store. */
  method UpdateTableVisibilityHandler(db: Service, req: Request, fault: Option<string>) returns (resp: Response)
    requires db.Valid()
    modifies db
    ensures db.Valid()
    ensures req.httpMethod != "PATCH" ==>
      resp == Error("Method not allowed", StatusMethodNotAllowed) && db.rows == old(db.rows)
    ensures req.httpMethod == "PATCH" && ParseVisibilityPath(req.path).None? ==>
      resp == Error("Invalid path", StatusBadRequest) && db.rows == old(db.rows)
    ensures req.httpMethod == "PATCH" && ParseVisibilityPath(req.path).Some? && VisibilityBody(req.body).None? ==>
      resp == Error("Invalid request body", StatusBadRequest) && db.rows == old(db.rows)
    ensures req.httpMethod == "PATCH" && ParseVisibilityPath(req.path).Some? && VisibilityBody(req.body).Some? ==>
      var tableId, isPublic := ParseVisibilityPath(req.path).value, VisibilityBody(req.body).value;
      (fault.Some? ==>
         db.rows == old(db.rows) &&
         resp == (if fault.value == NotFoundError then Error("Table not found", StatusNotFound)
                  else Error(fault.value, StatusInternalServerError))) &&
      (fault.None? && IdUnused(old(db.rows), tableId) ==>
         resp == Error("Table not found", StatusNotFound) && db.rows == old(db.rows)) &&
      (fault.None? && !IdUnused(old(db.rows), tableId) ==>
         resp == Response(StatusOK, map[], NoBody) && db.rows == SetPublic(old(db.rows), tableId, isPublic))
  {
    if req.httpMethod != "PATCH" {
      return Error("Method not allowed", StatusMethodNotAllowed);
    }
    var tableId := ParseVisibilityPath(req.path);
    if tableId.None? {
      return Error("Invalid path", StatusBadRequest);
    }
    var isPublic := VisibilityBody(req.body);
    if isPublic.None? {
      return Error("Invalid request body", StatusBadRequest);
    }
    var err := db.UpdateTableVisibility(tableId.value, isPublic.value, fault);
    if err.Some? {
      if err.value == NotFoundError {
        return Error("Table not found", StatusNotFound);
      }
      return Error(err.value, StatusInternalServerError);
    }
    resp := Response(StatusOK, map[], NoBody);
  }

  // ---------------------------------------------------------------------------
  // createUserTableHandler

  /** One run of the ingestion script: `python3 <script> <file_path> <file_name> <user> <table>`. */
  datatype Command = Command(program: string, args: seq<string>)

  function ScriptCommand(scriptPath: string, d: Document, userId: string, tableId: string): Command
  {
    Command("python3", [scriptPath, d.filePath, d.fileName, userId, tableId])
  }

  /** One script run per document, in the order of the list. */
  predicate RunsEach(commands: seq<Command>, documents: seq<Document>, scriptPath: string, userId: string, tableId: string)
  {
    |commands| == |documents| &&
    forall i :: 0 <= i < |documents| ==> commands[i] == ScriptCommand(scriptPath, documents[i], userId, tableId)
  }

  /** The first table in the list with the given name, by id. */
  function FirstNamed(tables: seq<UserTable>, name: string): (r: Option<string>)
    ensures r.None? <==> forall i :: 0 <= i < |tables| ==> tables[i].tableName != name
    ensures r.Some? ==>
      exists i :: (0 <= i < |tables| && tables[i].tableName == name && tables[i].tableId == r.value &&
                   forall j :: 0 <= j < i ==> tables[j].tableName != name)
  {
    if tables == [] then None
    else if tables[0].tableName == name then Some(tables[0].tableId)
    else
      var r := FirstNamed(tables[1..], name);
      assert r.Some? ==>
        exists i :: (1 <= i < |tables| && tables[i].tableName == name && tables[i].tableId == r.value &&
                     forall j :: 0 <= j < i ==> tables[j].tableName != name);
      r
  }

  /** The loop over the user's tables that sets `found` and `tableID` and stops at the first match. */
  method FindTableByName(tables: seq<UserTable>, name: string) returns (found: bool, tableId: string)
    ensures found <==> FirstNamed(tables, name).Some?
    ensures found ==> tableId == FirstNamed(tables, name).value
  {
    found, tableId := false, "";
    var i := 0;
    while i < |tables|
      invariant 0 <= i <= |tables|
      invariant !found
      invariant forall j :: 0 <= j < i ==> tables[j].tableName != name
    {
      if tables[i].tableName == name {
        tableId := tables[i].tableId;
        found := true;
        break;
      }
      i := i + 1;
    }
  }

  /** The loop over req.Documents: each document's script runs in turn; `outcomes` records
      whether each run succeeded, which the handler only logs. */
  method ProcessDocuments(documents: seq<Document>, scriptPath: string, userId: string, tableId: string,
                          run: Command -> bool)
    returns (commands: seq<Command>, outcomes: seq<bool>)
    ensures RunsEach(commands, documents, scriptPath, userId, tableId)
    ensures |outcomes| == |commands| && forall i :: 0 <= i < |commands| ==> outcomes[i] == run(commands[i])
  {
    commands, outcomes := [], [];
    for i := 0 to |documents|
      invariant |commands| == i && |outcomes| == i
      invariant forall k :: 0 <= k < i ==> commands[k] == ScriptCommand(scriptPath, documents[k], userId, tableId)
      invariant forall k :: 0 <= k < i ==> outcomes[k] == run(commands[k])
    {
      var command := ScriptCommand(scriptPath, documents[i], userId, tableId);
      var succeeded := run(command);
      // a failed run is logged and the loop goes on with the next document
      commands := commands + [command];
      outcomes := outcomes + [succeeded];
    }
  }

  function CreateBody(b: Body): Option<CreateTableRequest>
  {
    match b
    case Malformed => None
    case Parsed(j) => DecodeCreateTable(j)
  }

  function TableIdResponse(tableId: string): Response
  {
    JsonResponse(JObj(map["table_id" := JStr(tableId)]))
  }

  /** The request passes the method, Authorization and body checks. */
  predicate CreateAdmitted(req: Request)
  {
    req.httpMethod == "POST" && BearerUser(req.authorization) != "" && CreateBody(req.body).Some?
  }

  /** POST /create_table against the live store. `newId` is the id uuid.New() yields, `run` runs
      the ingestion script and says whether it succeeded. */
  method CreateUserTableHandler(db: Service, req: Request, fault: Option<string>, newId: string,
                                scriptPath: string, run: Command -> bool)
    returns (resp: Response, commands: seq<Command>)
    requires db.Valid() && IdUnused(db.rows, newId)
    modifies db
    ensures db.Valid()
    ensures !CreateAdmitted(req) ==>
      commands == [] && db.rows == old(db.rows) &&
      resp == (if req.httpMethod != "POST" then Error("Method not allowed", StatusMethodNotAllowed)
               else if BearerUser(req.authorization) == "" then Error(MissingAuthMessage, StatusUnauthorized)
               else Error("Invalid request body", StatusBadRequest))
    ensures CreateAdmitted(req) ==>
      var userId, r := BearerUser(req.authorization), CreateBody(req.body).value;
      (!r.skipTableCreation && fault.Some? ==>
         resp == Error("Failed to create table: " + ("failed to create user table: " + fault.value), StatusInternalServerError) &&
         commands == [] && db.rows == old(db.rows)) &&
      (!r.skipTableCreation && fault.None? ==>
         resp == TableIdResponse(newId) && RunsEach(commands, r.documents, scriptPath, userId, newId) &&
         db.rows == old(db.rows) + [Row(userId, newId, r.tableName, r.isPublic)]) &&
      (r.skipTableCreation && fault.Some? ==>
         resp == Error("Failed to get user tables: " + ("failed to query user tables: " + fault.value), StatusInternalServerError) &&
         commands == [] && db.rows == old(db.rows)) &&
      (r.skipTableCreation && fault.None? && FirstNamed(Listing(old(db.rows), userId), r.tableName).None? ==>
         resp == Error("Table not found", StatusNotFound) && commands == [] && db.rows == old(db.rows)) &&
      (r.skipTableCreation && fault.None? && FirstNamed(Listing(old(db.rows), userId), r.tableName).Some? ==>
         var tableId := FirstNamed(Listing(old(db.rows), userId), r.tableName).value;
         resp == TableIdResponse(tableId) && RunsEach(commands, r.documents, scriptPath, userId, tableId) &&
         db.rows == old(db.rows))
  {
    commands := [];
    if req.httpMethod != "POST" {
      return Error("Method not allowed", StatusMethodNotAllowed), [];
    }
    var userId := BearerUser(req.authorization);
    if userId == "" {
      return Error(MissingAuthMessage, StatusUnauthorized), [];
    }
    var body := CreateBody(req.body);
    if body.None? {
      return Error("Invalid request body", StatusBadRequest), [];
    }
    var r := body.value;
    var tableId: string;
    if !r.skipTableCreation {
      var created := db.CreateUserTable(userId, r.tableName, r.isPublic, newId, fault);
      if created.Err? {
        return Error("Failed to create table: " + created.error, StatusInternalServerError), [];
      }
      tableId := created.value;
    } else {
      var tables := db.GetUserTables(userId, fault);
      if tables.Err? {
        return Error("Failed to get user tables: " + tables.error, StatusInternalServerError), [];
      }
      var found;
      found, tableId := FindTableByName(tables.value, r.tableName);
      if !found {
        return Error("Table not found", StatusNotFound), [];
      }
    }
    var outcomes;
    commands, outcomes := ProcessDocuments(r.documents, scriptPath, userId, tableId, run);
    resp := TableIdResponse(tableId);
  }
}
