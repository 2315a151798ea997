/** How the frontend's requests read on the backend side. */
module Integration {
  import opened Wrappers
  import opened Json
  import Api
  import Routes
  import Payloads

  /** The Authorization header fetchWithAuth builds yields, on the backend, the session's email as
      the user id; a session whose user has no email is read as the user "undefined" (or "null"),
      not as a missing user. */
  lemma HeaderNamesSessionUser(session: Option<Api.Session>, env: Option<string>, endpoint: string,
                               options: Api.Options, server: Api.Call -> Api.Reply)
    requires Api.SignedIn(session) && "Authorization" !in options.headers
    ensures var call := Api.FetchWithAuth(session, env, endpoint, options, server).calls[0];
      "Authorization" in call.headers &&
      Routes.BearerUser(call.headers["Authorization"]) == Api.EmailText(session.value.user.value.email)
  {
    Routes.BearerRoundTrip(Api.EmailText(session.value.user.value.email));
  }

  /** The {tableName} body of api.createUserTable, read as a create_table request, carries no
      table name: the backend's member is table_name. */
  lemma CreateHelperBodyLosesName(tableName: string)
    ensures Payloads.DecodeCreateTable(Api.CreateTableBody(tableName)) == Some(Payloads.EmptyCreateTable)
  {
    var m := Api.CreateTableBody(tableName).fields;
    assert "table_name" !in m && "is_public" !in m && "documents" !in m && "skip_table_creation" !in m;
  }
}
