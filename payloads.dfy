/** The request structs of the backend and how encoding/json decodes a body into them. */
module Payloads {
  import opened Wrappers
  import opened Json

  /** routes.go `Document`: an uploaded file to ingest. */
  datatype Document = Document(filePath: string, fileName: string)

  /** routes.go `createUserTableRequest`. */
  datatype CreateTableRequest = CreateTableRequest(
    tableName: string,
    isPublic: bool,
    documents: seq<Document>,
    skipTableCreation: bool)

  const EmptyCreateTable := CreateTableRequest("", false, [], false)

  /** Decoding one member into a Go string: a missing member or null leaves "",
      any other JSON kind is a type error. */
  function StringMember(m: map<string, Json>, key: string): Option<string>
  {
    if key !in m then Some("")
    else match m[key]
      case JNull => Some("")
      case JStr(s) => Some(s)
      case _ => None
  }

  /** Decoding one member into a Go bool. */
  function BoolMember(m: map<string, Json>, key: string): Option<bool>
  {
    if key !in m then Some(false)
    else match m[key]
      case JNull => Some(false)
      case JBool(b) => Some(b)
      case _ => None
  }

  function DecodeDocument(j: Json): Option<Document>
  {
    match j
    case JNull => Some(Document("", ""))
    case JObj(m) =>
      (match (StringMember(m, "file_path"), StringMember(m, "file_name"))
       case (Some(p), Some(n)) => Some(Document(p, n))
       case _ => None)
    case _ => None
  }

  /** Decoding a JSON array into []Document: every element must decode. */
  function DecodeDocuments(items: seq<Json>): (r: Option<seq<Document>>)
    ensures r.Some? ==> |r.value| == |items|
    ensures r.Some? ==> forall i :: 0 <= i < |items| ==> DecodeDocument(items[i]) == Some(r.value[i])
    ensures r.None? ==> exists i :: 0 <= i < |items| && DecodeDocument(items[i]).None?
  {
    if items == [] then Some([])
    else match (DecodeDocument(items[0]), DecodeDocuments(items[1..]))
      case (Some(d), Some(ds)) => Some([d] + ds)
      case (None, _) => None
      case (_, None) => None
  }

  function DocumentsMember(m: map<string, Json>, key: string): Option<seq<Document>>
  {
    if key !in m then Some([])
    else match m[key]
      case JNull => Some([])
      case JArr(items) => DecodeDocuments(items)
      case _ => None
  }

  /** json.NewDecoder(r.Body).Decode(&req) for createUserTableRequest: a top-level null leaves
      the zero request, an object fills the members it has, anything else is an error. */
  function DecodeCreateTable(j: Json): (r: Option<CreateTableRequest>)
    ensures j.JNull? ==> r == Some(EmptyCreateTable)
    ensures !j.JNull? && !j.JObj? ==> r.None?
    ensures j.JObj? && j.fields == map[] ==> r == Some(EmptyCreateTable)
    ensures j.JObj? ==>
      (r.Some? <==> StringMember(j.fields, "table_name").Some? && BoolMember(j.fields, "is_public").Some? &&
                    DocumentsMember(j.fields, "documents").Some? && BoolMember(j.fields, "skip_table_creation").Some?)
    ensures j.JObj? && "table_name" in j.fields && j.fields["table_name"].JStr? ==>
      r.None? || r.value.tableName == j.fields["table_name"].s
    ensures j.JObj? && "is_public" in j.fields && j.fields["is_public"].JBool? ==>
      r.None? || r.value.isPublic == j.fields["is_public"].b
    ensures j.JObj? && "skip_table_creation" in j.fields && j.fields["skip_table_creation"].JBool? ==>
      r.None? || r.value.skipTableCreation == j.fields["skip_table_creation"].b
    ensures j.JObj? && "documents" in j.fields && j.fields["documents"].JArr? ==>
      r.None? || |r.value.documents| == |j.fields["documents"].items|
    ensures j.JObj? && "documents" in j.fields && j.fields["documents"].JArr? ==>
      r.None? || Some(r.value.documents) == DecodeDocuments(j.fields["documents"].items)
    ensures j.JObj? && ("table_name" !in j.fields || j.fields["table_name"].JNull?) ==>
      r.None? || r.value.tableName == ""
    ensures j.JObj? && ("is_public" !in j.fields || j.fields["is_public"].JNull?) ==>
      r.None? || !r.value.isPublic
    ensures j.JObj? && ("documents" !in j.fields || j.fields["documents"].JNull?) ==>
      r.None? || r.value.documents == []
    ensures j.JObj? && ("skip_table_creation" !in j.fields || j.fields["skip_table_creation"].JNull?) ==>
      r.None? || !r.value.skipTableCreation
    ensures j.JObj? && "table_name" in j.fields && !j.fields["table_name"].JStr? && !j.fields["table_name"].JNull? ==>
      r.None?
  {
    match j
    case JNull => Some(EmptyCreateTable)
    case JObj(m) =>
      (match (StringMember(m, "table_name"), BoolMember(m, "is_public"),
              DocumentsMember(m, "documents"), BoolMember(m, "skip_table_creation"))
       case (Some(n), Some(p), Some(ds), Some(skip)) => Some(CreateTableRequest(n, p, ds, skip))
       case _ => None)
    case _ => None
  }

  /** The same decoding for updateTableVisibilityRequest: its one member is_public. */
  function DecodeVisibility(j: Json): (r: Option<bool>)
    ensures j.JNull? ==> r == Some(false)
    ensures !j.JNull? && !j.JObj? ==> r.None?
    ensures j.JObj? && ("is_public" !in j.fields || j.fields["is_public"].JNull?) ==> r == Some(false)
    ensures j.JObj? && "is_public" in j.fields && j.fields["is_public"].JBool? ==> r == Some(j.fields["is_public"].b)
    ensures j.JObj? && "is_public" in j.fields && !j.fields["is_public"].JBool? && !j.fields["is_public"].JNull? ==>
      r.None?
  {
    match j
    case JNull => Some(false)
    case JObj(m) => BoolMember(m, "is_public")
    case _ => None
  }

  function EncodeDocument(d: Document): Json
  {
    JObj(map["file_path" := JStr(d.filePath), "file_name" := JStr(d.fileName)])
  }

  function EncodeDocuments(ds: seq<Document>): seq<Json>
  {
    if ds == [] then [] else [EncodeDocument(ds[0])] + EncodeDocuments(ds[1..])
  }

  /** The body a client sends for create_table, every member present. */
  function EncodeCreateTable(r: CreateTableRequest): Json
  {
    JObj(map[
      "table_name" := JStr(r.tableName),
      "is_public" := JBool(r.isPublic),
      "documents" := JArr(EncodeDocuments(r.documents)),
      "skip_table_creation" := JBool(r.skipTableCreation)])
  }

  lemma {:induction false} DecodeEncodeDocuments(ds: seq<Document>)
    ensures DecodeDocuments(EncodeDocuments(ds)) == Some(ds)
  {
    if ds != [] {
      var items := EncodeDocuments(ds);
      assert items[1..] == EncodeDocuments(ds[1..]);
      DecodeEncodeDocuments(ds[1..]);
      assert DecodeDocument(items[0]) == Some(ds[0]);
      assert [ds[0]] + ds[1..] == ds;
    }
  }

  /** A fully-populated create_table body decodes back to the request it encodes. */
  lemma DecodeEncodeCreateTable(r: CreateTableRequest)
    ensures DecodeCreateTable(EncodeCreateTable(r)) == Some(r)
  {
    EncodedMembers(r);
  }

  /** Each member of the encoded body decodes to the field it came from. */
  lemma EncodedMembers(r: CreateTableRequest)
    ensures var m := EncodeCreateTable(r).fields;
      StringMember(m, "table_name") == Some(r.tableName) &&
      BoolMember(m, "is_public") == Some(r.isPublic) &&
      DocumentsMember(m, "documents") == Some(r.documents) &&
      BoolMember(m, "skip_table_creation") == Some(r.skipTableCreation)
  {
    DecodeEncodeDocuments(r.documents);
    var m := EncodeCreateTable(r).fields;
    assert m["table_name"] == JStr(r.tableName);
    assert m["is_public"] == JBool(r.isPublic);
    assert m["documents"] == JArr(EncodeDocuments(r.documents));
    assert m["skip_table_creation"] == JBool(r.skipTableCreation);
  }

  /** A member the struct does not declare is skipped: adding one changes nothing. */
  lemma DecodeIgnoresUnknownMember(m: map<string, Json>, key: string, v: Json)
    requires key !in {"table_name", "is_public", "documents", "skip_table_creation"}
    ensures DecodeCreateTable(JObj(m[key := v])) == DecodeCreateTable(JObj(m))
  {
    var m' := m[key := v];
    assert StringMember(m', "table_name") == StringMember(m, "table_name");
    assert BoolMember(m', "is_public") == BoolMember(m, "is_public");
    assert DocumentsMember(m', "documents") == DocumentsMember(m, "documents");
    assert BoolMember(m', "skip_table_creation") == BoolMember(m, "skip_table_creation");
  }

  /** The visibility body {"is_public": p} decodes to p. */
  lemma DecodeVisibilityBody(p: bool)
    ensures DecodeVisibility(JObj(map["is_public" := JBool(p)])) == Some(p)
  {
  }
}
