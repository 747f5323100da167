/** The proxy's request handlers (`AiController`). A handler is a function from the
    request to the one response it sends; the agent service it forwards a query to is
    a parameter giving the outcome of the forwarded call. */
module Controller {
  import opened Text

  /** A JSON value. Numbers are integers here. */
  datatype Json =
    | JNull
    | JBool(b: bool)
    | JNum(n: int)
    | JStr(s: string)
    | JArr(items: seq<Json>)
    | JObj(fields: map<string, Json>)

  /** JavaScript truthiness of a property read: absent (undefined), null, false, 0 and
      "" are falsy; everything else is truthy. */
  predicate Truthy(v: Option<Json>) {
    match v
    case None => false
    case Some(JNull) => false
    case Some(JBool(b)) => b
    case Some(JNum(n)) => n != 0
    case Some(JStr(s)) => s != ""
    case Some(_) => true
  }

  /** The status code and JSON body a handler sends. */
  datatype Response = Response(status: nat, body: Json)

  /** What became of the forwarded call: the agent's body, or a thrown error. */
  datatype Outcome = Resolved(data: Json) | Rejected

  /** One handled query: the value passed to the service, if it was called, and the
      response sent. */
  datatype Exchange = Exchange(forwarded: Option<Json>, response: Response)

  function ErrorBody(message: string): Json {
    JObj(map["error" := JStr(message)])
  }

  /** `const { query } = req.body`: reading from null throws; any other value gives the
      property, or undefined when it has none. */
  function QueryOf(body: Json): Option<Option<Json>> {
    match body
    case JNull => None
    case JObj(f) => Some(if "query" in f then Some(f["query"]) else None)
    case _ => Some(None)
  }

  /** `processQuery`. A falsy query is refused with 400 before the service is called;
      a truthy one is forwarded as it is and the service's answer is sent back unchanged
      with status 200; a service failure, or a body that cannot be read, becomes 500. */
  function ProcessQuery(body: Json, service: Json -> Outcome): (x: Exchange)
    ensures x.response.status in {200, 400, 500}
    ensures x.response.status == 400 <==> QueryOf(body).Some? && !Truthy(QueryOf(body).value)
    ensures x.response.status == 400 ==> x.response.body == ErrorBody("Query is required")
    ensures x.forwarded.Some? <==> QueryOf(body).Some? && Truthy(QueryOf(body).value)
    ensures x.forwarded.Some? ==> QueryOf(body) == Some(x.forwarded)
    ensures x.response.status == 200 <==> x.forwarded.Some? && service(x.forwarded.value).Resolved?
    ensures x.response.status == 200 ==> x.response.body == service(x.forwarded.value).data
    ensures x.response.status == 500 ==> x.response.body == ErrorBody("Failed to process query")
  {
    match QueryOf(body)
    case None => Exchange(None, Response(500, ErrorBody("Failed to process query")))
    case Some(query) =>
      if !Truthy(query) then Exchange(None, Response(400, ErrorBody("Query is required")))
      else
        match service(query.value)
        case Resolved(data) => Exchange(query, Response(200, data))
        case Rejected => Exchange(query, Response(500, ErrorBody("Failed to process query")))
  }

  /** The upload as the multipart middleware describes it. */
  datatype UploadedFile = UploadedFile(path: string, filename: string, originalname: string, mimetype: string)

  const UploadsPrefix := "/uploads/"

  /** `processFileUpload`: 400 without a file; otherwise 200 with `success: true` and a
      reference to the stored file under the public uploads prefix. */
  function ProcessFileUpload(file: Option<UploadedFile>): (r: Response)
    ensures file.None? ==> r == Response(400, ErrorBody("No file uploaded"))
    ensures file.Some? ==> (r.status == 200 && r.body.JObj?
      && r.body.fields.Keys == {"success", "file"}
      && r.body.fields["success"] == JBool(true)
      && r.body.fields["file"] == JObj(map[
           "url" := JStr(UploadsPrefix + file.value.filename),
           "name" := JStr(file.value.originalname),
           "type" := JStr(file.value.mimetype)]))
  {
    match file
    case None => Response(400, ErrorBody("No file uploaded"))
    case Some(f) =>
      Response(200, JObj(map[
        "success" := JBool(true),
        "file" := JObj(map[
          "url" := JStr(UploadsPrefix + f.filename),
          "name" := JStr(f.originalname),
          "type" := JStr(f.mimetype)])]))
  }

  /** The stored file's name can be read back from the URL the upload returns. */
  lemma UploadUrlNamesFile(f: UploadedFile)
    ensures var url := ProcessFileUpload(Some(f)).body.fields["file"].fields["url"].s;
      StartsWith(url, UploadsPrefix) && url[|UploadsPrefix|..] == f.filename
  {
    var url := UploadsPrefix + f.filename;
    assert url[..|UploadsPrefix|] == UploadsPrefix;
    assert url[|UploadsPrefix|..] == f.filename;
  }
}
