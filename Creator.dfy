/** The Zoho Creator client (lib/creator.js): a settable session cookie,
    form and view endpoints, the image download that switches the client
    to the export host, request assembly with `raw=true` and the
    download-versus-API path, and the `message` response branch with its
    lenient JSON fallback. */
module Creator {
  import opened Js
  import opened Xml
  import opened Wire

  const ApiPrefix := "/api/json/"
  const DefaultHost := "creator.zoho.com"
  const ExportHost := "creatorexport.zoho.com"
  const DefaultScope := "creatorapi"
  const Attachment := "attachment; filename=1427150341594_image.JPG"

  /** The two headers added to a download request. */
  const ImageHeaders: Fields := [("Content-disposition", Str(Attachment)), ("Content-type", Str("image/jpeg"))]

  // ---------------------------------------------------------------------
  // Record serialiser (`_build`)

  /** The inside of one `<row no="k">`: every own property as CDATA. */
  function RowBody(record: Value): string {
    ConcatMap(FieldsOf(record), CdataField)
  }

  /** The string `_build(module, data)` returns. */
  function BuildXml(moduleName: string, data: Value): string {
    Document(moduleName, Numbered("row", RecordsOf(data), 1, RowBody))
  }

  /** Row `k + 1` is the `k`-th record, between the rows of the records
      before and after it. */
  lemma RowAt(moduleName: string, data: Value, k: nat)
    requires k < |RecordsOf(data)|
    ensures var records := RecordsOf(data);
            BuildXml(moduleName, data)
            == Document(moduleName, Numbered("row", records[..k], 1, RowBody)
                                    + Element("row", k + 1, RowBody(records[k]))
                                    + Numbered("row", records[k + 1..], k + 2, RowBody))
  {
    NumberedAt("row", RecordsOf(data), 1, RowBody, k);
  }

  /** Field `j` of a row is `<FL val="name"><![CDATA[value]]></FL>` for
      the `j`-th property, after the earlier ones and before the later. */
  lemma FieldAt(record: Value, j: nat)
    requires j < |FieldsOf(record)|
    ensures var fs := FieldsOf(record);
            RowBody(record)
            == ConcatMap(fs[..j], CdataField)
               + "<FL val=\"" + fs[j].0 + "\"><![CDATA[" + JsString(fs[j].1) + "]]></FL>"
               + ConcatMap(fs[j + 1..], CdataField)
  {
    ConcatMapAt(FieldsOf(record), CdataField, j);
  }

  lemma TagLiterals(n: nat)
    ensures Open("row", n) == "<row no=\"" + NatToString(n) + "\">"
    ensures "</" + "row" + ">" == "</row>"
  {
  }

  /** The `forEach` callback of `_build` for one record. */
  method RowElement(params: Value, index: nat) returns (xml: string)
    ensures xml == Element("row", index + 1, RowBody(params))
  {
    var fields := FieldsOf(params);
    var open := "<row no=\"" + NatToString(index + 1) + "\">";
    TagLiterals(index + 1);
    xml := open;
    var j := 0;
    while j < |fields|
      invariant j <= |fields|
      invariant xml == open + ConcatMap(fields[..j], CdataField)
    {
      var piece := "<FL val=\"" + fields[j].0 + "\"><![CDATA[" + JsString(fields[j].1) + "]]></FL>";
      assert piece == CdataField(fields[j]);
      ConcatMapStep(xml, piece, open, fields, j, CdataField);
      xml := xml + piece;
      j := j + 1;
    }
    assert fields[..j] == fields;
    xml := xml + "</row>";
  }

  /** `_build(module, data)` */
  method Build(moduleName: string, data: Value) returns (xml: string)
    ensures xml == BuildXml(moduleName, data)
  {
    var records := if data.Arr? then data.items else [data];
    var rows := BuildRows(records);
    xml := "<" + moduleName + ">" + rows + "</" + moduleName + ">";
  }

  /** The `records.forEach` loop of `_build`. */
  method BuildRows(records: seq<Value>) returns (xml: string)
    ensures xml == Numbered("row", records, 1, RowBody)
  {
    xml := "";
    var index := 0;
    while index < |records|
      invariant index <= |records|
      invariant xml == Numbered("row", records[..index], 1, RowBody)
    {
      var row := RowElement(records[index], index);
      NumberedAppend("row", records[..index], records[index], 1, RowBody);
      assert records[..index + 1] == records[..index] + [records[index]];
      xml := xml + row;
      index := index + 1;
    }
    assert records[..index] == records;
  }

  // ---------------------------------------------------------------------
  // Response branch of `_request`

  /** What the callback receives: the raw bytes for a download; otherwise
      the parsed body (`{}` when it does not parse), which is a failure
      exactly when its `message` is truthy. */
  function Classify(binary: bool, body: string, parse: string -> Option<Value>): (o: Outcome)
    ensures binary ==> o == Binary(body)
    ensures !binary && parse(body).None? ==> o == Success(Obj([]))
    ensures !binary ==> !o.Binary?
    ensures o.Failure? ==> o.error.Obj? && Keys(o.error.fields) == ["code", "message"]
                           && Truthy(Get(o.error.fields, "message"))
    ensures !binary && parse(body).Some? && parse(body).value.Obj? ==>
              var fields := parse(body).value.fields;
              o == if Truthy(Get(fields, "message"))
                   then Failure(ErrorObject(Get(fields, "code"), Get(fields, "message")))
                   else Success(parse(body).value)
    ensures !binary && parse(body).Some? && (parse(body).value.Null? || parse(body).value.Undefined?) ==>
              o == Uncaught
    ensures !binary && parse(body).Some?
            && !(parse(body).value.Obj? || parse(body).value.Null? || parse(body).value.Undefined?) ==>
              o == Success(parse(body).value)
  {
    if binary then Binary(body)
    else
      var data := match parse(body) case None => Obj([]) case Some(d) => d;
      match Prop(data, "message")
      case None => Uncaught
      case Some(message) =>
        if Truthy(message) then Failure(ErrorObject(Prop(data, "code").value, message)) else Success(data)
  }

  /** `{"message":"some auth error"}` is the failure
      `{code: undefined, message: 'some auth error'}`. */
  lemma MessageFixture(body: string, parse: string -> Option<Value>)
    requires parse(body) == Some(Obj([("message", Str("some auth error"))]))
    ensures Classify(false, body, parse) == Failure(ErrorObject(Undefined, Str("some auth error")))
  {
    var fields := [("message", Str("some auth error"))];
    assert "message" != "code" by { assert "message"[0] != "code"[0]; }
    assert fields[1..] == [];
    assert Get(fields, "code") == Undefined;
  }

  /** The request path: a download goes to the bare endpoint with the
      encoded query; anything else goes under `/api/json/` with the query
      unescaped again. */
  function PathFor(endpoint: string, query: Fields, enc: Encoders): (path: string)
    ensures Has(query, "download") ==> path == endpoint + "?" + enc.stringify(query)
    ensures !Has(query, "download") ==> path == ApiPrefix + endpoint + "?" + enc.unescape(enc.stringify(query))
  {
    if Has(query, "download") then endpoint + "?" + enc.stringify(query)
    else ApiPrefix + endpoint + "?" + enc.unescape(enc.stringify(query))
  }

  /** An empty body is not `No content data` here: the collected buffer
      is always truthy, `JSON.parse` of it fails, and the callback gets
      the empty object as data. */
  lemma EmptyBodyIsEmptySuccess(parse: string -> Option<Value>)
    requires parse("").None?
    ensures Classify(false, "", parse) == Success(Obj([]))
  {
  }

  // ---------------------------------------------------------------------
  // The client object

  class Client {
    var cookie: Value
    var protocol: Value
    var host: Value
    var port: Value
    var authtoken: Value
    var scope: Value

    /** `new Creator(options)`: no cookie, defaults for protocol, host and
        port; without a truthy `authtoken` the constructor returns early
        and leaves `authtoken` and `scope` unset. */
    constructor (options: Value)
      ensures cookie == Bool(false)
      ensures protocol == Or(Setting(options, "protocol"), Str("https"))
      ensures host == Or(Setting(options, "host"), Str(DefaultHost))
      ensures port == DefaultPort(Setting(options, "port"), protocol)
      ensures Truthy(Setting(options, "authtoken")) ==>
                authtoken == Setting(options, "authtoken")
                && scope == Or(Setting(options, "scope"), Str(DefaultScope))
      ensures !Truthy(Setting(options, "authtoken")) ==> authtoken == Undefined && scope == Undefined
    {
      cookie := Bool(false);
      var chosen := Or(Setting(options, "protocol"), Str("https"));
      protocol := chosen;
      host := Or(Setting(options, "host"), Str(DefaultHost));
      port := DefaultPort(Setting(options, "port"), chosen);
      if !Truthy(Setting(options, "authtoken")) {
        // the early `return console.error(…)`
        authtoken, scope := Undefined, Undefined;
      } else {
        authtoken := Setting(options, "authtoken");
        scope := Or(Setting(options, "scope"), Str(DefaultScope));
      }
    }

    /** `setCookie(cookie)`: the value every later request sends as its
        `Cookie` header. */
    method SetCookie(value: Value)
      modifies this
      ensures cookie == value
      ensures protocol == old(protocol) && host == old(host) && port == old(port)
      ensures authtoken == old(authtoken) && scope == old(scope)
    {
      cookie := value;
    }

    /** The parameters after `authtoken`, `scope` and `raw = true` are
        written into them; this is what the query string is built from. */
    function WithAuth(params: Fields): (p: Fields)
      reads this
      ensures Get(p, "authtoken") == authtoken && Get(p, "scope") == scope && Get(p, "raw") == Bool(true)
      ensures forall k :: k != "authtoken" && k != "scope" && k != "raw" ==> Get(p, k) == Get(params, k)
      ensures forall k :: k in Keys(p) <==> k in Keys(params) || k == "authtoken" || k == "scope" || k == "raw"
      ensures Has(p, "download") <==> Has(params, "download")
    {
      var withToken := Assign(params, "authtoken", authtoken);
      var withScope := Assign(withToken, "scope", scope);
      Assign(withScope, "raw", Bool(true))
    }

    /** The request `_request(verb, endpoint, params)` sends. With a
        `download` key the path is the bare endpoint and encoded query and
        the response is read as bytes; otherwise it is `/api/json/` and the
        unescaped query. The `path` key is deleted only after the query is
        built (see `PathOnlyInQuery`). */
    function RequestFor(verb: string, endpoint: string, params: Fields, enc: Encoders): (r: Request)
      reads this
      ensures r.verb == verb && r.host == host && r.port == port && r.secure == (protocol == Str("https"))
      ensures r.binary <==> Has(params, "download")
      ensures r.path == PathFor(endpoint, WithAuth(params), enc)
      ensures r.params == Delete(WithAuth(params), "path") && !Has(r.params, "path")
      ensures r.body == enc.json(Obj(r.params))
      ensures r.headers == [("Content-Length", Num(|r.body|)), ("Cookie", cookie)]
                           + (if r.binary then ImageHeaders else [])
    {
      var p := WithAuth(params);
      var download := Has(p, "download");
      var path := PathFor(endpoint, p, enc);
      var sent := Delete(p, "path");
      assert Has(sent, "download") == download;
      var body := enc.json(Obj(sent));
      var headers := [("Content-Length", Num(|body|)), ("Cookie", cookie)]
        + (if download then ImageHeaders else []);
      Request(verb, protocol == Str("https"), host, port, path, headers, sent, body, download)
    }

    /** `_request`: adds `authtoken`, `scope` and `raw`, picks the path,
        deletes `path`, then sets the headers. */
    method Dispatch(verb: string, endpoint: string, params: Fields, enc: Encoders) returns (r: Request)
      ensures r == RequestFor(verb, endpoint, params, enc)
    {
      var p := params;
      p := Assign(p, "authtoken", authtoken);
      p := Assign(p, "scope", scope);
      p := Assign(p, "raw", Bool(true));
      var path := if Has(p, "download") then endpoint + "?" + enc.stringify(p)
                  else ApiPrefix + endpoint + "?" + enc.unescape(enc.stringify(p));
      p := Delete(p, "path");
      var headers := [("Content-Length", Num(|enc.json(Obj(p))|)), ("Cookie", cookie)];
      if Has(p, "download") {
        headers := headers + ImageHeaders;
      }
      r := Request(verb, protocol == Str("https"), host, port, path, headers, p, enc.json(Obj(p)), Has(p, "download"));
    }

    /** `addRecords(app, form, params)` */
    method AddRecords(app: string, form: string, params: Fields, enc: Encoders) returns (call: Call)
      ensures call == Send(RequestFor("POST", app + "/form/" + form + "/record/add/", params, enc))
    {
      var r := Dispatch("POST", app + "/form/" + form + "/record/add/", params, enc);
      call := Send(r);
    }

    /** `editRecords(app, form, params)` */
    method EditRecords(app: string, form: string, params: Fields, enc: Encoders) returns (call: Call)
      ensures call == Send(RequestFor("POST", app + "/form/" + form + "/record/update/", params, enc))
    {
      var r := Dispatch("POST", app + "/form/" + form + "/record/update/", params, enc);
      call := Send(r);
    }

    /** `deleteRecords(app, form, params)` */
    method DeleteRecords(app: string, form: string, params: Fields, enc: Encoders) returns (call: Call)
      ensures call == Send(RequestFor("POST", app + "/form/" + form + "/record/delete/", params, enc))
    {
      var r := Dispatch("POST", app + "/form/" + form + "/record/delete/", params, enc);
      call := Send(r);
    }

    /** `viewRecordsInView(app, view, params)` */
    method ViewRecordsInView(app: string, view: string, params: Fields, enc: Encoders) returns (call: Call)
      ensures call == Send(RequestFor("GET", app + "/view/" + view, params, enc))
    {
      var r := Dispatch("GET", app + "/view/" + view, params, enc);
      call := Send(r);
    }

    /** `listFormFields(app, view, params)`: the same view endpoint. */
    method ListFormFields(app: string, view: string, params: Fields, enc: Encoders) returns (call: Call)
      ensures call == Send(RequestFor("GET", app + "/view/" + view, params, enc))
    {
      var r := Dispatch("GET", app + "/view/" + view, params, enc);
      call := Send(r);
    }

    /** `downloadImage(endpoint, params)`: switches this client to the
        export host for good and marks the parameters as a download. */
    method DownloadImage(endpoint: string, params: Fields, enc: Encoders) returns (call: Call)
      modifies this
      ensures host == Str(ExportHost)
      ensures cookie == old(cookie) && protocol == old(protocol) && port == old(port)
      ensures authtoken == old(authtoken) && scope == old(scope)
      ensures call == Send(RequestFor("GET", endpoint, Assign(params, "download", Bool(true)), enc))
    {
      host := Str(ExportHost);
      var p := Assign(params, "download", Bool(true));
      var r := Dispatch("GET", endpoint, p, enc);
      call := Send(r);
    }
  }

  /** A caller's `path` parameter reaches the query string unchanged but
      is gone from the parameters and the body. */
  lemma PathOnlyInQuery(c: Client, verb: string, endpoint: string, params: Fields, enc: Encoders)
    ensures var r := c.RequestFor(verb, endpoint, params, enc);
            Get(c.WithAuth(params), "path") == Get(params, "path")
            && r.path == PathFor(endpoint, c.WithAuth(params), enc)
            && !Has(r.params, "path") && r.body == enc.json(Obj(r.params))
  {
    assert |"path"| != |"authtoken"| && |"path"| != |"scope"| && |"path"| != |"raw"|;
  }

  /** A download request goes to the bare endpoint, is read as bytes, and
      carries the image headers. */
  lemma DownloadIsBinary(c: Client, endpoint: string, params: Fields, enc: Encoders)
    ensures var r := c.RequestFor("GET", endpoint, Assign(params, "download", Bool(true)), enc);
            r.binary && Get(r.params, "download") == Bool(true)
            && r.path == endpoint + "?" + enc.stringify(c.WithAuth(Assign(params, "download", Bool(true))))
            && r.headers[2..] == ImageHeaders
  {
  }
}
