/** The Zoho Support client (lib/support.js): a constructor that needs
    `authtoken`, `portal` and `department`, the `<requests>` serialiser
    with plain (non-CDATA) fields, module names used verbatim, and the
    `responsecode`/`responsedata` success shape. */
module Support {
  import opened Js
  import opened Xml
  import opened Wire
  import opened Validate

  const ApiPrefix := "/api/json/"
  const DefaultHost := "support.zoho.com"
  const Root := "requests"

  // ---------------------------------------------------------------------
  // Record serialiser (inline in `createRecord` and `updateRecord`)

  /** `<fl val="name">value</fl>`: the value is spliced in as is. */
  function PlainField(f: (string, Value)): string {
    "<fl val=\"" + f.0 + "\">" + JsString(f.1) + "</fl>"
  }

  /** The inside of one `<row no="k">`. */
  function RowBody(record: Value): string {
    ConcatMap(FieldsOf(record), PlainField)
  }

  /** The `xml` parameter built from `params`. */
  function RequestsXml(data: Value): string {
    Document(Root, Numbered("row", RecordsOf(data), 1, RowBody))
  }

  /** Row `k + 1` is the `k`-th record: rows keep the order of the input. */
  lemma RowAt(data: Value, k: nat)
    requires k < |RecordsOf(data)|
    ensures var records := RecordsOf(data);
            RequestsXml(data)
            == Document(Root, Numbered("row", records[..k], 1, RowBody)
                              + Element("row", k + 1, RowBody(records[k]))
                              + Numbered("row", records[k + 1..], k + 2, RowBody))
  {
    NumberedAt("row", RecordsOf(data), 1, RowBody, k);
  }

  /** Field `j` of a row is `<fl val="name">value</fl>` for the `j`-th
      property, with no CDATA section around the value. */
  lemma FieldAt(record: Value, j: nat)
    requires j < |FieldsOf(record)|
    ensures var fs := FieldsOf(record);
            RowBody(record)
            == ConcatMap(fs[..j], PlainField)
               + "<fl val=\"" + fs[j].0 + "\">" + JsString(fs[j].1) + "</fl>"
               + ConcatMap(fs[j + 1..], PlainField)
  {
    ConcatMapAt(FieldsOf(record), PlainField, j);
  }

  /** A single record serialises exactly as the one-element list holding it. */
  lemma SingleRecordIsList(record: Value)
    requires !record.Arr?
    ensures RequestsXml(record) == RequestsXml(Arr([record]))
  {
  }

  lemma TagLiterals(n: nat)
    ensures Open("row", n) == "<row no=\"" + NatToString(n) + "\">"
    ensures "</" + "row" + ">" == "</row>"
    ensures "<" + Root + ">" == "<requests>" && "</" + Root + ">" == "</requests>"
  {
  }

  /** The `forEach` callback for one record. */
  method RowElement(params: Value, index: nat) returns (xml: string)
    ensures xml == Element("row", index + 1, RowBody(params))
  {
    var fields := FieldsOf(params);
    var open := "<row no=\"" + NatToString(index + 1) + "\">";
    TagLiterals(index + 1);
    xml := open;
    var j := 0;
    while j < |fields|
      invariant j <= |fields|
      invariant xml == open + ConcatMap(fields[..j], PlainField)
    {
      var piece := "<fl val=\"" + fields[j].0 + "\">" + JsString(fields[j].1) + "</fl>";
      assert piece == PlainField(fields[j]);
      ConcatMapStep(xml, piece, open, fields, j, PlainField);
      xml := xml + piece;
      j := j + 1;
    }
    assert fields[..j] == fields;
    xml := xml + "</row>";
  }

  /** The loop `createRecord` and `updateRecord` both run over
      `params instanceof Array ? params : [params]`. */
  method BuildRequests(params: Value) returns (xml: string)
    ensures xml == RequestsXml(params)
  {
    var records := if params.Arr? then params.items else [params];
    var rows := BuildRows(records);
    TagLiterals(1);
    xml := "<requests>" + rows + "</requests>";
  }

  /** The `records.forEach` loop. */
  method BuildRows(records: seq<Value>) returns (xml: string)
    ensures xml == Numbered("row", records, 1, RowBody)
  {
    xml := "";
    var index := 0;
    while index < |records|
      invariant index <= |records|
      invariant xml == Numbered("row", records[..index], 1, RowBody)
    {
      var row := RowElement(records[index], index);
      NumberedAppend("row", records[..index], records[index], 1, RowBody);
      assert records[..index + 1] == records[..index] + [records[index]];
      xml := xml + row;
      index := index + 1;
    }
    assert records[..index] == records;
  }

  // ---------------------------------------------------------------------
  // Response branch of `_request`

  /** What the callback receives for a response body: an empty body is
      `No content data`; otherwise the body is parsed (a parse failure
      throws), a truthy `response.error` is a failure, and anything else
      is a success built from `response.result`. */
  function Classify(body: string, parse: string -> Option<Value>): (o: Outcome)
    ensures body == "" ==> o == Failure(NoContent)
    ensures body != "" && parse(body).None? ==> o == Uncaught
    ensures body != "" && parse(body).Some?
            && !(Prop(parse(body).value, "response").Some? && Prop(parse(body).value, "response").value.Obj?) ==>
              o == Uncaught
    ensures o.Failure? ==> o.error == NoContent || (o.error.Obj? && Keys(o.error.fields) == ["code", "message"])
    ensures o.Success? ==> o.data.Obj? && Keys(o.data.fields) == ["code", "data"]
    ensures o.Success? ==> Truthy(Get(o.data.fields, "code")) || Get(o.data.fields, "code") == Num(0)
    ensures !o.Binary?
  {
    if body == "" then Failure(NoContent)
    else match parse(body)
      case None => Uncaught
      case Some(data) => ClassifyParsed(data)
  }

  function ClassifyParsed(data: Value): Outcome {
    match Prop(data, "response")
    case None => Uncaught
    case Some(response) =>
      match Prop(response, "error")
      case None => Uncaught
      case Some(error) =>
        if Truthy(error) then Failure(ErrorObject(Prop(error, "code").value, Prop(error, "message").value))
        else
          var result := Prop(response, "result").value;
          match Prop(result, "responsecode")
          case None => Uncaught
          case Some(code) =>
            Success(ResultObject(Or(code, Num(0)), Or(Prop(result, "responsedata").value, result)))
  }

  /** For a parsed body whose `response` is an object: a truthy `error`
      is the failure; otherwise there is a success exactly when
      `response.result` can be read. */
  lemma ClassifyDecision(body: string, parse: string -> Option<Value>, response: Fields)
    requires body != "" && parse(body).Some? && Prop(parse(body).value, "response") == Some(Obj(response))
    ensures var error := Get(response, "error");
            var result := Get(response, "result");
            && (Truthy(error) ==>
                  Classify(body, parse) == Failure(ErrorObject(Prop(error, "code").value, Prop(error, "message").value)))
            && (Classify(body, parse).Success? <==> !Truthy(error) && !result.Undefined? && !result.Null?)
            && (Classify(body, parse).Uncaught? <==> !Truthy(error) && (result.Undefined? || result.Null?))
  {
  }

  /** A success carries `result.responsecode || 0` and
      `result.responsedata || result`. */
  lemma ClassifySuccess(body: string, parse: string -> Option<Value>, response: Fields, result: Value)
    requires body != "" && parse(body).Some? && Prop(parse(body).value, "response") == Some(Obj(response))
    requires !Truthy(Get(response, "error"))
    requires Get(response, "result") == result && !result.Null? && !result.Undefined?
    ensures Classify(body, parse)
            == Success(ResultObject(Or(Prop(result, "responsecode").value, Num(0)),
                                    Or(Prop(result, "responsedata").value, result)))
  {
  }

  /** `{"response":{"error":{"code":4834,"message":"Invalid Ticket Id"}}}`
      is the failure `{code: 4834, message: 'Invalid Ticket Id'}`. */
  lemma ErrorFixture(body: string, parse: string -> Option<Value>)
    requires body != ""
    requires parse(body) == Some(Obj([("response", Obj([("error",
               Obj([("code", Num(4834)), ("message", Str("Invalid Ticket Id"))]))]))]))
    ensures Classify(body, parse) == Failure(ErrorObject(Num(4834), Str("Invalid Ticket Id")))
  {
  }

  // ---------------------------------------------------------------------
  // The client object

  class Client {
    var protocol: Value
    var host: Value
    var port: Value
    var authtoken: Value
    var portal: Value
    var department: Value

    /** `new Support(options)`: defaults for protocol, host and port; then
        `authtoken`, `portal` and `department` are checked in that order,
        and the three are stored only when all of them are truthy. */
    constructor (options: Value)
      ensures protocol == Or(Setting(options, "protocol"), Str("https"))
      ensures host == Or(Setting(options, "host"), Str(DefaultHost))
      ensures port == DefaultPort(Setting(options, "port"), protocol)
      ensures Configured(options) ==>
                authtoken == Setting(options, "authtoken")
                && portal == Setting(options, "portal")
                && department == Setting(options, "department")
      ensures !Configured(options) ==> authtoken == Undefined && portal == Undefined && department == Undefined
    {
      var chosen := Or(Setting(options, "protocol"), Str("https"));
      protocol := chosen;
      host := Or(Setting(options, "host"), Str(DefaultHost));
      port := DefaultPort(Setting(options, "port"), chosen);
      if !Truthy(Setting(options, "authtoken")) {
        authtoken, portal, department := Undefined, Undefined, Undefined;
      } else if !Truthy(Setting(options, "portal")) {
        authtoken, portal, department := Undefined, Undefined, Undefined;
      } else if !Truthy(Setting(options, "department")) {
        authtoken, portal, department := Undefined, Undefined, Undefined;
      } else {
        authtoken := Setting(options, "authtoken");
        portal := Setting(options, "portal");
        department := Setting(options, "department");
      }
    }

    /** The request `_request(verb, endpoint, params)` sends: `portal`,
        `authtoken` and `department` always overwritten, every other
        parameter untouched, the path under `/api/json/`. */
    function RequestFor(verb: string, endpoint: string, params: Fields, enc: Encoders): (r: Request)
      reads this
      ensures r.verb == verb && r.host == host && r.port == port && r.secure == (protocol == Str("https"))
      ensures Get(r.params, "portal") == portal && Get(r.params, "authtoken") == authtoken
              && Get(r.params, "department") == department
      ensures forall k :: k != "portal" && k != "authtoken" && k != "department" ==> Get(r.params, k) == Get(params, k)
      ensures forall k :: k in Keys(r.params) <==> k in Keys(params) || k == "portal" || k == "authtoken" || k == "department"
      ensures r.path == ApiPrefix + endpoint + "?" + enc.stringify(r.params)
      ensures r.body == enc.json(Obj(r.params)) && r.headers == [("Content-Length", Num(|r.body|))]
      ensures !r.binary
    {
      var withPortal := Assign(params, "portal", portal);
      var withToken := Assign(withPortal, "authtoken", authtoken);
      var p := Assign(withToken, "department", department);
      var body := enc.json(Obj(p));
      Request(verb, protocol == Str("https"), host, port, ApiPrefix + endpoint + "?" + enc.stringify(p),
              [("Content-Length", Num(|body|))], p, body, false)
    }

    /** `_request`: writes the three credentials into the parameters, then
        assembles the request options and the body. */
    method Dispatch(verb: string, endpoint: string, params: Fields, enc: Encoders) returns (r: Request)
      ensures r == RequestFor(verb, endpoint, params, enc)
    {
      var p := params;
      p := Assign(p, "portal", portal);
      p := Assign(p, "authtoken", authtoken);
      p := Assign(p, "department", department);
      var path := ApiPrefix + endpoint + "?" + enc.stringify(p);
      var body := enc.json(Obj(p));
      r := Request(verb, protocol == Str("https"), host, port, path, [("Content-Length", Num(|body|))], p, body, false);
    }

    /** `createRecord(module, params)`: the records travel as the `xml`
        parameter. */
    method CreateRecord(moduleName: string, params: Value, enc: Encoders) returns (call: Call)
      ensures call.Rejected? <==> !NonEmptyObject(params)
      ensures !NonEmptyObject(params) ==> call == Rejected(CreateMessage)
      ensures NonEmptyObject(params) ==>
                call == Send(RequestFor("GET", moduleName + "/addrecords", [("xml", Str(RequestsXml(params)))], enc))
    {
      if !NonEmptyObject(params) {
        return Rejected(CreateMessage);
      }
      var xml := BuildRequests(Defaulted(params));
      var r := Dispatch("GET", moduleName + "/addrecords", [("xml", Str(xml))], enc);
      call := Send(r);
    }

    /** `getRecords(module, params)` */
    method GetRecords(moduleName: string, params: Fields, enc: Encoders) returns (call: Call)
      ensures call == Send(RequestFor("GET", moduleName + "/getrecords", params, enc))
    {
      var r := Dispatch("GET", moduleName + "/getrecords", params, enc);
      call := Send(r);
    }

    /** `getRecordById(module, params)`: needs a truthy `params.id`. */
    method GetRecordById(moduleName: string, params: Value, enc: Encoders) returns (call: Call)
      ensures call.Rejected? <==> !HasTruthyId(params)
      ensures !HasTruthyId(params) ==> call == Rejected(GetByIdMessage)
      ensures HasTruthyId(params) ==>
                params.Obj? && call == Send(RequestFor("GET", moduleName + "/getrecordsbyid", params.fields, enc))
    {
      if !HasTruthyId(params) {
        return Rejected(GetByIdMessage);
      }
      HasTruthyIdIff(params);
      var r := Dispatch("GET", moduleName + "/getrecordsbyid", params.fields, enc);
      call := Send(r);
    }

    /** `updateRecord(module, id, params)`: sends `id` and the `xml`. */
    method UpdateRecord(moduleName: string, id: Value, params: Value, enc: Encoders) returns (call: Call)
      ensures call.Rejected? <==> !NonEmptyObject(params) || !UsableId(id)
      ensures !NonEmptyObject(params) ==> call == Rejected(UpdateParamsMessage)
      ensures NonEmptyObject(params) && !UsableId(id) ==> call == Rejected(UpdateIdMessage)
      ensures NonEmptyObject(params) && UsableId(id) ==>
                call == Send(RequestFor("GET", moduleName + "/updaterecords",
                                        [("id", id), ("xml", Str(RequestsXml(params)))], enc))
    {
      if !NonEmptyObject(params) {
        return Rejected(UpdateParamsMessage);
      }
      if !UsableId(id) {
        return Rejected(UpdateIdMessage);
      }
      var xml := BuildRequests(Defaulted(params));
      var r := Dispatch("GET", moduleName + "/updaterecords", [("id", id), ("xml", Str(xml))], enc);
      call := Send(r);
    }

    /** `deleteRecord(module, id)` */
    method DeleteRecord(moduleName: string, id: Value, enc: Encoders) returns (call: Call)
      ensures call.Rejected? <==> !UsableId(id)
      ensures !UsableId(id) ==> call == Rejected(DeleteIdMessage)
      ensures UsableId(id) ==> call == Send(RequestFor("GET", moduleName + "/deleterecords", [("id", id)], enc))
    {
      if !UsableId(id) {
        return Rejected(DeleteIdMessage);
      }
      var r := Dispatch("GET", moduleName + "/deleterecords", [("id", id)], enc);
      call := Send(r);
    }
  }

  /** All three credentials are present: the constructor stores them. */
  predicate Configured(options: Value) {
    Truthy(Setting(options, "authtoken")) && Truthy(Setting(options, "portal"))
    && Truthy(Setting(options, "department"))
  }

  /** An accepted update sends exactly `id`, `xml`, `portal`, `authtoken`
      and `department`, in that order. */
  lemma UpdateSendsOnlyIdAndXml(c: Client, verb: string, endpoint: string, id: Value, xml: string, enc: Encoders)
    ensures Keys(c.RequestFor(verb, endpoint, [("id", id), ("xml", Str(xml))], enc).params)
            == ["id", "xml", "portal", "authtoken", "department"]
  {
    var base := [("id", id), ("xml", Str(xml))];
    assert Keys(base[1..]) == ["xml"];
    assert Keys(base) == ["id", "xml"];
    AssignNewKey(base, "portal", c.portal);
    var withPortal := Assign(base, "portal", c.portal);
    AssignNewKey(withPortal, "authtoken", c.authtoken);
    var withToken := Assign(withPortal, "authtoken", c.authtoken);
    AssignNewKey(withToken, "department", c.department);
  }
}
