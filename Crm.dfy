/** The Zoho CRM client (lib/crm.js): record XML with nested product
    lines, module-name capitalisation, request assembly under
    `/crm/private/json/` and the `response.error` / `response.nodata` /
    `response.result` response branch. */
module Crm {
  import opened Js
  import opened Xml
  import opened Wire
  import opened Validate

  const PathPrefix := "/crm/private/json/"
  const DefaultHost := "crm.zoho.com"
  const DefaultScope := "crmapi"
  const ProductDetails := "Product Details"

  // ---------------------------------------------------------------------
  // Record serialiser (`_build`)

  /** The inside of one `<product no="j">` element: every field as CDATA. */
  function ProductBody(product: Value): string {
    ConcatMap(FieldsOf(product), CdataField)
  }

  /** What `buildProductDetails` returns for a `Product Details` array. */
  function ProductsXml(products: seq<Value>): string {
    Numbered("product", products, 1, ProductBody)
  }

  /** Only a field named exactly `Product Details` holding an array nests. */
  predicate IsNested(f: (string, Value)) {
    f.0 == ProductDetails && f.1.Arr?
  }

  function Field(f: (string, Value)): string {
    if IsNested(f) then "<FL val=\"" + f.0 + "\">" + ProductsXml(f.1.items) + "</FL>"
    else CdataField(f)
  }

  /** The inside of one `<row no="k">` element. */
  function RowBody(record: Value): string {
    ConcatMap(FieldsOf(record), Field)
  }

  /** The string `_build(moduleName, data)` returns. */
  function BuildXml(moduleName: string, data: Value): string {
    Document(moduleName, Numbered("row", RecordsOf(data), 1, RowBody))
  }

  const CdataOpen := "><![CDATA["

  /** The field is rendered as a CDATA scalar exactly when it is not a
      `Product Details` array: the text after `<FL val="name"` opens a
      CDATA section in one case and a `<product` element (or the closing
      `</FL>` of an empty list) in the other. */
  lemma FieldIsCdataIff(f: (string, Value))
    ensures var s := Field(f);
            var head := "<FL val=\"" + f.0 + "\"";
            (|s| >= |head| + |CdataOpen| && s[|head|..|head| + |CdataOpen|] == CdataOpen)
            <==> !IsNested(f)
  {
    var s := Field(f);
    var head := "<FL val=\"" + f.0 + "\"";
    if IsNested(f) {
      var items := f.1.items;
      assert s == head + ">" + ProductsXml(items) + "</FL>";
      if items == [] {
        assert s[|head| + 1] == '<' && s[|head| + 2] == '/';
      } else {
        assert ProductsXml(items) == Element("product", 1, ProductBody(items[0])) + Numbered("product", items[1..], 2, ProductBody);
        assert s[|head| + 1] == '<' && s[|head| + 2] == 'p';
      }
      assert CdataOpen[2] == '!';
    } else {
      assert s == head + CdataOpen + JsString(f.1) + "]]></FL>";
    }
  }

  /** A single record serialises exactly as the one-element list holding it. */
  lemma SingleRecordIsList(moduleName: string, record: Value)
    requires !record.Arr?
    ensures BuildXml(moduleName, record) == BuildXml(moduleName, Arr([record]))
  {
  }

  /** Row `k + 1` is the `k`-th record: the document is the root tag, the
      rows of the earlier records, `<row no="k+1">` with this record's
      fields, the rows of the later records, and the closing root tag. */
  lemma RowAt(moduleName: string, data: Value, k: nat)
    requires k < |RecordsOf(data)|
    ensures var records := RecordsOf(data);
            BuildXml(moduleName, data)
            == Document(moduleName, Numbered("row", records[..k], 1, RowBody)
                                    + Element("row", k + 1, RowBody(records[k]))
                                    + Numbered("row", records[k + 1..], k + 2, RowBody))
  {
    NumberedAt("row", RecordsOf(data), 1, RowBody, k);
  }

  /** Field `j` of a row is rendered by `Field`, after the earlier fields
      and before the later ones: fields keep their order. */
  lemma FieldAt(record: Value, j: nat)
    requires j < |FieldsOf(record)|
    ensures var fs := FieldsOf(record);
            RowBody(record) == ConcatMap(fs[..j], Field) + Field(fs[j]) + ConcatMap(fs[j + 1..], Field)
  {
    ConcatMapAt(FieldsOf(record), Field, j);
  }

  /** Product `j + 1` of a `Product Details` list holds the `j`-th entry,
      all of whose fields are CDATA scalars: nesting stops at one level. */
  lemma ProductAt(products: seq<Value>, j: nat)
    requires j < |products|
    ensures ProductsXml(products)
            == Numbered("product", products[..j], 1, ProductBody)
               + Element("product", j + 1, ConcatMap(FieldsOf(products[j]), CdataField))
               + Numbered("product", products[j + 1..], j + 2, ProductBody)
  {
    NumberedAt("product", products, 1, ProductBody, j);
  }

  /** The tags `_build` writes out literally are those of `Xml.Element`. */
  lemma TagLiterals(n: nat)
    ensures Open("product", n) == "<product no=\"" + NatToString(n) + "\">"
    ensures Open("row", n) == "<row no=\"" + NatToString(n) + "\">"
    ensures "</" + "product" + ">" == "</product>" && "</" + "row" + ">" == "</row>"
  {
  }

  /** The `forEach` callback of `buildProductDetails` for one product:
      the `for…in` over its fields, each as a CDATA scalar. */
  method ProductElement(product: Value, index: nat) returns (xml: string)
    ensures xml == Element("product", index + 1, ProductBody(product))
  {
    var fields := FieldsOf(product);
    var open := "<product no=\"" + NatToString(index + 1) + "\">";
    TagLiterals(index + 1);
    xml := open;
    var j := 0;
    while j < |fields|
      invariant j <= |fields|
      invariant xml == open + ConcatMap(fields[..j], CdataField)
    {
      var piece := "<FL val=\"" + fields[j].0 + "\"><![CDATA[" + JsString(fields[j].1) + "]]></FL>";
      assert piece == CdataField(fields[j]);
      ConcatMapStep(xml, piece, open, fields, j, CdataField);
      xml := xml + piece;
      j := j + 1;
    }
    assert fields[..j] == fields;
    xml := xml + "</product>";
  }

  /** `buildProductDetails(products)`: one `<product no="j">` per entry. */
  method BuildProductDetails(products: seq<Value>) returns (xml: string)
    ensures xml == ProductsXml(products)
  {
    xml := "";
    var index := 0;
    while index < |products|
      invariant index <= |products|
      invariant xml == Numbered("product", products[..index], 1, ProductBody)
    {
      var element := ProductElement(products[index], index);
      xml := xml + element;
      NumberedAppend("product", products[..index], products[index], 1, ProductBody);
      assert products[..index + 1] == products[..index] + [products[index]];
      index := index + 1;
    }
    assert products[..index] == products;
  }

  /** The `forEach` callback of `_build` for one record: the `for…in` over
      its fields, a `Product Details` array nested, every other field a
      CDATA scalar. */
  method RowElement(params: Value, index: nat) returns (xml: string)
    ensures xml == Element("row", index + 1, RowBody(params))
  {
    var fields := FieldsOf(params);
    var open := "<row no=\"" + NatToString(index + 1) + "\">";
    TagLiterals(index + 1);
    xml := open;
    var j := 0;
    while j < |fields|
      invariant j <= |fields|
      invariant xml == open + ConcatMap(fields[..j], Field)
    {
      var param := fields[j];
      var piece;
      if param.0 == ProductDetails && param.1.Arr? {
        var products := BuildProductDetails(param.1.items);
        piece := "<FL val=\"" + param.0 + "\">" + products + "</FL>";
      } else {
        piece := "<FL val=\"" + param.0 + "\"><![CDATA[" + JsString(param.1) + "]]></FL>";
      }
      assert piece == Field(param);
      ConcatMapStep(xml, piece, open, fields, j, Field);
      xml := xml + piece;
      j := j + 1;
    }
    assert fields[..j] == fields;
    xml := xml + "</row>";
  }

  /** `_build(moduleName, data)`: rows in input order, each field in field order. */
  method Build(moduleName: string, data: Value) returns (xml: string)
    ensures xml == BuildXml(moduleName, data)
  {
    var records := if data.Arr? then data.items else [data];
    var rows := BuildRows(records);
    xml := "<" + moduleName + ">" + rows + "</" + moduleName + ">";
  }

  /** The `records.forEach` loop of `_build`. */
  method BuildRows(records: seq<Value>) returns (xml: string)
    ensures xml == Numbered("row", records, 1, RowBody)
  {
    xml := "";
    var index := 0;
    while index < |records|
      invariant index <= |records|
      invariant xml == Numbered("row", records[..index], 1, RowBody)
    {
      var row := RowElement(records[index], index);
      NumberedAppend("row", records[..index], records[index], 1, RowBody);
      assert records[..index + 1] == records[..index] + [records[index]];
      xml := xml + row;
      index := index + 1;
    }
    assert records[..index] == records;
  }

  // ---------------------------------------------------------------------
  // Response branch of `_request`

  /** What the callback receives for a response body: an empty body is
      `No content data`; otherwise the body is parsed (a parse failure
      throws) and `response.error`, then `response.nodata`, then
      `response.result` decide. */
  function Classify(body: string, parse: string -> Option<Value>): (o: Outcome)
    ensures body == "" ==> o == Failure(NoContent)
    ensures body != "" && parse(body).None? ==> o == Uncaught
    ensures body != "" && parse(body).Some?
            && !(Prop(parse(body).value, "response").Some? && Prop(parse(body).value, "response").value.Obj?) ==>
              o == Uncaught
    ensures o.Failure? ==> o.error == NoContent || (o.error.Obj? && Keys(o.error.fields) == ["code", "message"])
    ensures o.Success? ==> o.data.Obj? && Keys(o.data.fields) == ["code", "data"]
    ensures o.Success? ==> Truthy(Get(o.data.fields, "code")) || Get(o.data.fields, "code") == Num(0)
    ensures !o.Binary?
  {
    if body == "" then Failure(NoContent)
    else match parse(body)
      case None => Uncaught
      case Some(data) => ClassifyParsed(data)
  }

  function ClassifyParsed(data: Value): Outcome {
    match Prop(data, "response")
    case None => Uncaught
    case Some(response) =>
      match Prop(response, "error")
      case None => Uncaught
      case Some(error) =>
        if Truthy(error) then Failure(ErrorObject(Prop(error, "code").value, Prop(error, "message").value))
        else
          var nodata := Prop(response, "nodata").value;
          if Truthy(nodata) then Failure(ErrorObject(Prop(nodata, "code").value, Prop(nodata, "message").value))
          else
            match Prop(response, "result")
            case None => Uncaught
            case Some(result) =>
              match Prop(result, "code")
              case None => Uncaught
              case Some(code) =>
                Success(ResultObject(Or(code, Num(0)), Or(Prop(result, "recorddetail").value, result)))
  }

  /** Precedence of the branches for a parsed body whose `response` is an
      object: a truthy `error` wins, then a truthy `nodata`; only when
      both are falsy is there a success, and then exactly when
      `response.result` can be read. */
  lemma ClassifyDecision(body: string, parse: string -> Option<Value>, response: Fields)
    requires body != "" && parse(body).Some? && Prop(parse(body).value, "response") == Some(Obj(response))
    ensures var error := Get(response, "error");
            var nodata := Get(response, "nodata");
            var result := Get(response, "result");
            && (Truthy(error) ==>
                  Classify(body, parse) == Failure(ErrorObject(Prop(error, "code").value, Prop(error, "message").value)))
            && (!Truthy(error) && Truthy(nodata) ==>
                  Classify(body, parse) == Failure(ErrorObject(Prop(nodata, "code").value, Prop(nodata, "message").value)))
            && (Classify(body, parse).Success? <==> !Truthy(error) && !Truthy(nodata) && !result.Undefined? && !result.Null?)
            && (Classify(body, parse).Uncaught? <==> !Truthy(error) && !Truthy(nodata) && (result.Undefined? || result.Null?))
  {
  }

  /** A successful response carries `result.code || 0` and
      `result.recorddetail || result`. */
  lemma ClassifySuccess(body: string, parse: string -> Option<Value>, response: Fields, result: Value)
    requires body != "" && parse(body).Some? && Prop(parse(body).value, "response") == Some(Obj(response))
    requires !Truthy(Get(response, "error")) && !Truthy(Get(response, "nodata"))
    requires Get(response, "result") == result && !result.Null? && !result.Undefined?
    ensures Classify(body, parse)
            == Success(ResultObject(Or(Prop(result, "code").value, Num(0)),
                                    Or(Prop(result, "recorddetail").value, result)))
  {
  }

  /** `{"response":{"error":{"code":4834,"message":"Invalid Ticket Id"}}}`
      is the failure `{code: 4834, message: 'Invalid Ticket Id'}`. */
  lemma ErrorFixture(body: string, parse: string -> Option<Value>)
    requires body != ""
    requires parse(body) == Some(Obj([("response", Obj([("error",
               Obj([("code", Num(4834)), ("message", Str("Invalid Ticket Id"))]))]))]))
    ensures Classify(body, parse) == Failure(ErrorObject(Num(4834), Str("Invalid Ticket Id")))
  {
  }

  /** `{"response":{"result":{"recorddetail":d}}}` is the success
      `{code: 0, data: d}` for any truthy record detail `d`. */
  lemma RecordDetailFixture(body: string, parse: string -> Option<Value>, detail: Value)
    requires body != "" && Truthy(detail)
    requires parse(body) == Some(Obj([("response", Obj([("result", Obj([("recorddetail", detail)]))]))]))
    ensures Classify(body, parse) == Success(ResultObject(Num(0), detail))
  {
    var result := [("recorddetail", detail)];
    assert "recorddetail" != "code" by { assert "recorddetail"[0] != "code"[0]; }
    assert result[1..] == [];
    assert Get(result, "code") == Undefined;
    var response := [("result", Obj(result))];
    assert "result" != "error" by { assert "result"[0] != "error"[0]; }
    assert "result" != "nodata" by { assert "result"[0] != "nodata"[0]; }
    assert response[1..] == [];
    assert response[0].0 == "result";
    assert Get(response[1..], "error") == Undefined;
    assert Get(response, "error") == Undefined;
    assert Get(response, "nodata") == Undefined;
  }

  // ---------------------------------------------------------------------
  // The client object

  class Client {
    var protocol: Value
    var host: Value
    var port: Value
    var authtoken: Value
    var scope: Value

    /** `new CRM(options)`: defaults for protocol, host and port; without a
        truthy `authtoken` the constructor returns early and leaves
        `authtoken` and `scope` unset. */
    constructor (options: Value)
      ensures protocol == Or(Setting(options, "protocol"), Str("https"))
      ensures host == Or(Setting(options, "host"), Str(DefaultHost))
      ensures port == DefaultPort(Setting(options, "port"), protocol)
      ensures Truthy(Setting(options, "authtoken")) ==>
                authtoken == Setting(options, "authtoken")
                && scope == Or(Setting(options, "scope"), Str(DefaultScope))
      ensures !Truthy(Setting(options, "authtoken")) ==> authtoken == Undefined && scope == Undefined
    {
      var chosen := Or(Setting(options, "protocol"), Str("https"));
      protocol := chosen;
      host := Or(Setting(options, "host"), Str(DefaultHost));
      port := DefaultPort(Setting(options, "port"), chosen);
      if !Truthy(Setting(options, "authtoken")) {
        // the early `return console.log(…)`
        authtoken, scope := Undefined, Undefined;
      } else {
        authtoken := Setting(options, "authtoken");
        scope := Or(Setting(options, "scope"), Str(DefaultScope));
      }
    }

    /** The request `_request(verb, endpoint, params)` sends: `authtoken`
        and `scope` always overwritten, every other parameter untouched
        and in its place, the path under `/crm/private/json/`. */
    function RequestFor(verb: string, endpoint: string, params: Fields, enc: Encoders): (r: Request)
      reads this
      ensures r.verb == verb && r.host == host && r.port == port && r.secure == (protocol == Str("https"))
      ensures Get(r.params, "authtoken") == authtoken && Get(r.params, "scope") == scope
      ensures forall k :: k != "authtoken" && k != "scope" ==> Get(r.params, k) == Get(params, k)
      ensures forall k :: k in Keys(r.params) <==> k in Keys(params) || k == "authtoken" || k == "scope"
      ensures r.path == PathPrefix + endpoint + "?" + enc.stringify(r.params)
      ensures r.body == enc.json(Obj(r.params)) && r.headers == [("Content-Length", Num(|r.body|))]
      ensures !r.binary
    {
      var p := Assign(Assign(params, "authtoken", authtoken), "scope", scope);
      var body := enc.json(Obj(p));
      Request(verb, protocol == Str("https"), host, port, PathPrefix + endpoint + "?" + enc.stringify(p),
              [("Content-Length", Num(|body|))], p, body, false)
    }

    /** `_request`: writes `authtoken` and `scope` into the parameters,
        then assembles the request options and the body. */
    method Dispatch(verb: string, endpoint: string, params: Fields, enc: Encoders) returns (r: Request)
      ensures r == RequestFor(verb, endpoint, params, enc)
    {
      var p := params;
      p := Assign(p, "authtoken", authtoken);
      p := Assign(p, "scope", scope);
      var path := PathPrefix + endpoint + "?" + enc.stringify(p);
      var body := enc.json(Obj(p));
      r := Request(verb, protocol == Str("https"), host, port, path, [("Content-Length", Num(|body|))], p, body, false);
    }

    /** `getRecords(module, params)` */
    method GetRecords(moduleName: string, params: Fields, enc: Encoders) returns (call: Call)
      ensures call == Send(RequestFor("GET", Capitalize(moduleName) + "/getRecords", params, enc))
    {
      var name := Capitalize(moduleName);
      var r := Dispatch("GET", name + "/getRecords", params, enc);
      call := Send(r);
    }

    /** `getRecordById(module, params)`: needs a truthy `params.id`. */
    method GetRecordById(moduleName: string, params: Value, enc: Encoders) returns (call: Call)
      ensures call.Rejected? <==> !HasTruthyId(params)
      ensures !HasTruthyId(params) ==> call == Rejected(GetByIdMessage)
      ensures HasTruthyId(params) ==>
                params.Obj? && call == Send(RequestFor("GET", Capitalize(moduleName) + "/getRecordById", params.fields, enc))
    {
      if !HasTruthyId(params) {
        return Rejected(GetByIdMessage);
      }
      HasTruthyIdIff(params);
      var name := Capitalize(moduleName);
      var r := Dispatch("GET", name + "/getRecordById", params.fields, enc);
      call := Send(r);
    }

    /** `createRecord(module, payload, params)`: the XML of the payload goes
        into `params.xmlData`. */
    method CreateRecord(moduleName: string, payload: Value, params: Fields, enc: Encoders) returns (call: Call)
      ensures call.Rejected? <==> !NonEmptyObject(payload)
      ensures !NonEmptyObject(payload) ==> call == Rejected(CreateMessage)
      ensures NonEmptyObject(payload) ==>
                var name := Capitalize(moduleName);
                call == Send(RequestFor("GET", name + "/insertRecords",
                                        Assign(params, "xmlData", Str(BuildXml(name, payload))), enc))
    {
      if !NonEmptyObject(payload) {
        return Rejected(CreateMessage);
      }
      var name := Capitalize(moduleName);
      var xml := Build(name, Defaulted(payload));
      var p := Assign(params, "xmlData", Str(xml));
      var r := Dispatch("GET", name + "/insertRecords", p, enc);
      call := Send(r);
    }

    /** `createNote(id, title, content)`: a one-row `Notes` record. */
    method CreateNote(id: Value, title: Value, content: Value, enc: Encoders) returns (call: Call)
      ensures call == Send(RequestFor("GET", "Notes/insertRecords",
                [("xmlData", Str(BuildXml("Notes", NoteRecord(id, title, content))))], enc))
    {
      var xml := Build("Notes", Obj([("entityId", id), ("Note Title", title), ("Note Content", content)]));
      var r := Dispatch("GET", "Notes/insertRecords", [("xmlData", Str(xml))], enc);
      call := Send(r);
    }

    /** `getNotes(id)`: a search on `notesid`. */
    method GetNotes(id: Value, enc: Encoders) returns (call: Call)
      ensures call == Send(RequestFor("GET", "Notes/getSearchRecordsByPDC",
                [("searchColumn", Str("notesid")), ("searchValue", id)], enc))
    {
      var r := Dispatch("GET", "Notes/getSearchRecordsByPDC", [("searchColumn", Str("notesid")), ("searchValue", id)], enc);
      call := Send(r);
    }

    /** `updateRecord(module, id, params)`: the record travels only as XML;
        the parameters sent are `id` and `xmlData`. */
    method UpdateRecord(moduleName: string, id: Value, params: Value, enc: Encoders) returns (call: Call)
      ensures call.Rejected? <==> !NonEmptyObject(params) || !UsableId(id)
      ensures !NonEmptyObject(params) ==> call == Rejected(UpdateParamsMessage)
      ensures NonEmptyObject(params) && !UsableId(id) ==> call == Rejected(UpdateIdMessage)
      ensures NonEmptyObject(params) && UsableId(id) ==>
                var name := Capitalize(moduleName);
                call == Send(RequestFor("POST", name + "/updateRecords",
                                        [("id", id), ("xmlData", Str(BuildXml(name, params)))], enc))
    {
      if !NonEmptyObject(params) {
        return Rejected(UpdateParamsMessage);
      }
      if !UsableId(id) {
        return Rejected(UpdateIdMessage);
      }
      var name := Capitalize(moduleName);
      var xml := Build(name, Defaulted(params));
      var r := Dispatch("POST", name + "/updateRecords", [("id", id), ("xmlData", Str(xml))], enc);
      call := Send(r);
    }

    /** `deleteRecord(module, id)` */
    method DeleteRecord(moduleName: string, id: Value, enc: Encoders) returns (call: Call)
      ensures call.Rejected? <==> !UsableId(id)
      ensures !UsableId(id) ==> call == Rejected(DeleteIdMessage)
      ensures UsableId(id) ==>
                call == Send(RequestFor("GET", Capitalize(moduleName) + "/deleteRecords", [("id", id)], enc))
    {
      if !UsableId(id) {
        return Rejected(DeleteIdMessage);
      }
      var name := Capitalize(moduleName);
      var r := Dispatch("GET", name + "/deleteRecords", [("id", id)], enc);
      call := Send(r);
    }
  }

  /** The record `createNote` serialises. */
  function NoteRecord(id: Value, title: Value, content: Value): Value {
    Obj([("entityId", id), ("Note Title", title), ("Note Content", content)])
  }

  /** The caller's parameters keep their order, ahead of any credential
      that was not already among them. */
  lemma ParamsKeepOrder(c: Client, verb: string, endpoint: string, params: Fields, enc: Encoders)
    ensures Keys(params) <= Keys(c.RequestFor(verb, endpoint, params, enc).params)
  {
    AssignKeys(params, "authtoken", c.authtoken);
    AssignKeys(Assign(params, "authtoken", c.authtoken), "scope", c.scope);
  }

  /** An accepted update sends exactly `id`, `xmlData`, `authtoken` and
      `scope`, in that order: no record field travels outside the XML. */
  lemma UpdateSendsOnlyIdAndXml(c: Client, verb: string, endpoint: string, id: Value, xml: string, enc: Encoders)
    ensures Keys(c.RequestFor(verb, endpoint, [("id", id), ("xmlData", Str(xml))], enc).params)
            == ["id", "xmlData", "authtoken", "scope"]
  {
    var base := [("id", id), ("xmlData", Str(xml))];
    assert Keys(base[1..]) == ["xmlData"];
    assert Keys(base) == ["id", "xmlData"];
    AssignNewKey(base, "authtoken", c.authtoken);
    AssignNewKey(Assign(base, "authtoken", c.authtoken), "scope", c.scope);
  }
}
