/** The Zoho Invoice client (lib/invoice.js): only an `authtoken`, JSON
    payloads in a `JSONString` parameter, record ids in the path under
    `/api/v3/`, and a response that succeeds exactly when its `code` is
    the number 0. */
module Invoice {
  import opened Js
  import opened Wire
  import opened Validate

  const ApiPrefix := "/api/v3/"
  const DefaultHost := "invoice.zoho.com"

  // ---------------------------------------------------------------------
  // Response branch of `_request`

  /** What the callback receives for a response body: an empty body is
      `No content data`; otherwise the body is parsed (a parse failure
      throws) and `code !== 0` decides. */
  function Classify(body: string, parse: string -> Option<Value>): (o: Outcome)
    ensures body == "" ==> o == Failure(NoContent)
    ensures body != "" && parse(body).None? ==> o == Uncaught
    ensures body != "" && (parse(body) == Some(Null) || parse(body) == Some(Undefined)) ==> o == Uncaught
    ensures body != "" && parse(body).Some?
            && !(parse(body).value.Obj? || parse(body).value.Null? || parse(body).value.Undefined?) ==>
              o == Failure(ErrorObject(Undefined, Undefined))
    ensures body != "" && parse(body).Some? && parse(body).value.Obj? ==>
              var fields := parse(body).value.fields;
              o == if Get(fields, "code") == Num(0) then Success(parse(body).value)
                   else Failure(ErrorObject(Get(fields, "code"), Get(fields, "message")))
    ensures o.Success? ==> body != "" && parse(body) == Some(o.data)
    ensures !o.Binary?
  {
    if body == "" then Failure(NoContent)
    else match parse(body)
      case None => Uncaught
      case Some(data) =>
        match Prop(data, "code")
        case None => Uncaught
        case Some(code) =>
          if code != Num(0) then Failure(ErrorObject(code, Prop(data, "message").value)) else Success(data)
  }

  /** The comparison is strict: a `code` of `"0"`, `false` or `null` is a
      failure, and so is a missing one. */
  lemma SuccessOnlyOnNumericZero(body: string, parse: string -> Option<Value>)
    ensures Classify(body, parse).Success?
            <==> body != "" && parse(body).Some? && Prop(parse(body).value, "code") == Some(Num(0))
  {
  }

  /** `{"code":0,"message":"success",…}` is the success whose data is the
      whole parsed object. */
  lemma SuccessFixture(body: string, parse: string -> Option<Value>, rest: Fields)
    requires body != ""
    requires parse(body) == Some(Obj([("code", Num(0)), ("message", Str("success"))] + rest))
    ensures Classify(body, parse) == Success(Obj([("code", Num(0)), ("message", Str("success"))] + rest))
  {
    var fields := [("code", Num(0)), ("message", Str("success"))] + rest;
    assert fields[0] == ("code", Num(0));
  }

  // ---------------------------------------------------------------------
  // The client object

  class Client {
    var protocol: Value
    var host: Value
    var port: Value
    var authtoken: Value

    /** `new Invoice(options)`: defaults for protocol, host and port; without
        a truthy `authtoken` the constructor returns early. */
    constructor (options: Value)
      ensures protocol == Or(Setting(options, "protocol"), Str("https"))
      ensures host == Or(Setting(options, "host"), Str(DefaultHost))
      ensures port == DefaultPort(Setting(options, "port"), protocol)
      ensures authtoken == if Truthy(Setting(options, "authtoken")) then Setting(options, "authtoken") else Undefined
    {
      var chosen := Or(Setting(options, "protocol"), Str("https"));
      protocol := chosen;
      host := Or(Setting(options, "host"), Str(DefaultHost));
      port := DefaultPort(Setting(options, "port"), chosen);
      if !Truthy(Setting(options, "authtoken")) {
        authtoken := Undefined;
      } else {
        authtoken := Setting(options, "authtoken");
      }
    }

    /** The request `_request(verb, endpoint, params)` sends: `authtoken`
        overwritten, every other parameter untouched, the path under
        `/api/v3/`. */
    function RequestFor(verb: string, endpoint: string, params: Fields, enc: Encoders): (r: Request)
      reads this
      ensures r.verb == verb && r.host == host && r.port == port && r.secure == (protocol == Str("https"))
      ensures Get(r.params, "authtoken") == authtoken
      ensures forall k :: k != "authtoken" ==> Get(r.params, k) == Get(params, k)
      ensures forall k :: k in Keys(r.params) <==> k in Keys(params) || k == "authtoken"
      ensures r.path == ApiPrefix + endpoint + "?" + enc.stringify(r.params)
      ensures r.body == enc.json(Obj(r.params)) && r.headers == [("Content-Length", Num(|r.body|))]
      ensures !r.binary
    {
      var p := Assign(params, "authtoken", authtoken);
      var body := enc.json(Obj(p));
      Request(verb, protocol == Str("https"), host, port, ApiPrefix + endpoint + "?" + enc.stringify(p),
              [("Content-Length", Num(|body|))], p, body, false)
    }

    /** `_request`: writes `authtoken` into the parameters, then assembles
        the request options and the body. */
    method Dispatch(verb: string, endpoint: string, params: Fields, enc: Encoders) returns (r: Request)
      ensures r == RequestFor(verb, endpoint, params, enc)
    {
      var p := Assign(params, "authtoken", authtoken);
      var path := ApiPrefix + endpoint + "?" + enc.stringify(p);
      var body := enc.json(Obj(p));
      r := Request(verb, protocol == Str("https"), host, port, path, [("Content-Length", Num(|body|))], p, body, false);
    }

    /** `createRecord(module, params)`: a POST of the JSON payload. */
    method CreateRecord(moduleName: string, params: Value, enc: Encoders) returns (call: Call)
      ensures call.Rejected? <==> !NonEmptyObject(params)
      ensures !NonEmptyObject(params) ==> call == Rejected(CreateMessage)
      ensures NonEmptyObject(params) ==>
                call == Send(RequestFor("POST", moduleName, [("JSONString", Str(enc.json(params)))], enc))
    {
      if !NonEmptyObject(params) {
        return Rejected(CreateMessage);
      }
      var r := Dispatch("POST", moduleName, [("JSONString", Str(enc.json(Defaulted(params))))], enc);
      call := Send(r);
    }

    /** `updateRecord(module, id, params)`: a PUT to `module/id`. */
    method UpdateRecord(moduleName: string, id: Value, params: Value, enc: Encoders) returns (call: Call)
      ensures call.Rejected? <==> !NonEmptyObject(params) || !UsableId(id)
      ensures !NonEmptyObject(params) ==> call == Rejected(UpdateParamsMessage)
      ensures NonEmptyObject(params) && !UsableId(id) ==> call == Rejected(UpdateIdMessage)
      ensures NonEmptyObject(params) && UsableId(id) ==>
                call == Send(RequestFor("PUT", moduleName + "/" + JsString(id),
                                        [("JSONString", Str(enc.json(params)))], enc))
    {
      if !NonEmptyObject(params) {
        return Rejected(UpdateParamsMessage);
      }
      if !UsableId(id) {
        return Rejected(UpdateIdMessage);
      }
      var r := Dispatch("PUT", moduleName + "/" + JsString(id), [("JSONString", Str(enc.json(Defaulted(params))))], enc);
      call := Send(r);
    }

    /** `getRecords(module, params)` */
    method GetRecords(moduleName: string, params: Fields, enc: Encoders) returns (call: Call)
      ensures call == Send(RequestFor("GET", moduleName, params, enc))
    {
      var r := Dispatch("GET", moduleName, params, enc);
      call := Send(r);
    }

    /** `getRecordById(module, params)`: the id goes into the path, and the
        parameters, `id` included, into the query. */
    method GetRecordById(moduleName: string, params: Value, enc: Encoders) returns (call: Call)
      ensures call.Rejected? <==> !HasTruthyId(params)
      ensures !HasTruthyId(params) ==> call == Rejected(GetByIdMessage)
      ensures HasTruthyId(params) ==>
                params.Obj?
                && call == Send(RequestFor("GET", moduleName + "/" + JsString(Get(params.fields, "id")), params.fields, enc))
    {
      if !HasTruthyId(params) {
        return Rejected(GetByIdMessage);
      }
      HasTruthyIdIff(params);
      var id := Get(params.fields, "id");
      var r := Dispatch("GET", moduleName + "/" + JsString(id), params.fields, enc);
      call := Send(r);
    }

    /** `deleteRecord(module, id)`: a DELETE of `module/id` with no other
        parameter. */
    method DeleteRecord(moduleName: string, id: Value, enc: Encoders) returns (call: Call)
      ensures call.Rejected? <==> !UsableId(id)
      ensures !UsableId(id) ==> call == Rejected(DeleteIdMessage)
      ensures UsableId(id) ==> call == Send(RequestFor("DELETE", moduleName + "/" + JsString(id), [], enc))
    {
      if !UsableId(id) {
        return Rejected(DeleteIdMessage);
      }
      var r := Dispatch("DELETE", moduleName + "/" + JsString(id), [], enc);
      call := Send(r);
    }
  }

  /** A delete sends only the token: `Keys` of its parameters are exactly
      `["authtoken"]`, and the record id appears only in the path. */
  lemma DeleteSendsOnlyToken(c: Client, moduleName: string, id: Value, enc: Encoders)
    ensures var r := c.RequestFor("DELETE", moduleName + "/" + JsString(id), [], enc);
            Keys(r.params) == ["authtoken"] && r.path == ApiPrefix + moduleName + "/" + JsString(id) + "?" + enc.stringify(r.params)
  {
    var r := c.RequestFor("DELETE", moduleName + "/" + JsString(id), [], enc);
    assert Assign([], "authtoken", c.authtoken) == [("authtoken", c.authtoken)];
    assert r.params == [("authtoken", c.authtoken)];
  }
}
