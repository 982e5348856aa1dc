# node-zoho in Dafny

A model of the deterministic core of the four node-zoho product clients
(Zoho CRM, Creator, Support and Invoice): the record-to-XML serialisers,
the argument checks that answer with a fixed message before any request,
the assembly of each outgoing request (credentials written into the
parameters, endpoint path and prefix, headers), and the classification of
a response body into the one `(error, data)` pair the callback receives.

Modules:

- `Js` — JavaScript values as the clients see them: objects are ordered
  key/value lists in JavaScript's enumeration order (`Get`, `Assign`,
  `Delete` follow `o[k]`, `o[k] = v` and `delete o[k]`), truthiness, `a || b`, property reads that
  throw on `undefined`/`null`, `'' + v`, decimal rendering of row numbers,
  and first-letter capitalisation.
- `Xml` — the string shapes shared by the serialisers: numbered elements
  `<tag no="k">…</tag>`, the root wrapper, and the CDATA field form.
- `Wire` — the request a public method sends (`Call = Rejected(message) |
  Send(request)`), what the callback receives (`Outcome`), the error and
  result objects, and the option defaults.
- `Validate` — the `params`/`payload` and `id` checks with their messages.
- `Crm`, `Creator`, `Support`, `Invoice` — one per client. Each client is a
  `class` whose fields the constructor (and, for Creator, `setCookie` and
  `downloadImage`) set. `RequestFor` is the request `_request` sends and
  `Dispatch` is `_request` itself, proved to produce it. The XML builders are
  methods whose loops follow the source's `forEach` / `for…in` loops, proved
  equal to the serialiser functions (`BuildXml`, `RequestsXml`), about which
  the row and field lemmas are proved.

`qs.stringify`, `querystring.unescape` and `JSON.stringify` are the three
fields of `Wire.Encoders`; `JSON.parse` is a parameter
`parse: string -> Option<Value>` whose `None` is a thrown SyntaxError. Both
are passed in and left uninterpreted.

What the code does in the cases where it is easiest to misread:

- A malformed JSON body becomes `{}` and a success only in Creator.
  `JSON.parse` is unguarded in the CRM, Support and Invoice clients
  (lib/crm.js:252, lib/support.js:145, lib/invoice.js:104), so there the
  handler throws (`Outcome.Uncaught`) and the callback is never called.
- An empty body is `No content data` in CRM, Support and Invoice. In
  Creator the collected `Buffer` is always truthy (lib/creator.js:186-187),
  so, for a request without `download`, an empty body takes the JSON
  path, fails to parse and gives the success `{}`
  (`Creator.EmptyBodyIsEmptySuccess`); for a download it is the empty
  byte result (lib/creator.js:188-190).
- Creator's `listFormFields` uses the same `app/view/V` endpoint as
  `viewRecordsInView` (lib/creator.js:92).
- The two XML loops of Support (`createRecord`, `updateRecord`) are
  identical, so both are modelled by one method, `Support.BuildRequests`.

## Model

| member | source | states |
|---|---|---|
| Js.Assign | lib/crm.js:231-232 | after `o[k] = v`, `o[k]` is `v`, every other key reads as before, and the key set gains exactly `k` |
| Js.AssignKeys | lib/crm.js:231-232 | an existing key keeps its place and a new key is appended at the end of the enumeration order |
| Js.Delete | lib/creator.js:148 | after `delete o[k]`, `k` is gone, every other key reads as before, and no other key is removed |
| Js.Prop | lib/crm.js:254 | reading a property throws exactly on `undefined` and `null`; on an object it is the field's value or `undefined` |
| Js.JsString | lib/crm.js:210 | definition of `'' + v` as spliced into XML and paths: a string is itself, a non-negative number its decimal digits (plain-digit form, which JavaScript uses below 10^21) |
| Js.JsStringNumber | lib/invoice.js:43 | an id number renders as its digits behind `-` exactly when negative, and the digits read back as its magnitude (JavaScript's form below 10^21) |
| Js.NatToString | lib/crm.js:205 | a row number renders as a non-empty string of decimal digits |
| Js.NatToStringRoundTrip | lib/crm.js:205 | reading back the rendering of `n` as decimal gives `n` |
| Js.NatToStringInjective | lib/crm.js:205 | distinct row numbers render as distinct strings |
| Js.Capitalize | lib/crm.js:46 | same length, first character upper-cased (ASCII), the rest unchanged; a string not starting with `a`-`z` is returned as is |
| Js.CapitalizeIdempotent | lib/crm.js:46 | capitalising an already capitalised module name changes nothing |
| Xml.ConcatMapAt | lib/creator.js:127-131 | the piece of the `k`-th field sits between those of the fields before and after it |
| Xml.NumberedConcat | lib/crm.js:204-214 | row numbering continues across a split of the records |
| Xml.NumberedAt | lib/crm.js:204-214 | the element numbered `first + k` is built from the `k`-th item, between the elements of earlier and later items |
| Xml.RecordsOf | lib/crm.js:188 | definition of `data instanceof Array ? data : [data]`; the property it carries is stated by `Crm.SingleRecordIsList` and `Support.SingleRecordIsList` |
| Wire.ErrorObject | lib/crm.js:256-259 | the failure object has exactly the keys `code`, `message`, holding the given values |
| Wire.ResultObject | lib/crm.js:267-271 | the success object has exactly the keys `code`, `data`, holding the given values |
| Validate.NonEmptyObjectIff | lib/crm.js:84-89 | after `payload \|\| {}`, the payload is accepted iff it is a non-empty array or a non-empty plain object |
| Validate.HasTruthyIdIff | lib/crm.js:65-69 | after `params \|\| {}`, the params are accepted iff they are a plain object with a truthy `id` |
| Crm.FieldIsCdataIff | lib/crm.js:206-211 | a field is written as a CDATA scalar iff it is not a `Product Details` array |
| Crm.SingleRecordIsList | lib/crm.js:188 | a non-array record serialises exactly as the one-element list holding it |
| Crm.RowAt | lib/crm.js:188-216 | the output is `<Module>…</Module>` and row `k + 1` holds the `k`-th record, in input order |
| Crm.FieldAt | lib/crm.js:206-212 | field `j` of a row is the rendering of the `j`-th property, in property order |
| Crm.ProductAt | lib/crm.js:192-202 | product `j + 1` holds the `j`-th entry with all its fields as CDATA: nesting is one level deep |
| Crm.ProductElement | lib/crm.js:194-200 | the `forEach` callback's loop produces the numbered `<product>` element of one entry |
| Crm.BuildProductDetails | lib/crm.js:192-202 | the loop produces one numbered `<product>` per entry, in order |
| Crm.RowElement | lib/crm.js:204-214 | the callback's loop produces the numbered `<row>` of one record, nesting `Product Details` arrays |
| Crm.BuildRows | lib/crm.js:204-214 | the loop over the records produces rows numbered 1..N in order |
| Crm.Build | lib/crm.js:187-217 | `_build` returns `BuildXml(module, data)` |
| Crm.Classify | lib/crm.js:250-279 | an empty body is `No content data`; a non-empty body that does not parse, or whose `response` is not an object, throws (no callback); failures carry `{code, message}`; a success is `{code, data}` with a truthy or zero code; never bytes |
| Crm.ClassifyDecision | lib/crm.js:254-275 | a truthy `error` wins, then a truthy `nodata`; with both falsy, success iff `response.result` can be read |
| Crm.ClassifySuccess | lib/crm.js:266-274 | for any readable `result` (object or primitive), a success carries `result.code \|\| 0` and `result.recorddetail \|\| result` |
| Crm.ErrorFixture | lib/crm.js:254-259 | the `4834 Invalid Ticket Id` response is the failure `{code: 4834, message: 'Invalid Ticket Id'}` |
| Crm.RecordDetailFixture | lib/crm.js:266-274 | a response holding only `result.recorddetail` is the success `{code: 0, data: recorddetail}` |
| Crm.Client.constructor | lib/crm.js:21-34 | protocol `https`, host `crm.zoho.com`, port 443/80 by protocol, scope `crmapi` by default; without a truthy `authtoken`, neither token nor scope is set |
| Crm.Client.RequestFor | lib/crm.js:228-242 | `authtoken` and `scope` overwritten, all other parameters and only them kept, path `/crm/private/json/endpoint?query`, body and Content-Length from the same parameters |
| Crm.Client.Dispatch | lib/crm.js:228-242 | `_request` sends `RequestFor` |
| Crm.Client.GetRecords | lib/crm.js:43-55 | GET `Module/getRecords` with the capitalised module |
| Crm.Client.GetRecordById | lib/crm.js:64-74 | rejected with the fixed message iff there is no truthy `params.id`; otherwise GET `Module/getRecordById` |
| Crm.Client.CreateRecord | lib/crm.js:83-96 | rejected iff the payload is not a non-empty object; otherwise GET `Module/insertRecords` with `xmlData` set to the payload's XML |
| Crm.Client.CreateNote | lib/crm.js:106-114 | GET `Notes/insertRecords` with the one-row note XML as the only parameter |
| Crm.Client.GetNotes | lib/crm.js:124-131 | GET `Notes/getSearchRecordsByPDC` searching `notesid` for the id |
| Crm.Client.UpdateRecord | lib/crm.js:143-158 | params checked before id, each with its message; otherwise POST `Module/updateRecords` with `id` and `xmlData` only |
| Crm.Client.DeleteRecord | lib/crm.js:167-175 | rejected iff `id` is object-typed or undefined; otherwise GET `Module/deleteRecords` with `id` |
| Crm.ParamsKeepOrder | lib/crm.js:231-232 | the caller's parameters keep their order ahead of the added credentials |
| Crm.UpdateSendsOnlyIdAndXml | lib/crm.js:157 | an update sends exactly `id`, `xmlData`, `authtoken`, `scope`: no record field outside the XML |
| Creator.RowAt | lib/creator.js:121-137 | the output is `<module>…</module>` and row `k + 1` holds the `k`-th record, in order |
| Creator.FieldAt | lib/creator.js:127-131 | field `j` of a row is `<FL val="k"><![CDATA[v]]></FL>` for the `j`-th own property |
| Creator.RowElement | lib/creator.js:125-133 | the callback's loop produces the numbered `<row>` of one record |
| Creator.BuildRows | lib/creator.js:125-133 | the loop over the records produces rows numbered 1..N in order |
| Creator.Build | lib/creator.js:121-137 | `_build` returns `BuildXml(module, data)` |
| Creator.Classify | lib/creator.js:186-209 | a download is the raw bytes; otherwise an unparsable body is `{}`, an object with a truthy `message` is the failure `{code, message}`, any other object or any non-null value is the success with that value, and a `null` body throws (no callback) |
| Creator.MessageFixture | lib/creator.js:200-204 | `{"message":"some auth error"}` is the failure `{code: undefined, message: 'some auth error'}` |
| Creator.EmptyBodyIsEmptySuccess | lib/creator.js:186-198 | an empty non-download body is the success `{}`, not `No content data` |
| Creator.PathFor | lib/creator.js:147 | definition of the path choice (bare endpoint and encoded query with `download`, `/api/json/` and the unescaped query without); the properties are stated by `Creator.PathOnlyInQuery` and `Creator.DownloadIsBinary` |
| Creator.Client.constructor | lib/creator.js:8-22 | cookie `false`, protocol `https`, host `creator.zoho.com`, port 443/80, scope `creatorapi` by default; without a truthy `authtoken` neither token nor scope is set |
| Creator.Client.SetCookie | lib/creator.js:25-27 | replaces the cookie and nothing else |
| Creator.Client.WithAuth | lib/creator.js:143-145 | `authtoken`, `scope` and `raw = true` written, every other parameter kept, the `download` key present iff it was |
| Creator.Client.RequestFor | lib/creator.js:140-166 | query built before `path` is deleted; body without `path`; Cookie header always sent; image headers and byte reading iff `download` |
| Creator.Client.Dispatch | lib/creator.js:140-166 | `_request` sends `RequestFor` |
| Creator.Client.AddRecords | lib/creator.js:31-41 | POST `app/form/F/record/add/` |
| Creator.Client.EditRecords | lib/creator.js:45-57 | POST `app/form/F/record/update/` |
| Creator.Client.DeleteRecords | lib/creator.js:61-71 | POST `app/form/F/record/delete/` |
| Creator.Client.ViewRecordsInView | lib/creator.js:75-85 | GET `app/view/V` |
| Creator.Client.ListFormFields | lib/creator.js:89-99 | GET `app/view/V`, the same endpoint |
| Creator.Client.DownloadImage | lib/creator.js:103-115 | the host becomes `creatorexport.zoho.com` for good, nothing else changes, and a GET is sent with `download = true` |
| Creator.PathOnlyInQuery | lib/creator.js:147-148 | a `path` parameter reaches the query unchanged but is absent from the sent parameters and the body |
| Creator.DownloadIsBinary | lib/creator.js:163-175 | a download request is read as bytes, carries `download = true`, goes to the bare endpoint and carries the two image headers after Content-Length and Cookie |
| Support.RowAt | lib/support.js:38-50 | the output is `<requests>…</requests>` and row `k + 1` holds the `k`-th record, in order |
| Support.FieldAt | lib/support.js:43-47 | field `j` of a row is `<fl val="k">v</fl>` with the raw value and no CDATA |
| Support.SingleRecordIsList | lib/support.js:38 | a non-array record serialises exactly as the one-element list holding it |
| Support.RowElement | lib/support.js:41-49 | the callback's loop produces the numbered `<row>` of one record |
| Support.BuildRows | lib/support.js:41-49 | the loop over the records produces rows numbered 1..N in order |
| Support.BuildRequests | lib/support.js:38-50 | the inline builder returns `RequestsXml(params)`; the one at lines 91-103 is the same code |
| Support.Classify | lib/support.js:143-164 | an empty body is `No content data`; an unparsable one, or one whose `response` is not an object, throws; failures carry `{code, message}`; a success is `{code, data}` with a truthy or zero code |
| Support.ClassifyDecision | lib/support.js:147-160 | a truthy `error` is the failure; otherwise success iff `response.result` can be read: there is no `nodata` branch |
| Support.ClassifySuccess | lib/support.js:152-159 | for any readable `result` (object or primitive), a success carries `result.responsecode \|\| 0` and `result.responsedata \|\| result` |
| Support.ErrorFixture | lib/support.js:147-151 | the `4834 Invalid Ticket Id` response is the failure `{code: 4834, message: 'Invalid Ticket Id'}` |
| Support.Client.constructor | lib/support.js:6-28 | host `support.zoho.com` by default; `authtoken`, `portal`, `department` stored only when all three are truthy, none otherwise |
| Support.Client.RequestFor | lib/support.js:120-135 | `portal`, `authtoken`, `department` overwritten, other parameters kept, path `/api/json/endpoint?query` |
| Support.Client.Dispatch | lib/support.js:120-135 | `_request` sends `RequestFor` |
| Support.Client.CreateRecord | lib/support.js:31-53 | rejected iff params are not a non-empty object; otherwise GET `module/addrecords` with the `xml` parameter only |
| Support.Client.GetRecords | lib/support.js:56-66 | GET `module/getrecords` with the module name verbatim |
| Support.Client.GetRecordById | lib/support.js:69-77 | rejected iff there is no truthy `params.id`; otherwise GET `module/getrecordsbyid` |
| Support.Client.UpdateRecord | lib/support.js:80-106 | params checked before id; otherwise GET `module/updaterecords` with `id` and `xml` |
| Support.Client.DeleteRecord | lib/support.js:109-115 | rejected iff `id` is object-typed or undefined; otherwise GET `module/deleterecords` with `id` |
| Support.UpdateSendsOnlyIdAndXml | lib/support.js:105 | an update sends exactly `id`, `xml`, `portal`, `authtoken`, `department` |
| Invoice.Classify | lib/invoice.js:102-117 | an empty body is `No content data`; an unparsable or `null` one throws; `code` other than the number 0 is the failure `{code, message}`, 0 the success with the whole object; an array or primitive body is the failure `{code: undefined, message: undefined}` |
| Invoice.SuccessOnlyOnNumericZero | lib/invoice.js:106-113 | success iff the parsed body's `code` is exactly the number 0 |
| Invoice.SuccessFixture | lib/invoice.js:106-113 | `{"code":0,"message":"success",…}` is the success with the whole object |
| Invoice.Client.constructor | lib/invoice.js:6-18 | host `invoice.zoho.com` by default; only `authtoken` is stored, and only when truthy |
| Invoice.Client.RequestFor | lib/invoice.js:81-94 | only `authtoken` written, other parameters kept, path `/api/v3/endpoint?query` |
| Invoice.Client.Dispatch | lib/invoice.js:81-94 | `_request` sends `RequestFor` |
| Invoice.Client.CreateRecord | lib/invoice.js:21-29 | rejected iff params are not a non-empty object; otherwise POST `module` with the single `JSONString` parameter |
| Invoice.Client.UpdateRecord | lib/invoice.js:32-44 | params checked before id; otherwise PUT `module/id` with `JSONString` |
| Invoice.Client.GetRecords | lib/invoice.js:47-55 | GET `module` |
| Invoice.Client.GetRecordById | lib/invoice.js:58-66 | rejected iff there is no truthy `params.id`; otherwise GET `module/id` with the full params, `id` included |
| Invoice.Client.DeleteRecord | lib/invoice.js:69-75 | rejected iff `id` is object-typed or undefined; otherwise DELETE `module/id` with no parameters |
| Invoice.DeleteSendsOnlyToken | lib/invoice.js:74 | a delete sends only `authtoken`, the id being in the path alone |

## Left out

- Transport: the `http`/`https` request, chunk accumulation, `setEncoding`, `req.on('error')` and the asynchronous callback. A callback invocation is a returned `Call` or `Outcome`.
- Logging: lib/debug.js and the `console.log`/`console.error` calls (the constructors, `editRecords`). lib/debug.js is not part of this model.
- `qs.stringify`, `querystring.unescape`, `JSON.stringify`, `JSON.parse` and `Buffer` re-encoding: uninterpreted parameters, so paths and bodies are stated up to these encoders.
- Content-Length is `|body|` counted in characters; JavaScript counts UTF-16 code units.
- The optional-argument shuffle `typeof params === 'function'`, including its interaction with `params.download = true` in `downloadImage`: callbacks are not values here.
- `params || {}` on the public methods taking an unchecked `params`: those take the parameter object itself (`Fields`); a non-object `params` is not modelled.
- Property assignment on the caller's object: requests carry the final parameters as a value, so the caller's object is not shown to be mutated (aliasing).
- Inherited properties in `for…in` and `hasOwnProperty`: objects have own keys only, and non-object records contribute no fields.
- Js.Assign / Js.AssignKeys: a new key is appended to the enumeration order, which matches JavaScript only for keys that are not array indices (JavaScript lists `"0"`, `"1"`, … first, ascending); the clients only assign non-index keys (`authtoken`, `scope`, `raw`, `xmlData`, `download`, `portal`, `department`).
- Duplicate keys: objects are key/value lists; `Get` and `Assign` use the first occurrence of a key, and nothing in the clients creates a second one.
- Js.JsString / Js.JsStringNumber: `Num(n)` stands for a JavaScript number only while |n| < 2^53, and its plain-digit rendering is JavaScript's only below 10^21 (from there `'' + n` uses exponent form such as `1e+21`); ids and row numbers beyond those bounds are not modelled.
- Numbers are integers; `toUpperCase` is modelled for ASCII letters only.
- XML well-formedness: names and values are not escaped and `]]>` is not handled, so the model states the exact string and nothing about parsing it.
- Creator's `No content data` branch (lib/creator.js:211-215): unreachable, since a `Buffer` is always truthy.
