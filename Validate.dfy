/** The argument checks that CRM, Support and Invoice run before any
    request is built, with the fixed messages they answer with. */
module Validate {
  import opened Js

  const CreateMessage := "Error: params object required to create record"
  const GetByIdMessage := "Error: ID required parameter missing to get record"
  const UpdateParamsMessage := "Error: params object required to update record"
  const UpdateIdMessage := "Error: ID required parameter missing to update a record"
  const DeleteIdMessage := "Error: ID required parameter missing to delete a record"

  /** `x = x || {}` */
  function Defaulted(x: Value): Value {
    Or(x, Obj([]))
  }

  /** After `payload = payload || {}`, the test
      `typeof payload !== 'object' || Object.keys(payload).length === 0`
      fails, so the payload is accepted. */
  predicate NonEmptyObject(payload: Value) {
    var p := Defaulted(payload);
    IsObjectType(p) && KeyCount(p) > 0
  }

  /** Only a non-empty array or a non-empty plain object gets through. */
  lemma NonEmptyObjectIff(payload: Value)
    ensures NonEmptyObject(payload)
        <==> (payload.Arr? && payload.items != []) || (payload.Obj? && payload.fields != [])
  {
  }

  /** `typeof id === 'object' || typeof id === 'undefined'` does not hold. */
  predicate UsableId(id: Value) {
    !(IsObjectType(id) || id.Undefined?)
  }

  /** After `params = params || {}`, the test
      `typeof params !== 'object' || !params.id` fails. */
  predicate HasTruthyId(params: Value) {
    var p := Defaulted(params);
    IsObjectType(p) && (match Prop(p, "id") case Some(id) => Truthy(id) case None => false)
  }

  /** An accepted `params` is a plain object whose `id` is truthy. */
  lemma HasTruthyIdIff(params: Value)
    ensures HasTruthyId(params) <==> params.Obj? && Truthy(Get(params.fields, "id"))
  {
  }
}
