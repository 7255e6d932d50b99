/**
 * Shared types of the front end: the deployment record, the values a JavaScript `throw`
 * can carry, and the normalisation of a caught value into a user-facing message.
 */
module Types {
  import opened Wrappers

  /** The deployment record written by the deploy script: network, chain id and the two contract addresses. */
  datatype DeploymentInfo = DeploymentInfo(
    network: string,
    chainId: string,
    deployedAt: Option<string>,
    mockOracle: string,
    bigBlackCoin: string,
    deployer: Option<string>)

  /**
   * A JavaScript value as far as the code inspects a caught exception: whether it is an
   * `Error` instance (with its message and an optional numeric `code`, as wallet providers
   * attach), its `typeof`, and its `code` property.
   */
  datatype JsValue =
    | ErrorObject(message: string, code: Option<int>)
    | JsString(text: string)
    | JsNumber(number: int)
    | JsBoolean(flag: bool)
    | JsNull
    | JsUndefined
    | PlainObject(code: Option<int>)

  /** The `typeof` operator. */
  function TypeOf(v: JsValue): string
  {
    match v
    case ErrorObject(_, _) => "object"
    case JsString(_) => "string"
    case JsNumber(_) => "number"
    case JsBoolean(_) => "boolean"
    case JsNull => "object"
    case JsUndefined => "undefined"
    case PlainObject(_) => "object"
  }

  /** `v instanceof Error` */
  predicate IsErrorInstance(v: JsValue) { v.ErrorObject? }

  /** The `code` property of a thrown value; primitives have none. */
  function Code(v: JsValue): Option<int>
  {
    match v
    case ErrorObject(_, c) => c
    case PlainObject(c) => c
    case _ => None
  }

  const UnknownErrorMessage := "An unknown error occurred"

  /** `getErrorMessage`: an Error gives its message, a string itself, anything else a fixed text. */
  function GetErrorMessage(error: JsValue): (m: string)
    ensures IsErrorInstance(error) ==> m == error.message
    ensures !IsErrorInstance(error) && error.JsString? ==> m == error.text
    ensures !IsErrorInstance(error) && !error.JsString? ==> m == UnknownErrorMessage
  {
    if IsErrorInstance(error) then error.message
    else if TypeOf(error) == "string" then error.text
    else UnknownErrorMessage
  }

  /**
   * The two tests of `GetErrorMessage` never hold together, so the order of its
   * branches decides nothing: an Error instance is never of type "string".
   */
  lemma ErrorTestsDisjoint(v: JsValue)
    ensures IsErrorInstance(v) ==> TypeOf(v) != "string"
    ensures TypeOf(v) == "string" <==> v.JsString?
  {
  }
}
