/** What the HTTP controllers share: the status codes they answer with and
    JavaScript truthiness of the optional request fields they read. */
module Express {
  import opened JsRuntime

  /** The status codes the modelled handlers send; ServerError is the 500 a
      handler's catch block sends when saving a document fails. */
  datatype Status = Ok | Created | BadRequest | Forbidden | NotFound | ServerError

  /** A string request field is truthy when present and not empty. */
  predicate TruthyString(s: Option<string>) {
    s.Some? && s.value != ""
  }

  /** A number request field is truthy when present and not 0. */
  predicate TruthyNumber(v: Option<real>) {
    v.Some? && v.value != 0.0
  }
}
