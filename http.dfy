/** Responses as the handlers send them, and JavaScript truthiness of
    request fields. */
module Http {
  import opened Wrappers
  import opened Foreign
  import opened Documents

  /** The `pagination` object of the post listing. */
  datatype Pagination = Pagination(page: int, limit: int, total: nat, pages: nat)

  /** The JSON (or text) a handler sends. */
  datatype Body =
    | Error(error: string)
    | Message(message: string)
    | Text(text: string)
    | Identity(id: ObjectId, email: string)
    | Tokens(accessToken: Token, refreshToken: Token)
    | Found(post: Post)
    | PostCreated(message: string, postId: ObjectId)
    | Listing(pagination: Pagination)

  datatype Response = Response(status: nat, body: Body)

  /** `response.status(status).send({ error })`. */
  function Fail(status: nat, error: string): Response {
    Response(status, Error(error))
  }

  /** A string field of a request is truthy when present and non-empty. */
  predicate Truthy(field: Option<string>) {
    field.Some? && field.value != ""
  }
}
