/** What a handler writes back: a status code and a JSON body. */
module Http {
  import opened ProjectModel

  datatype Body =
    | Message(text: string)            // { message: ... }
    | Failure                          // { errorMessage: ... } or the framework's own error page
    | Token(token: string)             // { token: ... }
    | Record(id: Id, project: Project) // one document
    | Records(all: map<Id, Project>)   // every document

  datatype Response = Response(status: nat, body: Body)

  const OK: nat := 200
  const BadRequest: nat := 400
  const Unauthorized: nat := 401
  const Forbidden: nat := 403
  const NotFound: nat := 404
  const ServerError: nat := 500
}
