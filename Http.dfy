/** The HTTP outcomes the route handlers return. */
module Http {

  datatype Status =
    | Ok200
    | Created201
    | BadRequest400
    | Unauthorized401
    | Forbidden403
    | NotFound404
    | ServerError500

  /** A JSON body on success, or an error status. */
  datatype Resposta<+T> = Sucesso(corpo: T) | Erro(status: Status)
}
