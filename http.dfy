/** The JSON error replies the route handlers share. */
module Http {
  /** An error reply: HTTP status and the `error` text of its body. */
  datatype Reply = Reply(status: int, error: string)

  const Unauthorized := Reply(401, "No autorizado")
  const InternalError := Reply(500, "Error interno del servidor")

  /** Where a listing form sends its data: a new listing goes by POST to `/api/inmuebles`,
      an existing one by PUT to `/api/inmuebles/{id}`. */
  datatype Request = Post | Put(id: int)
}
