/**
 * The remote configuration server, seen from the client as three abstract answers:
 * one value for a (namespace, environment, key) triple, the whole map of a
 * (namespace, environment) pair, and the body of its health endpoint.
 * HTTP, JSON decoding and authentication are behind these answers.
 */
module ConfigServer {
  import opened Wrappers

  /** Outcome of asking for one value. `NotFound` covers every answer that decodes to
      no value (404, empty body, no "value" field); `Failure` covers transport and
      decoding errors. The client treats both as null. */
  datatype Reply = Found(value: string) | NotFound | Failure

  /** Outcome of asking for the whole map. A JSON null value is `None`. */
  datatype BulkReply =
    | Body(entries: map<string, Option<string>>)
    | NoBody
    | BulkFailure

  /** Outcome of the health probe. */
  datatype HealthReply = HealthBody(text: string) | HealthNoBody | HealthFailure

  datatype Server = Server(
    fetchOne: (string, string, string) -> Reply,
    fetchBulk: (string, string) -> BulkReply,
    health: HealthReply)

  /** A request the client sent to the server for data (recorded in a ghost log). */
  datatype Request =
    | One(namespace: string, environment: string, key: string)
    | Bulk(namespace: string, environment: string)
}
