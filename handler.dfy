/**
 * The capability every request handler provides: given the caller's socket
 * address, the inbound request and the shared outbound client, produce the
 * response or a failure of the handler's own kind.
 */
module Handler {
  import opened Results
  import opened Net
  import opened Http

  /** Why the outbound client could not deliver a response (a transport failure). */
  datatype ClientError = ClientError(reason: string)

  /**
   * The shared outbound client: it sends a request upstream and yields the
   * upstream response or a transport failure.
   */
  type Client = Request -> Result<Response, ClientError>

  /**
   * A request handler with failure kind `E`. A handler may be partial: it is
   * defined only on the requests its configuration can process.
   */
  type Handler<E> = (SocketAddr, Request, Client) --> Result<Response, E>
}
