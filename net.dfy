/**
 The network as the worker sees it: request modes, responses and a fetch oracle.
 */
module Net {

  datatype Option<T> = None | Some(value: T)

  /** The request mode of the Fetch standard. The worker itself only ever asks for `NoCors`
      (CDN assets) and `Cors` (what `cache.addAll` uses for URL strings); requests coming from
      the page carry their own mode. */
  datatype Mode = Navigate | SameOrigin | NoCors | Cors

  /** A response is either inspectable (`Basic`) or opaque: the result of a no-cors
      cross-origin fetch, which can be stored and replayed but whose status reads as 0. */
  datatype Response = Basic(status: int, body: string) | Opaque(blob: string)

  function Status(r: Response): int {
    match r
    case Basic(status, _) => status
    case Opaque(_) => 0
  }

  /** A fetch of a URL in a mode either yields a response or fails with a network error
      (`None`). The worker counts how often it calls the network. */
  type Network = (string, Mode) -> Option<Response>
}
