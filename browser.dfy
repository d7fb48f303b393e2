/**
 * What the credential code gets from the browser, as values: how a promise settles, what a
 * `throw` carries, and the environment's answers (is a 2D context available, does an image
 * load, which object URLs are handed out).
 */
module Browser {

  /** A thrown value: an `Error` (with its `message`) or anything else. */
  datatype Thrown = ErrorObject(message: string) | NonError

  /**
   * How an awaited promise ends. `Pending` is a promise that never settles: the image loads
   * await `onload` and register no error handler, so an image that fails to load hangs the call.
   */
  datatype Settled<T> = Resolved(value: T) | Rejected(thrown: Thrown) | Pending

  /** An external step that either completes or throws. */
  datatype Step = Succeeds | Throws(thrown: Thrown)

  /**
   * The browser as the credential code sees it:
   * `hasContext` — `canvas.getContext('2d')` returns a context;
   * `loads(src)` — an `Image` given `src` fires `onload`;
   * `btoaMessage` — the message of the error `btoa` throws on a non-Latin-1 character;
   * `objectUrl(i)` — the URL `URL.createObjectURL` returns the i-th time it is called.
   */
  datatype Env = Env(hasContext: bool, loads: string -> bool, btoaMessage: string, objectUrl: nat -> string)

  /** `err instanceof Error ? err.message : fallback`. */
  function MessageOf(t: Thrown, fallback: string): string
  {
    match t
    case ErrorObject(m) => m
    case NonError => fallback
  }
}
