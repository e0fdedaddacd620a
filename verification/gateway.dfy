/** The outcome of one call through the storefront's GraphQL fetch helper
    (src/lib/shopify.ts), and the errors the core's functions throw. */
module Gateway {

  /** What a remote call yields to its caller: the response's `data` payload,
      or a failure. Transport errors, unreadable bodies and GraphQL-level
      `errors` all become the same failure, because the helper catches every
      exception and rethrows one fixed object. */
  datatype Reply<T> = Delivered(data: T) | FetchFailed

  /** The values the core throws:
      - `ServiceError` is the fixed `{status, message}` object of the fetch helper;
      - `Thrown` is `new Error(message)` raised by the core itself;
      - `TypeError` is the runtime error of reading a field of `undefined`. */
  datatype Error =
    | ServiceError(status: int, message: string)
    | Thrown(message: string)
    | TypeError

  /** The single failure every remote call reports. */
  const FetchError: Error := ServiceError(500, "Error receiving data from Shopify")
}
