/**
 * The shapes shared by the Express handlers and by the React components
 * that call them: a handler's reply, the outcome of a call into a service
 * the model does not see, and the `{ success, count, data }` listing body.
 */
module Http {

  /** What a handler sends: a status code with a payload, or with an error text. */
  datatype Reply<T> = Sent(status: int, body: T) | Rejected(status: int, error: string)

  /**
   * The outcome of a call into code outside the model (Firestore, Firebase
   * Auth, `fetch`, Overpass): a value, or a failure carrying the thrown
   * error's message. Each such outcome is an input of the model.
   */
  datatype Ext<T> = Ok(value: T) | Fail(message: string)

  /** The `{ success: true, count, data }` body of the listing handlers. */
  datatype Listing<T> = Listing(count: int, data: seq<T>)

  /** A well-formed listing: its count is the number of entries it carries. */
  predicate Counted<T>(l: Listing<T>) {
    l.count == |l.data|
  }
}
