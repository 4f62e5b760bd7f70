/** Record shapes shared by the server and the viewer (the `users` and
    `payments` tables and their insert schemas), and the two wrappers the
    model uses for optional fields, missing lookups and failures. */
module Schema {

  datatype Option<T> = None | Some(value: T)

  /** A computation that either produced a value or failed with a message
      (a JavaScript exception's `message`). */
  datatype Result<T> = Ok(value: T) | Err(message: string)

  /** Identifiers are opaque strings (UUIDs in the store). */
  type Id = string

  /** A row of the `users` table. */
  datatype User = User(id: Id, username: string, password: string)

  /** What a caller supplies to create a user. */
  datatype InsertUser = InsertUser(username: string, password: string)

  /** A row of the `payments` table: `amount` is in cents and `timestamp`
      is the creation instant, in milliseconds. */
  datatype Payment = Payment(
    id: Id,
    stripePaymentId: string,
    amount: int,
    currency: string,
    timestamp: int)

  /** What a caller supplies to create a payment; the currency is optional. */
  datatype InsertPayment = InsertPayment(
    stripePaymentId: string,
    amount: int,
    currency: Option<string>)

  /** The currency the store fills in when none (or an empty one) is given. */
  const DefaultCurrency: string := "usd"
}
