/** The records the client exchanges with the server, and the outcome of one call. */
module Types {
  import opened Js

  /** A signed-in identity. `phoneNumber` is optional; `roles` may be missing too:
      the "who am I" path builds a user without them. */
  datatype User = User(
    id: string,
    firstName: string,
    lastName: string,
    email: string,
    phoneNumber: Option<string>,
    roles: Option<seq<string>>,
    talentId: string,
    talentName: string)

  /** The fields the client reads from the body of the `/Auth/me` response. */
  datatype Me = Me(
    userId: string,
    firstName: string,
    lastName: string,
    email: string,
    talentId: string,
    talentName: string)

  /** The `data` of a successful login. */
  datatype AuthResponse = AuthResponse(token: string, expires: string, user: User)

  /** A date as the client reads it: an instant with its local calendar year and month
      (0-based, as `getMonth` gives it), or a string that does not parse (`NaN`),
      which compares false with everything. */
  datatype Moment = At(time: int, year: int, month: int) | InvalidDate

  /** An invoice. Amounts are whole minor units (cents). */
  datatype Invoice = Invoice(
    id: string,
    invoiceNumber: string,
    description: string,
    amount: int,
    dueDate: Moment,
    status: string,
    createdAt: Moment,
    userId: string)

  /** The uniform response body `{ success, message, data, errors }`. */
  datatype Envelope<T> = Envelope(success: bool, message: string, data: T, errors: seq<string>)

  datatype LoginData = LoginData(email: string, password: Option<string>)

  /** The registration payload is the form object itself, keyed by input name. */
  type RegisterData = map<string, string>

  datatype ResetPasswordData = ResetPasswordData(
    email: string,
    token: string,
    newPassword: string,
    confirmPassword: string)

  datatype UpdateInvoiceData = UpdateInvoiceData(description: string, amount: int, dueDate: Moment)

  /** Why a call rejected: a response arrived with an error status (its body's `message`,
      "" when absent, and its `errors` when that is an array), or no response arrived. */
  datatype Failure = ErrorResponse(message: string, errors: Option<seq<string>>) | NoResponse

  /** What one awaited call produced. */
  datatype Outcome<T> = Ok(payload: T) | Fail(failure: Failure)

  /** How an async operation of the client settles: it resolves, or it rejects with a failure. */
  datatype Completion = Resolved | Rejected(failure: Failure)
}
