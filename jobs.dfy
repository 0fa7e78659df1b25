/** Shapes shared by the job store of the HTTP service and by the stub payment
    handler: the job record, its status, and the outcome of a call into a
    collaborator (the payment SDK, the task executor) that may raise. */
module Jobs {

  datatype Option<T> = None | Some(value: T)

  /** An exception a collaborator raises.  Handlers treat a `KeyError`
      differently from every other exception, so it is a kind of its own;
      any other exception is known by its `str()`. */
  datatype Error = KeyError(key: string) | OtherError(text: string)
  {
    /** `str(e)`. */
    function Message(): string {
      match this
      case KeyError(k) => KeyErrorText(k)
      case OtherError(t) => t
    }
  }

  /** A collaborator call that returned `value`, or raised `error`. */
  datatype Outcome<T> = Returns(value: T) | Throws(error: Error)

  /** A collaborator call whose return value is not used. */
  datatype Step = Succeeds | Fails(error: Error)

  /** Job identifiers are the text of a random UUID; the model treats them as
      opaque strings. */
  type JobId = string

  /** The four values the `status` entry of a job record takes. */
  datatype Status = AwaitingPayment | Running | Completed | Failed

  /** The text the service reports for a status. */
  function StatusName(s: Status): string {
    match s
    case AwaitingPayment => "awaiting_payment"
    case Running => "running"
    case Completed => "completed"
    case Failed => "failed"
  }

  /** One job record: the dictionary stored under the job's identifier.
      `result` is the record's "result" entry (None is Python's None);
      `error` is None while the record has no "error" entry.  The result type
      differs between the two handlers: the webhook variant stores the
      response text, the stub variant a dictionary. */
  datatype Job<R> = Job(
    status: Status,
    paymentStatus: string,
    paymentId: string,
    inputData: map<string, string>,
    result: Option<R>,
    identifierFromPurchaser: string,
    error: Option<string>)

  /** `str()` of the KeyError raised when the string key `k` is missing from a
      dictionary: the key's repr, here its text between single quotes. */
  function KeyErrorText(k: string): string {
    "'" + k + "'"
  }
}
