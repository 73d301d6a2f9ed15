/** The remote side of every cache, as the outcome of one awaited call.
    Which outcome occurs is not modelled: it is a parameter. */
module Gateway {

  /** What a failed call throws: an `Error` with its message, or some other value. */
  datatype Thrown = Error(message: string) | NonError

  /** The settled outcome of an awaited gateway call. */
  datatype Reply<T> = Ok(value: T) | Threw(thrown: Thrown)

  /** The outcome of a bare `fetch`: a 2xx answer with its parsed body, a
      non-2xx answer, or a rejection (network failure, unreadable body). */
  datatype Http<T> = Answered(body: T) | NotOk | Rejected(thrown: Thrown)

  /** `err instanceof Error ? err.message : fallback`. */
  function Message(t: Thrown, fallback: string): string {
    match t
    case Error(m) => m
    case NonError => fallback
  }

  /** The hooks that call `fetch` directly turn a non-2xx answer into
      `new Error(notOk)` and let rejections through. */
  function Checked<T>(h: Http<T>, notOk: string): (r: Reply<T>)
    ensures r.Ok? <==> h.Answered?
    ensures r.Ok? ==> r.value == h.body
    ensures h.NotOk? ==> r == Threw(Error(notOk))
    ensures h.Rejected? ==> r == Threw(h.thrown)
  {
    match h
    case Answered(b) => Ok(b)
    case NotOk => Threw(Error(notOk))
    case Rejected(t) => Threw(t)
  }
}
