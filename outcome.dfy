/**
 * The shapes shared by the three service wrappers: what a remote call hands
 * back to its callback `(err, data)`, how the promise a wrapper returns
 * settles, and the request a wrapper sends together with that settlement.
 */
module Outcome {

  datatype Option<+T> = None | Some(value: T)

  /** An error a promise of the library rejects with. */
  datatype Error =
    | ServiceError(message: string)   // the error object the remote service handed back, passed on as it is
    | LibraryError(message: string)   // an `Error` the library creates itself

  /** What the remote service calls back with: an error, or a response. */
  datatype Reply<+T> = Failed(message: string) | Answered(data: T)

  /** How the promise returned by a wrapper settles. */
  datatype Settled<+T> = Rejected(error: Error) | Resolved(value: T)

  /** One call of a wrapper: the request it sends and how its promise settles. */
  datatype Call<+P, +T> = Call(request: P, settled: Settled<T>)

  /** The callback `err ? reject(err) : resolve(data)`: the reply, unchanged, as a settlement. */
  function PassThrough<T>(reply: Reply<T>): (s: Settled<T>)
    ensures s.Resolved? <==> reply.Answered?
    ensures s.Rejected? ==> s.error.ServiceError?
  {
    match reply
    case Failed(m) => Rejected(ServiceError(m))
    case Answered(d) => Resolved(d)
  }

  /** Recovers the reply from a settlement that came from a service reply. */
  function ReplyOf<T>(s: Settled<T>): (reply: Reply<T>)
    ensures s.Resolved? <==> reply.Answered?
  {
    match s
    case Rejected(e) => Failed(e.message)
    case Resolved(v) => Answered(v)
  }

  /** Passing a reply through loses nothing: the reply can be read back from the settlement. */
  lemma PassThroughIsVerbatim<T>(reply: Reply<T>)
    ensures ReplyOf(PassThrough(reply)) == reply
    ensures reply.Answered? ==> PassThrough(reply).value == reply.data
    ensures reply.Failed? ==> PassThrough(reply).error.message == reply.message
  {
  }
}
