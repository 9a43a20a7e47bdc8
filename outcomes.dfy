/** Values shared by the component and the service: optional values and the
    settled outcome of an awaited call. */
module Outcomes {

  datatype Option<+T> = None | Some(value: T)

  /** How an awaited call settled: resolved with a value, or rejected with an
      error whose `message` may be absent (`undefined`). */
  datatype Reply<+T> = Done(value: T) | Failed(message: Option<string>)

  /** A grounded answer: the reply text and the source URLs behind it. */
  datatype GroundedAnswer = GroundedAnswer(text: string, urls: seq<string>)
}
