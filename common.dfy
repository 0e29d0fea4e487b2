/** Values shared by every screen: optional values, the shape of a remote call's
    outcome, and the one rule all screens use to turn a server reply into either
    success or a user-facing error message. */
module Common {

  datatype Option<+T> = None | Some(value: T)

  /** A local computation that either yields a value or a user-facing message. */
  datatype Result<+T> = Ok(value: T) | Err(message: string)

  /** The outcome of one call through the API helper: the response body, or a
      thrown error that may carry `err.response.data.message`. */
  datatype Outcome<+T> = Delivered(body: T) | Rejected(serverMessage: Option<string>)

  /** The body of a POST answered with `{message}`. `NullReply` is a null or
      undefined body, on which reading `response.message` throws. */
  datatype Reply = Reply(message: Option<string>) | NullReply

  /** How a screen reads a reply: accepted, or refused with the text it shows. */
  datatype Verdict = Accepted | Refused(message: string)

  /** A product record as the products API returns it. */
  datatype Product = Product(
    id: string,
    name: string,
    price: real,
    imageUrl: string,
    description: string,
    category: string,
    manufacturer: string,
    availableItems: int,
    createdAt: int)

  /** JavaScript truthiness of an optional message: absent and "" are falsy. */
  predicate Truthy(m: Option<string>) {
    m.Some? && m.value != ""
  }

  /** `message || fallback`: the server's message wins when it is truthy. */
  function MessageOr(m: Option<string>, fallback: string): (r: string)
    ensures Truthy(m) ==> r == m.value
    ensures !Truthy(m) ==> r == fallback
    ensures r != "" <== fallback != ""
  {
    if Truthy(m) then m.value else fallback
  }

  /** The success test shared by signup, product creation and order placement:
      `response && response.message === expected` accepts; any other delivered
      reply is refused with its message or `unexpected`; a thrown error, and a
      null body (whose `.message` throws inside the same try block), are refused
      with the server message or `thrown`. */
  function Classify(result: Outcome<Reply>, expected: string, unexpected: string, thrown: string): (v: Verdict)
    ensures v.Accepted? <==> result == Delivered(Reply(Some(expected)))
    ensures result.Rejected? ==> v == Refused(MessageOr(result.serverMessage, thrown))
    ensures result == Delivered(NullReply) ==> v == Refused(thrown)
    ensures result.Delivered? && result.body.Reply? && result.body.message != Some(expected) ==>
              v == Refused(MessageOr(result.body.message, unexpected))
  {
    match result
    case Rejected(m) => Refused(MessageOr(m, thrown))
    case Delivered(NullReply) => Refused(thrown)
    case Delivered(Reply(m)) =>
      if m == Some(expected) then Accepted else Refused(MessageOr(m, unexpected))
  }

  /** No failure is silent: with non-empty fallbacks every refusal shows text. */
  lemma RefusalIsVisible(result: Outcome<Reply>, expected: string, unexpected: string, thrown: string)
    requires unexpected != "" && thrown != ""
    ensures Classify(result, expected, unexpected, thrown).Refused? ==>
              Classify(result, expected, unexpected, thrown).message != ""
  {
  }
}
