/**
 * Classification of the service's answer: the body is parsed first, then
 * the status code selects exactly one outcome. Also the settling of a
 * transport reply in a blocking publish, where a failure to reach the
 * service becomes an HTTP error and a received body is chomped before it is
 * classified.
 */
module Response {
  import opened Wrappers
  import opened Text
  import Json

  /** The exceptions a publish can raise. */
  datatype Error =
    | ConfigurationError(message: string)
      /** The JSON library's parse error, which propagates unwrapped. */
    | ParseError(input: Bytes)
    | BadRequestError(body: Json.Value)
    | AuthenticationError(body: Json.Value)
    | NotFoundError(body: Json.Value)
      /** A status the client does not single out. */
    | HttpError(body: Json.Value)
      /** An HttpError raised with a message when the transport itself failed. */
    | ConnectionError(message: string, cause: string)
  {
    /** HttpError and its three status-specific subclasses. */
    predicate IsHttpError() {
      !ConfigurationError? && !ParseError?
    }
  }

  /** What the transport hands back: a status and a body, or the message of the exception it raised. */
  datatype Reply =
    | Received(status: int, body: Bytes)
    | Raised(message: string)

  /** `process_response`: the body is decoded, then the status is examined. */
  function Process(codec: Json.Codec, status: int, body: Bytes): (r: Result<Json.Value, Error>)
    ensures r.Success? ==> codec.decode(body) == Some(r.value)
    ensures r.Failure? ==> r.error.ParseError? || r.error.IsHttpError()
  {
    match codec.decode(body)
    case None => Failure(ParseError(body))
    case Some(v) =>
      if 200 <= status <= 201 then Success(v)
      else if status == 400 then Failure(BadRequestError(v))
      else if status == 401 then Failure(AuthenticationError(v))
      else if status == 404 then Failure(NotFoundError(v))
      else Failure(HttpError(v))
  }

  /** Success happens exactly for 200 and 201 with a parsable body, and carries the parsed body unchanged. */
  lemma SuccessExactlyOnOk(codec: Json.Codec, status: int, body: Bytes, v: Json.Value)
    ensures Process(codec, status, body) == Success(v)
        <==> (status == 200 || status == 201) && codec.decode(body) == Some(v)
  {
  }

  /**
   * With a parsable body, 400, 401 and 404 raise their own error kinds, and
   * every other status except 200 and 201 raises a plain HttpError; each
   * error carries the parsed body.
   */
  lemma StatusSelectsError(codec: Json.Codec, status: int, body: Bytes, v: Json.Value)
    requires codec.decode(body) == Some(v)
    ensures Process(codec, status, body) == Failure(BadRequestError(v)) <==> status == 400
    ensures Process(codec, status, body) == Failure(AuthenticationError(v)) <==> status == 401
    ensures Process(codec, status, body) == Failure(NotFoundError(v)) <==> status == 404
    ensures Process(codec, status, body) == Failure(HttpError(v))
        <==> status !in {200, 201, 400, 401, 404}
  {
  }

  /** The body is decoded before the status is looked at: an unparsable body fails for every status, 200 included. */
  lemma UnparsableBodyFailsAtEveryStatus(codec: Json.Codec, status: int, body: Bytes)
    requires codec.decode(body).None?
    ensures Process(codec, status, body) == Failure(ParseError(body))
  {
  }

  function ConnectionMessage(cause: string): string {
    "Couldn't connect to Keen IO: " + cause
  }

  /**
   * The outcome of a blocking publish once the transport has answered: a
   * transport exception always becomes an HttpError that keeps its message,
   * and a success needs status 200 or 201 and a chomped body that parses.
   */
  function Settle(codec: Json.Codec, reply: Reply): (r: Result<Json.Value, Error>)
    ensures reply.Raised? ==>
      r.Failure? && r.error.ConnectionError? && r.error.IsHttpError() && r.error.cause == reply.message
    ensures r.Success? ==>
      reply.Received? && 200 <= reply.status <= 201 && codec.decode(Chomp(reply.body)) == Some(r.value)
  {
    match reply
    case Raised(cause) => Failure(ConnectionError(ConnectionMessage(cause), cause))
    case Received(status, body) => Process(codec, status, Chomp(body))
  }

  /** A transport failure is always wrapped as an HttpError that keeps the original message. */
  lemma TransportFailureIsWrapped(codec: Json.Codec, cause: string)
    ensures var r := Settle(codec, Raised(cause));
      && r.Failure? && r.error.IsHttpError()
      && r.error.cause == cause
      && r.error.message == "Couldn't connect to Keen IO: " + cause
  {
  }

  /** A single line terminator after the body does not change the outcome. */
  lemma TrailingLineBreakIgnored(codec: Json.Codec, status: int, body: Bytes, ending: Bytes)
    requires ending == [LF] || ending == [CR] || ending == [CR, LF]
    requires !EndsWithLineBreak(body)
    ensures Settle(codec, Received(status, body + ending)) == Settle(codec, Received(status, body))
  {
    ChompRemovesAppendedLineBreak(body, ending);
  }
}
