/**
 * The records that cross the router's boundary: the caller's message content,
 * the user-facing and the engine-side raw messages, responses, and what the
 * dispatch engine can do with a request.
 */
module Messages {
  import opened Values

  /**
   * The `Object message` handed to createRawMessage: a `byte[]`, or any other
   * non-null object, represented by its toString() text.
   */
  datatype Content = ByteArray(bytes: seq<JavaByte>) | NonBinary(text: string)

  /** A raw message's payload: binary bytes or text, never both. */
  datatype Payload = Binary(rawBytes: seq<JavaByte>) | Text(rawData: string)

  /**
   * The scripting-side RawMessage: payload, destination metadata ids
   * (`None` means every destination) and source map (`None` is Java null).
   */
  datatype RawMessage = RawMessage(
    payload: Payload,
    destinationMetaDataIds: Option<seq<int>>,
    sourceMap: Option<SourceMap>)
  {
    predicate IsBinary() { payload.Binary? }
  }

  /** The engine-side RawMessage that dispatch accepts. */
  datatype EngineRawMessage = EngineRawMessage(
    payload: Payload,
    destinationMetaDataIds: Option<seq<int>>,
    sourceMap: Option<SourceMap>)

  datatype Status = RECEIVED | FILTERED | TRANSFORMED | SENT | QUEUED | ERROR | PENDING

  /**
   * A Response: status, the response data (`message`), a status message and an
   * error text; `None` for a field the constructor leaves unset or null.
   */
  datatype Response = Response(
    status: Status,
    message: Option<string>,
    statusMessage: Option<string>,
    error: Option<string>)

  /** Any Throwable: its class name and its (possibly null) message. */
  datatype Throwable = Throwable(className: string, message: Option<string>)

  /** One request to the engine: target channel id, message, and the two flags. */
  datatype Dispatch = Dispatch(
    channelId: string,
    rawMessage: EngineRawMessage,
    queue: bool,
    wait: bool)

  /**
   * What a dispatch call does: it throws, returns a result (whose selected
   * response may be null), or returns null.
   */
  datatype Outcome =
    | Threw(fault: Throwable)
    | Returned(selectedResponse: Option<Response>)
    | ReturnedNull
}
