/**
 * The dispatch facade: builds a RawMessage, resolves a channel name, calls the
 * engine non-queued and blocking, and turns every outcome of that call, a
 * thrown fault included, into a returned value. Building the message happens
 * before that boundary; its null-input faults are outside this model.
 */
module VMRouter {
  import opened Values
  import opened Messages

  /**
   * The two ErrorMessageBuilder calls, as functions of their arguments:
   * buildErrorResponse(message, e) and buildErrorMessage(source, message, e).
   */
  datatype ErrorMessageBuilder = ErrorMessageBuilder(
    buildErrorResponse: (string, Throwable) -> string,
    buildErrorMessage: (string, string, Throwable) -> string)

  /**
   * A router object: the deployed channels by name (what the channel controller
   * resolves), the engine's dispatch, the error text builder, and the simple
   * name of the object's runtime class.
   */
  datatype Router = Router(
    deployedChannelIds: map<string, string>,
    engine: Dispatch -> Outcome,
    errors: ErrorMessageBuilder,
    simpleName: string)

  const NotFoundPrefix := "Could not find channel to route to for channel name: "
  const DispatchErrorPrefix := "Error routing message to channel id: "

  /** A router of runtime class VMRouter over the given collaborators. */
  function NewVMRouter(
    deployedChannelIds: map<string, string>,
    engine: Dispatch -> Outcome,
    errors: ErrorMessageBuilder): (r: Router)
    ensures r.simpleName == "VMRouter"
    ensures r.deployedChannelIds == deployedChannelIds
    ensures r.engine == engine && r.errors == errors
  {
    Router(deployedChannelIds, engine, errors, "VMRouter")
  }

  /**
   * createRawMessage: a byte array becomes a binary message and anything else
   * its text; the source map and destination set pass through untouched.
   */
  function CreateRawMessage(
    message: Content,
    sourceMap: Option<SourceMap>,
    destinationSet: Option<seq<int>>): (r: RawMessage)
    ensures r.IsBinary() <==> message.ByteArray?
    ensures message.ByteArray? ==> r.payload.rawBytes == message.bytes
    ensures message.NonBinary? ==> r.payload.rawData == message.text
    ensures r.destinationMetaDataIds == destinationSet && r.sourceMap == sourceMap
  {
    match message
    case ByteArray(bytes) => RawMessage(Binary(bytes), destinationSet, sourceMap)
    case NonBinary(text) => RawMessage(Text(text), destinationSet, sourceMap)
  }

  /** convertRawMessage: the engine-side copy of a scripting-side RawMessage. */
  function ConvertRawMessage(message: RawMessage): (r: EngineRawMessage)
    ensures r.payload == message.payload
    ensures r.destinationMetaDataIds == message.destinationMetaDataIds
    ensures r.sourceMap == message.sourceMap
  {
    if message.IsBinary() then
      EngineRawMessage(Binary(message.payload.rawBytes), message.destinationMetaDataIds, message.sourceMap)
    else
      EngineRawMessage(Text(message.payload.rawData), message.destinationMetaDataIds, message.sourceMap)
  }

  /** The one request routeMessageByChannelId makes of the engine. */
  function DispatchRequest(channelId: string, message: RawMessage): (d: Dispatch)
    ensures !d.queue && d.wait
    ensures d.channelId == channelId && d.rawMessage == ConvertRawMessage(message)
  {
    Dispatch(channelId, ConvertRawMessage(message), false, true)
  }

  /**
   * routeMessageByChannelId with a RawMessage. A fault from the engine becomes an
   * ERROR response, a selected response is returned as it is, and a missing
   * dispatch result or selected response gives null (`None`), not an error.
   */
  function RouteMessageByChannelId(router: Router, channelId: string, message: RawMessage): (r: Option<Response>)
    ensures var outcome := router.engine(DispatchRequest(channelId, message));
      && (outcome.Threw? ==>
            && r.Some? && r.value.status == ERROR && r.value.message.None?
            && r.value.statusMessage == Some(router.errors.buildErrorResponse(DispatchErrorPrefix + channelId, outcome.fault))
            && r.value.error == Some(router.errors.buildErrorMessage(router.simpleName, DispatchErrorPrefix + channelId, outcome.fault)))
      && (outcome.Returned? && outcome.selectedResponse.Some? ==> r == outcome.selectedResponse)
      && (r.None? <==> outcome == ReturnedNull || outcome == Returned(None))
  {
    var errorText := DispatchErrorPrefix + channelId;
    match router.engine(DispatchRequest(channelId, message))
    case Threw(e) =>
      Some(Response(ERROR, None,
                    Some(router.errors.buildErrorResponse(errorText, e)),
                    Some(router.errors.buildErrorMessage(router.simpleName, errorText, e))))
    case Returned(selected) => selected
    case ReturnedNull => None
  }

  /**
   * routeMessage with a RawMessage: an unknown name gives an ERROR response
   * naming the channel, and otherwise the result of routing to its id.
   */
  function RouteMessage(router: Router, channelName: string, message: RawMessage): (r: Option<Response>)
    ensures channelName !in router.deployedChannelIds ==>
              r == Some(Response(ERROR, Some(NotFoundPrefix + channelName), None, None))
    ensures channelName in router.deployedChannelIds ==>
              r == RouteMessageByChannelId(router, router.deployedChannelIds[channelName], message)
  {
    if channelName !in router.deployedChannelIds then
      Some(Response(ERROR, Some(NotFoundPrefix + channelName), None, None))
    else
      RouteMessageByChannelId(router, router.deployedChannelIds[channelName], message)
  }

  /** routeMessage with a String: a text message for all destinations, with no source map. */
  function RouteText(router: Router, channelName: string, message: string): (r: Option<Response>)
    ensures r == RouteMessage(router, channelName, RawMessage(Text(message), None, None))
  {
    RouteMessage(router, channelName, CreateRawMessage(NonBinary(message), None, None))
  }

  /** routeMessageByChannelId with a String: as RouteText, by id. */
  function RouteTextByChannelId(router: Router, channelId: string, message: string): (r: Option<Response>)
    ensures r == RouteMessageByChannelId(router, channelId, RawMessage(Text(message), None, None))
  {
    RouteMessageByChannelId(router, channelId, CreateRawMessage(NonBinary(message), None, None))
  }

  /**
   * The result depends on the engine only through the non-queued, blocking
   * request: engines that agree on such requests give the same result.
   */
  lemma OnlyNonQueuedBlockingDispatchMatters(
    router: Router, other: Dispatch -> Outcome, channelName: string, message: RawMessage)
    requires forall d: Dispatch :: !d.queue && d.wait ==> router.engine(d) == other(d)
    ensures RouteMessage(router, channelName, message) == RouteMessage(router.(engine := other), channelName, message)
  {
    if channelName in router.deployedChannelIds {
      var d := DispatchRequest(router.deployedChannelIds[channelName], message);
      assert router.engine(d) == other(d);
    }
  }

  /**
   * An unknown name never reaches the engine: the result is the same whatever
   * the engine would do.
   */
  lemma UnknownNameNeverDispatches(
    router: Router, other: Dispatch -> Outcome, channelName: string, message: RawMessage)
    requires channelName !in router.deployedChannelIds
    ensures RouteMessage(router, channelName, message) == RouteMessage(router.(engine := other), channelName, message)
    ensures RouteMessage(router, channelName, message).value.status == ERROR
  {
  }
}
