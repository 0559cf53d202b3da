# VMRouter and VMRouterEnhanced in Dafny

A model of the message-dispatch utility that channel scripts use to send a message into
another channel. The model covers both classes.

- `VMRouter` builds a RawMessage from text or bytes. It resolves a deployed channel name to its
  id and calls the engine non-queued and blocking. Every outcome of the engine call becomes a
  returned value: the selected response, null, or an ERROR response in place of any thrown
  fault. Faults raised while building the message, before that call, are not caught (see
  "## Left out").
- `VMRouterEnhanced` overrides message construction. It chains provenance metadata
  (`sourceChannelIds`, `sourceChannelId`, `sourceMessageIds`, `sourceMessageId`) into a copy of
  the caller's source map, so a message carries the history of every hop that led to it.

Files:

- `Values.dfy` holds Java values held in a source map, their `toString()`, and `Long.toString`
  with a proof that it is injective.
- `Messages.dfy` holds the content, RawMessage (scripting side and engine side), Response,
  Status, Throwable, a dispatch request, and the three dispatch outcomes.
- `VMRouter.dfy` holds the base router. It is pure: functions over a `Router` record. The record
  holds the deployed-channel directory, the engine, the error-text builder and the runtime
  class's simple name.
- `Lineage.dfy` specifies the enhanced router's metadata. It states how the ancestor history
  is read, what the new source map is, and what a chain of hops produces.
- `VMRouterEnhanced.dfy` holds the enhanced router as a class. Its constructor sets its fields.
  `EnvLookupAsList` has a loop proved against `Lineage.AncestorIds`. `CreateRawMessage` builds
  the map by successive updates and is proved against `Lineage.NextSourceMap`. Each routing
  overload is tied to the base router applied to that message.

Collaborators the source reaches through singletons or static calls are parameters:

- the channel directory is a map from name to id;
- the engine's dispatch is a total function from a request to an outcome;
- `ErrorMessageBuilder.buildErrorResponse` and `buildErrorMessage` are function-valued fields.

Java `null` is `None` for the constructor's `channelId` and `messageId`, for a caller's
`sourceMap` and destination set, for a selected response, and for a `null` return of
`routeMessageByChannelId`. Other null tests have their own form. The `channel == null` test
(VMRouter.java:74) is the name being absent from the directory map. A null `dispatchResult`
(VMRouter.java:116) is the outcome `ReturnedNull`. A null value stored in a source map is `Value.Null`;
`Lookup` also gives `Value.Null` for a missing key, as `Map.get` does.

The code behaves as follows where a reader might expect otherwise:

- An unknown channel name's text goes to `new Response(Status.ERROR, message)`. That is the
  response's `message` field, not its status message.
- A dispatch result with no selected response returns `null`, not a result value.
- The singular `sourceMessageId` is written as the `Long`, not as its text.
- The ancestor list is rebuilt from each item's `toString()`, not reused as it is.

## Model

| member | source | states |
|---|---|---|
| `VMRouter.NewVMRouter` | server/src/com/mirth/connect/server/userutil/VMRouter.java:34-41 | a plain router keeps the directory, engine and error builder it is given, and its runtime class name is "VMRouter" |
| `VMRouter.CreateRawMessage` | server/src/com/mirth/connect/server/userutil/VMRouter.java:148-154 | the message is binary iff the content is a byte array; the bytes or the `toString()` text are kept; the source map and destination set pass through unchanged (`None` = all destinations) |
| `VMRouter.ConvertRawMessage` | server/src/com/mirth/connect/server/userutil/VMRouter.java:130-136 | the engine-side message keeps the binary/text kind, the payload, the destination ids and the source map |
| `VMRouter.DispatchRequest` | server/src/com/mirth/connect/server/userutil/VMRouter.java:113 | the engine is asked with queue=false and wait=true, for the given channel id and the converted message |
| `VMRouter.RouteMessageByChannelId` | server/src/com/mirth/connect/server/userutil/VMRouter.java:111-128 | a thrown fault becomes an ERROR response with no data, the status message built from "Error routing message to channel id: " + id, and the error text built from the runtime class's simple name; a selected response is returned as it is; the result is null exactly when the dispatch result or its selected response is null |
| `VMRouter.RouteMessage` | server/src/com/mirth/connect/server/userutil/VMRouter.java:71-81 | an unresolved name gives ERROR with the text "Could not find channel to route to for channel name: " + name, whatever the engine would do; a resolved name gives exactly what routing to its id gives |
| `VMRouter.RouteText` | server/src/com/mirth/connect/server/userutil/VMRouter.java:55-57 | on a plain router, routing text by name routes a text message with no destination set and no source map |
| `VMRouter.RouteTextByChannelId` | server/src/com/mirth/connect/server/userutil/VMRouter.java:95-97 | the same, by channel id |
| `VMRouter.OnlyNonQueuedBlockingDispatchMatters` | server/src/com/mirth/connect/server/userutil/VMRouter.java:113 | two engines that agree on every non-queued, blocking request give the same routing result |
| `VMRouter.UnknownNameNeverDispatches` | server/src/com/mirth/connect/server/userutil/VMRouter.java:72-78 | for an unknown name the result is ERROR and does not depend on the engine |
| `Values.NatToDigits` | server/src/com/mirth/connect/server/userutil/VMRouterEnhanced.java:42 | the decimal text of a number is non-empty, all digits, one character long exactly for numbers below ten, and starts with '0' only for zero (no leading zero) |
| `Values.LongToString` | server/src/com/mirth/connect/server/userutil/VMRouterEnhanced.java:42 | `Long.toString` starts with '-' exactly for negative numbers |
| `Values.LongToStringInjective` | server/src/com/mirth/connect/server/userutil/VMRouterEnhanced.java:42 | distinct message ids have distinct texts, so the message-id history tells hops apart |
| `Lineage.NextSourceMap` | server/src/com/mirth/connect/server/userutil/VMRouterEnhanced.java:30-47 | the new map has the caller's keys plus the four lineage keys; every other key keeps the caller's value; `sourceChannelId` is this channel id and `sourceMessageId` this message id as a Long |
| `Lineage.HopAppendsToHistory` | server/src/com/mirth/connect/server/userutil/VMRouterEnhanced.java:34-46 | read back from the new map, each history is the ancestor history followed by this hop's id: it grows by exactly one |
| `Lineage.PrimaryShadowsSecondary` | server/src/com/mirth/connect/server/userutil/VMRouterEnhanced.java:63-82 | once the plural key is non-null, the singular key's value makes no difference |
| `Lineage.SingularAncestorPromoted` | server/src/com/mirth/connect/server/userutil/VMRouterEnhanced.java:77-82 | with no plural history and a singular ancestor X, the channel history becomes [X, this channel] |
| `Lineage.UnrecognisedAncestorDiscarded` | server/src/com/mirth/connect/server/userutil/VMRouterEnhanced.java:65-76 | for the channel history and the message history alike, a plural value that is neither a collection nor an array is dropped and the singular one is not read: that history is this hop's id alone |
| `Lineage.ChainRecordsHopsInOrder` | server/src/com/mirth/connect/server/userutil/VMRouterEnhanced.java:34-47 | after successive hops, each reading the last hop's map, both histories are the ancestors followed by every hop's ids in call order |
| `Lineage.ChainEndsWithLastHop` | server/src/com/mirth/connect/server/userutil/VMRouterEnhanced.java:45-47 | after a chain of hops the singular keys name only the last hop: its channel id, and its message id as a Long |
| `Lineage.TwoHopChain` | server/src/com/mirth/connect/server/userutil/VMRouterEnhanced.java:41-46 | hop ("A", 1) then hop ("B", 2) give channel history ["A","B"] and message history ["1","2"] |
| `VMRouterEnhanced.VMRouterEnhanced.constructor` | server/src/com/mirth/connect/server/userutil/VMRouterEnhanced.java:17-21 | a null channel id is stored as "NONE", a null message id as -1, otherwise the given values; the environment map is kept |
| `VMRouterEnhanced.VMRouterEnhanced.LookupInEnvSourceMap` | server/src/com/mirth/connect/server/userutil/VMRouterEnhanced.java:92-94 | the environment's value for the key, null when absent |
| `VMRouterEnhanced.VMRouterEnhanced.EnvLookupAsList` | server/src/com/mirth/connect/server/userutil/VMRouterEnhanced.java:60-85 | the loop yields the ancestor list: the items' `toString()` in order for a collection or array under the plural key, [] for another non-null shape there, [singular.toString()] when the plural is null and the singular is not, [] when both are null |
| `VMRouterEnhanced.VMRouterEnhanced.CreateRawMessage` | server/src/com/mirth/connect/server/userutil/VMRouterEnhanced.java:29-50 | the successive map updates build the base message over the lineage map computed from the environment and a copy of the caller's map, a null map counting as empty |
| `VMRouterEnhanced.VMRouterEnhanced.LineageMessageExtendsHistory` | server/src/com/mirth/connect/server/userutil/VMRouterEnhanced.java:34-47 | the message's source map extends the environment's channel and message histories by this router's ids |
| `VMRouterEnhanced.VMRouterEnhanced.RouteMessage` | server/src/com/mirth/connect/server/userutil/VMRouterEnhanced.java:120-122 | equals the base routeMessage by name applied to the lineage message |
| `VMRouterEnhanced.VMRouterEnhanced.RouteMessageWithSourceMap` | server/src/com/mirth/connect/server/userutil/VMRouterEnhanced.java:101-103 | the same with a null destination set |
| `VMRouterEnhanced.VMRouterEnhanced.RouteMessageByChannelId` | server/src/com/mirth/connect/server/userutil/VMRouterEnhanced.java:155-157 | equals the base routeMessageByChannelId applied to the lineage message |
| `VMRouterEnhanced.VMRouterEnhanced.RouteMessageByChannelIdWithSourceMap` | server/src/com/mirth/connect/server/userutil/VMRouterEnhanced.java:136-138 | the same with a null destination set |
| `VMRouterEnhanced.VMRouterEnhanced.RouteContentByChannelId` | server/src/com/mirth/connect/server/userutil/VMRouterEnhanced.java:128-130 | the same with a null source map and a null destination set |
| `VMRouterEnhanced.VMRouterEnhanced.RouteText` | server/src/com/mirth/connect/server/userutil/VMRouter.java:55-57 | on an enhanced router the inherited String overload reaches the overriding createRawMessage, so its message carries lineage |
| `VMRouterEnhanced.VMRouterEnhanced.RouteTextByChannelId` | server/src/com/mirth/connect/server/userutil/VMRouter.java:95-97 | the same, by channel id |

## Left out

- Logging through log4j is a side effect only.
- Concurrency and the blocking of the engine call are not modelled. The engine is a function
  from a request to an outcome.
- The `ControllerFactory` singletons, `ChannelController`, `EngineController` and
  `DispatchResult` are external code. They are a name-to-id map and an outcome
  (`Threw`, `Returned` with an optional selected response, or `ReturnedNull`).
- The text that `ErrorMessageBuilder` produces is not modelled. Its two calls are functions of
  their arguments. That the error text mentions the class name rests on that builder. The model
  shows only that the runtime class's simple name is the argument passed.
- VMRouter.java:113 passes the two flags to `dispatchRawMessage` unnamed. The model calls them
  `queue` (false) and `wait` (true).
- The internals of `Response`, `RawMessage` and `SourceMap` are not modelled; they are records.
  The defaults that `Response(Status, String)` gives the status message and error are not
  known, so the model leaves both unset (`None`).
- The conversion of the `Collection<Number>` destination set inside `RawMessage` is not
  modelled. Destination ids are a `seq<int>` passed through unchanged.
- `NullPointerException` paths are excluded, not modelled:
  - null content has no `Content` value;
  - a null item inside an ancestor collection is ruled out by the `EnvSourceMap` subset type;
  - a null environment map cannot be represented.

  These are among the inputs on which the no-fault-escapes property fails in the program.
  `createRawMessage` runs before any `try` (VMRouter.java:56 and :96, VMRouterEnhanced.java:121
  and :156). So null content (VMRouter.java:152), a null item under a plural ancestor key
  (VMRouterEnhanced.java:68, :72) and a null environment map (VMRouterEnhanced.java:93) each
  raise a `NullPointerException` that reaches the calling script uncaught. The boundary
  proved here covers faults raised by the engine call only.
- The directory lookup (VMRouter.java:72) runs outside any `try`. The logging and
  `ErrorMessageBuilder` calls (VMRouter.java:123-125) run in the catch handler. A fault from any
  of them reaches the caller. The model takes the directory and the builder as total.
- A null `RawMessage` passed to `routeMessageByChannelId` is the opposite case. It fails
  inside the `try` (in `convertRawMessage`, VMRouter.java:113), is caught at VMRouter.java:121
  and gives an ERROR response. The model has no null `RawMessage`, so it does not represent
  this case. A null channel name or null channel id cannot be represented either. A null name
  goes to the directory lookup (VMRouter.java:72), whose behaviour on it is not known, and is
  otherwise only concatenated into text (VMRouter.java:75). A null id is used inside the `try`,
  and in the handler it is only joined into a string (VMRouter.java:111-125), so a fault it
  causes is caught.
- The caller's map is a Dafny value, so it cannot be mutated. Aliasing of the Java `HashMap`
  is not modelled. The copy's content is stated by `Lineage.NextSourceMap`.
- `Coll` is any `java.util.Collection`, and `ValueToString` prints it in
  `AbstractCollection`'s format. A collection class that overrides `toString` prints
  differently, so that text is wrong where the collection itself is printed: under a singular
  ancestor key (VMRouterEnhanced.java:80) or nested inside an ancestor list
  (VMRouterEnhanced.java:68, :72). Under a plural key only its items are printed, so `Coll` is
  exact there.
- `Object[].toString()` prints an identity hash. The model carries that text as an opaque field
  of `Arr`. A collection that contains itself has no value in the model.
- On an enhanced router, the inherited `RawMessage` overloads of `routeMessage` and
  `routeMessageByChannelId` add no lineage. They are `VMRouter.RouteMessage` and
  `VMRouter.RouteMessageByChannelId` applied to the object's `base`, not separate members.
