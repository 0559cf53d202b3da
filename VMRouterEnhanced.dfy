/**
 * The lineage-aware router: every message it builds, through any of its routing
 * calls or the inherited String ones, carries the chain of source channel ids and
 * source message ids in its source map.
 */
module VMRouterEnhanced {
  import opened Values
  import opened Messages
  import opened Lineage
  import VMRouter

  class VMRouterEnhanced {
    /** The inherited collaborators, with this object's runtime class name. */
    const base: VMRouter.Router
    const channelId: string
    const messageId: Int64
    const envSourceMap: EnvSourceMap

    /** A null channel id becomes "NONE" and a null message id becomes -1. */
    constructor(
      deployedChannelIds: map<string, string>,
      engine: Dispatch -> Outcome,
      errors: VMRouter.ErrorMessageBuilder,
      channelId: Option<string>,
      messageId: Option<Int64>,
      sourceMap: EnvSourceMap)
      ensures this.channelId == (if channelId.Some? then channelId.value else "NONE")
      ensures this.messageId == (if messageId.Some? then messageId.value else -1)
      ensures envSourceMap == sourceMap
      ensures base == VMRouter.Router(deployedChannelIds, engine, errors, "VMRouterEnhanced")
    {
      base := VMRouter.Router(deployedChannelIds, engine, errors, "VMRouterEnhanced");
      this.channelId := if channelId != None then channelId.value else "NONE";
      this.messageId := if messageId != None then messageId.value else -1;
      envSourceMap := sourceMap;
    }

    /** lookupInEnvSourceMap: the environment's value for `key`, null when absent. */
    function LookupInEnvSourceMap(key: string): (v: Value)
      ensures key !in envSourceMap ==> v == Null
      ensures key in envSourceMap ==> v == envSourceMap[key]
    {
      Lookup(envSourceMap, key)
    }

    /** envLookupAsList: the first non-null of the two lookups, as a list of texts. */
    method EnvLookupAsList(primary: string, secondary: string) returns (result: seq<string>)
      requires primary == SourceChannelIds || primary == SourceMessageIds
      ensures result == AncestorIds(envSourceMap, primary, secondary)
    {
      result := [];
      var primaryValue := LookupInEnvSourceMap(primary);
      if primaryValue != Null {
        if primaryValue.Coll? || primaryValue.Arr? {
          var items := primaryValue.items;
          var i := 0;
          while i < |items|
            invariant 0 <= i <= |items|
            invariant |result| == i
            invariant forall j :: 0 <= j < i ==> result[j] == ValueToString(items[j])
          {
            result := result + [ValueToString(items[i])];
            i := i + 1;
          }
        }
      } else {
        var secondaryValue := LookupInEnvSourceMap(secondary);
        if secondaryValue != Null {
          result := result + [ValueToString(secondaryValue)];
        }
      }
    }

    /** The message the overriding createRawMessage builds. */
    function LineageMessage(message: Content, sourceMap: Option<SourceMap>, destinationSet: Option<seq<int>>): RawMessage {
      VMRouter.CreateRawMessage(
        message,
        Some(NextSourceMap(envSourceMap, sourceMap.GetOr(map[]), channelId, messageId)),
        destinationSet)
    }

    /**
     * createRawMessage: copy the caller's map (null as empty), extend both
     * histories with this hop, write the four lineage keys, and build the message.
     */
    method CreateRawMessage(message: Content, sourceMap: Option<SourceMap>, destinationSet: Option<seq<int>>)
      returns (raw: RawMessage)
      ensures raw == LineageMessage(message, sourceMap, destinationSet)
    {
      var callerMap := if sourceMap == None then map[] else sourceMap.value;
      var sourceChannelIds := EnvLookupAsList(SourceChannelIds, SourceChannelId);
      var sourceMessageIds := EnvLookupAsList(SourceMessageIds, SourceMessageId);
      var newSourceMap := callerMap;
      sourceChannelIds := sourceChannelIds + [channelId];
      sourceMessageIds := sourceMessageIds + [LongToString(messageId)];
      newSourceMap := newSourceMap[SourceChannelIds := StringList(sourceChannelIds)];
      newSourceMap := newSourceMap[SourceChannelId := Str(channelId)];
      newSourceMap := newSourceMap[SourceMessageIds := StringList(sourceMessageIds)];
      newSourceMap := newSourceMap[SourceMessageId := Long(messageId)];
      raw := VMRouter.CreateRawMessage(message, Some(newSourceMap), destinationSet);
    }

    /** The message's source map extends the environment's history by this hop. */
    lemma LineageMessageExtendsHistory(message: Content, sourceMap: Option<SourceMap>, destinationSet: Option<seq<int>>)
      ensures var m := LineageMessage(message, sourceMap, destinationSet);
        && m.sourceMap.Some? && AncestorsReadable(m.sourceMap.value)
        && ChannelHistory(m.sourceMap.value) == ChannelHistory(envSourceMap) + [channelId]
        && MessageHistory(m.sourceMap.value) == MessageHistory(envSourceMap) + [LongToString(messageId)]
    {
      HopAppendsToHistory(envSourceMap, sourceMap.GetOr(map[]), channelId, messageId);
    }

    /** routeMessage(channelName, message, sourceMap, destinationSet). */
    method RouteMessage(channelName: string, message: Content, sourceMap: Option<SourceMap>, destinationSet: Option<seq<int>>)
      returns (response: Option<Response>)
      ensures response == VMRouter.RouteMessage(base, channelName, LineageMessage(message, sourceMap, destinationSet))
    {
      var raw := CreateRawMessage(message, sourceMap, destinationSet);
      response := VMRouter.RouteMessage(base, channelName, raw);
    }

    /** routeMessage(channelName, message, sourceMap): all destinations. */
    method RouteMessageWithSourceMap(channelName: string, message: Content, sourceMap: Option<SourceMap>)
      returns (response: Option<Response>)
      ensures response == VMRouter.RouteMessage(base, channelName, LineageMessage(message, sourceMap, None))
    {
      response := RouteMessage(channelName, message, sourceMap, None);
    }

    /** routeMessageByChannelId(channelId, message, sourceMap, destinationSet). */
    method RouteMessageByChannelId(targetChannelId: string, message: Content, sourceMap: Option<SourceMap>, destinationSet: Option<seq<int>>)
      returns (response: Option<Response>)
      ensures response == VMRouter.RouteMessageByChannelId(base, targetChannelId, LineageMessage(message, sourceMap, destinationSet))
    {
      var raw := CreateRawMessage(message, sourceMap, destinationSet);
      response := VMRouter.RouteMessageByChannelId(base, targetChannelId, raw);
    }

    /** routeMessageByChannelId(channelId, message, sourceMap): all destinations. */
    method RouteMessageByChannelIdWithSourceMap(targetChannelId: string, message: Content, sourceMap: Option<SourceMap>)
      returns (response: Option<Response>)
      ensures response == VMRouter.RouteMessageByChannelId(base, targetChannelId, LineageMessage(message, sourceMap, None))
    {
      response := RouteMessageByChannelId(targetChannelId, message, sourceMap, None);
    }

    /** routeMessageByChannelId(channelId, message): empty caller map, all destinations. */
    method RouteContentByChannelId(targetChannelId: string, message: Content)
      returns (response: Option<Response>)
      ensures response == VMRouter.RouteMessageByChannelId(base, targetChannelId, LineageMessage(message, None, None))
    {
      response := RouteMessageByChannelId(targetChannelId, message, None, None);
    }

    /**
     * The inherited routeMessage(String, String): its virtual createRawMessage
     * call reaches the override, so the text message carries lineage too.
     */
    method RouteText(channelName: string, message: string) returns (response: Option<Response>)
      ensures response == VMRouter.RouteMessage(base, channelName, LineageMessage(NonBinary(message), None, None))
    {
      var raw := CreateRawMessage(NonBinary(message), None, None);
      response := VMRouter.RouteMessage(base, channelName, raw);
    }

    /** The inherited routeMessageByChannelId(String, String), reaching the override likewise. */
    method RouteTextByChannelId(targetChannelId: string, message: string) returns (response: Option<Response>)
      ensures response == VMRouter.RouteMessageByChannelId(base, targetChannelId, LineageMessage(NonBinary(message), None, None))
    {
      var raw := CreateRawMessage(NonBinary(message), None, None);
      response := VMRouter.RouteMessageByChannelId(base, targetChannelId, raw);
    }
  }
}
