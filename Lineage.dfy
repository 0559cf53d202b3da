/**
 * The provenance chain an enhanced router writes into the source map of every
 * message it builds: the ancestor hop history read from the environment, this
 * hop appended, and the four lineage keys written into a copy of the caller's map.
 */
module Lineage {
  import opened Values

  const SourceChannelIds := "sourceChannelIds"
  const SourceChannelId := "sourceChannelId"
  const SourceMessageIds := "sourceMessageIds"
  const SourceMessageId := "sourceMessageId"

  const LineageKeys: set<string> := {SourceChannelIds, SourceChannelId, SourceMessageIds, SourceMessageId}

  /** A collection or array value holds no null item (calling toString on one would throw). */
  predicate ItemsNonNull(v: Value) {
    (v.Coll? || v.Arr?) ==> forall i :: 0 <= i < |v.items| ==> v.items[i] != Null
  }

  /** The plural ancestor keys can be read without a NullPointerException. */
  predicate AncestorsReadable(m: SourceMap) {
    ItemsNonNull(Lookup(m, SourceChannelIds)) && ItemsNonNull(Lookup(m, SourceMessageIds))
  }

  /** The environment's source map, as far as the router reads it. */
  type EnvSourceMap = m: SourceMap | AncestorsReadable(m) witness map[]

  /** The toString() of every item, in order. */
  function ItemStrings(items: seq<Value>): seq<string> {
    seq(|items|, i requires 0 <= i < |items| => ValueToString(items[i]))
  }

  /**
   * The first non-null lookup as a list: a collection or array under `primary`
   * gives its items' texts; any other non-null value there gives the empty list;
   * only a null `primary` lets a non-null `secondary` become a one-element list.
   */
  function AncestorIds(env: SourceMap, primary: string, secondary: string): seq<string>
    requires ItemsNonNull(Lookup(env, primary))
  {
    var primaryValue := Lookup(env, primary);
    if primaryValue != Null then
      if primaryValue.Coll? || primaryValue.Arr? then ItemStrings(primaryValue.items) else []
    else
      var secondaryValue := Lookup(env, secondary);
      if secondaryValue != Null then [ValueToString(secondaryValue)] else []
  }

  function ChannelHistory(env: EnvSourceMap): seq<string> {
    AncestorIds(env, SourceChannelIds, SourceChannelId)
  }

  function MessageHistory(env: EnvSourceMap): seq<string> {
    AncestorIds(env, SourceMessageIds, SourceMessageId)
  }

  /** An `ArrayList<String>` holding `ids`. */
  function StringList(ids: seq<string>): Value {
    Coll(seq(|ids|, i requires 0 <= i < |ids| => Str(ids[i])))
  }

  /**
   * The source map of an enhanced router's message: a copy of the caller's map
   * with both histories extended by this hop and both singular keys naming this
   * hop alone (the message id as a Long, not as text).
   */
  function NextSourceMap(env: EnvSourceMap, caller: SourceMap, channelId: string, messageId: Int64): (m: EnvSourceMap)
    ensures m.Keys == caller.Keys + LineageKeys
    ensures m - LineageKeys == caller - LineageKeys
    ensures m[SourceChannelId] == Str(channelId) && m[SourceMessageId] == Long(messageId)
  {
    var channelIds := ChannelHistory(env) + [channelId];
    var messageIds := MessageHistory(env) + [LongToString(messageId)];
    caller[SourceChannelIds := StringList(channelIds)]
          [SourceChannelId := Str(channelId)]
          [SourceMessageIds := StringList(messageIds)]
          [SourceMessageId := Long(messageId)]
  }

  /** Reading back a written list of ids gives the same ids. */
  lemma StringListReadsBack(ids: seq<string>)
    ensures ItemsNonNull(StringList(ids))
    ensures ItemStrings(StringList(ids).items) == ids
  {
    var read := ItemStrings(StringList(ids).items);
    assert |read| == |ids|;
    forall i | 0 <= i < |ids| ensures read[i] == ids[i] {
      assert StringList(ids).items[i] == Str(ids[i]);
    }
  }

  /** Each hop extends both histories by exactly its own ids, read back from the new map. */
  lemma HopAppendsToHistory(env: EnvSourceMap, caller: SourceMap, channelId: string, messageId: Int64)
    ensures ChannelHistory(NextSourceMap(env, caller, channelId, messageId)) == ChannelHistory(env) + [channelId]
    ensures MessageHistory(NextSourceMap(env, caller, channelId, messageId)) == MessageHistory(env) + [LongToString(messageId)]
  {
    var m := NextSourceMap(env, caller, channelId, messageId);
    StringListReadsBack(ChannelHistory(env) + [channelId]);
    StringListReadsBack(MessageHistory(env) + [LongToString(messageId)]);
    assert Lookup(m, SourceChannelIds) == StringList(ChannelHistory(env) + [channelId]);
    assert Lookup(m, SourceMessageIds) == StringList(MessageHistory(env) + [LongToString(messageId)]);
  }

  /** A non-null primary value decides alone: the secondary key is never consulted. */
  lemma PrimaryShadowsSecondary(env: SourceMap, primary: string, secondary: string, other: Value)
    requires primary != secondary && ItemsNonNull(Lookup(env, primary))
    requires Lookup(env, primary) != Null
    ensures AncestorIds(env, primary, secondary) == AncestorIds(env[secondary := other], primary, secondary)
  {
    assert Lookup(env[secondary := other], primary) == Lookup(env, primary);
  }

  /** With no plural history, a singular ancestor is promoted ahead of this hop. */
  lemma SingularAncestorPromoted(env: EnvSourceMap, caller: SourceMap, channelId: string, messageId: Int64)
    requires Lookup(env, SourceChannelIds) == Null && Lookup(env, SourceChannelId) != Null
    ensures ChannelHistory(NextSourceMap(env, caller, channelId, messageId))
            == [ValueToString(Lookup(env, SourceChannelId)), channelId]
  {
    HopAppendsToHistory(env, caller, channelId, messageId);
  }

  /** A non-null value that is neither a collection nor an array. */
  predicate UnrecognisedShape(v: Value) {
    v.Str? || v.Long? || v.Obj?
  }

  /**
   * A plural ancestor value of an unrecognised shape is dropped, together with
   * any singular one: that history holds this hop only. The rule applies to the
   * channel and the message history alike.
   */
  lemma UnrecognisedAncestorDiscarded(env: EnvSourceMap, caller: SourceMap, channelId: string, messageId: Int64)
    ensures UnrecognisedShape(Lookup(env, SourceChannelIds)) ==>
              ChannelHistory(NextSourceMap(env, caller, channelId, messageId)) == [channelId]
    ensures UnrecognisedShape(Lookup(env, SourceMessageIds)) ==>
              MessageHistory(NextSourceMap(env, caller, channelId, messageId)) == [LongToString(messageId)]
  {
    HopAppendsToHistory(env, caller, channelId, messageId);
  }

  /** One routing call: the router's channel id and message id, and the caller's map. */
  datatype Hop = Hop(channelId: string, messageId: Int64, sourceMap: SourceMap)

  /** Successive hops, each reading the previous hop's map as its environment. */
  function Chain(env: EnvSourceMap, hops: seq<Hop>): EnvSourceMap
    decreases |hops|
  {
    if hops == [] then env
    else Chain(NextSourceMap(env, hops[0].sourceMap, hops[0].channelId, hops[0].messageId), hops[1..])
  }

  function ChannelIdsOf(hops: seq<Hop>): seq<string> {
    if hops == [] then [] else [hops[0].channelId] + ChannelIdsOf(hops[1..])
  }

  function MessageIdsOf(hops: seq<Hop>): seq<string> {
    if hops == [] then [] else [LongToString(hops[0].messageId)] + MessageIdsOf(hops[1..])
  }

  /** One step of a chain: the first hop's map is the rest's environment. */
  lemma ChainUnfolds(env: EnvSourceMap, hops: seq<Hop>)
    requires hops != []
    ensures Chain(env, hops) == Chain(NextSourceMap(env, hops[0].sourceMap, hops[0].channelId, hops[0].messageId), hops[1..])
  {
  }

  /**
   * After a chain of hops both histories hold the ancestors followed by every
   * hop's ids in call order.
   */
  lemma {:induction false} ChainRecordsHopsInOrder(env: EnvSourceMap, hops: seq<Hop>)
    ensures ChannelHistory(Chain(env, hops)) == ChannelHistory(env) + ChannelIdsOf(hops)
    ensures MessageHistory(Chain(env, hops)) == MessageHistory(env) + MessageIdsOf(hops)
    decreases |hops|
  {
    if hops != [] {
      var h, rest := hops[0], hops[1..];
      var next := NextSourceMap(env, h.sourceMap, h.channelId, h.messageId);
      ChainUnfolds(env, hops);
      HopAppendsToHistory(env, h.sourceMap, h.channelId, h.messageId);
      ChainRecordsHopsInOrder(next, rest);
      assert ChannelIdsOf(hops) == [h.channelId] + ChannelIdsOf(rest);
      assert MessageIdsOf(hops) == [LongToString(h.messageId)] + MessageIdsOf(rest);
      SeqAppendAssociates(ChannelHistory(env), [h.channelId], ChannelIdsOf(rest));
      SeqAppendAssociates(MessageHistory(env), [LongToString(h.messageId)], MessageIdsOf(rest));
    }
  }

  lemma SeqAppendAssociates(a: seq<string>, b: seq<string>, c: seq<string>)
    ensures (a + b) + c == a + (b + c)
  {
  }

  /** After a non-empty chain of hops the singular keys name the last hop alone. */
  lemma {:induction false} ChainEndsWithLastHop(env: EnvSourceMap, hops: seq<Hop>)
    requires hops != []
    ensures SourceChannelId in Chain(env, hops) && SourceMessageId in Chain(env, hops)
    ensures Chain(env, hops)[SourceChannelId] == Str(hops[|hops| - 1].channelId)
    ensures Chain(env, hops)[SourceMessageId] == Long(hops[|hops| - 1].messageId)
    decreases |hops|
  {
    var h := hops[0];
    var next := NextSourceMap(env, h.sourceMap, h.channelId, h.messageId);
    ChainUnfolds(env, hops);
    if |hops| == 1 {
      assert Chain(next, hops[1..]) == next;
    } else {
      ChainEndsWithLastHop(next, hops[1..]);
      assert hops[1..][|hops[1..]| - 1] == hops[|hops| - 1];
    }
  }

  /** Hop A ("A", 1) then hop B ("B", 2) from an empty environment. */
  lemma TwoHopChain()
    ensures ChannelHistory(Chain(map[], [Hop("A", 1, map[]), Hop("B", 2, map[])])) == ["A", "B"]
    ensures MessageHistory(Chain(map[], [Hop("A", 1, map[]), Hop("B", 2, map[])])) == ["1", "2"]
  {
    var hops := [Hop("A", 1, map[]), Hop("B", 2, map[])];
    ChainRecordsHopsInOrder(map[], hops);
    assert ChannelIdsOf(hops) == ["A", "B"] by {
      assert hops[1..][1..] == [];
    }
    assert MessageIdsOf(hops) == ["1", "2"] by {
      assert hops[1..][1..] == [];
      assert LongToString(1) == "1" && LongToString(2) == "2";
    }
  }
}
