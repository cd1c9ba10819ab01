/**
 * The event-server object the client holds: it hands out subscription
 * handles from a counter, shapes the wrapper's parallel arrays into
 * records, and takes everything down on Disconnect.
 */
module Server {
  import opened Win
  import opened Types
  import opened Memory
  import opened Remote
  import opened EventServerCom
  import opened Subscription

  datatype EventCategory = EventCategory(id: uint32, description: string)
  datatype EventAttribute = EventAttribute(id: uint32, description: string, attrType: uint16)
  datatype ItemID = ItemID(id: string, name: string, clsid: Guid)

  // ---------------------------------------------------------------------
  // Subscription handles

  /** The handles `n` successive CreateEventSubscription calls receive from a counter at `start`. */
  function Handles(start: uint32, n: nat): (r: seq<uint32>)
    ensures |r| == n
    ensures n > 0 ==> r[0] == WrapU32(start + 1)
    decreases n
  {
    if n == 0 then [] else [WrapU32(start + 1)] + Handles(WrapU32(start + 1), n - 1)
  }

  /** Away from the wrap-around, the handles count up by one from `start + 1`. */
  lemma {:induction false} HandlesCountUp(start: uint32, n: nat)
    requires start + n < 0x1_0000_0000
    ensures forall i :: 0 <= i < n ==> Handles(start, n)[i] == start + i + 1
    decreases n
  {
    if n > 0 {
      HandlesCountUp(start + 1, n - 1);
      assert Handles(start, n) == [start + 1] + Handles(start + 1, n - 1);
    }
  }

  /** A fresh server hands out 1, 2, 3, ...: fewer than 2^32 subscriptions all get different handles. */
  lemma HandlesDistinct(n: nat)
    requires n < 0x1_0000_0000
    ensures forall i :: 0 <= i < n ==> Handles(0, n)[i] == i + 1
    ensures forall i, j :: 0 <= i < j < n ==> Handles(0, n)[i] != Handles(0, n)[j]
  {
    HandlesCountUp(0, n);
  }

  // ---------------------------------------------------------------------
  // Parallel arrays into records

  /** Pairs id i with description i, for every id. */
  method ZipCategories(ids: seq<uint32>, descs: seq<string>) returns (result: seq<EventCategory>)
    requires |ids| <= |descs|
    ensures |result| == |ids|
    ensures forall i :: 0 <= i < |ids| ==> result[i].id == ids[i] && result[i].description == descs[i]
  {
    result := [];
    for i := 0 to |ids|
      invariant |result| == i
      invariant forall k :: 0 <= k < i ==> result[k].id == ids[k] && result[k].description == descs[k]
    {
      result := result + [EventCategory(ids[i], descs[i])];
    }
  }

  /** Makes record i of id i, description i and type i, for every id. */
  method ZipAttributes(ids: seq<uint32>, descs: seq<string>, types: seq<uint16>) returns (result: seq<EventAttribute>)
    requires |ids| <= |descs| && |ids| <= |types|
    ensures |result| == |ids|
    ensures forall i :: 0 <= i < |ids| ==>
              result[i].id == ids[i] && result[i].description == descs[i] && result[i].attrType == types[i]
  {
    result := [];
    for i := 0 to |ids|
      invariant |result| == i
      invariant forall k :: 0 <= k < i ==>
                  result[k].id == ids[k] && result[k].description == descs[k] && result[k].attrType == types[k]
    {
      result := result + [EventAttribute(ids[i], descs[i], types[i])];
    }
  }

  /** Makes record i of item id i, node name i and CLSID i, for every item id. */
  method ZipItemIDs(ids: seq<string>, names: seq<string>, clsids: seq<Guid>) returns (result: seq<ItemID>)
    requires |ids| <= |names| && |ids| <= |clsids|
    ensures |result| == |ids|
    ensures forall i :: 0 <= i < |ids| ==>
              result[i].id == ids[i] && result[i].name == names[i] && result[i].clsid == clsids[i]
  {
    result := [];
    for i := 0 to |ids|
      invariant |result| == i
      invariant forall k :: 0 <= k < i ==>
                  result[k].id == ids[k] && result[k].name == names[k] && result[k].clsid == clsids[k]
    {
      result := result + [ItemID(ids[i], names[i], clsids[i])];
    }
  }

  /** The calls that take down every subscription of the list, in list order. */
  function Teardowns(subs: seq<EventSubscription>): (r: seq<Call>)
    ensures |r| == 3 * |subs|
  {
    if subs == [] then [] else Teardowns(subs[..|subs| - 1]) + Teardown(subs[|subs| - 1])
  }

  // ---------------------------------------------------------------------
  // The server object

  class EventServer {
    const server: ComObj
    const log: CallLog
    var clientSubscriptionHandle: uint32
    var eventSubscriptions: seq<EventSubscription>

    /** Every subscription the server holds talks through the same call log. */
    predicate Valid()
      reads this
    {
      forall s :: s in eventSubscriptions ==> s.log == log
    }

    /** The state ConnectEventServer leaves: no handle given out, no subscription held. */
    constructor (server: ComObj, log: CallLog)
      ensures this.server == server && this.log == log
      ensures clientSubscriptionHandle == 0 && eventSubscriptions == []
      ensures Valid()
    {
      this.server := server;
      this.log := log;
      clientSubscriptionHandle := 0;
      eventSubscriptions := [];
    }

    /**
     * CreateEventSubscription: the counter moves on before the server is
     * asked and the new value is the subscription's handle, whether or not
     * the call succeeds. A failure of the server or of the subscription
     * set-up gives no subscription and zero revised values. The new
     * subscription is not kept in `eventSubscriptions`.
     */
    method CreateEventSubscription(active: bool, bufferTime: uint32, maxSize: uint32, receiverBufSize: uint32,
                                   reply: CreateReply, qi: Outcome<ComObj>, fcp: Outcome<ComObj>,
                                   advise: Outcome<uint32>)
      returns (sub: Option<EventSubscription>, revisedBufferTime: uint32, revisedMaxSize: uint32,
               err: Option<Error>)
      requires Valid()
      modifies this, log
      ensures Valid()
      ensures clientSubscriptionHandle == WrapU32(old(clientSubscriptionHandle) + 1)
      ensures eventSubscriptions == old(eventSubscriptions)
      ensures |log.calls| > |old(log.calls)|
      ensures log.calls[..|old(log.calls)| + 1] == old(log.calls) +
                [ToServer(server, CreateEventSubscriptionCall(active, bufferTime, maxSize, clientSubscriptionHandle,
                                                              IID_IOPCEventSubscriptionMgt))]
      ensures Failed(reply.hr) ==> err == Some(Errno(reply.hr)) && |log.calls| == |old(log.calls)| + 1
      ensures !Failed(reply.hr) ==> err == ConstructionError(qi, fcp, advise)
      ensures err.Some? ==> sub == None && revisedBufferTime == 0 && revisedMaxSize == 0
      ensures err.None? ==>
                && sub.Some? && fresh(sub.value)
                && sub.value.clientHandle == clientSubscriptionHandle && sub.value.mgt == reply.unknown
                && sub.value.log == log && sub.value.receiver.capacity == receiverBufSize
                && revisedBufferTime == reply.revisedBufferTime && revisedMaxSize == reply.revisedMaxSize
    {
      clientSubscriptionHandle := WrapU32(clientSubscriptionHandle + 1);
      var handle := clientSubscriptionHandle;
      var r := EventServerCom.CreateEventSubscription(active, bufferTime, maxSize, handle,
                                                      IID_IOPCEventSubscriptionMgt, reply);
      log.Record(ToServer(server, r.call));
      var base := log.calls;
      if r.err.Some? {
        return None, 0, 0, r.err;
      }
      sub, err := EventSubscription.New(log, r.unknown, handle, receiverBufSize, qi, fcp, advise);
      assert log.calls[..|base|] == base;
      if err.Some? {
        return None, 0, 0, err;
      }
      revisedBufferTime, revisedMaxSize := r.revisedBufferTime, r.revisedMaxSize;
    }

    /** QueryAvailableFilters: the filters whose bits the server set, in ascending order. */
    method QueryAvailableFilters(reply: FiltersReply) returns (filters: seq<Filter>, err: Option<Error>)
      modifies log
      ensures log.calls == old(log.calls) + [ToServer(server, QueryAvailableFiltersCall)]
      ensures Failed(reply.hr) ==> err == Some(Errno(reply.hr))
      ensures !Failed(reply.hr) ==> err == None
      ensures filters == if Failed(reply.hr) then [] else ParseFilter(reply.filterMask)
    {
      var r := EventServerCom.QueryAvailableFilters(reply);
      log.Record(ToServer(server, r.0));
      if r.2.Some? {
        return [], r.2;
      }
      filters, err := ParseFilter(r.1), None;
    }

    /** QueryEventCategories: the kinds go as their OR; the answer is one record per id. */
    method QueryEventCategories(categories: seq<EventCategoryType>, reply: CategoriesReply, mem: Mem)
      returns (result: seq<EventCategory>, err: Option<Error>)
      requires !Failed(reply.hr) ==> DwordArray(mem, reply.ids, reply.count) && StringArray(mem, reply.descs, reply.count)
      modifies log
      ensures log.calls == old(log.calls) +
                [ToServer(server, QueryEventCategoriesCall(MarshalEventCategoryType(categories)))]
      ensures Failed(reply.hr) ==> err == Some(Errno(reply.hr)) && result == []
      ensures !Failed(reply.hr) ==>
                && err == None && |result| == reply.count
                && forall i :: 0 <= i < reply.count ==>
                     result[i] == EventCategory(Dwords(mem, reply.ids, reply.count)[i],
                                                Strings(mem, reply.descs, reply.count)[i])
    {
      var call, ids, descs, frees;
      call, ids, descs, err, frees := EventServerCom.QueryEventCategories(MarshalEventCategoryType(categories),
                                                                          reply, mem);
      log.Record(ToServer(server, call));
      if err.Some? {
        return [], err;
      }
      result := ZipCategories(ids, descs);
    }

    /** QueryConditionNames: the kinds go as their OR; the names come back as decoded. */
    method QueryConditionNames(categories: seq<EventCategoryType>, reply: NamesReply, mem: Mem)
      returns (names: seq<string>, err: Option<Error>)
      requires !Failed(reply.hr) ==> StringArray(mem, reply.names, reply.count)
      modifies log
      ensures log.calls == old(log.calls) +
                [ToServer(server, QueryConditionNamesCall(MarshalEventCategoryType(categories)))]
      ensures Failed(reply.hr) ==> err == Some(Errno(reply.hr)) && names == []
      ensures !Failed(reply.hr) ==> err == None && names == Strings(mem, reply.names, reply.count)
    {
      var call, frees;
      call, names, err, frees := EventServerCom.QueryConditionNames(MarshalEventCategoryType(categories),
                                                                    reply, mem);
      log.Record(ToServer(server, call));
    }

    /** QueryEventAttributes: one record per id, pairing the three arrays by position. */
    method QueryEventAttributes(eventCategoryID: uint32, reply: AttributesReply, mem: Mem)
      returns (result: seq<EventAttribute>, err: Option<Error>)
      requires !Failed(reply.hr) ==>
                 && DwordArray(mem, reply.ids, reply.count)
                 && StringArray(mem, reply.descs, reply.count)
                 && WordArray(mem, reply.types, reply.count)
      modifies log
      ensures log.calls == old(log.calls) + [ToServer(server, QueryEventAttributesCall(eventCategoryID))]
      ensures Failed(reply.hr) ==> err == Some(Errno(reply.hr)) && result == []
      ensures !Failed(reply.hr) ==>
                && err == None && |result| == reply.count
                && forall i :: 0 <= i < reply.count ==>
                     result[i] == EventAttribute(Dwords(mem, reply.ids, reply.count)[i],
                                                 Strings(mem, reply.descs, reply.count)[i],
                                                 Words(mem, reply.types, reply.count)[i])
    {
      var call, ids, descs, types, frees;
      call, ids, descs, types, err, frees := EventServerCom.QueryEventAttributes(eventCategoryID, reply, mem);
      log.Record(ToServer(server, call));
      if err.Some? {
        return [], err;
      }
      result := ZipAttributes(ids, descs, types);
    }

    /**
     * TranslateToItemIDs: one record per requested attribute, pairing the
     * three arrays by position (through the corrected decoder).
     */
    method TranslateToItemIDs(source: string, eventCategoryID: uint32, conditionName: string,
                              subConditionName: string, assocAttrIDs: seq<uint32>, reply: ItemIDsReply, mem: Mem)
      returns (result: seq<ItemID>, err: Option<Error>)
      requires !Failed(reply.hr) ==>
                 && StringArray(mem, reply.itemIDs, WrapU32(|assocAttrIDs|))
                 && StringArray(mem, reply.nodeNames, WrapU32(|assocAttrIDs|))
                 && GuidArray(mem, reply.clsids, WrapU32(|assocAttrIDs|))
      modifies log
      ensures HasNul(source) || HasNul(conditionName) || HasNul(subConditionName) ==>
                log.calls == old(log.calls) && err == Some(InvalidString) && result == []
      ensures !(HasNul(source) || HasNul(conditionName) || HasNul(subConditionName)) ==>
                log.calls == old(log.calls) +
                  [ToServer(server, TranslateToItemIDsCall(source, eventCategoryID, conditionName, subConditionName,
                                                           |assocAttrIDs|, SlicePtr(assocAttrIDs)))]
      ensures !(HasNul(source) || HasNul(conditionName) || HasNul(subConditionName)) && Failed(reply.hr) ==>
                err == Some(Errno(reply.hr)) && result == []
      ensures !(HasNul(source) || HasNul(conditionName) || HasNul(subConditionName)) && !Failed(reply.hr) ==>
                && err == None && |result| == WrapU32(|assocAttrIDs|)
                && forall i :: 0 <= i < |result| ==>
                     result[i] == ItemID(Strings(mem, reply.itemIDs, WrapU32(|assocAttrIDs|))[i],
                                         Strings(mem, reply.nodeNames, WrapU32(|assocAttrIDs|))[i],
                                         Guids(mem, reply.clsids, WrapU32(|assocAttrIDs|))[i])
    {
      var call, ids, names, clsids, frees;
      call, ids, names, clsids, err, frees :=
        TranslateToItemIDsCorrected(source, eventCategoryID, conditionName, subConditionName, assocAttrIDs, reply, mem);
      if call.Some? {
        log.Record(ToServer(server, call.value));
      }
      if err.Some? {
        return [], err;
      }
      result := ZipItemIDs(ids, names, clsids);
    }

    /**
     * Disconnect: every held subscription is taken down, in order, whatever
     * each Unadvise answers, and then the server is released; the result
     * is always nil.
     */
    method Disconnect(unadvise: seq<Option<Error>>) returns (err: Option<Error>)
      requires Valid()
      requires |unadvise| == |eventSubscriptions|
      modifies log
      ensures log.calls == old(log.calls) + Teardowns(eventSubscriptions) + [ReleaseCall(server)]
      ensures err == None
    {
      for i := 0 to |eventSubscriptions|
        invariant log.calls == old(log.calls) + Teardowns(eventSubscriptions[..i])
      {
        var sub := eventSubscriptions[i];
        var ignored := sub.Release(unadvise[i]);
        assert eventSubscriptions[..i + 1][..i] == eventSubscriptions[..i];
      }
      assert eventSubscriptions[..|eventSubscriptions|] == eventSubscriptions;
      log.Record(ReleaseCall(server));
      err := None;
    }
  }
}
