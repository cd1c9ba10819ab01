/**
 * An event subscription as the client holds it: the connection point its
 * sink is advised on, the Advise cookie, and the subscription-management
 * interface every setting goes through.
 */
module Subscription {
  import opened Win
  import opened Types
  import opened Memory
  import opened Sink
  import opened Remote
  import Mgt = SubscriptionMgtCom
  import EventServerCom

  /** `com.BoolToComBOOL`. */
  function ComBool(b: bool): (r: int32)
    ensures r != 0 <==> b
    ensures r == 0 || r == 1
  {
    if b then 1 else 0
  }

  /** The error construction stops at: the first of the three calls that fails. */
  function ConstructionError(qi: Outcome<ComObj>, fcp: Outcome<ComObj>, advise: Outcome<uint32>): (r: Option<Error>)
    ensures r.None? <==> qi.err.None? && fcp.err.None? && advise.err.None?
    ensures r.Some? ==> r == qi.err || r == fcp.err || r == advise.err
  {
    if qi.err.Some? then qi.err else if fcp.err.Some? then fcp.err else advise.err
  }

  /** The calls that take a subscription down: Unadvise, then the point, then the container. */
  function Teardown(sub: EventSubscription): (r: seq<Call>)
    ensures |r| == 3 && r[0].UnadviseCall? && r[1].ReleaseCall? && r[2].ReleaseCall?
  {
    [UnadviseCall(sub.point, sub.cookie), ReleaseCall(sub.point), ReleaseCall(sub.container)]
  }

  class EventSubscription {
    const cookie: uint32
    const receiver: Receiver
    const container: ComObj
    const point: ComObj
    const event: EventSink
    const mgt: ComObj
    const clientHandle: uint32
    const log: CallLog

    constructor (cookie: uint32, receiver: Receiver, container: ComObj, point: ComObj, event: EventSink,
                 mgt: ComObj, clientHandle: uint32, log: CallLog)
      ensures this.cookie == cookie && this.receiver == receiver && this.container == container
      ensures this.point == point && this.event == event && this.mgt == mgt
      ensures this.clientHandle == clientHandle && this.log == log
    {
      this.cookie := cookie;
      this.receiver := receiver;
      this.container := container;
      this.point := point;
      this.event := event;
      this.mgt := mgt;
      this.clientHandle := clientHandle;
      this.log := log;
    }

    /**
     * NewOPCEventSubscription: ask the subscription for its connection-point
     * container, find the point for the sink interface, make a sink and
     * advise it. A failing step ends construction; what was obtained before
     * it is released, newest first.
     */
    static method New(log: CallLog, unknown: ComObj, clientHandle: uint32, receiverBufSize: uint32,
                      qi: Outcome<ComObj>, fcp: Outcome<ComObj>, advise: Outcome<uint32>)
      returns (sub: Option<EventSubscription>, err: Option<Error>)
      modifies log
      ensures err == ConstructionError(qi, fcp, advise)
      ensures sub.None? <==> err.Some?
      ensures qi.err.Some? ==>
                log.calls == old(log.calls) + [QueryInterfaceCall(unknown, IID_IConnectionPointContainer)]
      ensures qi.err.None? && fcp.err.Some? ==>
                log.calls == old(log.calls) + [QueryInterfaceCall(unknown, IID_IConnectionPointContainer),
                                               FindConnectionPointCall(qi.value, IID_IOPCEventSink),
                                               ReleaseCall(qi.value)]
      ensures qi.err.None? && fcp.err.None? && advise.err.Some? ==>
                exists s: EventSink {:trigger AdviseCall(fcp.value, s)} ::
                  log.calls == old(log.calls) + [QueryInterfaceCall(unknown, IID_IConnectionPointContainer),
                                                 FindConnectionPointCall(qi.value, IID_IOPCEventSink),
                                                 AdviseCall(fcp.value, s),
                                                 ReleaseCall(fcp.value), ReleaseCall(qi.value)]
      ensures sub.Some? ==>
                && var s := sub.value;
                && fresh(s) && fresh(s.event) && fresh(s.receiver)
                && s.cookie == advise.value && s.clientHandle == clientHandle && s.mgt == unknown
                && s.container == qi.value && s.point == fcp.value && s.log == log
                && s.event.receiver == s.receiver && s.event.ref == 0 && s.event.clsid == IID_IOPCEventSink
                && s.receiver.capacity == receiverBufSize && s.receiver.batches == []
                && log.calls == old(log.calls) + [QueryInterfaceCall(unknown, IID_IConnectionPointContainer),
                                                  FindConnectionPointCall(qi.value, IID_IOPCEventSink),
                                                  AdviseCall(fcp.value, s.event)]
    {
      log.Record(QueryInterfaceCall(unknown, IID_IConnectionPointContainer));
      if qi.err.Some? {
        return None, qi.err;
      }
      var container := qi.value;
      log.Record(FindConnectionPointCall(container, IID_IOPCEventSink));
      if fcp.err.Some? {
        log.Record(ReleaseCall(container));
        return None, fcp.err;
      }
      var point := fcp.value;
      var receiver := new Receiver(receiverBufSize);
      var event := new EventSink(receiver);
      log.Record(AdviseCall(point, event));
      if advise.err.Some? {
        log.Record(ReleaseCall(point));
        log.Record(ReleaseCall(container));
        return None, advise.err;
      }
      var s := new EventSubscription(advise.value, receiver, container, point, event, unknown, clientHandle, log);
      return Some(s), None;
    }

    /** SetActive: only the active flag is sent, with this subscription's client handle. */
    method SetActive(active: bool, reply: Mgt.RevisedReply) returns (err: Option<Error>)
      modifies log
      ensures log.calls == old(log.calls) + [ToSubscription(mgt, Mgt.SetStateCall(Some(ComBool(active)), None, None, clientHandle))]
      ensures err == Mgt.ErrorOf(reply.hr)
    {
      var r := Mgt.SetState(Some(ComBool(active)), None, None, clientHandle, reply);
      log.Record(ToSubscription(mgt, r.0));
      err := r.3;
    }

    /** SetBufferTime: only the buffer time is sent; the server's revised buffer time comes back. */
    method SetBufferTime(bufferTime: uint32, reply: Mgt.RevisedReply) returns (revised: uint32, err: Option<Error>)
      modifies log
      ensures log.calls == old(log.calls) + [ToSubscription(mgt, Mgt.SetStateCall(None, Some(bufferTime), None, clientHandle))]
      ensures revised == reply.revisedBufferTime && err == Mgt.ErrorOf(reply.hr)
    {
      var r := Mgt.SetState(None, Some(bufferTime), None, clientHandle, reply);
      log.Record(ToSubscription(mgt, r.0));
      revised, err := r.1, r.3;
    }

    /** SetMaxSize: only the maximum size is sent; the server's revised maximum size comes back. */
    method SetMaxSize(maxSize: uint32, reply: Mgt.RevisedReply) returns (revised: uint32, err: Option<Error>)
      modifies log
      ensures log.calls == old(log.calls) + [ToSubscription(mgt, Mgt.SetStateCall(None, None, Some(maxSize), clientHandle))]
      ensures revised == reply.revisedMaxSize && err == Mgt.ErrorOf(reply.hr)
    {
      var r := Mgt.SetState(None, None, Some(maxSize), clientHandle, reply);
      log.Record(ToSubscription(mgt, r.0));
      revised, err := r.2, r.3;
    }

    /** SetFilter: the event kinds go as their OR; everything else is passed through. */
    method SetFilter(events: seq<EventCategoryType>, eventCategories: seq<uint32>, lowSeverity: uint32,
                     highSeverity: uint32, areaList: seq<string>, sourceList: seq<string>, hr: uint32)
      returns (err: Option<Error>)
      requires Mgt.Convertible(areaList) && Mgt.Convertible(sourceList) ==> |eventCategories| > 0
      modifies log
      ensures !(Mgt.Convertible(areaList) && Mgt.Convertible(sourceList)) ==>
                log.calls == old(log.calls) && err == Some(InvalidString)
      ensures Mgt.Convertible(areaList) && Mgt.Convertible(sourceList) ==>
                && log.calls == old(log.calls) +
                     [ToSubscription(mgt, Mgt.SetFilterCall(MarshalEventCategoryType(events), |eventCategories|,
                                                            eventCategories, lowSeverity, highSeverity,
                                                            |areaList|, EventServerCom.SlicePtr(areaList),
                                                            |sourceList|, EventServerCom.SlicePtr(sourceList)))]
                && err == Mgt.ErrorOf(hr)
    {
      var call;
      call, err := Mgt.SetFilter(MarshalEventCategoryType(events), eventCategories, lowSeverity, highSeverity,
                                 areaList, sourceList, hr);
      if call.Some? {
        log.Record(ToSubscription(mgt, call.value));
      }
    }

    /**
     * GetFilter: the server's event-type mask comes back as its list of
     * event kinds, on failure too; the other settings are the decoded ones.
     */
    method GetFilter(reply: Mgt.GetFilterReply, mem: Mem)
      returns (events: seq<EventCategoryType>, eventCategories: seq<uint32>, lowSeverity: uint32,
               highSeverity: uint32, areaList: seq<string>, sourceList: seq<string>, err: Option<Error>)
      requires !Mgt.Failed(reply.hr) ==> Mgt.ReadableFilter(mem, reply)
      modifies log
      ensures log.calls == old(log.calls) + [ToSubscription(mgt, Mgt.GetFilterCall)]
      ensures events == UnmarshalEventCategoryType(reply.eventType)
      ensures lowSeverity == reply.lowSeverity && highSeverity == reply.highSeverity
      ensures err == Mgt.ErrorOf(reply.hr)
      ensures Mgt.Failed(reply.hr) ==> eventCategories == [] && areaList == [] && sourceList == []
      ensures !Mgt.Failed(reply.hr) ==>
                && eventCategories == Dwords(mem, reply.categories, reply.numCategories)
                && areaList == Strings(mem, reply.areas, reply.numAreas)
                && sourceList == Strings(mem, reply.sources, reply.numSources)
    {
      var call, settings, frees;
      call, settings, err, frees := Mgt.GetFilter(reply, mem);
      log.Record(ToSubscription(mgt, call));
      events := UnmarshalEventCategoryType(settings.eventType);
      eventCategories, lowSeverity, highSeverity := settings.eventCategories, settings.lowSeverity, settings.highSeverity;
      areaList, sourceList := settings.areaList, settings.sourceList;
    }

    /** SelectReturnedAttributes, forwarded. */
    method SelectReturnedAttributes(eventCategory: uint32, attributeIDs: seq<uint32>, hr: uint32)
      returns (err: Option<Error>)
      modifies log
      ensures log.calls == old(log.calls) +
                [ToSubscription(mgt, Mgt.SelectReturnedAttributesCall(eventCategory, |attributeIDs|,
                                                                      EventServerCom.SlicePtr(attributeIDs)))]
      ensures err == Mgt.ErrorOf(hr)
    {
      var r := Mgt.SelectReturnedAttributes(eventCategory, attributeIDs, hr);
      log.Record(ToSubscription(mgt, r.0));
      err := r.1;
    }

    /** GetReturnedAttributes, forwarded. */
    method GetReturnedAttributes(eventCategory: uint32, reply: Mgt.CountedReply, mem: Mem)
      returns (attributeIDs: seq<uint32>, err: Option<Error>)
      requires !Mgt.Failed(reply.hr) ==> DwordArray(mem, reply.ids, reply.count)
      modifies log
      ensures log.calls == old(log.calls) + [ToSubscription(mgt, Mgt.GetReturnedAttributesCall(eventCategory))]
      ensures err == Mgt.ErrorOf(reply.hr)
      ensures attributeIDs == if Mgt.Failed(reply.hr) then [] else Dwords(mem, reply.ids, reply.count)
    {
      var call, frees;
      call, attributeIDs, err, frees := Mgt.GetReturnedAttributes(eventCategory, reply, mem);
      log.Record(ToSubscription(mgt, call));
    }

    /** Refresh: the connection is named by the Advise cookie, not by the client handle. */
    method Refresh(hr: uint32) returns (err: Option<Error>)
      modifies log
      ensures log.calls == old(log.calls) + [ToSubscription(mgt, Mgt.RefreshCall(cookie))]
      ensures err == Mgt.ErrorOf(hr)
    {
      var r := Mgt.Refresh(cookie, hr);
      log.Record(ToSubscription(mgt, r.0));
      err := r.1;
    }

    /** CancelRefresh: the connection is named by the Advise cookie, not by the client handle. */
    method CancelRefresh(hr: uint32) returns (err: Option<Error>)
      modifies log
      ensures log.calls == old(log.calls) + [ToSubscription(mgt, Mgt.CancelRefreshCall(cookie))]
      ensures err == Mgt.ErrorOf(hr)
    {
      var r := Mgt.CancelRefresh(cookie, hr);
      log.Record(ToSubscription(mgt, r.0));
      err := r.1;
    }

    /**
     * Release: Unadvise with the cookie, then release the point and the
     * container, whatever Unadvise answered; its error is the result. The
     * subscription-management interface is not released.
     */
    method Release(unadvise: Option<Error>) returns (err: Option<Error>)
      modifies log
      ensures log.calls == old(log.calls) + Teardown(this)
      ensures err == unadvise
    {
      log.Record(UnadviseCall(point, cookie));
      log.Record(ReleaseCall(point));
      log.Record(ReleaseCall(container));
      err := unadvise;
    }
  }
}
