/**
 * The client's event sink: the COM object the server calls back with
 * batches of events. It keeps a reference count, answers QueryInterface
 * for its own interface and IUnknown, and turns each OnEvent call into one
 * decoded batch pushed on the receiver channel.
 */
module Sink {
  import opened Win
  import opened Types
  import opened Memory

  /** One ONEVENTSTRUCT as the server lays it out; strings and the attribute array are pointers. */
  datatype RawEvent = RawEvent(
    changeMask: Mask16, newState: Mask16, source: Ptr, time: Filetime, message: Ptr,
    eventType: uint32, eventCategory: uint32, severity: uint32,
    conditionName: Ptr, subconditionName: Ptr, quality: uint16, reserved: uint16,
    ackRequired: int32, activeTime: Filetime, cookie: uint32,
    numEventAttrs: uint32, eventAttributes: Ptr, actorID: Ptr)

  /** A decoded event; times are Unix nanoseconds. */
  datatype Event = Event(
    changeMask: seq<ChangeMask>, newState: Mask16, source: string, time: int64, message: string,
    eventType: uint32, category: uint32, severity: uint32,
    condition: string, subcondition: string, quality: uint16, reserved: uint16,
    ackRequired: bool, activeTime: int64, cookie: uint32,
    numAttrs: uint32, attributes: seq<Variant>, actorID: string)

  /** What one OnEvent call hands to the receiver. */
  datatype EventBatch = EventBatch(clientHandle: uint32, refresh: bool, lastRefresh: bool, events: seq<Event>)

  /** Every pointer of the event can be read: five strings and `numEventAttrs` VARIANTs. */
  predicate ReadableEvent(mem: Mem, e: RawEvent) {
    && IsString(mem, e.source) && IsString(mem, e.message)
    && IsString(mem, e.conditionName) && IsString(mem, e.subconditionName) && IsString(mem, e.actorID)
    && VariantArray(mem, e.eventAttributes, e.numEventAttrs)
  }

  /**
   * The decoding of one ONEVENTSTRUCT: the change mask becomes the list of
   * its flags, BOOL becomes true exactly when non-zero, FILETIMEs become
   * Unix nanoseconds, and exactly `numEventAttrs` attributes are read.
   */
  function DecodeEvent(mem: Mem, e: RawEvent): (r: Event)
    requires ReadableEvent(mem, e)
    ensures forall m :: m in r.changeMask <==> m in ChangeMaskList && Meets(e.changeMask, m)
    ensures r.ackRequired <==> e.ackRequired != 0
    ensures r.time == UnixNanos(e.time) && r.activeTime == UnixNanos(e.activeTime)
    ensures |r.attributes| == r.numAttrs == e.numEventAttrs
  {
    Event(ParseChangeMask(e.changeMask), e.newState, ReadString(mem, e.source), UnixNanos(e.time),
          ReadString(mem, e.message), e.eventType, e.eventCategory, e.severity,
          ReadString(mem, e.conditionName), ReadString(mem, e.subconditionName), e.quality, e.reserved,
          e.ackRequired != 0, UnixNanos(e.activeTime), e.cookie,
          e.numEventAttrs, Variants(mem, e.eventAttributes, e.numEventAttrs), ReadString(mem, e.actorID))
  }

  /** The batch for one OnEvent call: the first `count` records, decoded in order. */
  function DecodeBatch(clientHandle: uint32, refresh: int32, lastRefresh: int32, count: uint32,
                       events: seq<RawEvent>, mem: Mem): (b: EventBatch)
    requires count <= |events|
    requires forall i :: 0 <= i < count ==> ReadableEvent(mem, events[i])
    ensures b.clientHandle == clientHandle
    ensures (b.refresh <==> refresh != 0) && (b.lastRefresh <==> lastRefresh != 0)
    ensures |b.events| == count
    ensures forall i :: 0 <= i < count ==> b.events[i] == DecodeEvent(mem, events[i])
  {
    EventBatch(clientHandle, refresh != 0, lastRefresh != 0,
               seq(count, i requires 0 <= i < count => DecodeEvent(mem, events[i])))
  }

  // ---------------------------------------------------------------------
  // The server side of an event, for the round trip

  /** Where a server stores the strings and attributes of one event. */
  datatype EventLayout = EventLayout(source: Ptr, message: Ptr, conditionName: Ptr, subconditionName: Ptr,
                                     actorID: Ptr, attributes: Ptr)

  /** An event a server can send: flags in order, times on a tick, and the count matching the attributes. */
  predicate Canonical(ev: Event) {
    && IsSubsequence(ev.changeMask, ChangeMaskList)
    && ev.time % 100 == 0 && ev.activeTime % 100 == 0
    && ev.numAttrs as int == |ev.attributes|
  }

  /** `mem` holds the strings and attributes of `ev` where `at` says. */
  predicate Holds(mem: Mem, at: EventLayout, ev: Event) {
    && at.source in mem && mem[at.source] == StringBlock(ev.source) && at.source != Nil
    && at.message in mem && mem[at.message] == StringBlock(ev.message) && at.message != Nil
    && at.conditionName in mem && mem[at.conditionName] == StringBlock(ev.condition) && at.conditionName != Nil
    && at.subconditionName in mem && mem[at.subconditionName] == StringBlock(ev.subcondition)
    && at.subconditionName != Nil
    && at.actorID in mem && mem[at.actorID] == StringBlock(ev.actorID) && at.actorID != Nil
    && at.attributes in mem && mem[at.attributes] == VariantBlock(ev.attributes)
  }

  /** The ONEVENTSTRUCT a server fills in for `ev`. */
  function EncodeEvent(ev: Event, at: EventLayout): RawEvent
    requires Canonical(ev)
  {
    RawEvent(MarshalChangeMask(ev.changeMask), ev.newState, at.source, FiletimeOf(ev.time), at.message,
             ev.eventType, ev.category, ev.severity, at.conditionName, at.subconditionName,
             ev.quality, ev.reserved, if ev.ackRequired then 1 else 0, FiletimeOf(ev.activeTime), ev.cookie,
             ev.numAttrs, at.attributes, at.actorID)
  }

  /** Every event a server can send is received unchanged. */
  lemma DecodeEncodeEvent(mem: Mem, at: EventLayout, ev: Event)
    requires Canonical(ev) && Holds(mem, at, ev)
    ensures ReadableEvent(mem, EncodeEvent(ev, at))
    ensures DecodeEvent(mem, EncodeEvent(ev, at)) == ev
  {
    var e := EncodeEvent(ev, at);
    ParseMarshalChangeMask(ev.changeMask);
    UnixNanosRoundTrip(ev.time);
    UnixNanosRoundTrip(ev.activeTime);
    assert Variants(mem, e.eventAttributes, e.numEventAttrs) == ev.attributes;
  }

  // ---------------------------------------------------------------------
  // The receiver channel and the sink object

  /**
   * The channel the sink sends batches on, made with a fixed buffer size,
   * as the ordered list of batches waiting in it.
   */
  class Receiver {
    const capacity: nat
    var batches: seq<EventBatch>

    constructor (capacity: nat)
      ensures this.capacity == capacity && batches == []
    {
      this.capacity := capacity;
      batches := [];
    }

    /** `receiver <- b` when the buffer has room: the batch is queued after every earlier one. */
    method Send(b: EventBatch)
      requires |batches| < capacity
      modifies this
      ensures batches == old(batches) + [b]
    {
      batches := batches + [b];
    }

    /** `<-receiver`: the oldest batch leaves first. */
    method Receive() returns (b: EventBatch)
      requires batches != []
      modifies this
      ensures b == old(batches)[0] && batches == old(batches)[1..]
    {
      b := batches[0];
      batches := batches[1..];
    }
  }

  /** `uintptr(x)` of an int32: sign extension to 64 bits. */
  function Uintptr(x: int32): (r: uint64)
    ensures r % 0x1_0000_0000 == x % 0x1_0000_0000
    ensures x >= 0 ==> r == x
  {
    if x < 0 then x + 0x1_0000_0000_0000_0000 else x
  }

  /** AddRef followed by Release gives the count back, across the wrap-around too. */
  lemma AddRefRelease(ref: int32)
    ensures Wrap32(Wrap32(ref + 1) - 1) == ref
    ensures Wrap32(Wrap32(ref - 1) + 1) == ref
  {
    if ref == 0x7FFF_FFFF {
      assert Wrap32(ref + 1) == -0x8000_0000;
    } else {
      assert Wrap32(ref + 1) == ref + 1;
    }
    if ref == -0x8000_0000 {
      assert Wrap32(ref - 1) == 0x7FFF_FFFF;
    } else {
      assert Wrap32(ref - 1) == ref - 1;
    }
  }

  class EventSink {
    var ref: int32
    const clsid: Guid
    const receiver: Receiver

    /** NewEventSink: no reference yet, answering for IOPCEventSink. */
    constructor (receiver: Receiver)
      ensures ref == 0 && clsid == IID_IOPCEventSink && this.receiver == receiver
    {
      ref := 0;
      clsid := IID_IOPCEventSink;
      this.receiver := receiver;
    }

    /** The count goes up by one in wrapping int32 arithmetic and is returned as a uintptr. */
    method AddRef() returns (r: uint64)
      modifies this
      ensures ref == Wrap32(old(ref) + 1)
      ensures r == Uintptr(ref)
    {
      ref := Wrap32(ref + 1);
      r := Uintptr(ref);
    }

    /** The count goes down by one in wrapping int32 arithmetic; nothing is freed at zero. */
    method Release() returns (r: uint64)
      modifies this
      ensures ref == Wrap32(old(ref) - 1)
      ensures r == Uintptr(ref)
    {
      ref := Wrap32(ref - 1);
      r := Uintptr(ref);
    }

    /**
     * The sink hands itself out, taking a reference, exactly for its own
     * interface and IUnknown; any other interface gets E_POINTER and a nil
     * pointer, and the count is left alone.
     */
    method QueryInterface(iid: Guid) returns (hr: uint32, punk: Option<EventSink>)
      modifies this
      ensures iid == clsid || iid == IID_IUnknown ==>
                hr == S_OK && punk == Some(this) && ref == Wrap32(old(ref) + 1)
      ensures !(iid == clsid || iid == IID_IUnknown) ==>
                hr == E_POINTER && punk == None && ref == old(ref)
    {
      punk := None;
      if iid == clsid || iid == IID_IUnknown {
        var count := AddRef();
        punk := Some(this);
        return S_OK, punk;
      }
      return E_POINTER, punk;
    }

    /** The attribute loop of OnEvent: `n` VARIANTs read in order. */
    static method DecodeAttributes(mem: Mem, p: Ptr, n: uint32) returns (attributes: seq<Variant>)
      requires VariantArray(mem, p, n)
      ensures attributes == Variants(mem, p, n)
    {
      attributes := [];
      var j: nat := 0;
      while j < n
        invariant j <= n
        invariant attributes == Variants(mem, p, j)
      {
        attributes := attributes + [mem[p].variants[j]];
        j := j + 1;
      }
    }

    /**
     * OnEvent: every one of the `count` records is decoded, in order, and
     * the whole batch is sent on the receiver as one value; the call
     * always succeeds.
     */
    method OnEvent(clientHandle: uint32, refresh: int32, lastRefresh: int32, count: uint32,
                   events: seq<RawEvent>, mem: Mem) returns (hr: uint64)
      requires count <= |events|
      requires forall i :: 0 <= i < count ==> ReadableEvent(mem, events[i])
      requires |receiver.batches| < receiver.capacity
      modifies receiver
      ensures receiver.batches
                == old(receiver.batches) + [DecodeBatch(clientHandle, refresh, lastRefresh, count, events, mem)]
      ensures hr == S_OK
    {
      var decoded: seq<Event> := [];
      var i: nat := 0;
      while i < count
        invariant i <= count
        invariant |decoded| == i
        invariant forall k :: 0 <= k < i ==> decoded[k] == DecodeEvent(mem, events[k])
        invariant receiver.batches == old(receiver.batches)
      {
        var e := events[i];
        var ev := Event(ParseChangeMask(e.changeMask), e.newState, ReadString(mem, e.source), UnixNanos(e.time),
                        ReadString(mem, e.message), e.eventType, e.eventCategory, e.severity,
                        ReadString(mem, e.conditionName), ReadString(mem, e.subconditionName),
                        e.quality, e.reserved, e.ackRequired != 0, UnixNanos(e.activeTime), e.cookie,
                        e.numEventAttrs, [], ReadString(mem, e.actorID));
        var attributes := DecodeAttributes(mem, e.eventAttributes, e.numEventAttrs);
        decoded := decoded + [ev.(attributes := attributes)];
        i := i + 1;
      }
      var batch := EventBatch(clientHandle, refresh != 0, lastRefresh != 0, decoded);
      assert batch == DecodeBatch(clientHandle, refresh, lastRefresh, count, events, mem);
      receiver.Send(batch);
      hr := S_OK;
    }
  }
}
