/**
 * The client side of IOPCEventSubscriptionMgt: argument marshalling, the
 * result-code test and the decoding loops of the eight methods. As for the
 * server interface, each method receives the server's reply and the memory
 * its buffers live in, and returns the call it made, what it decoded and
 * the pointers it passed to CoTaskMemFree, in order.
 */
module SubscriptionMgtCom {
  import opened Win
  import opened Types
  import opened Memory
  import EventServerCom

  /** `r0 != 0`: every non-zero result code is an error here, positive success codes included. */
  predicate Failed(hr: uint32) {
    hr != 0
  }

  /** S_FALSE is a success for the server interface and an error for this one; every server-side failure fails here too. */
  lemma ResultCodeTests(hr: uint32)
    ensures EventServerCom.Failed(hr) ==> Failed(hr)
    ensures !EventServerCom.Failed(1) && Failed(1)
    ensures Failed(hr) && !EventServerCom.Failed(hr) <==> 0 < hr < 0x8000_0000
  {
  }

  /** The arguments the subscription object receives; `None` is a nil pointer. */
  datatype MgtCall =
    | SetFilterCall(eventType: Mask, numCategories: nat, categories: seq<uint32>,
                    lowSeverity: uint32, highSeverity: uint32,
                    numAreas: nat, areas: Option<seq<string>>, numSources: nat, sources: Option<seq<string>>)
    | GetFilterCall
    | SelectReturnedAttributesCall(eventCategory: uint32, count: nat, attributeIDs: Option<seq<uint32>>)
    | GetReturnedAttributesCall(eventCategory: uint32)
    | RefreshCall(connection: uint32)
    | CancelRefreshCall(connection: uint32)
    | GetStateCall
    | SetStateCall(active: Option<int32>, bufferTime: Option<uint32>, maxSize: Option<uint32>,
                   clientSubscription: uint32)

  function ErrorOf(hr: uint32): (r: Option<Error>)
    ensures r.None? <==> !Failed(hr)
    ensures r.Some? ==> r.value == Errno(hr)
  {
    if Failed(hr) then Some(Errno(hr)) else None
  }

  // ---------------------------------------------------------------------
  // SetFilter

  /** Every string of the list converts to UTF-16, that is, none holds a NUL. */
  predicate Convertible(list: seq<string>) {
    forall i :: 0 <= i < |list| ==> !HasNul(list[i])
  }

  /**
   * The conversion loop of SetFilter for one list: the converted strings,
   * or the conversion error at the first string holding a NUL.
   */
  method ConvertAll(list: seq<string>) returns (converted: seq<string>, err: Option<Error>)
    ensures err.None? <==> Convertible(list)
    ensures err.Some? ==> err.value == InvalidString
    ensures err.None? ==> converted == list
  {
    converted := [];
    var i := 0;
    while i < |list|
      invariant i <= |list|
      invariant converted == list[..i]
      invariant Convertible(list[..i])
    {
      if HasNul(list[i]) {
        return converted, Some(InvalidString);
      }
      converted := converted + [list[i]];
      i := i + 1;
    }
    assert list[..i] == list;
    err := None;
  }

  /**
   * SetFilter: the area list is converted, then the source list, and a
   * string holding NUL fails before any call. The counts are the list
   * lengths, an empty list goes as a nil pointer, and the categories go
   * by the address of their first element, which must exist.
   */
  method SetFilter(eventType: Mask, eventCategories: seq<uint32>, lowSeverity: uint32, highSeverity: uint32,
                   areaList: seq<string>, sourceList: seq<string>, hr: uint32)
    returns (call: Option<MgtCall>, err: Option<Error>)
    requires Convertible(areaList) && Convertible(sourceList) ==> |eventCategories| > 0
    ensures !(Convertible(areaList) && Convertible(sourceList)) ==> call == None && err == Some(InvalidString)
    ensures Convertible(areaList) && Convertible(sourceList) ==>
              && call == Some(SetFilterCall(eventType, |eventCategories|, eventCategories, lowSeverity, highSeverity,
                                            |areaList|, EventServerCom.SlicePtr(areaList), |sourceList|, EventServerCom.SlicePtr(sourceList)))
              && err == ErrorOf(hr)
  {
    var areas: Option<seq<string>> := None;
    if |areaList| > 0 {
      var converted;
      converted, err := ConvertAll(areaList);
      if err.Some? {
        return None, err;
      }
      areas := Some(converted);
    }
    var sources: Option<seq<string>> := None;
    if |sourceList| > 0 {
      var converted;
      converted, err := ConvertAll(sourceList);
      if err.Some? {
        return None, err;
      }
      sources := Some(converted);
    }
    call := Some(SetFilterCall(eventType, |eventCategories|, [eventCategories[0]] + eventCategories[1..],
                               lowSeverity, highSeverity, |areaList|, areas, |sourceList|, sources));
    assert [eventCategories[0]] + eventCategories[1..] == eventCategories;
    err := ErrorOf(hr);
  }

  // ---------------------------------------------------------------------
  // GetFilter

  datatype GetFilterReply = GetFilterReply(hr: uint32, eventType: Mask, numCategories: uint32, categories: Ptr,
                                           lowSeverity: uint32, highSeverity: uint32,
                                           numAreas: uint32, areas: Ptr, numSources: uint32, sources: Ptr)

  datatype FilterSettings = FilterSettings(eventType: Mask, eventCategories: seq<uint32>,
                                           lowSeverity: uint32, highSeverity: uint32,
                                           areaList: seq<string>, sourceList: seq<string>)

  predicate ReadableFilter(mem: Mem, reply: GetFilterReply) {
    && DwordArray(mem, reply.categories, reply.numCategories)
    && StringArray(mem, reply.areas, reply.numAreas)
    && StringArray(mem, reply.sources, reply.numSources)
  }

  /** The pointers GetFilter frees on success: every area string, then every source string. */
  function GetFilterFrees(mem: Mem, reply: GetFilterReply): seq<Ptr>
    requires ReadableFilter(mem, reply)
  {
    StringPtrs(mem, reply.areas, reply.numAreas) + StringPtrs(mem, reply.sources, reply.numSources)
  }

  /** The read loop of GetFilter for one string list, freeing each string as it is read. */
  method DecodeStrings(mem: Mem, p: Ptr, n: uint32) returns (list: seq<string>, frees: seq<Ptr>)
    requires StringArray(mem, p, n)
    ensures list == Strings(mem, p, n)
    ensures frees == StringPtrs(mem, p, n)
  {
    list, frees := [], [];
    var i: nat := 0;
    while i < n
      invariant i <= n
      invariant list == Strings(mem, p, i)
      invariant frees == StringPtrs(mem, p, i)
    {
      var s := mem[p].ptrs[i];
      list := list + [ReadString(mem, s)];
      frees := frees + [s];
      i := i + 1;
    }
  }

  /**
   * GetFilter: the event type and the two severities are what the server
   * wrote, on failure too; on success the three lists have the lengths the
   * server gave, in its order, and the area and source strings are freed.
   */
  method GetFilter(reply: GetFilterReply, mem: Mem)
    returns (call: MgtCall, settings: FilterSettings, err: Option<Error>, frees: seq<Ptr>)
    requires !Failed(reply.hr) ==> ReadableFilter(mem, reply)
    ensures call == GetFilterCall
    ensures settings.eventType == reply.eventType
    ensures settings.lowSeverity == reply.lowSeverity && settings.highSeverity == reply.highSeverity
    ensures err == ErrorOf(reply.hr)
    ensures Failed(reply.hr) ==>
              settings.eventCategories == [] && settings.areaList == [] && settings.sourceList == [] && frees == []
    ensures !Failed(reply.hr) ==>
              && settings.eventCategories == Dwords(mem, reply.categories, reply.numCategories)
              && settings.areaList == Strings(mem, reply.areas, reply.numAreas)
              && settings.sourceList == Strings(mem, reply.sources, reply.numSources)
              && frees == GetFilterFrees(mem, reply)
  {
    call := GetFilterCall;
    if Failed(reply.hr) {
      return call, FilterSettings(reply.eventType, [], reply.lowSeverity, reply.highSeverity, [], []),
             ErrorOf(reply.hr), [];
    }
    var categories := [];
    var i: nat := 0;
    while i < reply.numCategories
      invariant i <= reply.numCategories
      invariant categories == Dwords(mem, reply.categories, i)
    {
      categories := categories + [mem[reply.categories].dwords[i]];
      i := i + 1;
    }
    var areas, areaFrees := DecodeStrings(mem, reply.areas, reply.numAreas);
    var sources, sourceFrees := DecodeStrings(mem, reply.sources, reply.numSources);
    settings := FilterSettings(reply.eventType, categories, reply.lowSeverity, reply.highSeverity, areas, sources);
    frees := areaFrees + sourceFrees;
    err := None;
  }

  /**
   * GetFilter frees every area and source string it reads and never any of
   * the three arrays the server allocated, when these are distinct from the
   * strings.
   */
  lemma GetFilterLeaksArrays(mem: Mem, reply: GetFilterReply)
    requires ReadableFilter(mem, reply)
    requires forall q :: q in {reply.categories, reply.areas, reply.sources} ==>
               q !in StringPtrs(mem, reply.areas, reply.numAreas) && q !in StringPtrs(mem, reply.sources, reply.numSources)
    ensures forall q :: q in GetFilterFrees(mem, reply) <==>
              q in StringPtrs(mem, reply.areas, reply.numAreas) || q in StringPtrs(mem, reply.sources, reply.numSources)
    ensures reply.categories !in GetFilterFrees(mem, reply)
    ensures reply.areas !in GetFilterFrees(mem, reply)
    ensures reply.sources !in GetFilterFrees(mem, reply)
  {
  }

  // ---------------------------------------------------------------------
  // Returned attributes, refresh and state

  /** SelectReturnedAttributes: the count is the list length, and an empty list goes as a nil pointer. */
  function SelectReturnedAttributes(eventCategory: uint32, attributeIDs: seq<uint32>, hr: uint32): (r: (MgtCall, Option<Error>))
    ensures r.0.SelectReturnedAttributesCall? && r.0.eventCategory == eventCategory
    ensures r.0.count == |attributeIDs|
    ensures r.0.attributeIDs.None? <==> attributeIDs == []
    ensures r.0.attributeIDs.Some? ==> r.0.attributeIDs.value == attributeIDs
    ensures r.1 == ErrorOf(hr)
  {
    (SelectReturnedAttributesCall(eventCategory, |attributeIDs|, EventServerCom.SlicePtr(attributeIDs)), ErrorOf(hr))
  }

  datatype CountedReply = CountedReply(hr: uint32, count: uint32, ids: Ptr)

  /** GetReturnedAttributes: `count` ids in server order; the array is never freed. */
  method GetReturnedAttributes(eventCategory: uint32, reply: CountedReply, mem: Mem)
    returns (call: MgtCall, attributeIDs: seq<uint32>, err: Option<Error>, frees: seq<Ptr>)
    requires !Failed(reply.hr) ==> DwordArray(mem, reply.ids, reply.count)
    ensures call == GetReturnedAttributesCall(eventCategory)
    ensures err == ErrorOf(reply.hr)
    ensures Failed(reply.hr) ==> attributeIDs == []
    ensures !Failed(reply.hr) ==> attributeIDs == Dwords(mem, reply.ids, reply.count)
    ensures frees == []
  {
    call := GetReturnedAttributesCall(eventCategory);
    frees := [];
    if Failed(reply.hr) {
      return call, [], ErrorOf(reply.hr), frees;
    }
    attributeIDs := [];
    var i: nat := 0;
    while i < reply.count
      invariant i <= reply.count
      invariant attributeIDs == Dwords(mem, reply.ids, i)
    {
      attributeIDs := attributeIDs + [mem[reply.ids].dwords[i]];
      i := i + 1;
    }
    err := None;
  }

  /** Refresh of the given connection. */
  function Refresh(connection: uint32, hr: uint32): (r: (MgtCall, Option<Error>))
    ensures r.0 == RefreshCall(connection) && r.1 == ErrorOf(hr)
  {
    (RefreshCall(connection), ErrorOf(hr))
  }

  /** CancelRefresh of the given connection. */
  function CancelRefresh(connection: uint32, hr: uint32): (r: (MgtCall, Option<Error>))
    ensures r.0 == CancelRefreshCall(connection) && r.1 == ErrorOf(hr)
  {
    (CancelRefreshCall(connection), ErrorOf(hr))
  }

  datatype StateReply = StateReply(hr: uint32, active: int32, bufferTime: uint32, maxSize: uint32,
                                   clientSubscription: uint32)

  datatype SubscriptionState = SubscriptionState(active: bool, bufferTime: uint32, maxSize: uint32,
                                                 clientSubscription: uint32)

  /**
   * GetState: the BOOL is true exactly when non-zero, and is read only on
   * success; the other three values are what the server wrote.
   */
  function GetState(reply: StateReply): (r: (MgtCall, SubscriptionState, Option<Error>))
    ensures r.0 == GetStateCall
    ensures r.1.active <==> !Failed(reply.hr) && reply.active != 0
    ensures r.1.bufferTime == reply.bufferTime && r.1.maxSize == reply.maxSize
    ensures r.1.clientSubscription == reply.clientSubscription
    ensures r.2 == ErrorOf(reply.hr)
  {
    var active := if Failed(reply.hr) then false else reply.active != 0;
    (GetStateCall, SubscriptionState(active, reply.bufferTime, reply.maxSize, reply.clientSubscription),
     ErrorOf(reply.hr))
  }

  datatype RevisedReply = RevisedReply(hr: uint32, revisedBufferTime: uint32, revisedMaxSize: uint32)

  /**
   * SetState: the three optional values are forwarded untouched (absent is
   * nil); the revised values are what the server wrote, on failure too.
   */
  function SetState(active: Option<int32>, bufferTime: Option<uint32>, maxSize: Option<uint32>,
                    clientSubscription: uint32, reply: RevisedReply): (r: (MgtCall, uint32, uint32, Option<Error>))
    ensures r.0 == SetStateCall(active, bufferTime, maxSize, clientSubscription)
    ensures r.1 == reply.revisedBufferTime && r.2 == reply.revisedMaxSize
    ensures r.3 == ErrorOf(reply.hr)
  {
    (SetStateCall(active, bufferTime, maxSize, clientSubscription),
     reply.revisedBufferTime, reply.revisedMaxSize, ErrorOf(reply.hr))
  }
}
