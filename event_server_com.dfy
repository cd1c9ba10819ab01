/**
 * The client side of IOPCEventServer: how each method marshals its
 * arguments, tests the result code, decodes the buffers the server hands
 * back and frees them with CoTaskMemFree.
 *
 * The server is not modelled: each method receives the server's reply (the
 * result code and the values it wrote to the out-parameters) together with
 * the memory those buffers live in, and returns the call it made, what it
 * decoded and the pointers it passed to CoTaskMemFree, in order.
 */
module EventServerCom {
  import opened Win
  import opened Types
  import opened Memory

  /** `int32(r0) < 0`: the result code has its sign bit set. Positive codes such as S_FALSE succeed. */
  predicate Failed(hr: uint32) {
    hr >= 0x8000_0000
  }

  /** The arguments the server receives, string and array arguments by content; `None` is a nil pointer. */
  datatype ServerCall =
    | CreateEventSubscriptionCall(active: bool, bufferTime: uint32, maxSize: uint32,
                                  clientSubscription: uint32, riid: Guid)
    | QueryAvailableFiltersCall
    | QueryEventCategoriesCall(eventType: Mask)
    | QueryConditionNamesCall(categoryMask: Mask)
    | QuerySubConditionNamesCall(conditionName: string)
    | QuerySourceConditionsCall(source: string)
    | QueryEventAttributesCall(eventCategory: uint32)
    | TranslateToItemIDsCall(source: string, eventCategory: uint32, conditionName: string,
                             subconditionName: string, count: nat, assocAttrIDs: Option<seq<uint32>>)
    | GetConditionStateCall(source: string, conditionName: string, count: nat,
                            attributeIDs: Option<seq<uint32>>)
    | AckConditionCall(numAcks: uint32, acknowledgerID: string, comment: string,
                       sources: Option<seq<string>>, conditionNames: Option<seq<string>>,
                       activeTimes: Option<seq<int64>>, cookies: Option<seq<uint32>>)

  /** A Go slice passed by the address of its first element: nil when empty. */
  function SlicePtr<T>(s: seq<T>): (r: Option<seq<T>>)
    ensures r.None? <==> s == []
    ensures r.Some? ==> r.value == s
  {
    if |s| > 0 then Some(s) else None
  }

  // ---------------------------------------------------------------------
  // Replies: the result code and what the server wrote to each out-parameter

  datatype CreateReply = CreateReply(hr: uint32, unknown: ComObj, revisedBufferTime: uint32, revisedMaxSize: uint32)
  datatype FiltersReply = FiltersReply(hr: uint32, filterMask: Mask)
  datatype CategoriesReply = CategoriesReply(hr: uint32, count: uint32, ids: Ptr, descs: Ptr)
  datatype NamesReply = NamesReply(hr: uint32, count: uint32, names: Ptr)
  datatype AttributesReply = AttributesReply(hr: uint32, count: uint32, ids: Ptr, descs: Ptr, types: Ptr)
  datatype ItemIDsReply = ItemIDsReply(hr: uint32, itemIDs: Ptr, nodeNames: Ptr, clsids: Ptr)
  datatype ConditionStateReply = ConditionStateReply(hr: uint32, state: Ptr)
  datatype AckReply = AckReply(hr: uint32, errors: Ptr)

  datatype CreateResult = CreateResult(call: ServerCall, unknown: ComObj, revisedBufferTime: uint32,
                                       revisedMaxSize: uint32, err: Option<Error>)

  /**
   * CreateEventSubscription: the error is set exactly when the result code
   * is negative; the interface and the revised values are whatever the
   * server wrote, returned unchanged either way.
   */
  function CreateEventSubscription(active: bool, bufferTime: uint32, maxSize: uint32,
                                   clientSubscription: uint32, riid: Guid, reply: CreateReply): (r: CreateResult)
    ensures r.call == CreateEventSubscriptionCall(active, bufferTime, maxSize, clientSubscription, riid)
    ensures r.err.Some? <==> Failed(reply.hr)
    ensures r.err.Some? ==> r.err.value == Errno(reply.hr)
    ensures r.unknown == reply.unknown
    ensures r.revisedBufferTime == reply.revisedBufferTime && r.revisedMaxSize == reply.revisedMaxSize
  {
    CreateResult(CreateEventSubscriptionCall(active, bufferTime, maxSize, clientSubscription, riid),
                 reply.unknown, reply.revisedBufferTime, reply.revisedMaxSize,
                 if Failed(reply.hr) then Some(Errno(reply.hr)) else None)
  }

  /** QueryAvailableFilters: the mask the server wrote, and an error when the result code is negative. */
  function QueryAvailableFilters(reply: FiltersReply): (r: (ServerCall, Mask, Option<Error>))
    ensures r.0 == QueryAvailableFiltersCall
    ensures r.1 == reply.filterMask
    ensures r.2.Some? <==> Failed(reply.hr)
    ensures Failed(reply.hr) ==> r.2 == Some(Errno(reply.hr))
  {
    (QueryAvailableFiltersCall, reply.filterMask, if Failed(reply.hr) then Some(Errno(reply.hr)) else None)
  }

  // ---------------------------------------------------------------------
  // Decoders of counted arrays

  /**
   * QueryEventCategories: `count` ids and descriptions in server order;
   * every description string is freed as it is read, then both arrays.
   */
  method QueryEventCategories(eventType: Mask, reply: CategoriesReply, mem: Mem)
    returns (call: ServerCall, ids: seq<uint32>, descs: seq<string>, err: Option<Error>, frees: seq<Ptr>)
    requires !Failed(reply.hr) ==> DwordArray(mem, reply.ids, reply.count) && StringArray(mem, reply.descs, reply.count)
    ensures call == QueryEventCategoriesCall(eventType)
    ensures Failed(reply.hr) ==> err == Some(Errno(reply.hr)) && ids == [] && descs == [] && frees == []
    ensures !Failed(reply.hr) ==>
              && err == None
              && ids == Dwords(mem, reply.ids, reply.count)
              && descs == Strings(mem, reply.descs, reply.count)
              && frees == StringPtrs(mem, reply.descs, reply.count) + [reply.ids, reply.descs]
  {
    call := QueryEventCategoriesCall(eventType);
    if Failed(reply.hr) {
      return call, [], [], Some(Errno(reply.hr)), [];
    }
    ids, descs, frees := [], [], [];
    var i: nat := 0;
    while i < reply.count
      invariant i <= reply.count
      invariant ids == Dwords(mem, reply.ids, i)
      invariant descs == Strings(mem, reply.descs, i)
      invariant frees == StringPtrs(mem, reply.descs, i)
    {
      ids := ids + [mem[reply.ids].dwords[i]];
      var s := mem[reply.descs].ptrs[i];
      descs := descs + [ReadString(mem, s)];
      frees := frees + [s];
      i := i + 1;
    }
    frees := frees + [reply.ids, reply.descs];
    err := None;
  }

  /** The loop shared by the three name queries: read and free `count` strings, then free the array. */
  method DecodeNames(reply: NamesReply, mem: Mem) returns (names: seq<string>, err: Option<Error>, frees: seq<Ptr>)
    requires !Failed(reply.hr) ==> StringArray(mem, reply.names, reply.count)
    ensures Failed(reply.hr) ==> err == Some(Errno(reply.hr)) && names == [] && frees == []
    ensures !Failed(reply.hr) ==>
              && err == None
              && names == Strings(mem, reply.names, reply.count)
              && frees == StringPtrs(mem, reply.names, reply.count) + [reply.names]
  {
    if Failed(reply.hr) {
      return [], Some(Errno(reply.hr)), [];
    }
    names, frees := [], [];
    var i: nat := 0;
    while i < reply.count
      invariant i <= reply.count
      invariant names == Strings(mem, reply.names, i)
      invariant frees == StringPtrs(mem, reply.names, i)
    {
      var s := mem[reply.names].ptrs[i];
      names := names + [ReadString(mem, s)];
      frees := frees + [s];
      i := i + 1;
    }
    frees := frees + [reply.names];
    err := None;
  }

  /** QueryConditionNames: `count` names in server order, each freed once, then the array. */
  method QueryConditionNames(eventCategory: Mask, reply: NamesReply, mem: Mem)
    returns (call: ServerCall, names: seq<string>, err: Option<Error>, frees: seq<Ptr>)
    requires !Failed(reply.hr) ==> StringArray(mem, reply.names, reply.count)
    ensures call == QueryConditionNamesCall(eventCategory)
    ensures Failed(reply.hr) ==> err == Some(Errno(reply.hr)) && names == [] && frees == []
    ensures !Failed(reply.hr) ==>
              && err == None
              && names == Strings(mem, reply.names, reply.count)
              && frees == StringPtrs(mem, reply.names, reply.count) + [reply.names]
  {
    call := QueryConditionNamesCall(eventCategory);
    names, err, frees := DecodeNames(reply, mem);
  }

  /**
   * QuerySubConditionNames: a condition name holding NUL fails before any
   * call; otherwise as QueryConditionNames.
   */
  method QuerySubConditionNames(conditionName: string, reply: NamesReply, mem: Mem)
    returns (call: Option<ServerCall>, names: seq<string>, err: Option<Error>, frees: seq<Ptr>)
    requires !HasNul(conditionName) && !Failed(reply.hr) ==> StringArray(mem, reply.names, reply.count)
    ensures HasNul(conditionName) ==> call == None && err == Some(InvalidString) && names == [] && frees == []
    ensures !HasNul(conditionName) ==> call == Some(QuerySubConditionNamesCall(conditionName))
    ensures !HasNul(conditionName) && Failed(reply.hr) ==>
              err == Some(Errno(reply.hr)) && names == [] && frees == []
    ensures !HasNul(conditionName) && !Failed(reply.hr) ==>
              && err == None
              && names == Strings(mem, reply.names, reply.count)
              && frees == StringPtrs(mem, reply.names, reply.count) + [reply.names]
  {
    if HasNul(conditionName) {
      return None, [], Some(InvalidString), [];
    }
    call := Some(QuerySubConditionNamesCall(conditionName));
    names, err, frees := DecodeNames(reply, mem);
  }

  /** QuerySourceConditions: a source holding NUL fails before any call; otherwise as QueryConditionNames. */
  method QuerySourceConditions(source: string, reply: NamesReply, mem: Mem)
    returns (call: Option<ServerCall>, names: seq<string>, err: Option<Error>, frees: seq<Ptr>)
    requires !HasNul(source) && !Failed(reply.hr) ==> StringArray(mem, reply.names, reply.count)
    ensures HasNul(source) ==> call == None && err == Some(InvalidString) && names == [] && frees == []
    ensures !HasNul(source) ==> call == Some(QuerySourceConditionsCall(source))
    ensures !HasNul(source) && Failed(reply.hr) ==> err == Some(Errno(reply.hr)) && names == [] && frees == []
    ensures !HasNul(source) && !Failed(reply.hr) ==>
              && err == None
              && names == Strings(mem, reply.names, reply.count)
              && frees == StringPtrs(mem, reply.names, reply.count) + [reply.names]
  {
    if HasNul(source) {
      return None, [], Some(InvalidString), [];
    }
    call := Some(QuerySourceConditionsCall(source));
    names, err, frees := DecodeNames(reply, mem);
  }

  /**
   * QueryEventAttributes: three parallel slices of length `count` in server
   * order; each description string is freed, then the three arrays.
   */
  method QueryEventAttributes(eventCategory: uint32, reply: AttributesReply, mem: Mem)
    returns (call: ServerCall, ids: seq<uint32>, descs: seq<string>, types: seq<uint16>,
             err: Option<Error>, frees: seq<Ptr>)
    requires !Failed(reply.hr) ==>
               && DwordArray(mem, reply.ids, reply.count)
               && StringArray(mem, reply.descs, reply.count)
               && WordArray(mem, reply.types, reply.count)
    ensures call == QueryEventAttributesCall(eventCategory)
    ensures Failed(reply.hr) ==>
              err == Some(Errno(reply.hr)) && ids == [] && descs == [] && types == [] && frees == []
    ensures !Failed(reply.hr) ==>
              && err == None
              && |ids| == |descs| == |types| == reply.count
              && ids == Dwords(mem, reply.ids, reply.count)
              && descs == Strings(mem, reply.descs, reply.count)
              && types == Words(mem, reply.types, reply.count)
              && frees == StringPtrs(mem, reply.descs, reply.count) + [reply.ids, reply.descs, reply.types]
  {
    call := QueryEventAttributesCall(eventCategory);
    if Failed(reply.hr) {
      return call, [], [], [], Some(Errno(reply.hr)), [];
    }
    ids, descs, types, frees := [], [], [], [];
    var i: nat := 0;
    while i < reply.count
      invariant i <= reply.count
      invariant ids == Dwords(mem, reply.ids, i)
      invariant descs == Strings(mem, reply.descs, i)
      invariant types == Words(mem, reply.types, i)
      invariant frees == StringPtrs(mem, reply.descs, i)
    {
      ids := ids + [mem[reply.ids].dwords[i]];
      var s := mem[reply.descs].ptrs[i];
      descs := descs + [ReadString(mem, s)];
      frees := frees + [s];
      types := types + [mem[reply.types].words[i]];
      i := i + 1;
    }
    frees := frees + [reply.ids, reply.descs, reply.types];
    err := None;
  }

  // ---------------------------------------------------------------------
  // TranslateToItemIDs

  /** Two equally long lists taken alternately: a[0], b[0], a[1], b[1], ... */
  function Interleave2(a: seq<Ptr>, b: seq<Ptr>): (r: seq<Ptr>)
    requires |a| == |b|
    ensures |r| == 2 * |a|
  {
    if a == [] then [] else [a[0], b[0]] + Interleave2(a[1..], b[1..])
  }

  lemma {:induction false} Interleave2Snoc(a: seq<Ptr>, b: seq<Ptr>, x: Ptr, y: Ptr)
    requires |a| == |b|
    ensures Interleave2(a + [x], b + [y]) == Interleave2(a, b) + [x, y]
  {
    if a == [] {
      assert a + [x] == [x] && b + [y] == [y];
    } else {
      assert (a + [x])[1..] == a[1..] + [x];
      assert (b + [y])[1..] == b[1..] + [y];
      Interleave2Snoc(a[1..], b[1..], x, y);
    }
  }

  /**
   * The decoding loop of TranslateToItemIDs for a given count: each item id
   * and node name string is freed as it is read, then the three arrays.
   */
  method DecodeItemIDs(reply: ItemIDsReply, mem: Mem, count: uint32)
    returns (itemIDs: seq<string>, nodeNames: seq<string>, clsids: seq<Guid>, frees: seq<Ptr>)
    requires StringArray(mem, reply.itemIDs, count) && StringArray(mem, reply.nodeNames, count)
    requires GuidArray(mem, reply.clsids, count)
    ensures itemIDs == Strings(mem, reply.itemIDs, count)
    ensures nodeNames == Strings(mem, reply.nodeNames, count)
    ensures clsids == Guids(mem, reply.clsids, count)
    ensures frees == Interleave2(StringPtrs(mem, reply.itemIDs, count), StringPtrs(mem, reply.nodeNames, count))
                     + [reply.itemIDs, reply.nodeNames, reply.clsids]
  {
    itemIDs, nodeNames, clsids, frees := [], [], [], [];
    var i: nat := 0;
    while i < count
      invariant i <= count
      invariant itemIDs == Strings(mem, reply.itemIDs, i)
      invariant nodeNames == Strings(mem, reply.nodeNames, i)
      invariant clsids == Guids(mem, reply.clsids, i)
      invariant frees == Interleave2(StringPtrs(mem, reply.itemIDs, i), StringPtrs(mem, reply.nodeNames, i))
    {
      var s := mem[reply.itemIDs].ptrs[i];
      itemIDs := itemIDs + [ReadString(mem, s)];
      var t := mem[reply.nodeNames].ptrs[i];
      nodeNames := nodeNames + [ReadString(mem, t)];
      Interleave2Snoc(StringPtrs(mem, reply.itemIDs, i), StringPtrs(mem, reply.nodeNames, i), s, t);
      assert StringPtrs(mem, reply.itemIDs, i + 1) == StringPtrs(mem, reply.itemIDs, i) + [s];
      assert StringPtrs(mem, reply.nodeNames, i + 1) == StringPtrs(mem, reply.nodeNames, i) + [t];
      frees := frees + [s, t];
      clsids := clsids + [mem[reply.clsids].guids[i]];
      i := i + 1;
    }
    frees := frees + [reply.itemIDs, reply.nodeNames, reply.clsids];
  }

  /**
   * TranslateToItemIDs as written: the three strings are converted first
   * (a NUL in any fails before the call) and the ids go by the address of
   * their first element. The IDL sizes the three out-arrays by the count
   * passed in, but the client decodes them with a separate count variable
   * that nothing writes: it stays 0, so a successful call yields three
   * empty slices and frees only the outer arrays.
   */
  method TranslateToItemIDs(source: string, eventCategory: uint32, conditionName: string,
                            subconditionName: string, assocAttrIDs: seq<uint32>, reply: ItemIDsReply, mem: Mem)
    returns (call: Option<ServerCall>, itemIDs: seq<string>, nodeNames: seq<string>, clsids: seq<Guid>,
             err: Option<Error>, frees: seq<Ptr>)
    ensures HasNul(source) || HasNul(conditionName) || HasNul(subconditionName) ==>
              call == None && err == Some(InvalidString) && itemIDs == [] && nodeNames == [] && clsids == [] && frees == []
    ensures !(HasNul(source) || HasNul(conditionName) || HasNul(subconditionName)) ==>
              call == Some(TranslateToItemIDsCall(source, eventCategory, conditionName, subconditionName,
                                                  |assocAttrIDs|, SlicePtr(assocAttrIDs)))
    ensures call.Some? && Failed(reply.hr) ==>
              err == Some(Errno(reply.hr)) && itemIDs == [] && nodeNames == [] && clsids == [] && frees == []
    ensures call.Some? && !Failed(reply.hr) ==>
              && err == None
              && itemIDs == [] && nodeNames == [] && clsids == []
              && frees == [reply.itemIDs, reply.nodeNames, reply.clsids]
  {
    if HasNul(source) || HasNul(conditionName) || HasNul(subconditionName) {
      return None, [], [], [], Some(InvalidString), [];
    }
    var count: uint32 := 0;
    call := Some(TranslateToItemIDsCall(source, eventCategory, conditionName, subconditionName,
                                        |assocAttrIDs|, SlicePtr(assocAttrIDs)));
    if Failed(reply.hr) {
      return call, [], [], [], Some(Errno(reply.hr)), [];
    }
    itemIDs, nodeNames, clsids, frees := DecodeItemIDs(reply, mem, count);
    err := None;
  }

  /**
   * TranslateToItemIDs as evidently intended: the out-arrays are decoded
   * with the count the server received, one entry per associated
   * attribute id.
   */
  method TranslateToItemIDsCorrected(source: string, eventCategory: uint32, conditionName: string,
                                     subconditionName: string, assocAttrIDs: seq<uint32>, reply: ItemIDsReply, mem: Mem)
    returns (call: Option<ServerCall>, itemIDs: seq<string>, nodeNames: seq<string>, clsids: seq<Guid>,
             err: Option<Error>, frees: seq<Ptr>)
    requires !Failed(reply.hr) ==>
               && StringArray(mem, reply.itemIDs, WrapU32(|assocAttrIDs|))
               && StringArray(mem, reply.nodeNames, WrapU32(|assocAttrIDs|))
               && GuidArray(mem, reply.clsids, WrapU32(|assocAttrIDs|))
    ensures HasNul(source) || HasNul(conditionName) || HasNul(subconditionName) ==>
              call == None && err == Some(InvalidString) && itemIDs == [] && nodeNames == [] && clsids == [] && frees == []
    ensures !(HasNul(source) || HasNul(conditionName) || HasNul(subconditionName)) ==>
              call == Some(TranslateToItemIDsCall(source, eventCategory, conditionName, subconditionName,
                                                  |assocAttrIDs|, SlicePtr(assocAttrIDs)))
    ensures call.Some? && Failed(reply.hr) ==>
              err == Some(Errno(reply.hr)) && itemIDs == [] && nodeNames == [] && clsids == [] && frees == []
    ensures call.Some? && !Failed(reply.hr) ==>
              && err == None
              && |itemIDs| == |nodeNames| == |clsids| == WrapU32(|assocAttrIDs|)
              && itemIDs == Strings(mem, reply.itemIDs, WrapU32(|assocAttrIDs|))
              && nodeNames == Strings(mem, reply.nodeNames, WrapU32(|assocAttrIDs|))
              && clsids == Guids(mem, reply.clsids, WrapU32(|assocAttrIDs|))
              && frees == Interleave2(StringPtrs(mem, reply.itemIDs, WrapU32(|assocAttrIDs|)),
                                      StringPtrs(mem, reply.nodeNames, WrapU32(|assocAttrIDs|)))
                          + [reply.itemIDs, reply.nodeNames, reply.clsids]
  {
    if HasNul(source) || HasNul(conditionName) || HasNul(subconditionName) {
      return None, [], [], [], Some(InvalidString), [];
    }
    var count: uint32 := WrapU32(|assocAttrIDs|);
    call := Some(TranslateToItemIDsCall(source, eventCategory, conditionName, subconditionName,
                                        |assocAttrIDs|, SlicePtr(assocAttrIDs)));
    if Failed(reply.hr) {
      return call, [], [], [], Some(Errno(reply.hr)), [];
    }
    itemIDs, nodeNames, clsids, frees := DecodeItemIDs(reply, mem, count);
    err := None;
  }

  /**
   * One associated attribute whose item id the server does return: the
   * code as written hands back nothing, the corrected decoder the item id.
   */
  method LostItemID() returns (asWritten: seq<string>, corrected: seq<string>)
    ensures asWritten == [] && corrected == ["Tank1.Level"]
  {
    var mem: Mem := map[1 := PointerBlock([2]), 2 := StringBlock("Tank1.Level"),
                        3 := PointerBlock([4]), 4 := StringBlock("NODE1"),
                        5 := GuidBlock([IID_IUnknown])];
    var reply := ItemIDsReply(0, 1, 3, 5);
    var call, names, guids, err, frees;
    call, asWritten, names, guids, err, frees := TranslateToItemIDs("Tank1", 2, "LEVEL", "HI", [7], reply, mem);
    call, corrected, names, guids, err, frees := TranslateToItemIDsCorrected("Tank1", 2, "LEVEL", "HI", [7], reply, mem);
    assert mem[1].ptrs[..1] == [2];
  }

  // ---------------------------------------------------------------------
  // GetConditionState

  /** OPCCONDITIONSTATE as the client returns it; times are Unix nanoseconds. */
  datatype ConditionState = ConditionState(
    state: uint16,
    reserved1: uint16,
    activeSubCondition: string,
    ascDefinition: string,
    ascSeverity: uint32,
    ascDescription: string,
    quality: uint16,
    reserved2: uint16,
    lastAckTime: int64,
    subCondLastActive: int64,
    condLastActive: int64,
    condLastInactive: int64,
    acknowledgerID: string,
    comment: string,
    numSCs: uint32,
    scNames: seq<string>,
    scDefinitions: seq<string>,
    scSeverities: seq<uint32>,
    scDescriptions: seq<string>,
    numEventAttrs: uint32,
    eventAttributes: seq<Variant>,
    errors: seq<int32>)

  /** Every string and array the structure points to can be read for its counts. */
  predicate Readable(mem: Mem, cs: RawConditionState) {
    && IsString(mem, cs.activeSubCondition)
    && IsString(mem, cs.ascDefinition)
    && IsString(mem, cs.ascDescription)
    && IsString(mem, cs.acknowledgerID)
    && IsString(mem, cs.comment)
    && StringArray(mem, cs.scNames, cs.numSCs)
    && StringArray(mem, cs.scDefinitions, cs.numSCs)
    && DwordArray(mem, cs.scSeverities, cs.numSCs)
    && StringArray(mem, cs.scDescriptions, cs.numSCs)
    && VariantArray(mem, cs.eventAttributes, cs.numEventAttrs)
    && Int32Array(mem, cs.errors, cs.numEventAttrs)
  }

  predicate ReadableConditionState(mem: Mem, p: Ptr) {
    p in mem && mem[p].ConditionStateBlock? && Readable(mem, mem[p].cs)
  }

  /** The decoded structure: scalars copied, strings read, times converted, the two counted groups read in order. */
  function DecodeConditionState(mem: Mem, cs: RawConditionState): (r: ConditionState)
    requires Readable(mem, cs)
    ensures r.numSCs == cs.numSCs && r.numEventAttrs == cs.numEventAttrs
    ensures |r.scNames| == |r.scDefinitions| == |r.scSeverities| == |r.scDescriptions| == r.numSCs
    ensures |r.eventAttributes| == |r.errors| == r.numEventAttrs
  {
    ConditionState(
      cs.state, cs.reserved1,
      ReadString(mem, cs.activeSubCondition), ReadString(mem, cs.ascDefinition), cs.ascSeverity,
      ReadString(mem, cs.ascDescription), cs.quality, cs.reserved2,
      UnixNanos(cs.lastAckTime), UnixNanos(cs.subCondLastActive),
      UnixNanos(cs.condLastActive), UnixNanos(cs.condLastInactive),
      ReadString(mem, cs.acknowledgerID), ReadString(mem, cs.comment),
      cs.numSCs,
      Strings(mem, cs.scNames, cs.numSCs), Strings(mem, cs.scDefinitions, cs.numSCs),
      Dwords(mem, cs.scSeverities, cs.numSCs), Strings(mem, cs.scDescriptions, cs.numSCs),
      cs.numEventAttrs,
      Variants(mem, cs.eventAttributes, cs.numEventAttrs), Int32s(mem, cs.errors, cs.numEventAttrs))
  }

  /** Three equally long lists taken in turn: a[0], b[0], c[0], a[1], ... */
  function Interleave3(a: seq<Ptr>, b: seq<Ptr>, c: seq<Ptr>): (r: seq<Ptr>)
    requires |a| == |b| == |c|
    ensures |r| == 3 * |a|
  {
    if a == [] then [] else [a[0], b[0], c[0]] + Interleave3(a[1..], b[1..], c[1..])
  }

  lemma {:induction false} Interleave3Snoc(a: seq<Ptr>, b: seq<Ptr>, c: seq<Ptr>, x: Ptr, y: Ptr, z: Ptr)
    requires |a| == |b| == |c|
    ensures Interleave3(a + [x], b + [y], c + [z]) == Interleave3(a, b, c) + [x, y, z]
  {
    if a == [] {
      assert a + [x] == [x] && b + [y] == [y] && c + [z] == [z];
    } else {
      assert (a + [x])[1..] == a[1..] + [x];
      assert (b + [y])[1..] == b[1..] + [y];
      assert (c + [z])[1..] == c[1..] + [z];
      Interleave3Snoc(a[1..], b[1..], c[1..], x, y, z);
    }
  }

  /** A pointer appears in the interleaving exactly when it appears in one of the three lists. */
  lemma {:induction false} Interleave3Members(a: seq<Ptr>, b: seq<Ptr>, c: seq<Ptr>)
    requires |a| == |b| == |c|
    ensures forall q :: q in Interleave3(a, b, c) <==> q in a || q in b || q in c
  {
    if a != [] {
      Interleave3Members(a[1..], b[1..], c[1..]);
      assert forall q :: q in a <==> q == a[0] || q in a[1..];
      assert forall q :: q in b <==> q == b[0] || q in b[1..];
      assert forall q :: q in c <==> q == c[0] || q in c[1..];
    }
  }

  /** The pointers GetConditionState frees on success: the sub-condition strings in turn, then the structure. */
  function ConditionStateFrees(mem: Mem, p: Ptr): seq<Ptr>
    requires ReadableConditionState(mem, p)
  {
    var cs := mem[p].cs;
    Interleave3(StringPtrs(mem, cs.scNames, cs.numSCs), StringPtrs(mem, cs.scDefinitions, cs.numSCs),
                StringPtrs(mem, cs.scDescriptions, cs.numSCs)) + [p]
  }

  /** The first loop of GetConditionState: the sub-condition groups, freeing each string as it is read. */
  method DecodeSubConditions(mem: Mem, cs: RawConditionState)
    returns (names: seq<string>, defs: seq<string>, sevs: seq<uint32>, descs: seq<string>, frees: seq<Ptr>)
    requires Readable(mem, cs)
    ensures names == Strings(mem, cs.scNames, cs.numSCs)
    ensures defs == Strings(mem, cs.scDefinitions, cs.numSCs)
    ensures sevs == Dwords(mem, cs.scSeverities, cs.numSCs)
    ensures descs == Strings(mem, cs.scDescriptions, cs.numSCs)
    ensures frees == Interleave3(StringPtrs(mem, cs.scNames, cs.numSCs), StringPtrs(mem, cs.scDefinitions, cs.numSCs),
                                 StringPtrs(mem, cs.scDescriptions, cs.numSCs))
  {
    names, defs, sevs, descs, frees := [], [], [], [], [];
    var i: nat := 0;
    while i < cs.numSCs
      invariant i <= cs.numSCs
      invariant names == Strings(mem, cs.scNames, i)
      invariant defs == Strings(mem, cs.scDefinitions, i)
      invariant sevs == Dwords(mem, cs.scSeverities, i)
      invariant descs == Strings(mem, cs.scDescriptions, i)
      invariant frees == Interleave3(StringPtrs(mem, cs.scNames, i), StringPtrs(mem, cs.scDefinitions, i),
                                     StringPtrs(mem, cs.scDescriptions, i))
    {
      var n := mem[cs.scNames].ptrs[i];
      names := names + [ReadString(mem, n)];
      var d := mem[cs.scDefinitions].ptrs[i];
      defs := defs + [ReadString(mem, d)];
      sevs := sevs + [mem[cs.scSeverities].dwords[i]];
      var c := mem[cs.scDescriptions].ptrs[i];
      descs := descs + [ReadString(mem, c)];
      Interleave3Snoc(StringPtrs(mem, cs.scNames, i), StringPtrs(mem, cs.scDefinitions, i),
                      StringPtrs(mem, cs.scDescriptions, i), n, d, c);
      assert StringPtrs(mem, cs.scNames, i + 1) == StringPtrs(mem, cs.scNames, i) + [n];
      assert StringPtrs(mem, cs.scDefinitions, i + 1) == StringPtrs(mem, cs.scDefinitions, i) + [d];
      assert StringPtrs(mem, cs.scDescriptions, i + 1) == StringPtrs(mem, cs.scDescriptions, i) + [c];
      frees := frees + [n, d, c];
      i := i + 1;
    }
  }

  /** The second loop of GetConditionState: attribute values and their error codes, copied in order. */
  method DecodeEventAttributes(mem: Mem, cs: RawConditionState) returns (attrs: seq<Variant>, errors: seq<int32>)
    requires Readable(mem, cs)
    ensures attrs == Variants(mem, cs.eventAttributes, cs.numEventAttrs)
    ensures errors == Int32s(mem, cs.errors, cs.numEventAttrs)
  {
    attrs, errors := [], [];
    var j: nat := 0;
    while j < cs.numEventAttrs
      invariant j <= cs.numEventAttrs
      invariant attrs == Variants(mem, cs.eventAttributes, j)
      invariant errors == Int32s(mem, cs.errors, j)
    {
      attrs := attrs + [mem[cs.eventAttributes].variants[j]];
      errors := errors + [mem[cs.errors].ints[j]];
      j := j + 1;
    }
  }

  /**
   * GetConditionState: the two strings are converted first, the attribute
   * ids go by the address of their first element; on success the structure
   * is decoded, each sub-condition name, definition and description string
   * is freed as it is read, and the structure itself is freed last.
   */
  method GetConditionState(source: string, conditionName: string, attributeIDs: seq<uint32>,
                           reply: ConditionStateReply, mem: Mem)
    returns (call: Option<ServerCall>, state: Option<ConditionState>, err: Option<Error>, frees: seq<Ptr>)
    requires !Failed(reply.hr) ==> ReadableConditionState(mem, reply.state)
    ensures HasNul(source) || HasNul(conditionName) ==>
              call == None && state == None && err == Some(InvalidString) && frees == []
    ensures !(HasNul(source) || HasNul(conditionName)) ==>
              call == Some(GetConditionStateCall(source, conditionName, |attributeIDs|, SlicePtr(attributeIDs)))
    ensures call.Some? && Failed(reply.hr) ==> state == None && err == Some(Errno(reply.hr)) && frees == []
    ensures call.Some? && !Failed(reply.hr) ==>
              && err == None
              && state == Some(DecodeConditionState(mem, mem[reply.state].cs))
              && frees == ConditionStateFrees(mem, reply.state)
  {
    if HasNul(source) || HasNul(conditionName) {
      return None, None, Some(InvalidString), [];
    }
    call := Some(GetConditionStateCall(source, conditionName, |attributeIDs|, SlicePtr(attributeIDs)));
    if Failed(reply.hr) {
      return call, None, Some(Errno(reply.hr)), [];
    }
    var cs := mem[reply.state].cs;
    var names, defs, sevs, descs;
    names, defs, sevs, descs, frees := DecodeSubConditions(mem, cs);
    var attrs, errors := DecodeEventAttributes(mem, cs);
    state := Some(ConditionState(
      cs.state, cs.reserved1,
      ReadString(mem, cs.activeSubCondition), ReadString(mem, cs.ascDefinition), cs.ascSeverity,
      ReadString(mem, cs.ascDescription), cs.quality, cs.reserved2,
      UnixNanos(cs.lastAckTime), UnixNanos(cs.subCondLastActive),
      UnixNanos(cs.condLastActive), UnixNanos(cs.condLastInactive),
      ReadString(mem, cs.acknowledgerID), ReadString(mem, cs.comment),
      cs.numSCs, names, defs, sevs, descs, cs.numEventAttrs, attrs, errors));
    frees := frees + [reply.state];
    err := None;
  }

  /** The buffers of a condition state that GetConditionState never frees. */
  function ConditionStateLeaks(cs: RawConditionState): set<Ptr> {
    {cs.activeSubCondition, cs.ascDefinition, cs.ascDescription, cs.acknowledgerID, cs.comment,
     cs.scNames, cs.scDefinitions, cs.scSeverities, cs.scDescriptions, cs.eventAttributes, cs.errors} - {Nil}
  }

  /**
   * When the server allocated every buffer separately, GetConditionState
   * frees the structure and every sub-condition string, and none of the
   * five top-level strings nor the six arrays.
   */
  lemma GetConditionStateLeaks(mem: Mem, p: Ptr)
    requires ReadableConditionState(mem, p)
    requires var cs := mem[p].cs;
             forall q :: q in ConditionStateLeaks(cs) ==>
               && q != p
               && q !in StringPtrs(mem, cs.scNames, cs.numSCs)
               && q !in StringPtrs(mem, cs.scDefinitions, cs.numSCs)
               && q !in StringPtrs(mem, cs.scDescriptions, cs.numSCs)
    ensures var cs := mem[p].cs;
            forall q :: q in ConditionStateFrees(mem, p) <==>
              || q == p
              || q in StringPtrs(mem, cs.scNames, cs.numSCs)
              || q in StringPtrs(mem, cs.scDefinitions, cs.numSCs)
              || q in StringPtrs(mem, cs.scDescriptions, cs.numSCs)
    ensures forall q :: q in ConditionStateLeaks(mem[p].cs) ==> q !in ConditionStateFrees(mem, p)
  {
    var cs := mem[p].cs;
    Interleave3Members(StringPtrs(mem, cs.scNames, cs.numSCs), StringPtrs(mem, cs.scDefinitions, cs.numSCs),
                       StringPtrs(mem, cs.scDescriptions, cs.numSCs));
  }

  // ---------------------------------------------------------------------
  // AckCondition

  /** The per-source result the client keeps: a failure code as is, any success code as 0. */
  function AckEntry(code: int32): (r: int32)
    ensures code < 0 ==> r == code
    ensures code >= 0 ==> r == 0
  {
    if code < 0 then code else 0
  }

  /**
   * AckCondition: the count is the number of sources (as a DWORD), the
   * lists go by the address of their first element, nil when there are no
   * sources; on success one entry per source, failures kept and successes
   * cleared, and the error array freed.
   */
  method AckCondition(acknowledgerID: string, comment: string, sources: seq<string>, conditionNames: seq<string>,
                      activeTimes: seq<int64>, cookies: seq<uint32>, reply: AckReply, mem: Mem)
    returns (call: ServerCall, errors: seq<int32>, err: Option<Error>, frees: seq<Ptr>)
    requires !HasNul(acknowledgerID) && !HasNul(comment)
    requires |sources| > 0 ==> |conditionNames| > 0 && |activeTimes| > 0 && |cookies| > 0
    requires !Failed(reply.hr) ==> Int32Array(mem, reply.errors, WrapU32(|sources|))
    ensures call == AckConditionCall(WrapU32(|sources|), acknowledgerID, comment,
                                     if sources == [] then None else Some(sources),
                                     if sources == [] then None else Some(conditionNames),
                                     if sources == [] then None else Some(activeTimes),
                                     if sources == [] then None else Some(cookies))
    ensures Failed(reply.hr) ==> err == Some(Errno(reply.hr)) && errors == [] && frees == []
    ensures !Failed(reply.hr) ==>
              && err == None
              && |errors| == WrapU32(|sources|)
              && (forall i :: 0 <= i < |errors| ==> errors[i] == AckEntry(Int32s(mem, reply.errors, |errors|)[i]))
              && frees == [reply.errors]
  {
    var count: uint32 := 0;
    var pSources, pNames, pTimes, pCookies := None, None, None, None;
    if |sources| > 0 {
      count := WrapU32(|sources|);
      pSources, pNames, pTimes, pCookies := Some(sources), Some(conditionNames), Some(activeTimes), Some(cookies);
    }
    call := AckConditionCall(count, acknowledgerID, comment, pSources, pNames, pTimes, pCookies);
    if Failed(reply.hr) {
      return call, [], Some(Errno(reply.hr)), [];
    }
    errors := [];
    var i: nat := 0;
    while i < count
      invariant i <= count
      invariant |errors| == i
      invariant forall k :: 0 <= k < i ==> errors[k] == AckEntry(Int32s(mem, reply.errors, count)[k])
    {
      var code := mem[reply.errors].ints[i];
      errors := errors + [if code < 0 then code else 0];
      i := i + 1;
    }
    frees := [reply.errors];
    err := None;
  }
}
