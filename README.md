# OPC Alarms & Events client, modelled in Dafny

This project models the client side of an OPC Alarms & Events (A&E) library in Go. The client:

- talks to a COM `IOPCEventServer`;
- creates event subscriptions managed through `IOPCEventSubscriptionMgt`;
- receives events through an `IOPCEventSink` callback object that it implements itself.

The model covers five layers:

- **Bit-mask codecs** (`types.dfy`, module `Types`). Filter masks, event-type masks and change masks are converted to and from ordered lists of flag constants. A mask is the set of its bit positions, so bitwise AND is intersection and OR is union.
- **Windows scalar types** (`win.dfy`, module `Win`). Fixed-width integers with explicit wrap-around, GUIDs, result codes, and the FILETIME to Unix-nanosecond conversion.
- **Foreign memory** (`memory.dfy`, module `Memory`). A map from buffer identities to the blocks the server allocated. Readers take the first *n* elements of a counted array; a nil string reads as "".
- **Out-parameter decoders** (`event_server_com.dfy`, `subscription_mgt_com.dfy`). Each wrapper receives the server's reply (result code, counts, buffer identities) and the memory. It returns:
  - the call it made;
  - the values it decoded;
  - its error;
  - the ordered list of pointers it passed to `CoTaskMemFree`.
- **Client objects** (`sink.dfy`, `subscription.dfy`, `server.dfy`, with the call log in `remote.dfy`):
  - the event sink, with its reference count, `QueryInterface` and the `OnEvent` batch decoder feeding a receiver queue;
  - the subscription controller;
  - the server façade, with its handle counter, its record-shaping loops and `Disconnect`.

  Every call these objects make on a remote COM object is appended to one `CallLog`. Contracts therefore state the exact order of calls, including which objects are released when construction fails.

Result codes follow the code:

- `IOPCEventServer` methods fail when `int32(r0) < 0` (`EventServerCom.Failed`).
- `IOPCEventSubscriptionMgt` methods fail when `r0 != 0` (`SubscriptionMgtCom.Failed`).

## Model

| member | source | states |
|---|---|---|
| Win.Wrap32 | opceventsink.go:60-70 | the int32 wrap-around used by `ref++`/`ref--`: identity inside the range, congruent modulo 2^32 outside it |
| Win.UnixNanos | opceventsink.go:164-174 | `Filetime.Nanoseconds`: the nanoseconds between the Unix epoch and the FILETIME instant, exact whenever that fits an int64 and congruent to it modulo 2^64 otherwise |
| Win.UnixNanosRoundTrip | opceventsink.go:164 | the FILETIME-to-Unix-nanosecond conversion used for `Time` and `ActiveTime` gives back every instant on a 100 ns boundary that a server stores |
| Types.Select | types.go:21-28 | the generic flag scan: keeps exactly the flags that meet the mask, in flag-list order, as a subsequence of the list |
| Types.SubsequenceMembers | types.go:21-28 | every element of an ordered sub-list is an element of the flag list |
| Types.SubsequenceLength | types.go:21-28 | an ordered sub-list is no longer than the flag list |
| Types.UnionContains | types.go:30-35 | every flag of a list lies within the OR of the list |
| Types.UnionMonotonic | types.go:53-58 | OR-ing a list whose flags all lie in another list's flags yields a subset of that list's OR |
| Types.UnionAppend | types.go:53-58 | the OR of a concatenation is the union of the two ORs |
| Types.MeetsUnion | types.go:60-72 | a flag meets the OR of a list exactly when it meets some element of the list |
| Types.SelectAgree | types.go:21-28 | two masks that agree on every flag of the list give the same scan |
| Types.UnionSelect | types.go:21-35 | for single-bit, pairwise distinct flags, the OR of the scan is the mask restricted to the flags' bits |
| Types.SelectUnion | types.go:21-35 | for single-bit, pairwise distinct flags, scanning the OR of an ordered sub-list gives that sub-list back |
| Types.SelectAppend | types.go:60-72 | scanning against a concatenated flag list concatenates the two scans |
| Types.MarshalFilter | types.go:30-35 | the OR of the filters: 0 for the empty list, and every listed filter lies within the result |
| Types.ParseFilter | types.go:21-28 | returns exactly the filter constants whose bit is set, in ascending order 0x1..0x10, without duplicates, at most five |
| Types.FilterListFacts | types.go:6-19 | the five filter constants are single, distinct bits whose OR is 0x1F |
| Types.ParseFilterIgnoresHighBits | types.go:21-28 | bits outside 0x1F do not change the result: `ParseFilter(m) == ParseFilter(m & 0x1F)` |
| Types.MarshalParseFilter | types.go:21-35 | `MarshalFilter(ParseFilter(m)) == m & 0x1F` |
| Types.ParseMarshalFilter | types.go:21-35 | an ascending list of filter constants survives marshalling and parsing |
| Types.MarshalEventCategoryType | types.go:53-58 | the OR of the list: 0 for the empty list, and every listed kind lies within the result |
| Types.MarshalEventCategoryTypeSetOnly | types.go:53-58 | the result depends only on which kinds are listed, not on their order or on duplicates |
| Types.UnmarshalEventCategoryType | types.go:60-72 | lists SIMPLE, TRACKING and CONDITION for their set bits, in that order, then appends OPC_ALL_EVENTS whenever `c & 0x7 != 0` |
| Types.UnmarshalAllEvents | types.go:60-72 | `UnmarshalEventCategoryType(0x7)` is the four-element list SIMPLE, TRACKING, CONDITION, ALL |
| Types.RemarshalEventCategoryType | types.go:53-72 | re-marshalling is not the identity: the result is 0x7 when `c & 0x7 != 0` and 0 otherwise |
| Types.ParseChangeMask | types.go:98-105 | returns exactly the change flags whose bit is set, in ascending order 0x01..0x80, at most eight |
| Types.MarshalChangeMask | types.go:74-96 | the program has no change-mask encoder; this is the reference encoder over the change-flag constants, the inverse that ParseChangeMask is proved against and that Sink.EncodeEvent uses: the OR of the flags, containing every listed flag |
| Types.ChangeMaskListFacts | types.go:76-96 | the eight change flags are single, distinct bits whose OR is 0xFF |
| Types.MarshalParseChangeMask | types.go:98-105 | the bits are independent: the OR of the parsed list is `m & 0xFF` |
| Types.ParseMarshalChangeMask | types.go:98-105 | an ascending list of change flags survives marshalling and parsing |
| Memory.Strings | aecom/IOPCEventServer.go:186-197 | reading a counted LPWSTR array gives exactly `n` strings, nil read as "" |
| Memory.PutStringsReads | aecom/IOPCEventServer.go:186-197 | storing strings at distinct pointers lets each one be read back |
| Memory.ReadBackStrings | aecom/IOPCEventServer.go:186-197 | a string array laid out by a server reads back as the same pointers and the same strings |
| EventServerCom.SlicePtr | aecom/IOPCEventServer.go:363-366 | a slice passed by the address of its first element is nil exactly when empty |
| EventServerCom.CreateEventSubscription | aecom/IOPCEventServer.go:126-143 | the error is set exactly when the result code is negative; the interface and the revised values are returned unchanged either way |
| EventServerCom.QueryAvailableFilters | aecom/IOPCEventServer.go:149-160 | the server's mask is returned, with the error `Errno(r0)` exactly when the result code is negative |
| EventServerCom.QueryEventCategories | aecom/IOPCEventServer.go:170-199 | on failure nothing is decoded or freed; on success `count` ids and descriptions in server order, each description freed once, then both arrays |
| EventServerCom.DecodeNames | aecom/IOPCEventServer.go:221-228 | the shared name loop: `count` names in order, each freed once, then the array |
| EventServerCom.QueryConditionNames | aecom/IOPCEventServer.go:207-229 | `count` names in order; each name and then the array freed once; nothing on failure |
| EventServerCom.QuerySubConditionNames | aecom/IOPCEventServer.go:236-262 | a name holding NUL fails before the call; otherwise as QueryConditionNames |
| EventServerCom.QuerySourceConditions | aecom/IOPCEventServer.go:269-295 | a source holding NUL fails before the call; otherwise as QueryConditionNames |
| EventServerCom.QueryEventAttributes | aecom/IOPCEventServer.go:303-337 | three parallel slices of equal length `count` in server order; descriptions freed, then the three arrays |
| EventServerCom.Interleave2Snoc | aecom/IOPCEventServer.go:396-404 | the per-element free order of two arrays grows by one pair per iteration |
| EventServerCom.DecodeItemIDs | aecom/IOPCEventServer.go:388-405 | the decoding loop for a given count: strings and GUIDs in order, item id and node name freed in turn, then the three arrays |
| EventServerCom.TranslateToItemIDs | aecom/IOPCEventServer.go:349-406 | as written: the count is never passed to the server, so success always yields three empty results and frees only the three arrays |
| EventServerCom.TranslateToItemIDsCorrected | aecom/IOPCEventServer.go:349-406 | with the count of requested attributes: three results of that length in server order, strings freed in turn, then the arrays |
| EventServerCom.LostItemID | aecom/IOPCEventServer.go:367-396 | a server answering one item id: the as-written decoder returns nothing, the corrected one returns it |
| EventServerCom.DecodeConditionState | aecom/IOPCEventServer.go:459-482 | the four sub-condition lists have length NumSCs, attributes and errors have length NumEventAttrs |
| EventServerCom.Interleave3Snoc | aecom/IOPCEventServer.go:541-552 | the per-sub-condition free order grows by one triple per iteration |
| EventServerCom.Interleave3Members | aecom/IOPCEventServer.go:541-552 | a pointer is freed by the sub-condition loop exactly when it is one of the sub-condition strings |
| EventServerCom.DecodeSubConditions | aecom/IOPCEventServer.go:537-552 | the sub-condition loop: four lists in order, name, definition and description strings freed in turn |
| EventServerCom.DecodeEventAttributes | aecom/IOPCEventServer.go:553-560 | the attribute loop: NumEventAttrs attributes and errors in order |
| EventServerCom.GetConditionState | aecom/IOPCEventServer.go:490-562 | NUL in an argument fails before the call; failure decodes and frees nothing; success decodes the structure and frees exactly the sub-condition strings, then the structure |
| EventServerCom.GetConditionStateLeaks | aecom/IOPCEventServer.go:518-560 | with separately allocated buffers, the freed pointers are the structure and the sub-condition strings, and no top-level string or array is ever freed |
| EventServerCom.AckEntry | aecom/IOPCEventServer.go:689-695 | a failure code is kept, any success code becomes 0 |
| EventServerCom.AckCondition | aecom/IOPCEventServer.go:661-697 | count is the number of sources and the lists are nil when there are none; on success one entry per source, failures kept and successes 0, then the error array freed |
| SubscriptionMgtCom.ResultCodeTests | aecom/IOPCEventSubscriptionMgt.go:82-84 | any non-zero code fails here, so S_FALSE fails here but succeeds for the server interface, and every server-side failure fails here too |
| SubscriptionMgtCom.ErrorOf | aecom/IOPCEventSubscriptionMgt.go:194-196 | an error exactly for a non-zero result code, carrying that code |
| SubscriptionMgtCom.ConvertAll | aecom/IOPCEventSubscriptionMgt.go:50-69 | the conversion loop fails exactly when some string holds NUL, otherwise keeps every string in order |
| SubscriptionMgtCom.SetFilter | aecom/IOPCEventSubscriptionMgt.go:48-86 | a NUL in an area or source fails before any call; otherwise the counts are the list lengths, empty lists go as nil, and the categories go by their first element, which must then exist |
| SubscriptionMgtCom.DecodeStrings | aecom/IOPCEventSubscriptionMgt.go:123-134 | the area/source loop: `n` strings in order, each freed once |
| SubscriptionMgtCom.GetFilter | aecom/IOPCEventSubscriptionMgt.go:99-136 | event type and severities as the server wrote them; on failure nothing decoded or freed; on success the three lists with the server's counts, in order, area then source strings freed |
| SubscriptionMgtCom.GetFilterLeaksArrays | aecom/IOPCEventSubscriptionMgt.go:119-135 | the freed pointers are exactly the area and source strings; the three arrays are never freed |
| SubscriptionMgtCom.SelectReturnedAttributes | aecom/IOPCEventSubscriptionMgt.go:142-158 | count is the list length and the pointer is nil exactly when the list is empty |
| SubscriptionMgtCom.GetReturnedAttributes | aecom/IOPCEventSubscriptionMgt.go:164-183 | `count` ids in server order on success, none on failure; the array is never freed |
| SubscriptionMgtCom.Refresh | aecom/IOPCEventSubscriptionMgt.go:188-198 | the connection given is the one sent; the error follows the non-zero test |
| SubscriptionMgtCom.CancelRefresh | aecom/IOPCEventSubscriptionMgt.go:203-213 | the connection given is the one sent; the error follows the non-zero test |
| SubscriptionMgtCom.GetState | aecom/IOPCEventSubscriptionMgt.go:220-236 | active is true exactly on success with a non-zero BOOL; the other values are what the server wrote |
| SubscriptionMgtCom.SetState | aecom/IOPCEventSubscriptionMgt.go:245-260 | the three optional values are forwarded untouched, absent as nil; the revised values are returned on failure too |
| Sink.DecodeEvent | opceventsink.go:160-183 | change mask parsed into its flags, AckReq true exactly when non-zero, both times by the same conversion, exactly NumAttrs attributes |
| Sink.DecodeBatch | opceventsink.go:152-184 | client handle copied, Refresh and LastRefresh set independently from non-zero, exactly `count` events, entry i decoded from record i |
| Sink.DecodeEncodeEvent | opceventsink.go:157-184 | every event a server can send (flags in order, times on a tick) is received unchanged |
| Sink.Receiver.constructor | opceventsubscription.go:42 | a channel with the given buffer size, empty |
| Sink.Receiver.Send | opceventsink.go:185 | the batch is queued after every earlier one |
| Sink.Receiver.Receive | opceventsink.go:185 | batches leave in the order they were sent |
| Sink.Uintptr | opceventsink.go:63 | `uintptr` of the int32 count: the same value when non-negative, equal modulo 2^32 always |
| Sink.AddRefRelease | opceventsink.go:60-70 | AddRef followed by Release, or Release followed by AddRef, restores the count, across the wrap-around too |
| Sink.EventSink.constructor | opceventsink.go:33-47 | a new sink has count 0, answers for IOPCEventSink and keeps the given receiver |
| Sink.EventSink.AddRef | opceventsink.go:60-64 | the count goes up by one with int32 wrap-around and the new value is returned |
| Sink.EventSink.Release | opceventsink.go:66-70 | the count goes down by one with int32 wrap-around, the new value is returned, nothing is freed |
| Sink.EventSink.QueryInterface | opceventsink.go:49-58 | for its own interface or IUnknown: S_OK, itself and one more reference; otherwise E_POINTER, nil and the count unchanged |
| Sink.EventSink.DecodeAttributes | opceventsink.go:179-183 | the attribute loop reads exactly `n` attributes in raw order |
| Sink.EventSink.OnEvent | opceventsink.go:150-187 | exactly one batch, the decoding of all `count` records, is appended to the receiver, and S_OK is returned |
| Remote.CallLog.Record | opceventsubscription.go:23-46 | each remote call is appended to the log in the order made |
| Subscription.ComBool | opceventsubscription.go:69 | the COM BOOL is non-zero exactly for true |
| Subscription.ConstructionError | opceventsubscription.go:21-58 | construction fails with the error of the first of QueryInterface, FindConnectionPoint and Advise that fails |
| Subscription.Teardown | opceventsubscription.go:113-118 | the teardown is Unadvise, then release of the point, then release of the container |
| Subscription.EventSubscription.New | opceventsubscription.go:21-58 | on QueryInterface failure only that call; on FindConnectionPoint failure the container is released; on Advise failure the point, then the container, are released; on success the subscription holds the Advise cookie, the client handle and a fresh sink with a receiver of the requested size |
| Subscription.EventSubscription.SetActive | opceventsubscription.go:68-72 | SetState with only the active flag, and this subscription's client handle |
| Subscription.EventSubscription.SetBufferTime | opceventsubscription.go:74-77 | SetState with only the buffer time; the revised buffer time comes back |
| Subscription.EventSubscription.SetMaxSize | opceventsubscription.go:79-82 | SetState with only the maximum size; the revised maximum size comes back |
| Subscription.EventSubscription.SetFilter | opceventsubscription.go:84-86 | sends the OR of the event kinds and every other argument unchanged |
| Subscription.EventSubscription.GetFilter | opceventsubscription.go:88-91 | the server's event-type mask comes back unmarshalled, the other fields unchanged |
| Subscription.EventSubscription.SelectReturnedAttributes | opceventsubscription.go:93-95 | forwards to the subscription interface |
| Subscription.EventSubscription.GetReturnedAttributes | opceventsubscription.go:97-99 | forwards to the subscription interface |
| Subscription.EventSubscription.Refresh | opceventsubscription.go:101-103 | passes the Advise cookie, not the client handle |
| Subscription.EventSubscription.CancelRefresh | opceventsubscription.go:105-107 | passes the Advise cookie, not the client handle |
| Subscription.EventSubscription.Release | opceventsubscription.go:113-118 | Unadvise with the cookie, then point and container released whatever Unadvise answered; its error is returned |
| Server.Handles | opceventserver.go:72 | the handles successive calls receive; the first is the counter plus one, with 32-bit wrap-around |
| Server.HandlesCountUp | opceventserver.go:72 | away from the wrap-around the handles count up by one |
| Server.HandlesDistinct | opceventserver.go:72-73 | a fresh server hands out 1, 2, 3, ..., pairwise distinct for fewer than 2^32 calls |
| Server.ZipCategories | opceventserver.go:103-110 | one record per id, pairing element i of both arrays |
| Server.ZipAttributes | opceventserver.go:137-145 | one record per id, pairing element i of the three arrays |
| Server.ZipItemIDs | opceventserver.go:159-167 | one record per item id, pairing element i of the three arrays |
| Server.Teardowns | opceventserver.go:179-181 | three teardown calls per subscription, in list order |
| Server.EventServer.constructor | opceventserver.go:53-59 | a connected server has handle counter 0 and no subscriptions |
| Server.EventServer.CreateEventSubscription | opceventserver.go:71-82 | the counter moves on by one before the server is asked and the new value is the handle sent, even on failure; failure returns nil, 0, 0 and the error; the subscription list is never appended to |
| Server.EventServer.QueryAvailableFilters | opceventserver.go:84-90 | the filters parsed from the server's mask and no error on success; no filters and `Errno(r0)` on a negative result code |
| Server.EventServer.QueryEventCategories | opceventserver.go:97-111 | sends the OR of the kinds; one record per id, pairing id i with description i |
| Server.EventServer.QueryConditionNames | opceventserver.go:113-116 | sends the OR of the kinds; the names as decoded |
| Server.EventServer.QueryEventAttributes | opceventserver.go:132-146 | one record per id, pairing element i of the three arrays |
| Server.EventServer.TranslateToItemIDs | opceventserver.go:154-168 | one record per returned item id, pairing element i of the three arrays (through the corrected decoder) |
| Server.EventServer.Disconnect | opceventserver.go:178-184 | every held subscription is taken down in order, then the server is released; the result is always nil |

## Left out

- COM activation and connection (`ConnectEventServer`, `MakeCOMObjectEx`), `syscall.SyscallN`, vtables and callback trampolines are not modelled. Remote objects are identities and every remote call is an entry in `Remote.CallLog`. The result of each foreign call is a parameter: a reply datatype for the wrappers, `Remote.Outcome` for QueryInterface, FindConnectionPoint and Advise, and the Unadvise results for Release and Disconnect.
- Struct layout and pointer arithmetic are not modelled. Foreign arrays are sequences in `Memory.Mem`, indexed by position.
- `com.VARIANT.Value()` is not modelled. Attribute values stay in their wire form (`Win.Variant`).
- UTF-16 conversion is abstract. Strings are `seq<char>`. Conversion to UTF-16 fails exactly when the string holds NUL, and a nil string reads as "".
- Concurrency is not modelled: the atomicity of the handle counter, the unsynchronised reference count, and a receiver blocking on a full channel. A send requires room in the receiver's buffer, so an unbuffered channel (size 0) is never sent to in this model.
- `CoTaskMemFree` calls are stated per wrapper, as its `frees` list. The façade methods do not repeat them.
- `GetStatus`, `CreateAreaBrowser`, the area browser and `EnableCondition*`/`DisableCondition*` are not modelled. The one-line forwards `QuerySourceConditions`, `QuerySubConditionNames` and `GetState` of the façade objects, and `GetClientHandle` and `GetReceiver`, are not modelled either; the wrappers they forward to are.
- `EventServerCom.AckCondition` records the lists it passes, but not the memory layout they are passed in. The code passes Go string and `time.Time` slices by their first element, not LPWSTR and FILETIME arrays.
- `EventServerCom.AckCondition` requires that the acknowledger id and the comment hold no NUL, because `syscall.StringToUTF16Ptr` panics on one. It also requires the other three lists to be non-empty when there are sources, because the code indexes their first elements.
- `SubscriptionMgtCom.SetFilter` requires a non-empty category list only when both string lists convert. This is exactly when the code reaches `&eventCategories[0]`.
- The receiver's element type keeps no `*` pointers. Batches and events are values, so aliasing between them is not modelled.
- Subscription.EventSubscription.New: the server's own calls into the sink are not modelled (its QueryInterface and AddRef while it keeps the sink during Advise, its Release after Unadvise), so on success `ref` is 0: it counts only the AddRef, Release and QueryInterface calls the model makes, not the references the server holds.
- Server.HandlesDistinct: distinctness is stated for fewer than 2^32 calls; after that the 32-bit counter wraps and handles repeat.
- The server object holds no name, node, location or `IOPCCommon` interface, because no modelled operation uses them.
- Server.EventServer.TranslateToItemIDs: uses the corrected decoder `EventServerCom.TranslateToItemIDsCorrected`, not the code as written. The as-written behaviour is kept in `EventServerCom.TranslateToItemIDs` (see Findings).

## Findings

| source | as written | input that shows it | evidently intended | confidence | as-written member | corrected member |
|---|---|---|---|---|---|---|
| aecom/IOPCEventServer.go:367-396 | the local `pdwCount` that sizes the result slices is declared but never set to the `dwCount` the code passes (`len(assocAttrIDs)`), so the slices are made with length 0 and the item ids the server returns are dropped (and their strings never freed) | any successful call with one requested attribute, where the server answers one item id "Tank1.Level" | decode as many item ids, node names and CLSIDs as the server returned (the number of requested attributes) | not executed | EventServerCom.TranslateToItemIDs, EventServerCom.LostItemID | EventServerCom.TranslateToItemIDsCorrected |
