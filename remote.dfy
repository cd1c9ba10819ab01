/**
 * The remote COM objects as the client sees them: every call the client
 * makes on the server, the subscription, its connection-point container
 * and its connection point is appended to one ordered log.
 */
module Remote {
  import opened Win
  import Sink
  import EventServerCom
  import SubscriptionMgtCom

  datatype Call =
    | QueryInterfaceCall(obj: ComObj, iid: Guid)
    | FindConnectionPointCall(container: ComObj, iid: Guid)
    | AdviseCall(point: ComObj, sink: Sink.EventSink)
    | UnadviseCall(point: ComObj, cookie: uint32)
    | ReleaseCall(obj: ComObj)
    | ToSubscription(obj: ComObj, request: SubscriptionMgtCom.MgtCall)
    | ToServer(obj: ComObj, call: EventServerCom.ServerCall)

  /** A foreign call that either fails or hands back a value. */
  datatype Outcome<T> = Outcome(err: Option<Error>, value: T)

  class CallLog {
    var calls: seq<Call>

    constructor ()
      ensures calls == []
    {
      calls := [];
    }

    method Record(c: Call)
      modifies this
      ensures calls == old(calls) + [c]
    {
      calls := calls + [c];
    }
  }
}
