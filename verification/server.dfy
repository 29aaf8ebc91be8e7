/**
 The service as a whole: the dataset loaded once at start-up and five of
 its six POST routes (the clock-reading `get_current_datetime` is left out)
 served against it. Serving a call yields a response and the
 server state after the call. No route writes to the orders, so `Serve`
 passes the state through by construction; the lemmas below carry that over
 any run of calls, which makes every call repeatable.
 */
module Server {
  import opened Json
  import opened OrderLookup
  import opened Handlers

  /** The dataset file at start-up: absent, or present with its `orders` array. */
  datatype DatasetFile = FileMissing | FileLoaded(orders: seq<Value>)

  /** Everything a request can observe: the orders loaded at start-up. */
  datatype State = State(orders: seq<Value>)

  /** A POST to one of the modelled routes, with its parsed JSON body. */
  datatype Call =
    | CheckOrderStatusRoute(body: Value)
    | CancelOrderRoute(body: Value)
    | RequestRefundRoute(body: Value)
    | CreateTicketRoute(body: Value)
    | LogCallRoute(body: Value)

  datatype Response =
    | StatusResponse(status: Outcome<StatusReply>)
    | CancelResponse(cancel: Outcome<CancelReply>)
    | RefundResponse(refund: Outcome<RefundReply>)
    | TicketResponse(ticket: Outcome<Ticket>)
    | LogResponse(log: CallLog)

  /** Module start-up: a missing dataset file falls back to no orders at all. */
  function Start(file: DatasetFile): (r: State)
    ensures file.FileLoaded? ==> r.orders == file.orders
    ensures file.FileMissing? ==> forall id :: Find(r.orders, id) == NotFound
  {
    match file
    case FileMissing => State([])
    case FileLoaded(orders) => State(orders)
  }

  /** Route one call to its handler; the state passes through untouched. */
  function Serve(s: State, c: Call): (r: (Response, State)) {
    var response := match c
      case CheckOrderStatusRoute(body) => StatusResponse(CheckOrderStatus(s.orders, body))
      case CancelOrderRoute(body) => CancelResponse(CancelOrder(s.orders, body))
      case RequestRefundRoute(body) => RefundResponse(RequestRefund(s.orders, body))
      case CreateTicketRoute(body) => TicketResponse(CreateTicket(body))
      case LogCallRoute(body) => LogResponse(LogCall(body));
    (response, s)
  }

  /** Serve a sequence of calls one after another, threading the state. */
  function Run(s: State, calls: seq<Call>): (r: (seq<Response>, State))
    decreases |calls|
  {
    if |calls| == 0 then ([], s)
    else
      var (first, s') := Serve(s, calls[0]);
      var (rest, final) := Run(s', calls[1..]);
      ([first] + rest, final)
  }

  /**
   However many calls are served, the orders end as they started, and each
   response is the one that call gets from the freshly started state.
   */
  lemma {:induction false} RunIsReadOnly(s: State, calls: seq<Call>)
    ensures Run(s, calls).1 == s
    ensures |Run(s, calls).0| == |calls|
    ensures forall i :: 0 <= i < |calls| ==> Run(s, calls).0[i] == Serve(s, calls[i]).0
  {
    if |calls| > 0 {
      RunIsReadOnly(s, calls[1..]);
      var rest := Run(s, calls[1..]).0;
      assert Run(s, calls).0 == [Serve(s, calls[0]).0] + rest;
      forall i | 1 <= i < |calls| ensures Run(s, calls).0[i] == Serve(s, calls[i]).0 {
        assert Run(s, calls).0[i] == rest[i - 1];
        assert calls[1..][i - 1] == calls[i];
      }
    }
  }

  /** Repeating a call after any history gets the same response as the first time. */
  lemma RepeatedCallSameResponse(s: State, history: seq<Call>, c: Call)
    ensures var calls := [c] + history + [c];
      |Run(s, calls).0| == |calls| && Run(s, calls).0[0] == Run(s, calls).0[|calls| - 1]
  {
    var calls := [c] + history + [c];
    RunIsReadOnly(s, calls);
    assert calls[0] == c && calls[|calls| - 1] == c;
  }

  /** `create_ticket` and `log_call` ignore the orders and cannot be refused. */
  lemma TicketAndLogIgnoreOrders(s1: State, s2: State, body: Value)
    ensures Serve(s1, CreateTicketRoute(body)).0 == Serve(s2, CreateTicketRoute(body)).0
    ensures Serve(s1, LogCallRoute(body)).0 == LogResponse(CallLog(body))
    ensures !Serve(s1, CreateTicketRoute(body)).0.ticket.OrderNotFound?
  {
  }

  /** Without a dataset file, every order route answers not-found for a dict body. */
  lemma MissingDatasetFindsNothing(body: Value)
    requires body.Object?
    ensures Serve(Start(FileMissing), CheckOrderStatusRoute(body)).0 == StatusResponse(OrderNotFound)
    ensures Serve(Start(FileMissing), CancelOrderRoute(body)).0 == CancelResponse(OrderNotFound)
    ensures ReasonUsable(body) ==>
      Serve(Start(FileMissing), RequestRefundRoute(body)).0 == RefundResponse(OrderNotFound)
  {
    assert PassedBefore([], RequestedId(body), 0);
  }
}
