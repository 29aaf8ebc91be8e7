/**
 The bodies of the order service's POST handlers, as pure functions of the
 parsed request body and the loaded orders. A handler's answer is one of a
 normal reply, the not-found tuple the three order handlers return, or a
 Python exception escaping the handler.
 */
module Handlers {
  import opened Json
  import opened OrderLookup

  /** What a handler hands back to the web framework. */
  datatype Outcome<+T> =
    | Reply(value: T)
    | OrderNotFound
    | Raised(fault: Fault)

  /** The fields `check_order_status` projects from the matched record. */
  datatype StatusReply = OrderStatus(status: Value, vendorName: Value, eta: Value)

  /** The two messages of `cancel_order`, both naming the requested id. */
  datatype CancelReply = Cancelled(orderId: Value) | NotCancellable(orderId: Value)

  /** The two messages of `request_refund`; a refund echoes the lower-cased reason. */
  datatype RefundReply = Refunded(orderId: Value, reason: string) | NotEligible(orderId: Value)

  /** The ticket `create_ticket` echoes back; it is never stored. */
  datatype Ticket = Ticket(issueType: Value, orderId: Value, notes: Value)

  /** The acknowledgement of `log_call`, carrying the body it was given. */
  datatype CallLog = CallLog(data: Value)

  /** `body.get("order_id")`: the requested id, `None` when the key is absent. */
  function RequestedId(body: Value): (r: Value)
    requires body.Object?
  {
    if "order_id" in body.fields then body.fields["order_id"] else Null
  }

  /** `order.get(flag)` followed by Python's truth test. */
  predicate FlagSet(record: map<string, Value>, flag: string) {
    flag in record && Truthy(record[flag])
  }

  /** The shared front half of the three order handlers: read the id, scan. */
  function Locate(orders: seq<Value>, body: Value): (r: Outcome<map<string, Value>>)
    ensures !body.Object? ==> r == Raised(NoAttribute("get", body))
    ensures r.Reply? ==>
      body.Object? && exists k :: FirstMatchAt(orders, RequestedId(body), k) && orders[k] == Object(r.value)
    ensures r.OrderNotFound? <==> body.Object? && PassedBefore(orders, RequestedId(body), |orders|)
    ensures body.Object? && r.Raised? ==>
      exists k :: FirstFaultAt(orders, RequestedId(body), k) && Subscript(orders[k], "order_id") == Err(r.fault)
  {
    match DictGet(body, "order_id", Null)
    case Err(f) => Raised(f)
    case Ok(id) =>
      match Find(orders, id)
      case Failed(f) => Raised(f)
      case NotFound => OrderNotFound
      case Found(_, record) => Reply(record)
  }

  /** `check_order_status`: project status, vendor and ETA of the first match. */
  function CheckOrderStatus(orders: seq<Value>, body: Value): (r: Outcome<StatusReply>)
    ensures !body.Object? ==> r == Raised(NoAttribute("get", body))
    ensures r.OrderNotFound? <==> body.Object? && PassedBefore(orders, RequestedId(body), |orders|)
  {
    match Locate(orders, body)
    case Raised(f) => Raised(f)
    case OrderNotFound => OrderNotFound
    case Reply(record) =>
      if "status" !in record then Raised(MissingKey("status"))
      else if "vendor_name" !in record then Raised(MissingKey("vendor_name"))
      else if "delivery_eta" !in record then Raised(MissingKey("delivery_eta"))
      else Reply(OrderStatus(record["status"], record["vendor_name"], record["delivery_eta"]))
  }

  /** `cancel_order`: the first match's `can_cancel` decides the message. */
  function CancelOrder(orders: seq<Value>, body: Value): (r: Outcome<CancelReply>)
    ensures !body.Object? ==> r == Raised(NoAttribute("get", body))
    ensures r.OrderNotFound? <==> body.Object? && PassedBefore(orders, RequestedId(body), |orders|)
    ensures r.Reply? ==> body.Object? && r.value.orderId == RequestedId(body)
  {
    match Locate(orders, body)
    case Raised(f) => Raised(f)
    case OrderNotFound => OrderNotFound
    case Reply(record) =>
      var id := RequestedId(body);
      if FlagSet(record, "can_cancel") then Reply(Cancelled(id)) else Reply(NotCancellable(id))
  }

  /** `.lower()` succeeds on the refund reason: it is absent or a string. */
  predicate ReasonUsable(body: Value)
    requires body.Object?
  {
    "reason" !in body.fields || body.fields["reason"].Str?
  }

  /** The reason a refund reports: the given string lower-cased, or "" when absent. */
  function GivenReason(body: Value): (r: string)
    requires body.Object? && ReasonUsable(body)
  {
    if "reason" in body.fields then Lower(body.fields["reason"].s) else ""
  }

  /** `body.get("reason", "").lower()`, evaluated before the scan. */
  function ReasonArg(body: Value): (r: Result<string>) {
    match DictGet(body, "reason", Str(""))
    case Err(f) => Err(f)
    case Ok(v) => StrLower(v)
  }

  /** `request_refund`: the first match's `eligible_for_refund` decides the message. */
  function RequestRefund(orders: seq<Value>, body: Value): (r: Outcome<RefundReply>)
    ensures !body.Object? ==> r == Raised(NoAttribute("get", body))
    ensures body.Object? && !ReasonUsable(body) ==>
      r == Raised(NoAttribute("lower", body.fields["reason"]))
    ensures r.OrderNotFound? <==>
      body.Object? && ReasonUsable(body) && PassedBefore(orders, RequestedId(body), |orders|)
    ensures r.Reply? ==> body.Object? && r.value.orderId == RequestedId(body)
  {
    match DictGet(body, "order_id", Null)
    case Err(f) => Raised(f)
    case Ok(_) =>
      match ReasonArg(body)
      case Err(f) => Raised(f)
      case Ok(reason) =>
        match Locate(orders, body)
        case Raised(f) => Raised(f)
        case OrderNotFound => OrderNotFound
        case Reply(record) =>
          var id := RequestedId(body);
          if FlagSet(record, "eligible_for_refund") then Reply(Refunded(id, reason))
          else Reply(NotEligible(id))
  }

  /** `create_ticket`: echo the arguments, `order_id` defaulting to "unknown". */
  function CreateTicket(body: Value): (r: Outcome<Ticket>)
    ensures r.Reply? <==> body.Object?
    ensures !body.Object? ==> r == Raised(NoAttribute("get", body))
    ensures body.Object? && "order_id" !in body.fields ==> r.value.orderId == Str("unknown")
    ensures body.Object? && "order_id" in body.fields ==> r.value.orderId == body.fields["order_id"]
    ensures body.Object? ==>
      r.value.issueType == (if "issue_type" in body.fields then body.fields["issue_type"] else Null)
    ensures body.Object? ==>
      r.value.notes == (if "user_notes" in body.fields then body.fields["user_notes"] else Null)
  {
    match DictGet(body, "issue_type", Null)
    case Err(f) => Raised(f)
    case Ok(issue) =>
      var notes := DictGet(body, "user_notes", Null).value;
      var id := DictGet(body, "order_id", Str("unknown")).value;
      Reply(Ticket(issue, id, notes))
  }

  /** `log_call`: acknowledge and hand the body straight back. */
  function LogCall(body: Value): (r: CallLog)
    ensures r.data == body
  {
    CallLog(body)
  }

  /** No record of the dataset carries `id` as its `order_id`. */
  predicate NoRecordHas(orders: seq<Value>, id: Value) {
    forall j :: 0 <= j < |orders| ==> !IdMatches(orders[j], id)
  }

  /**
   Over a dataset of well-formed records, the three order handlers answer
   not-found exactly when no record has the requested id, and never raise
   while looking.
   */
  lemma NotFoundTotality(orders: seq<Value>, body: Value)
    requires body.Object?
    requires WellFormed(orders)
    ensures CheckOrderStatus(orders, body).OrderNotFound? <==> NoRecordHas(orders, RequestedId(body))
    ensures CancelOrder(orders, body).OrderNotFound? <==> NoRecordHas(orders, RequestedId(body))
    ensures !CancelOrder(orders, body).Raised?
    ensures ReasonUsable(body) ==>
      (RequestRefund(orders, body).OrderNotFound? <==> NoRecordHas(orders, RequestedId(body)))
    ensures ReasonUsable(body) ==> !RequestRefund(orders, body).Raised?
  {
    WellFormedNeverFails(orders, RequestedId(body));
  }

  /** A body without `order_id` asks for `None`, which no record with a real id has. */
  lemma AbsentIdNotFound(orders: seq<Value>, body: Value)
    requires body.Object? && "order_id" !in body.fields
    requires WellFormed(orders)
    requires forall j :: 0 <= j < |orders| ==> orders[j].fields["order_id"] != Null
    ensures CheckOrderStatus(orders, body) == OrderNotFound
    ensures CancelOrder(orders, body) == OrderNotFound
    ensures ReasonUsable(body) ==> RequestRefund(orders, body) == OrderNotFound
  {
    forall j | 0 <= j < |orders| ensures !IdMatches(orders[j], Null) {
      assert !PyEq(orders[j].fields["order_id"], Null);
    }
    NotFoundTotality(orders, body);
  }

  /**
   When a record before any match is not a dict or lacks `order_id`, the
   three order handlers raise that record's fault (refund once its reason
   has been lower-cased).
   */
  lemma ScanFaultRaises(orders: seq<Value>, body: Value, k: int)
    requires body.Object? && FirstFaultAt(orders, RequestedId(body), k)
    ensures CheckOrderStatus(orders, body) == Raised(Subscript(orders[k], "order_id").fault)
    ensures CancelOrder(orders, body) == Raised(Subscript(orders[k], "order_id").fault)
    ensures ReasonUsable(body) ==>
      RequestRefund(orders, body) == Raised(Subscript(orders[k], "order_id").fault)
  {
    var id := RequestedId(body);
    DescribesUnique(orders, id, Find(orders, id), Failed(Subscript(orders[k], "order_id").fault));
  }

  /** On a match, the status reply projects exactly the first matching record. */
  lemma CheckStatusOnMatch(orders: seq<Value>, body: Value, k: int)
    requires body.Object? && FirstMatchAt(orders, RequestedId(body), k)
    ensures var rec := orders[k].fields;
      "status" in rec && "vendor_name" in rec && "delivery_eta" in rec ==>
        CheckOrderStatus(orders, body) ==
          Reply(OrderStatus(rec["status"], rec["vendor_name"], rec["delivery_eta"]))
    ensures var rec := orders[k].fields;
      "status" !in rec ==> CheckOrderStatus(orders, body) == Raised(MissingKey("status"))
    ensures var rec := orders[k].fields;
      "status" in rec && "vendor_name" !in rec ==>
        CheckOrderStatus(orders, body) == Raised(MissingKey("vendor_name"))
    ensures var rec := orders[k].fields;
      "status" in rec && "vendor_name" in rec && "delivery_eta" !in rec ==>
        CheckOrderStatus(orders, body) == Raised(MissingKey("delivery_eta"))
  {
    FirstMatchWins(orders, RequestedId(body), k);
  }

  /** On a match, the cancellation succeeds iff that record's `can_cancel` is truthy. */
  lemma CancelOnMatch(orders: seq<Value>, body: Value, k: int)
    requires body.Object? && FirstMatchAt(orders, RequestedId(body), k)
    ensures CancelOrder(orders, body).Reply?
    ensures CancelOrder(orders, body).value.Cancelled? <==> FlagSet(orders[k].fields, "can_cancel")
  {
    FirstMatchWins(orders, RequestedId(body), k);
  }

  /**
   On a match, the refund succeeds iff that record's `eligible_for_refund` is
   truthy, and a successful refund carries the given reason lower-cased.
   */
  lemma RefundOnMatch(orders: seq<Value>, body: Value, k: int)
    requires body.Object? && ReasonUsable(body) && FirstMatchAt(orders, RequestedId(body), k)
    ensures RequestRefund(orders, body).Reply?
    ensures RequestRefund(orders, body).value.Refunded? <==>
      FlagSet(orders[k].fields, "eligible_for_refund")
    ensures RequestRefund(orders, body).value.Refunded? ==>
      RequestRefund(orders, body).value.reason == GivenReason(body)
    ensures var reply := RequestRefund(orders, body).value;
      reply.Refunded? ==> forall i :: 0 <= i < |reply.reason| ==> !IsUpper(reply.reason[i])
  {
    FirstMatchWins(orders, RequestedId(body), k);
    if "reason" in body.fields {
      LowerCharwise(body.fields["reason"].s);
    }
  }

  /** The request body holding exactly a ticket's three fields. */
  function TicketBody(t: Ticket): (r: Value) {
    Object(map["issue_type" := t.issueType, "order_id" := t.orderId, "user_notes" := t.notes])
  }

  /** A ticket survives the round trip through a request body unchanged. */
  lemma TicketRoundTrip(t: Ticket)
    ensures CreateTicket(TicketBody(t)) == Reply(t)
  {
  }
}
