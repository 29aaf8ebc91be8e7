/**
 The linear scan shared by `check_order_status`, `cancel_order` and
 `request_refund`: walk the loaded orders in sequence order and stop at the
 first record whose `order_id` is `==` to the requested id. Reading
 `order["order_id"]` raises when a record is not a dict or lacks the key,
 which ends the scan with that fault.
 */
module OrderLookup {
  import opened Json

  /** The outcome of one scan: the first match, no match, or the raised fault. */
  datatype Lookup =
    | Found(index: nat, record: map<string, Value>)
    | NotFound
    | Failed(fault: Fault)

  /** The record is a dict whose `order_id` is `==` to `id`. */
  predicate IdMatches(order: Value, id: Value) {
    order.Object? && "order_id" in order.fields && PyEq(order.fields["order_id"], id)
  }

  /** The scan reads this record's `order_id` without raising and moves on. */
  predicate Passes(order: Value, id: Value) {
    order.Object? && "order_id" in order.fields && !PyEq(order.fields["order_id"], id)
  }

  /** Every record before position `k` is passed over. */
  predicate PassedBefore(orders: seq<Value>, id: Value, k: int)
    requires 0 <= k <= |orders|
  {
    forall j :: 0 <= j < k ==> Passes(orders[j], id)
  }

  /** Position `k` holds the first record whose `order_id` equals `id`. */
  predicate FirstMatchAt(orders: seq<Value>, id: Value, k: int) {
    0 <= k < |orders| && PassedBefore(orders, id, k) && IdMatches(orders[k], id)
  }

  /** Position `k` holds the first record whose `order_id` cannot be read. */
  predicate FirstFaultAt(orders: seq<Value>, id: Value, k: int) {
    0 <= k < |orders| && PassedBefore(orders, id, k) && Subscript(orders[k], "order_id").Err?
  }

  /** Every record is a dict carrying an `order_id`, so the scan never raises. */
  predicate WellFormed(orders: seq<Value>) {
    forall j :: 0 <= j < |orders| ==> orders[j].Object? && "order_id" in orders[j].fields
  }

  /**
   What a scan over `orders` for `id` must report, stated without the scan:
   `Found` names the first matching record, `NotFound` means every record was
   passed over, `Failed` carries the fault of the first unreadable record.
   */
  ghost predicate Describes(orders: seq<Value>, id: Value, r: Lookup) {
    match r
    case Found(k, rec) => FirstMatchAt(orders, id, k) && orders[k] == Object(rec)
    case NotFound => PassedBefore(orders, id, |orders|)
    case Failed(f) =>
      exists k :: FirstFaultAt(orders, id, k) && Subscript(orders[k], "order_id") == Err(f)
  }

  /** The scan, resumed at position `from` once every earlier record was passed. */
  function FindFrom(orders: seq<Value>, id: Value, from: nat): (r: Lookup)
    requires from <= |orders|
    requires PassedBefore(orders, id, from)
    ensures Describes(orders, id, r)
    ensures PassedBefore(orders, id, |orders|) ==> r == NotFound
    decreases |orders| - from
  {
    if from == |orders| then NotFound
    else
      match Subscript(orders[from], "order_id")
      case Err(f) => Failed(f)
      case Ok(v) =>
        if PyEq(v, id) then Found(from, orders[from].fields)
        else FindFrom(orders, id, from + 1)
  }

  /**
   The scan from the first record: it reads each record's `order_id` in turn
   and stops at the first one equal to `id` or the first one it cannot read.
   */
  function Find(orders: seq<Value>, id: Value): (r: Lookup)
    ensures Describes(orders, id, r)
    ensures r == NotFound <==> PassedBefore(orders, id, |orders|)
  {
    FindFrom(orders, id, 0)
  }

  /** At most one result fits the description, so it pins down the scan. */
  lemma DescribesUnique(orders: seq<Value>, id: Value, r1: Lookup, r2: Lookup)
    requires Describes(orders, id, r1)
    requires Describes(orders, id, r2)
    ensures r1 == r2
  {
    // Each result names a stopping position; neither can lie before the other's.
    var k1 := StopOf(orders, id, r1);
    var k2 := StopOf(orders, id, r2);
    assert k1 == k2;
  }

  /** Where a described result stops the scan: the deciding record, or the end. */
  ghost function StopOf(orders: seq<Value>, id: Value, r: Lookup): (k: int)
    requires Describes(orders, id, r)
    ensures 0 <= k <= |orders|
    ensures PassedBefore(orders, id, k)
    ensures k < |orders| <==> !r.NotFound?
    ensures r.Found? ==> k == r.index
    ensures r.Failed? ==> Subscript(orders[k], "order_id") == Err(r.fault)
  {
    match r
    case Found(k, _) => k
    case NotFound => |orders|
    case Failed(f) =>
      var k :| FirstFaultAt(orders, id, k) && Subscript(orders[k], "order_id") == Err(f); k
  }

  /** Over a well-formed dataset the scan never raises: it finds or it does not. */
  lemma WellFormedNeverFails(orders: seq<Value>, id: Value)
    requires WellFormed(orders)
    ensures !Find(orders, id).Failed?
    ensures Find(orders, id).NotFound? <==> forall j :: 0 <= j < |orders| ==> !IdMatches(orders[j], id)
  {
    var r := Find(orders, id);
    if r.Failed? {
      var k := StopOf(orders, id, r);
      assert false;
    }
    if forall j :: 0 <= j < |orders| ==> !IdMatches(orders[j], id) {
      assert PassedBefore(orders, id, |orders|);
    }
  }

  /** A scan that stops inside `orders` never looks at records appended after it. */
  lemma LaterRecordsIgnored(orders: seq<Value>, rest: seq<Value>, id: Value)
    requires !Find(orders, id).NotFound?
    ensures Find(orders + rest, id) == Find(orders, id)
  {
    var r := Find(orders, id);
    var k := StopOf(orders, id, r);
    var all := orders + rest;
    assert forall j :: 0 <= j <= k ==> all[j] == orders[j];
    assert PassedBefore(all, id, k);
    match r {
      case Found(_, _) =>
        assert Describes(all, id, r);
      case Failed(f) =>
        assert FirstFaultAt(all, id, k);
        assert Describes(all, id, r);
    }
    DescribesUnique(all, id, Find(all, id), r);
  }

  /** The scan returns the first matching record even when later ones share its id. */
  lemma FirstMatchWins(orders: seq<Value>, id: Value, k: int)
    requires FirstMatchAt(orders, id, k)
    ensures Find(orders, id) == Found(k, orders[k].fields)
  {
    DescribesUnique(orders, id, Find(orders, id), Found(k, orders[k].fields));
  }
}
