# Order-service handlers, modelled in Dafny

The repository is a mock back end for a voice agent. A FastAPI app loads a
list of order records from `retell_mock_full_dataset.json` once, at import
time. It serves six POST routes. The model covers five of them:
`check_order_status`, `cancel_order`, `request_refund`, `create_ticket` and
`log_call`. The sixth, `get_current_datetime`, is left out (see below).

This project models each handler body as a pure function of two inputs:

- the parsed JSON request body;
- the immutable sequence of order records.

It proves how the three order routes look a record up and decide their answer.

- `json.dfy`, module `Json`: decoded JSON values, plus the parts of Python
  the handlers rely on.
  - `==` across JSON types. `True == 1` holds, lists compare element by
    element and dicts compare by key set and by value.
  - Truthiness.
  - `dict.get` and `dict[key]`, including the exceptions they raise.
  - `str.lower`.
- `order_lookup.dfy`, module `OrderLookup`: the `for order in orders` scan
  that returns the first record whose `order_id` equals the requested id.
  - `Describes` states what the scan must report without running it: the
    first match, not-found, or the fault of the first record whose
    `order_id` cannot be read.
  - `DescribesUnique` shows that at most one result fits that statement.
- `handlers.dfy`, module `Handlers`: the five handler bodies.
  - The order and ticket handlers answer with an `Outcome`: a reply, the
    not-found answer, or a Python exception that escapes the handler
    (`Raised`). `log_call` returns its acknowledgement directly.
  - Replies are result variants, not message strings.
- `server.dfy`, module `Server`: start-up with the empty-list fallback,
  routing of one call, and a run of many calls. No route writes to the
  orders, so routing one call keeps the state by construction. The lemmas
  carry this over any run of calls: every call can be repeated with the
  same answer.

The model follows the code closely, including its awkward edges:

- A body without `order_id` asks for `None`. That matches a record whose
  `order_id` is JSON `null`.
- A record before the match that is not a dict, or that has no `order_id`,
  makes the scan raise.
- A matched record without `status`, `vendor_name` or `delivery_eta` makes
  `check_order_status` raise a `KeyError`.
- A `reason` that is present but is not a string makes `request_refund`
  raise, even when no order matches. The reason is lower-cased before the
  scan starts.
- `create_ticket` falls back to `"unknown"` only when the `order_id` key is
  missing. An explicit `null` is echoed back as it is.

`app/main.py` does none of the following, so neither does the model:

- unwrapping arguments from an `args` key;
- an `{ok, data}` envelope;
- cancel and refund changing the record;
- refund amounts;
- generated ticket ids;
- `end_call`;
- dispatch by function name.

In particular, cancel and refund only report an outcome, so a second call
gets the same answer as the first.

## Model

| member | source | states |
|---|---|---|
| Json.PyEq | app/main.py:32 | Python `==` between decoded values: across types only bools and integers can be equal, `None` equals only `None`, a string only the same string, lists only lists of the same length, dicts only dicts with the same keys |
| Json.Truthy | app/main.py:46 | Python truthiness: a value is falsy exactly when it is `None`, `== False` (false or zero), or an empty string, list or dict |
| Json.DictGet | app/main.py:30 | `d.get(key, default)` raises on a non-dict, gives the stored value when the key is present and the default otherwise |
| Json.Subscript | app/main.py:32-36 | `d[key]` gives the stored value exactly when `d` is a dict holding the key, a `KeyError` for a dict without it, and fails otherwise |
| Json.Lower | app/main.py:56 | `str.lower` on the reason keeps the string's length (ASCII case mapping) |
| Json.StrLower | app/main.py:56 | `.lower()` succeeds exactly on strings, giving their lower-cased form |
| Json.PyEqReflexive | app/main.py:32 | Python `==` on decoded JSON values holds between every value and itself, nested lists and dicts included |
| Json.PyEqSymmetric | app/main.py:32 | Python `==` on decoded JSON values is symmetric, so which side is the record's `order_id` does not matter |
| Json.LowerCharwise | app/main.py:56 | the lower-cased reason keeps its length, maps each character independently and contains no upper-case letter |
| Json.LowerFixesLowercase | app/main.py:56 | lower-casing leaves a string with no upper-case letter unchanged |
| Json.LowerIdempotent | app/main.py:56 | lower-casing an already lower-cased reason changes nothing |
| OrderLookup.FindFrom | app/main.py:31-32 | scanning on from a position that every earlier record passed reports the first match, not-found, or the first unreadable record's fault; it reports not-found whenever every record is passed |
| OrderLookup.Find | app/main.py:31-32 | the scan's result fits the independent first-match description, and it is not-found exactly when every record is a dict whose `order_id` differs from the requested id |
| OrderLookup.DescribesUnique | app/main.py:31-32 | at most one result fits the first-match description, so the scan's answer is determined by it |
| OrderLookup.WellFormedNeverFails | app/main.py:31-32 | over records that are all dicts with an `order_id`, the scan never raises, and it finds nothing exactly when no record has the requested id |
| OrderLookup.LaterRecordsIgnored | app/main.py:31-33 | once the scan stops inside a prefix, records appended after it never change the answer |
| OrderLookup.FirstMatchWins | app/main.py:31-33 | the scan returns the first record with the requested id, even when later records share that id |
| Handlers.Locate | app/main.py:30-32 | a non-dict body raises on `.get`; a reply is the first record matching `body.get("order_id")`; not-found holds exactly when every record is passed; any other fault comes from the first unreadable record |
| Handlers.CheckOrderStatus | app/main.py:27-38 | a non-dict body raises; the handler answers not-found exactly when every record is passed over |
| Handlers.CancelOrder | app/main.py:40-50 | a non-dict body raises; the handler answers not-found exactly when every record is passed over; every reply names the requested id |
| Handlers.RequestRefund | app/main.py:52-63 | a non-dict body raises; a non-string reason raises on `.lower()` whatever the orders; not-found holds exactly when the reason is usable and every record is passed over; replies name the requested id |
| Handlers.CreateTicket | app/main.py:65-78 | the handler replies exactly when the body is a dict; it echoes `issue_type` and `user_notes`, `None` when absent; `order_id` is the supplied value, or "unknown" when the key is absent |
| Handlers.NotFoundTotality | app/main.py:27-63 | when every record is a dict with an `order_id` and the body is a dict: status and cancel answer not-found exactly when no record has the requested id, and cancel never raises; refund does the same when its reason is absent or a string |
| Handlers.AbsentIdNotFound | app/main.py:27-63 | when every record is a dict with a non-null `order_id`, a dict body without `order_id` gets not-found from status and cancel, and from refund when its reason is absent or a string |
| Handlers.ScanFaultRaises | app/main.py:31-32 | when the first record the scan cannot read (not a dict, or no `order_id`) comes before any match, status and cancel raise that record's fault, and so does refund when its reason is absent or a string |
| Handlers.CheckStatusOnMatch | app/main.py:31-37 | on a first match, the reply is that record's `status`, `vendor_name` and `delivery_eta` as `eta`; a missing field raises a `KeyError` for the first missing key, in that order |
| Handlers.CancelOnMatch | app/main.py:44-49 | on a first match, the reply is a cancellation exactly when that record's `can_cancel` is present and truthy |
| Handlers.RefundOnMatch | app/main.py:56-62 | on a first match with a usable reason, the reply is a refund exactly when `eligible_for_refund` is truthy; the refund carries the reason lower-cased, or "" when it is absent |
| Handlers.LogCall | app/main.py:85-88 | the acknowledgement carries the request body unchanged |
| Handlers.TicketRoundTrip | app/main.py:68-78 | a body holding a ticket's issue type, order id and notes produces that same ticket |
| Server.Start | app/main.py:18-25 | a loaded file supplies its orders; a missing file leaves no orders, so every lookup finds nothing |
| Server.RunIsReadOnly | app/main.py:27-88 | after any run of calls the orders are unchanged (each route keeps them by construction), and each response equals the one that call gets from the initial state |
| Server.RepeatedCallSameResponse | app/main.py:40-63 | a call repeated after any history of calls gets the same response as the first time, so cancel and refund are idempotent |
| Server.TicketAndLogIgnoreOrders | app/main.py:65-88 | `create_ticket` answers the same over any orders and never answers not-found; `log_call` returns the body unchanged |
| Server.MissingDatasetFindsNothing | app/main.py:18-25 | when the dataset file is missing, the three order routes answer not-found for every dict body (refund with a usable reason) |

## Left out

- FastAPI plumbing is not modelled: the app object, CORS middleware, `async`/`await req.json()` and request bodies that are not JSON. Handlers take the already-parsed body.
- Reading and parsing `retell_mock_full_dataset.json` is file I/O. The start-up takes the `orders` array as given, or no file at all.
- A document without an `orders` key, or with a non-list `orders` value, is not modelled. The model cannot express either.
- The warning `print` on a missing file is not modelled; it is console output.
- `get_current_datetime` is left out because it reads the wall clock.
- The HTTP status of the `(dict, 404)` tuples is left out. FastAPI turns them into a JSON array with status 200, so they are modelled only as the abstract `OrderNotFound` answer.
- Exceptions that escape a handler are recorded as `Raised(fault)`, and nothing is said about the framework's HTTP 500 response.
- The exact English messages and f-string rendering are replaced by result variants that carry the same data: the requested id and the reason.
- JSON numbers are integers only. Fractional numbers and Python's float equality (`1 == 1.0`) are not modelled.
- Json.LowerCharwise: `str.lower` is modelled as the ASCII case mapping. Python's full Unicode lower-casing is not.
- Json.Lower: implements only the ASCII case mapping; Unicode case mappings, including ones that change length, are not modelled.
- Json.StrLower: lower-cases strings through the ASCII-only `Json.Lower`, and so does the refund reason in Handlers.RefundOnMatch.

## Findings

None.
