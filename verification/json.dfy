/**
 JSON values as the order service sees them after `json.load`/`req.json()`,
 together with the few pieces of Python semantics its handlers rely on:
 `==` between decoded values, truthiness, `dict.get`, `dict[key]` and
 `str.lower`. Operations that would raise in Python return `Err(fault)`.
 */
module Json {

  /** A decoded JSON value. JSON numbers are modelled as integers only. */
  datatype Value =
    | Null
    | Bool(b: bool)
    | Int(i: int)
    | Str(s: string)
    | Array(items: seq<Value>)
    | Object(fields: map<string, Value>)

  /** The Python exceptions a handler body can raise on unexpected input. */
  datatype Fault =
    | MissingKey(key: string)                 // KeyError from `d[key]`
    | NotSubscriptable(target: Value)         // TypeError from `x[key]` on a non-dict
    | NoAttribute(name: string, target: Value) // AttributeError from `x.get`/`x.lower`

  datatype Result<+T> = Ok(value: T) | Err(fault: Fault)

  /** Python's `int(b)` for a bool: `True == 1` and `False == 0`. */
  function BoolAsInt(b: bool): (r: int) {
    if b then 1 else 0
  }

  /**
   Python's `==` on decoded JSON values: a bool equals the integer it converts
   to, lists compare element-wise, dicts compare by key set and by value.
   Across types only a bool and an integer can be equal: `None` equals only
   `None`, and a string equals only the same string.
   */
  predicate PyEq(a: Value, b: Value)
    ensures PyEq(a, b) && a.Null? ==> b.Null?
    ensures PyEq(a, b) && a.Str? ==> b == a
    ensures PyEq(a, b) && (a.Bool? || a.Int?) ==> b.Bool? || b.Int?
    ensures PyEq(a, b) && a.Array? ==> b.Array? && |b.items| == |a.items|
    ensures PyEq(a, b) && a.Object? ==> b.Object? && b.fields.Keys == a.fields.Keys
  {
    match (a, b)
    case (Null, Null) => true
    case (Bool(x), Bool(y)) => x == y
    case (Bool(x), Int(j)) => BoolAsInt(x) == j
    case (Int(i), Bool(y)) => i == BoolAsInt(y)
    case (Int(i), Int(j)) => i == j
    case (Str(s), Str(t)) => s == t
    case (Array(xs), Array(ys)) =>
      |xs| == |ys| && forall k :: 0 <= k < |xs| ==> PyEq(xs[k], ys[k])
    case (Object(m), Object(n)) =>
      m.Keys == n.Keys && forall key :: key in m ==> PyEq(m[key], n[key])
    case _ => false
  }

  /** Every value is `==` to itself, nested lists and dicts included. */
  lemma {:induction false} PyEqReflexive(a: Value)
    ensures PyEq(a, a)
  {
    match a
    case Array(xs) =>
      forall k | 0 <= k < |xs| ensures PyEq(xs[k], xs[k]) {
        PyEqReflexive(xs[k]);
      }
    case Object(m) =>
      forall key | key in m ensures PyEq(m[key], m[key]) {
        PyEqReflexive(m[key]);
      }
    case _ =>
  }

  lemma {:induction false} PyEqSymmetric(a: Value, b: Value)
    requires PyEq(a, b)
    ensures PyEq(b, a)
  {
    match (a, b)
    case (Array(xs), Array(ys)) =>
      forall k | 0 <= k < |ys| ensures PyEq(ys[k], xs[k]) {
        PyEqSymmetric(xs[k], ys[k]);
      }
    case (Object(m), Object(n)) =>
      forall key | key in n ensures PyEq(n[key], m[key]) {
        PyEqSymmetric(m[key], n[key]);
      }
    case _ =>
  }

  /**
   Python's `bool(v)`: the falsy values are `None`, whatever is `== False`
   (false and zero), and the empty string, list and dict.
   */
  predicate Truthy(v: Value)
    ensures !Truthy(v) <==>
      v == Null || PyEq(v, Bool(false)) || v == Str("") || v == Array([]) || v == Object(map[])
  {
    match v
    case Null => false
    case Bool(b) => b
    case Int(i) => i != 0
    case Str(s) => |s| != 0
    case Array(items) => |items| != 0
    case Object(fields) => |fields| != 0
  }

  /** `d.get(key, default)`; only a dict has a `get` method. */
  function DictGet(d: Value, key: string, default: Value): (r: Result<Value>)
    ensures r.Ok? <==> d.Object?
    ensures r.Ok? && key in d.fields ==> r.value == d.fields[key]
    ensures r.Ok? && key !in d.fields ==> r.value == default
  {
    if !d.Object? then Err(NoAttribute("get", d))
    else if key in d.fields then Ok(d.fields[key])
    else Ok(default)
  }

  /** `d[key]`: a KeyError when the dict lacks the key, a TypeError on a non-dict. */
  function Subscript(d: Value, key: string): (r: Result<Value>)
    ensures r.Ok? <==> d.Object? && key in d.fields
    ensures r.Ok? ==> r.value == d.fields[key]
    ensures d.Object? && key !in d.fields ==> r == Err(MissingKey(key))
  {
    if !d.Object? then Err(NotSubscriptable(d))
    else if key in d.fields then Ok(d.fields[key])
    else Err(MissingKey(key))
  }

  predicate IsUpper(c: char) {
    'A' <= c <= 'Z'
  }

  function LowerChar(c: char): (r: char)
    ensures !IsUpper(r)
    ensures !IsUpper(c) ==> r == c
  {
    if IsUpper(c) then (c as int + 32) as char else c
  }

  /** `str.lower`, restricted to the ASCII case mapping. */
  function Lower(s: string): (r: string)
    ensures |r| == |s|
  {
    if |s| == 0 then [] else [LowerChar(s[0])] + Lower(s[1..])
  }

  /** Lower-casing leaves no upper-case letter and maps each character on its own. */
  lemma {:induction false} LowerCharwise(s: string)
    ensures forall i :: 0 <= i < |s| ==> Lower(s)[i] == LowerChar(s[i])
    ensures forall i :: 0 <= i < |s| ==> !IsUpper(Lower(s)[i])
  {
    if |s| > 0 {
      LowerCharwise(s[1..]);
      assert forall i :: 1 <= i < |s| ==> Lower(s)[i] == Lower(s[1..])[i - 1];
    }
  }

  /** A string with no upper-case letter is its own lower-case form. */
  lemma {:induction false} LowerFixesLowercase(s: string)
    requires forall i :: 0 <= i < |s| ==> !IsUpper(s[i])
    ensures Lower(s) == s
  {
    if |s| > 0 {
      LowerFixesLowercase(s[1..]);
    }
  }

  /** Lower-casing twice is the same as lower-casing once. */
  lemma LowerIdempotent(s: string)
    ensures Lower(Lower(s)) == Lower(s)
  {
    LowerCharwise(s);
    LowerFixesLowercase(Lower(s));
  }

  /** `x.lower()` on a decoded value: only strings have the method. */
  function StrLower(v: Value): (r: Result<string>)
    ensures r.Ok? <==> v.Str?
    ensures r.Ok? ==> r.value == Lower(v.s)
  {
    if v.Str? then Ok(Lower(v.s)) else Err(NoAttribute("lower", v))
  }
}
