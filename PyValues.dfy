/** The dynamically typed values the server code inspects: records decoded
    from the savings-product API and from request bodies, as Python sees
    them after JSON decoding. */
module PyValues {
  import opened Common

  datatype PyValue =
    | PNone
    | PBool(b: bool)
    | PInt(i: int)
    | PFloat(f: real)
    | PStr(s: string)
    | PList(items: seq<PyValue>)
    | PDict(entries: seq<(string, PyValue)>)

  /** A JSON object as a list of entries; keys are distinct, as in a
      Python `dict`. */
  type Dict = seq<(string, PyValue)>

  /** Python truth value: None, False, zero and empty containers are
      false. */
  predicate Truthy(v: PyValue) {
    match v
    case PNone => false
    case PBool(b) => b
    case PInt(i) => i != 0
    case PFloat(f) => f != 0.0
    case PStr(s) => s != []
    case PList(items) => items != []
    case PDict(entries) => entries != []
  }

  /** `a or b`: the first operand when it is truthy, else the second. */
  function Or(a: PyValue, b: PyValue): (r: PyValue)
    ensures Truthy(r) <==> Truthy(a) || Truthy(b)
    ensures r == a || r == b
  {
    if Truthy(a) then a else b
  }

  /** `d.get(key)`: the value under `key`, or None when there is none. */
  function Get(d: Dict, key: string): (r: PyValue)
    ensures r != PNone ==> (key, r) in d
    ensures (forall i :: 0 <= i < |d| ==> d[i].0 != key) ==> r == PNone
  {
    if d == [] then PNone
    else if d[0].0 == key then d[0].1
    else Get(d[1..], key)
  }

  /** `isinstance(v, (int, float))`: booleans count as integers. */
  predicate IsNumber(v: PyValue) {
    v.PBool? || v.PInt? || v.PFloat?
  }

  /** `float(v)` for a number. */
  function AsFloat(v: PyValue): real
    requires IsNumber(v)
  {
    match v
    case PBool(b) => if b then 1.0 else 0.0
    case PInt(i) => i as real
    case PFloat(f) => f
  }

  /** Whether `v` can be a dictionary key: lists and dictionaries have no
      hash, so using one as a key raises `TypeError`. */
  predicate Hashable(v: PyValue) {
    !v.PList? && !v.PDict?
  }

  /** What a dictionary compares keys by: a number (a boolean included) by
      its value, so `True`, `1` and `1.0` are one key; anything else as it
      is. */
  function KeyOf(v: PyValue): (r: PyValue)
    ensures IsNumber(v) ==> r == PFloat(AsFloat(v))
    ensures !IsNumber(v) ==> r == v
  {
    if IsNumber(v) then PFloat(AsFloat(v)) else v
  }

  /** Values that are one key are alike in truth value and hashability. */
  lemma SameKey(a: PyValue, b: PyValue)
    ensures KeyOf(a) == KeyOf(b) ==> Truthy(a) == Truthy(b) && Hashable(a) == Hashable(b)
  {
    if IsNumber(a) && KeyOf(a) == KeyOf(b) {
      assert IsNumber(b);
    }
  }
}
