/**
 `convert_numpy_types`: the recursive walk that turns numpy scalars and
 arrays inside a JSON-bound value into Python built-ins, leaving dictionary
 keys, list lengths and every other value as they are.
 */
module NumpyValues {

  /** The values a response may hold. Dictionaries keep their key order. */
  datatype PyValue =
    | NpInteger(i: int)
    | NpFloating(f: real)
    | NpArray(elems: seq<PyValue>)
    | PyInt(i: int)
    | PyFloat(f: real)
    | PyStr(s: string)
    | PyBool(b: bool)
    | PyNone
    | PyList(items: seq<PyValue>)
    | PyDict(entries: seq<Entry>)

  datatype Entry = Entry(key: string, value: PyValue)

  /** No numpy value occurs anywhere inside. */
  predicate IsNative(v: PyValue)
  {
    match v
    case NpInteger(_) => false
    case NpFloating(_) => false
    case NpArray(_) => false
    case PyList(items) => forall i :: 0 <= i < |items| ==> IsNative(items[i])
    case PyDict(entries) => forall i :: 0 <= i < |entries| ==> IsNative(entries[i].value)
    case _ => true
  }

  /** The walk: numpy integers and floats become `int`/`float`, arrays become lists
      (`tolist`), dictionaries and lists are rebuilt entry by entry. */
  function Convert(v: PyValue): (r: PyValue)
    ensures IsNative(r)
    ensures IsNative(v) ==> r == v
    ensures v.NpInteger? ==> r == PyInt(v.i)
    ensures v.NpFloating? ==> r == PyFloat(v.f)
    ensures v.NpArray? ==> r.PyList? && |r.items| == |v.elems|
    ensures v.PyList? ==> r.PyList? && |r.items| == |v.items|
    ensures v.PyDict? ==> r.PyDict? && |r.entries| == |v.entries|
                          && forall i :: 0 <= i < |v.entries| ==> r.entries[i].key == v.entries[i].key
    decreases v
  {
    match v
    case NpInteger(i) => PyInt(i)
    case NpFloating(f) => PyFloat(f)
    case NpArray(elems) => PyList(ConvertItems(v, elems))
    case PyList(items) =>
      var converted := ConvertItems(v, items);
      assert IsNative(v) ==> converted == items;
      PyList(converted)
    case PyDict(entries) =>
      var converted := ConvertEntries(v, entries);
      assert IsNative(v) ==> converted == entries;
      PyDict(converted)
    case _ => v
  }

  function ConvertItems(parent: PyValue, items: seq<PyValue>): (r: seq<PyValue>)
    requires forall i :: 0 <= i < |items| ==> items[i] < parent
    ensures |r| == |items|
    ensures forall i :: 0 <= i < |items| ==> r[i] == Convert(items[i])
    decreases parent, 0
  {
    seq(|items|, i requires 0 <= i < |items| => Convert(items[i]))
  }

  function ConvertEntries(parent: PyValue, entries: seq<Entry>): (r: seq<Entry>)
    requires forall i :: 0 <= i < |entries| ==> entries[i].value < parent
    ensures |r| == |entries|
    ensures forall i :: 0 <= i < |entries| ==> r[i] == Entry(entries[i].key, Convert(entries[i].value))
    decreases parent, 0
  {
    seq(|entries|, i requires 0 <= i < |entries| => Entry(entries[i].key, Convert(entries[i].value)))
  }
}
