/**
 * Python values, as far as the audit payloads, DRF error payloads and
 * response bodies need them, with the built-ins the core applies to them:
 * `str()`, `repr()`, truth testing, iteration and `int()`.
 */
module PyValues {
  import opened Wrappers
  import Strings

  /**
   * A Python value. A dict is its list of (key, value) items in insertion
   * order (keys are strings); a set is its items in iteration order.
   * `PyObject` stands for any other object (a model instance, a datetime,
   * a lazy translation string): it is not iterable, `int()` rejects it, and
   * it has its own `str` and `repr` texts.
   */
  datatype PyValue =
    | PyNone
    | PyBool(b: bool)
    | PyInt(i: int)
    | PyStr(s: string)
    | PyList(items: seq<PyValue>)
    | PyTuple(items: seq<PyValue>)
    | PySet(items: seq<PyValue>)
    | PyDict(entries: seq<(string, PyValue)>)
    | PyObject(str: string, repr: string)

  /** Python's `str(v)`. */
  function Str(v: PyValue): string
    decreases v, 1
  {
    match v
    case PyStr(s) => s
    case PyObject(text, _) => text
    case _ => Repr(v)
  }

  /** Python's `repr(v)` (a string is quoted with `'` and not escaped). */
  function Repr(v: PyValue): string
    decreases v, 0
  {
    match v
    case PyNone => "None"
    case PyBool(b) => if b then "True" else "False"
    case PyInt(i) => Strings.IntToString(i)
    case PyStr(s) => "'" + s + "'"
    case PyList(items) => "[" + Strings.Join(", ", ReprAll(v, items)) + "]"
    case PyTuple(items) =>
      if |items| == 1 then "(" + Repr(items[0]) + ",)"
      else "(" + Strings.Join(", ", ReprAll(v, items)) + ")"
    case PySet(items) =>
      if |items| == 0 then "set()" else "{" + Strings.Join(", ", ReprAll(v, items)) + "}"
    case PyDict(entries) =>
      "{" + Strings.Join(", ", seq(|entries|, k requires 0 <= k < |entries| =>
        var e := entries[k];
        assert e in entries;
        "'" + e.0 + "': " + Repr(e.1))) + "}"
    case PyObject(_, text) => text
  }

  /** The reprs of the items of a container `parent`. */
  function ReprAll(ghost parent: PyValue, items: seq<PyValue>): (r: seq<string>)
    requires forall x | x in items :: x < parent
    ensures |r| == |items|
    decreases parent, 0, |items|
  {
    seq(|items|, k requires 0 <= k < |items| => var x := items[k]; assert x in items; Repr(x))
  }

  /** Python's truth test `bool(v)`. */
  predicate Truthy(v: PyValue) {
    match v
    case PyNone => false
    case PyBool(b) => b
    case PyInt(i) => i != 0
    case PyStr(s) => |s| > 0
    case PyList(items) => |items| > 0
    case PyTuple(items) => |items| > 0
    case PySet(items) => |items| > 0
    case PyDict(entries) => |entries| > 0
    case PyObject(_, _) => true
  }

  /**
   * What `for item in v` yields, when `isinstance(v, Iterable)`: the
   * characters of a string, the items of a list, tuple or set, the keys of
   * a dict. `None` for every value that is not iterable.
   */
  function Iterate(v: PyValue): (r: Option<seq<PyValue>>)
    ensures r.Some? <==> v.PyStr? || v.PyList? || v.PyTuple? || v.PySet? || v.PyDict?
    ensures v.PyList? || v.PyTuple? || v.PySet? ==> r == Some(v.items)
  {
    match v
    case PyStr(s) => Some(seq(|s|, k requires 0 <= k < |s| => PyStr([s[k]])))
    case PyList(items) => Some(items)
    case PyTuple(items) => Some(items)
    case PySet(items) => Some(items)
    case PyDict(entries) => Some(seq(|entries|, k requires 0 <= k < |entries| => PyStr(entries[k].0)))
    case _ => None
  }

  /**
   * Python's `int(v)`: a bool is 0 or 1, an int is itself, a string is
   * parsed; `None` stands for the `TypeError` or `ValueError` raised for
   * everything else.
   */
  function IntOf(v: PyValue): (r: Option<int>)
    ensures v.PyInt? ==> r == Some(v.i)
    ensures v.PyBool? ==> r == Some(if v.b then 1 else 0)
    ensures !(v.PyInt? || v.PyBool? || v.PyStr?) ==> r == None
  {
    match v
    case PyBool(b) => Some(if b then 1 else 0)
    case PyInt(i) => Some(i)
    case PyStr(s) => Strings.ParseInt(s)
    case _ => None
  }

  /** Keys of a dict's items, in order. */
  function Keys(entries: seq<(string, PyValue)>): (r: seq<string>)
    ensures |r| == |entries|
    ensures forall k | 0 <= k < |entries| :: r[k] == entries[k].0
  {
    seq(|entries|, k requires 0 <= k < |entries| => entries[k].0)
  }

  /** A real Python dict never holds the same key twice. */
  predicate UniqueKeys(entries: seq<(string, PyValue)>) {
    forall i, j | 0 <= i < j < |entries| :: entries[i].0 != entries[j].0
  }

  /** `d.get(key)` on a dict's items (the first item with that key). */
  function Get(entries: seq<(string, PyValue)>, key: string): (r: Option<PyValue>)
    ensures r.None? <==> forall k | 0 <= k < |entries| :: entries[k].0 != key
    ensures r.Some? ==> exists k | 0 <= k < |entries| :: entries[k] == (key, r.value)
  {
    if |entries| == 0 then None
    else if entries[0].0 == key then Some(entries[0].1)
    else
      var r := Get(entries[1..], key);
      assert r.Some? ==> exists k | 0 <= k < |entries[1..]| :: entries[1..][k] == (key, r.value);
      assert forall k | 0 <= k < |entries[1..]| :: entries[1..][k] == entries[k + 1];
      r
  }

  /** `d[key] = v` for a key `d` does not hold yet appends the item: lookups of other keys are unaffected. */
  lemma {:induction false} GetSnoc(entries: seq<(string, PyValue)>, k: string, v: PyValue, key: string)
    ensures Get(entries + [(k, v)], key) ==
      if Get(entries, key).Some? then Get(entries, key) else if k == key then Some(v) else None
  {
    if |entries| == 0 {
      assert entries + [(k, v)] == [(k, v)];
    } else {
      assert (entries + [(k, v)])[0] == entries[0];
      assert (entries + [(k, v)])[1..] == entries[1..] + [(k, v)];
      GetSnoc(entries[1..], k, v, key);
    }
  }

  /** Adding a new key to a dict keeps its keys unique and answers every lookup as `GetSnoc` says. */
  lemma AddNewKey(entries: seq<(string, PyValue)>, k: string, v: PyValue)
    requires UniqueKeys(entries) && Get(entries, k).None?
    ensures UniqueKeys(entries + [(k, v)])
    ensures forall key ::
      Get(entries + [(k, v)], key) == if Get(entries, key).Some? then Get(entries, key) else if k == key then Some(v) else None
  {
    forall key ensures Get(entries + [(k, v)], key) ==
      if Get(entries, key).Some? then Get(entries, key) else if k == key then Some(v) else None
    {
      GetSnoc(entries, k, v, key);
    }
  }

  /** A list of Python strings. */
  function StrList(xs: seq<string>): (r: seq<PyValue>)
    ensures |r| == |xs|
    ensures forall k | 0 <= k < |xs| :: r[k] == PyStr(xs[k])
  {
    seq(|xs|, k requires 0 <= k < |xs| => PyStr(xs[k]))
  }

  /** `str()` of every element. */
  function StrAll(items: seq<PyValue>): (r: seq<string>)
    ensures |r| == |items|
    ensures forall k | 0 <= k < |items| :: r[k] == Str(items[k])
  {
    seq(|items|, k requires 0 <= k < |items| => Str(items[k]))
  }

  /** `str()` of a Python string is that string, so stringifying a list of strings gives it back. */
  lemma StrAllOfStrList(xs: seq<string>)
    ensures StrAll(StrList(xs)) == xs
  {
  }
}
