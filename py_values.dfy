/**
 * The Python values the widget code manipulates: option specs, labels,
 * bound values and attribute maps. Only the behaviour of Python that the
 * selection and checkbox code relies on is modelled: truthiness, `==`,
 * `in`, hashability and the `dict(...)` constructor.
 */
module PyValues {

  datatype Option<+T> = None | Some(value: T)

  /** The Python exceptions the modelled code can raise. */
  datatype PyError = IndexError | TypeError | ValueError | ParameterError

  /** A computation that either yields a value or raises a Python exception. */
  datatype Result<+T> = Ok(value: T) | Err(error: PyError) {
    predicate IsFailure() { Err? }
    function PropagateFailure<U>(): Result<U> requires Err? { Err(error) }
    function Extract(): T requires Ok? { value }
  }

  /** A Python object. Dictionaries are keyed by strings (HTML attribute names). */
  datatype Value =
    | NoneV
    | BoolV(b: bool)
    | IntV(i: int)
    | StrV(s: string)
    | TupleV(items: seq<Value>)
    | ListV(items: seq<Value>)
    | DictV(entries: map<string, Value>)
  {
    /** `isinstance(v, (tuple, list))` */
    predicate IsSeq() { TupleV? || ListV? }
  }

  /** Python truthiness (`bool(v)`). */
  predicate Truthy(v: Value) {
    match v
    case NoneV => false
    case BoolV(b) => b
    case IntV(i) => i != 0
    case StrV(s) => s != ""
    case TupleV(items) => items != []
    case ListV(items) => items != []
    case DictV(m) => m != map[]
  }

  /** The numeric value of a bool or an int (`bool` is a subclass of `int`). */
  function Numeric(v: Value): int
    requires v.BoolV? || v.IntV?
  {
    if v.BoolV? then (if v.b then 1 else 0) else v.i
  }

  /**
   * Python `a == b`: booleans compare equal to the integers 0 and 1, a tuple
   * never equals a list, and containers compare element by element.
   */
  predicate PyEq(a: Value, b: Value)
    decreases a
  {
    if (a.BoolV? || a.IntV?) && (b.BoolV? || b.IntV?) then Numeric(a) == Numeric(b)
    else match (a, b)
      case (TupleV(x), TupleV(y)) => |x| == |y| && forall i :: 0 <= i < |x| ==> PyEq(x[i], y[i])
      case (ListV(x), ListV(y)) => |x| == |y| && forall i :: 0 <= i < |x| ==> PyEq(x[i], y[i])
      case (DictV(m), DictV(n)) => m.Keys == n.Keys && forall k :: k in m ==> PyEq(m[k], n[k])
      case _ => a == b
  }

  /** Every value equals itself. */
  lemma {:induction false} PyEqReflexive(a: Value)
    ensures PyEq(a, a)
    decreases a
  {
    match a
    case TupleV(x) =>
      forall i | 0 <= i < |x| ensures PyEq(x[i], x[i]) { PyEqReflexive(x[i]); }
    case ListV(x) =>
      forall i | 0 <= i < |x| ensures PyEq(x[i], x[i]) { PyEqReflexive(x[i]); }
    case DictV(m) =>
      forall k | k in m ensures PyEq(m[k], m[k]) { PyEqReflexive(m[k]); }
    case _ =>
  }

  /** Whether `hash(v)` succeeds: lists and dicts are unhashable, tuples are when their items are. */
  predicate Hashable(v: Value)
    decreases v
  {
    match v
    case ListV(_) => false
    case DictV(_) => false
    case TupleV(items) => forall i :: 0 <= i < |items| ==> Hashable(items[i])
    case _ => true
  }

  /** `needle in hay` for two strings. */
  predicate IsSubstring(needle: string, hay: string) {
    exists i :: 0 <= i <= |hay| - |needle| && OccursAt(needle, hay, i)
  }

  predicate OccursAt(needle: string, hay: string, i: int)
    requires 0 <= i <= |hay| - |needle|
  {
    hay[i..i + |needle|] == needle
  }

  /**
   * Python `x in container`: element equality for tuples and lists, substring
   * search for strings, key lookup for dicts; a TypeError for a non-string
   * probed in a string, an unhashable key probed in a dict, or a container
   * that is not iterable.
   */
  function Contains(container: Value, x: Value): (r: Result<bool>)
    ensures container.IsSeq() ==>
      r == Ok(exists i :: 0 <= i < |container.items| && PyEq(x, container.items[i]))
    ensures (container.NoneV? || container.BoolV? || container.IntV?) ==> r == Err(TypeError)
  {
    match container
    case TupleV(items) => Ok(exists i :: 0 <= i < |items| && PyEq(x, items[i]))
    case ListV(items) => Ok(exists i :: 0 <= i < |items| && PyEq(x, items[i]))
    case StrV(s) => if x.StrV? then Ok(IsSubstring(x.s, s)) else Err(TypeError)
    case DictV(m) => if Hashable(x) then Ok(x.StrV? && x.s in m) else Err(TypeError)
    case _ => Err(TypeError)
  }

  /** The one-character strings a Python string yields when iterated. */
  function CharStrings(s: string): (r: seq<Value>)
    ensures |r| == |s| && forall i :: 0 <= i < |s| ==> r[i] == StrV([s[i]])
  {
    seq(|s|, i requires 0 <= i < |s| => StrV([s[i]]))
  }

  /**
   * What iterating an element of a `dict(...)` argument yields, or None when it
   * is not iterable. Dict elements are outside the model (see PairInModel).
   */
  function ElementItems(e: Value): Option<seq<Value>> {
    match e
    case TupleV(items) => Some(items)
    case ListV(items) => Some(items)
    case StrV(s) => Some(CharStrings(s))
    case _ => None
  }

  /**
   * An element of a `dict(...)` argument that this model can represent: not a
   * dict (whose key order is not modelled), and a hashable key of a pair is a string.
   */
  predicate PairInModel(e: Value) {
    && !e.DictV?
    && (match ElementItems(e)
        case None => true
        case Some(kv) => |kv| == 2 && Hashable(kv[0]) ==> kv[0].StrV?)
  }

  /** A `dict(...)` argument that this model can represent. */
  predicate DictArgInModel(v: Value) {
    match v
    case TupleV(items) => forall i :: 0 <= i < |items| ==> PairInModel(items[i])
    case ListV(items) => forall i :: 0 <= i < |items| ==> PairInModel(items[i])
    case _ => true
  }

  /**
   * `dict(pairs)` for a sequence of pairs: later pairs override earlier ones;
   * an element that is not iterable raises TypeError, one whose length is not
   * 2 raises ValueError, an unhashable key raises TypeError.
   */
  function PairsToDict(elems: seq<Value>): (r: Result<map<string, Value>>)
    requires forall i :: 0 <= i < |elems| ==> PairInModel(elems[i])
    ensures r.Ok? ==> forall i :: 0 <= i < |elems| ==> ElementItems(elems[i]).Some?
    ensures r.Ok? && elems != [] ==>
      var kv := ElementItems(elems[|elems| - 1]).value;
      |kv| == 2 && kv[0].StrV? && kv[0].s in r.value && r.value[kv[0].s] == kv[1]
  {
    if elems == [] then Ok(map[])
    else
      var prior :- PairsToDict(elems[..|elems| - 1]);
      var e := elems[|elems| - 1];
      assert PairInModel(e);
      match ElementItems(e)
      case None => Err(TypeError)
      case Some(kv) =>
        if |kv| != 2 then Err(ValueError)
        else if !Hashable(kv[0]) then Err(TypeError)
        else Ok(prior[kv[0].s := kv[1]])
  }

  /** Python `dict(v)`: a copy of a dict, or the dict built from a sequence of pairs. */
  function ToDict(v: Value): (r: Result<map<string, Value>>)
    requires DictArgInModel(v)
    ensures v.DictV? ==> r == Ok(v.entries)
    ensures (v.NoneV? || v.BoolV? || v.IntV?) ==> r == Err(TypeError)
  {
    match v
    case DictV(m) => Ok(m)
    case TupleV(items) => PairsToDict(items)
    case ListV(items) => PairsToDict(items)
    case StrV(s) => PairsToDict(CharStrings(s))
    case _ => Err(TypeError)
  }
}
