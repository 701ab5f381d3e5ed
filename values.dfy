/** The data the core passes around: JSON-shaped values as Python's `json` module and the
    browser's `JSON.parse` produce them, plus Python objects of other kinds (EXIF rationals,
    tuples, ...) that only the sanitiser meets. This module also gives the Python semantics
    the extractor relies on: truthiness, `str`/`repr`, `in`, subscripting and `dict.get`. */
module Values {
  import opened Wrappers
  import opened Text

  /** A double as it travels through JSON: the decimal `mantissa / 10^scale`, or a special value. */
  datatype Float = Finite(mantissa: int, scale: nat) | NaN | Inf(negative: bool)

  /** A JSON value. Objects are lists of (key, value) pairs in insertion order; every dict and
      object the source builds has distinct keys, and lookups read a key's first occurrence.
      `Other` is any Python object that is none of the JSON kinds, carried with its `str()`. */
  datatype Value =
    | Null
    | Bool(b: bool)
    | Int(i: int)
    | Float(f: Float)
    | Str(s: string)
    | Arr(items: seq<Value>)
    | Obj(fields: seq<(string, Value)>)
    | Other(repr: string)

  /** The exceptions the modelled Python and TypeScript code can raise. */
  datatype Raised = TypeError | KeyError | AttributeError | IndexError

  type Outcome<T> = Result<T, Raised>

  /** The value stored under `key`, if any. */
  function Lookup(fields: seq<(string, Value)>, key: string): Option<Value> {
    if |fields| == 0 then None
    else if fields[0].0 == key then Some(fields[0].1)
    else Lookup(fields[1..], key)
  }

  /** Lookup agrees with a search over the pairs: it finds the key exactly when some pair holds
      it, and what it finds is a value paired with the key. */
  lemma {:induction false} LookupFinds(fields: seq<(string, Value)>, key: string)
    ensures Lookup(fields, key).Some? <==> exists i :: 0 <= i < |fields| && fields[i].0 == key
    ensures Lookup(fields, key).Some? ==> exists i :: 0 <= i < |fields| && fields[i] == (key, Lookup(fields, key).value)
  {
    if |fields| > 0 && fields[0].0 != key {
      LookupFinds(fields[1..], key);
      assert forall i :: 1 <= i < |fields| ==> fields[i] == fields[1..][i - 1];
    }
  }

  predicate HasKey(fields: seq<(string, Value)>, key: string) {
    Lookup(fields, key).Some?
  }

  /** The field-wise result of `dict.get(key, default)` on a dict. */
  function GetOr(fields: seq<(string, Value)>, key: string, default: Value): Value {
    Lookup(fields, key).GetOr(default)
  }

  /** An empty dict `{}`. */
  const EmptyObj := Obj([])

  // ---------------------------------------------------------------- Python semantics

  /** `bool(v)` in Python. */
  predicate PyTruthy(v: Value) {
    match v
    case Null => false
    case Bool(b) => b
    case Int(i) => i != 0
    case Float(f) => !(f.Finite? && f.mantissa == 0)
    case Str(s) => s != ""
    case Arr(items) => |items| > 0
    case Obj(fields) => |fields| > 0
    case Other(_) => true
  }

  /** Truthiness of a Python value that is either `None` or a string. */
  predicate PyTruthyText(t: Option<string>) {
    t.Some? && t.value != ""
  }

  /** The integer and fraction digits of |mantissa| / 10^scale, trailing fraction zeros stripped. */
  function DecimalDigits(mantissa: int, scale: nat): (string, string) {
    var a: nat := if mantissa < 0 then -mantissa else mantissa;
    var p: nat := Pow10(scale);
    var q: nat := NatDiv(a, p);
    var rem: nat := a % p;
    (NatToString(q), StripTrailingZeros(PadDigits(rem, scale)))
  }

  function NatDiv(a: nat, p: nat): (q: nat)
    requires p > 0
  {
    a / p
  }

  /** Python's `repr` of a float (`7.0`, `0.5`, `nan`, `-inf`), without exponent notation. */
  function PyFloatStr(f: Float): string {
    match f
    case NaN => "nan"
    case Inf(neg) => if neg then "-inf" else "inf"
    case Finite(m, scale) =>
      var (ip, fp) := DecimalDigits(m, scale);
      (if m < 0 then "-" else "") + ip + "." + (if fp == "" then "0" else fp)
  }

  /** Python's `str(v)`: strings are themselves, everything else is its `repr`. */
  function PyStr(v: Value): string
    decreases v, 1
  {
    if v.Str? then v.s else PyRepr(v)
  }

  /** Python's `repr(v)`. Strings are single-quoted without escaping. */
  function PyRepr(v: Value): string
    decreases v, 0
  {
    match v
    case Null => "None"
    case Bool(b) => if b then "True" else "False"
    case Int(i) => IntToString(i)
    case Float(f) => PyFloatStr(f)
    case Str(s) => "'" + s + "'"
    case Arr(items) =>
      "[" + Join(seq(|items|, k requires 0 <= k < |items| => PyRepr(items[k])), ", ") + "]"
    case Obj(fields) =>
      "{" + Join(seq(|fields|, k requires 0 <= k < |fields| =>
                   "'" + fields[k].0 + "': " + PyRepr(fields[k].1)), ", ") + "}"
    case Other(r) => r
  }

  /** `key in container` with a string `key`: dict membership, list membership by equality,
      substring test on strings; any other container raises TypeError. */
  function PyIn(key: string, container: Value): (r: Outcome<bool>)
    ensures r.Err? <==> !(container.Obj? || container.Arr? || container.Str?)
    ensures container.Obj? ==> r == Ok(HasKey(container.fields, key))
  {
    match container
    case Obj(fields) => Ok(HasKey(fields, key))
    case Arr(items) => Ok(Str(key) in items)
    case Str(s) => Ok(Contains(s, key))
    case _ => Err(TypeError)
  }

  /** `container[key]` with a string `key`. */
  function PySubscript(container: Value, key: string): (r: Outcome<Value>)
    ensures r.Ok? <==> container.Obj? && HasKey(container.fields, key)
    ensures r.Ok? ==> Lookup(container.fields, key) == Some(r.value)
  {
    match container
    case Obj(fields) => if HasKey(fields, key) then Ok(Lookup(fields, key).value) else Err(KeyError)
    case _ => Err(TypeError)
  }

  /** `container[0]`. Dict keys are strings here, so a dict never has the key 0. */
  function PyIndex0(container: Value): (r: Outcome<Value>)
    ensures r.Ok? <==> (container.Arr? && |container.items| > 0) || (container.Str? && |container.s| > 0)
    ensures r.Ok? && container.Arr? ==> r.value == container.items[0]
    ensures r.Ok? && container.Str? ==> r.value == Str([container.s[0]])
  {
    match container
    case Arr(items) => if |items| > 0 then Ok(items[0]) else Err(IndexError)
    case Str(s) => if |s| > 0 then Ok(Str([s[0]])) else Err(IndexError)
    case Obj(_) => Err(KeyError)
    case _ => Err(TypeError)
  }

  /** `container.get(key, default)`: only dicts have a `get` method. */
  function PyDictGet(container: Value, key: string, default: Value): (r: Outcome<Value>)
    ensures r.Ok? <==> container.Obj?
    ensures container.Obj? ==> r.value == GetOr(container.fields, key, default)
  {
    if container.Obj? then Ok(GetOr(container.fields, key, default)) else Err(AttributeError)
  }

  /** No key occurs twice, as in a dict built only by item assignment. */
  predicate UniqueKeys(fields: seq<(string, Value)>) {
    |fields| == 0 || (!HasKey(fields[1..], fields[0].0) && UniqueKeys(fields[1..]))
  }

  /** `d[key] = v`: an existing key keeps its place and takes the new value, a new key goes last. */
  function Assign(fields: seq<(string, Value)>, key: string, v: Value): (r: seq<(string, Value)>)
    ensures Lookup(r, key) == Some(v)
    ensures forall k :: k != key ==> Lookup(r, k) == Lookup(fields, k)
  {
    if |fields| == 0 then [(key, v)]
    else if fields[0].0 == key then [(key, v)] + fields[1..]
    else
      var rest := Assign(fields[1..], key, v);
      assert forall i :: 1 <= i < |fields| ==> fields[i] == fields[1..][i - 1];
      assert ([fields[0]] + rest)[1..] == rest;
      [fields[0]] + rest
  }

  /** Where the assigned pair ends up: in place of an existing key, else at the end; a dict
      stays a dict. */
  lemma {:induction false} AssignShape(fields: seq<(string, Value)>, key: string, v: Value)
    ensures HasKey(fields, key) ==> |Assign(fields, key, v)| == |fields|
    ensures !HasKey(fields, key) ==> Assign(fields, key, v) == fields + [(key, v)]
    ensures UniqueKeys(fields) ==> UniqueKeys(Assign(fields, key, v))
  {
    if |fields| > 0 && fields[0].0 != key {
      AssignShape(fields[1..], key, v);
      var rest := Assign(fields[1..], key, v);
      assert ([fields[0]] + rest)[1..] == rest;
      assert forall i :: 1 <= i < |fields| ==> fields[i] == fields[1..][i - 1];
      assert (fields + [(key, v)])[1..] == fields[1..] + [(key, v)];
    }
  }
}
