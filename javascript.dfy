/** The JavaScript semantics the browser-side metadata formatter relies on, over the same
    JSON values the server sends: `undefined` (written `None` of `Js`), truthiness, property
    reads with and without optional chaining, `||`, `??`, `String(x)` and `for…in` key order. */
module JavaScript {
  import opened Wrappers
  import opened Text
  import opened Values

  /** A JavaScript value read from parsed JSON: `None` is `undefined`. */
  type Js = Option<Value>

  /** JavaScript truthiness; unlike Python, empty arrays and objects are truthy and NaN is falsy. */
  predicate Truthy(v: Value) {
    match v
    case Null => false
    case Bool(b) => b
    case Int(i) => i != 0
    case Float(f) => f.Inf? || (f.Finite? && f.mantissa != 0)
    case Str(s) => s != ""
    case _ => true
  }

  predicate TruthyJs(x: Js) {
    x.Some? && Truthy(x.value)
  }

  /** `undefined` or `null`. */
  predicate Nullish(x: Js) {
    x.None? || x.value.Null?
  }

  /** `typeof v === 'object'` for a non-null value: objects and arrays. */
  predicate IsObject(v: Value) {
    v.Obj? || v.Arr?
  }

  predicate IsDigit(c: char) {
    '0' <= c <= '9'
  }

  function DigitsValue(s: string): nat
    requires forall k :: 0 <= k < |s| ==> IsDigit(s[k])
  {
    if |s| == 0 then 0
    else
      assert IsDigit(s[|s| - 1]);
      10 * DigitsValue(s[..|s| - 1]) + (s[|s| - 1] as int - '0' as int)
  }

  /** `key` is an array index: a canonical decimal numeral below 2^32 - 1. */
  function ArrayIndex(key: string): (r: Option<nat>)
    ensures r.Some? ==> r.value < 0xFFFF_FFFF
  {
    if |key| > 0 && (forall k :: 0 <= k < |key| ==> IsDigit(key[k])) && (key[0] != '0' || |key| == 1)
       && DigitsValue(key) < 0xFFFF_FFFF
    then Some(DigitsValue(key))
    else None
  }

  /** `v[key]` on a value that is neither null nor undefined. */
  function Prop(v: Value, key: string): (r: Js)
    ensures v.Obj? ==> r == Lookup(v.fields, key)
    ensures !(v.Obj? || v.Arr? || v.Str?) ==> r.None?
  {
    match v
    case Obj(fields) => Lookup(fields, key)
    case Arr(items) =>
      var n := ArrayIndex(key);
      if n.Some? && n.value < |items| then Some(items[n.value]) else None
    case Str(s) =>
      var n := ArrayIndex(key);
      if n.Some? && n.value < |s| then Some(Str([s[n.value]])) else None
    case _ => None
  }

  /** `x?.[key]`: undefined when `x` is nullish. */
  function OptProp(x: Js, key: string): (r: Js)
    ensures Nullish(x) ==> r.None?
  {
    if Nullish(x) then None else Prop(x.value, key)
  }

  /** `x.key`: a TypeError when `x` is nullish. */
  function GetProp(x: Js, key: string): (r: Outcome<Js>)
    ensures r.Err? <==> Nullish(x)
  {
    if Nullish(x) then Err(TypeError) else Ok(Prop(x.value, key))
  }

  /** `a || b`. */
  function Or(a: Js, b: Js): (r: Js)
    ensures TruthyJs(a) ==> r == a
    ensures !TruthyJs(a) ==> r == b
  {
    if TruthyJs(a) then a else b
  }

  /** `a || b` where `b` is a value. */
  function OrElse(a: Js, b: Value): (r: Value)
    ensures TruthyJs(a) ==> Some(r) == a
    ensures !TruthyJs(a) ==> r == b
  {
    if TruthyJs(a) then a.value else b
  }

  /** `a ?? b`. */
  function Coalesce(a: Js, b: Value): (r: Value)
    ensures !Nullish(a) ==> Some(r) == a
    ensures Nullish(a) ==> r == b
  {
    if Nullish(a) then b else a.value
  }

  /** `String(x)` for a number, without exponent notation: `8` for 8.0, `7.5` for 7.5. */
  function NumberString(f: Float): string {
    match f
    case NaN => "NaN"
    case Inf(neg) => if neg then "-Infinity" else "Infinity"
    case Finite(m, scale) =>
      var (ip, fp) := DecimalDigits(m, scale);
      (if m < 0 then "-" else "") + ip + (if fp == "" then "" else "." + fp)
  }

  /** `String(v)`: arrays join their elements with ',' (null elements become empty), every
      other object is "[object Object]". */
  function JsString(v: Value): string
    decreases v
  {
    match v
    case Null => "null"
    case Bool(b) => if b then "true" else "false"
    case Int(i) => IntToString(i)
    case Float(f) => NumberString(f)
    case Str(s) => s
    case Arr(items) =>
      Join(seq(|items|, k requires 0 <= k < |items| => if items[k].Null? then "" else JsString(items[k])), ",")
    case Obj(_) => "[object Object]"
    case Other(r) => r
  }

  /** `String(x)` including `undefined`. */
  function JsStringOf(x: Js): string {
    if x.None? then "undefined" else JsString(x.value)
  }

  /** `xs.join(sep)`: undefined and null elements contribute the empty string. */
  function JoinJs(xs: seq<Js>, sep: string): string {
    Join(seq(|xs|, k requires 0 <= k < |xs| => if Nullish(xs[k]) then "" else JsString(xs[k].value)), sep)
  }

  /** The keys of `fields` at their first occurrence, in order. */
  function DistinctKeys(fields: seq<(string, Value)>): (r: seq<string>)
    ensures forall k :: 0 <= k < |r| ==> HasKey(fields, r[k])
    ensures forall i :: 0 <= i < |fields| ==> fields[i].0 in r
  {
    if |fields| == 0 then []
    else
      var rest := DistinctKeys(fields[..|fields| - 1]);
      assert forall i :: 0 <= i < |fields| - 1 ==> fields[..|fields| - 1][i] == fields[i];
      HasKeyExtends(fields);
      if fields[|fields| - 1].0 in rest then rest else rest + [fields[|fields| - 1].0]
  }

  /** A key of a prefix, or of the last pair, is a key of the whole list. */
  lemma HasKeyExtends(fields: seq<(string, Value)>)
    requires |fields| > 0
    ensures forall k :: HasKey(fields[..|fields| - 1], k) ==> HasKey(fields, k)
    ensures HasKey(fields, fields[|fields| - 1].0)
  {
    var prefix := fields[..|fields| - 1];
    forall k | HasKey(prefix, k) ensures HasKey(fields, k) {
      LookupFinds(prefix, k);
      var i :| 0 <= i < |prefix| && prefix[i].0 == k;
      assert fields[i].0 == k;
      LookupFinds(fields, k);
    }
    LookupFinds(fields, fields[|fields| - 1].0);
  }

  function IndexOf(key: string): nat {
    ArrayIndex(key).GetOr(0)
  }

  /** Inserts `key` into `sorted` in ascending array-index order. */
  function InsertByIndex(key: string, sorted: seq<string>): (r: seq<string>)
    ensures multiset(r) == multiset(sorted) + multiset{key}
  {
    if |sorted| == 0 || IndexOf(key) <= IndexOf(sorted[0]) then [key] + sorted
    else
      assert sorted == [sorted[0]] + sorted[1..];
      [sorted[0]] + InsertByIndex(key, sorted[1..])
  }

  function SortByIndex(keys: seq<string>): (r: seq<string>)
    ensures multiset(r) == multiset(keys)
  {
    if |keys| == 0 then []
    else
      assert keys == [keys[0]] + keys[1..];
      InsertByIndex(keys[0], SortByIndex(keys[1..]))
  }

  function IndexKeys(keys: seq<string>): (r: seq<string>)
    ensures forall k :: 0 <= k < |r| ==> r[k] in keys && ArrayIndex(r[k]).Some?
  {
    if |keys| == 0 then []
    else
      var rest := IndexKeys(keys[1..]);
      if ArrayIndex(keys[0]).Some? then [keys[0]] + rest else rest
  }

  function NamedKeys(keys: seq<string>): (r: seq<string>)
    ensures forall k :: 0 <= k < |r| ==> r[k] in keys && ArrayIndex(r[k]).None?
  {
    if |keys| == 0 then []
    else
      var rest := NamedKeys(keys[1..]);
      if ArrayIndex(keys[0]).None? then [keys[0]] + rest else rest
  }

  /** The keys `for (const key in v)` visits: for an object, its array-index keys in ascending
      numeric order, then its other keys in insertion order; for an array, "0" to "n-1". */
  function ForInKeys(v: Value): seq<string> {
    match v
    case Obj(fields) =>
      var keys := DistinctKeys(fields);
      SortByIndex(IndexKeys(keys)) + NamedKeys(keys)
    case Arr(items) => seq(|items|, k requires 0 <= k < |items| => NatToString(k))
    case _ => []
  }
}
