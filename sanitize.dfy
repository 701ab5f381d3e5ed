/** `sanitize_json_data` of server.py: the last pass over a scan result before it is
    serialised to JSON. */
module Sanitize {
  import opened Values

  /** The value is made of JSON kinds only, with finite numbers. */
  predicate JsonSafe(v: Value)
    decreases v
  {
    match v
    case Float(f) => f.Finite?
    case Other(_) => false
    case Arr(items) => forall k :: 0 <= k < |items| ==> JsonSafe(items[k])
    case Obj(fields) => forall k :: 0 <= k < |fields| ==> JsonSafe(fields[k].1)
    case _ => true
  }

  /** Dicts are rebuilt key by key and lists element by element; NaN and the infinities become
      None; finite floats, ints, strings, booleans and None are kept; anything else is `str()`ed. */
  function SanitizeJson(v: Value): (r: Value)
    ensures JsonSafe(r)
    ensures v.Obj? ==> r.Obj? && |r.fields| == |v.fields|
                       && forall k :: 0 <= k < |v.fields| ==> r.fields[k].0 == v.fields[k].0
    ensures v.Arr? ==> r.Arr? && |r.items| == |v.items|
    ensures v.Float? ==> r == if v.f.Finite? then v else Null
    ensures v.Null? || v.Bool? || v.Int? || v.Str? ==> r == v
    ensures v.Other? ==> r == Str(v.repr)
    decreases v
  {
    match v
    case Obj(fields) =>
      Obj(seq(|fields|, k requires 0 <= k < |fields| => (fields[k].0, SanitizeJson(fields[k].1))))
    case Arr(items) =>
      Arr(seq(|items|, k requires 0 <= k < |items| => SanitizeJson(items[k])))
    case Float(f) => if f.Finite? then v else Null
    case Other(repr) => Str(repr)
    case _ => v
  }

  /** On a value that is already JSON-safe the sanitiser is the identity. */
  lemma {:induction false} SanitizeKeepsSafe(v: Value)
    requires JsonSafe(v)
    ensures SanitizeJson(v) == v
    decreases v
  {
    match v
    case Obj(fields) =>
      var r := SanitizeJson(v);
      forall k | 0 <= k < |fields| ensures r.fields[k] == fields[k] {
        SanitizeKeepsSafe(fields[k].1);
      }
      assert r.fields == fields;
    case Arr(items) =>
      var r := SanitizeJson(v);
      forall k | 0 <= k < |items| ensures r.items[k] == items[k] {
        SanitizeKeepsSafe(items[k]);
      }
      assert r.items == items;
    case _ =>
  }

  /** Sanitising twice is sanitising once. */
  lemma SanitizeIdempotent(v: Value)
    ensures SanitizeJson(SanitizeJson(v)) == SanitizeJson(v)
  {
    SanitizeKeepsSafe(SanitizeJson(v));
  }

  /** Every child of a dict or list is sanitised in place. */
  lemma SanitizeChildren(v: Value)
    ensures v.Obj? ==> forall k :: 0 <= k < |v.fields| ==>
                         SanitizeJson(v).fields[k] == (v.fields[k].0, SanitizeJson(v.fields[k].1))
    ensures v.Arr? ==> forall k :: 0 <= k < |v.items| ==>
                         SanitizeJson(v).items[k] == SanitizeJson(v.items[k])
  {
  }
}
