/** prompt_config.py: the tables that steer prompt extraction, and `update_config`, which
    overwrites those tables by name. */
module PromptConfig {
  import opened Wrappers
  import opened Text
  import opened Values

  /** One entry of PROMPT_NODE_TYPES: a node type that may hold prompt text. */
  datatype NodeTypeRule = NodeTypeRule(nodeType: string, priority: int, textField: string)

  const PromptNodeTypeRules: seq<NodeTypeRule> := [
    NodeTypeRule("CLIPTextEncode", 1, "text"),
    NodeTypeRule("CR Prompt Text", 2, "text"),
    NodeTypeRule("ImpactWildcardProcessor", 3, "wildcard_text"),
    NodeTypeRule("Textbox", 4, "text"),
    NodeTypeRule("easy showAnything", 5, "anything"),
    NodeTypeRule("StringFunction", 6, "value"),
    NodeTypeRule("Text Multiline", 7, "text")
  ]

  /** BASIC_WORKFLOW_MAPPING: node ids that commonly hold each role in basic workflows. */
  const PositiveIds: seq<string> := ["2", "6", "7", "11", "12"]
  const NegativeIds: seq<string> := ["3", "7", "8", "13", "14"]
  const ModelIds: seq<string> := ["1", "4", "5"]
  const SamplerIds: seq<string> := ["10", "15", "16"]

  const PositiveIndicators: seq<string> := [
    "positive", "masterpiece", "best quality", "high quality",
    "detailed", "beautiful", "amazing", "stunning", "perfect",
    "photorealistic", "professional", "artistic", "elegant"
  ]

  const NegativeIndicators: seq<string> := [
    "negative", "bad", "worst quality", "low quality", "poor quality",
    "blurry", "distorted", "ugly", "deformed", "artifact", "noise",
    "overexposed", "underexposed", "cropped", "out of frame"
  ]

  const PositiveColors: seq<string> := ["#232", "#2a2", "#353", "#3a3"]
  const NegativeColors: seq<string> := ["#322", "#533", "#a22", "#533"]

  /** EXTRACTION_SETTINGS: nested settings, reachable only through that one attribute. */
  const ExtractionSettings: seq<(string, Value)> := [
    ("min_prompt_length", Int(3)),
    ("max_prompt_length", Int(10000)),
    ("prefer_titled_nodes", Bool(true)),
    ("use_heuristics", Bool(true)),
    ("use_color_hints", Bool(false)),
    ("deduplicate_prompts", Bool(true)),
    ("trim_whitespace", Bool(true))
  ]

  /** What the prompt parser reads from the configuration. */
  datatype Ruleset = Ruleset(
    promptNodeTypes: seq<string>,
    positiveIds: seq<string>,
    negativeIds: seq<string>,
    positiveKeywords: seq<string>,
    negativeKeywords: seq<string>)

  function RuleNames(rules: seq<NodeTypeRule>): (r: seq<string>)
    ensures |r| == |rules| && forall k :: 0 <= k < |rules| ==> r[k] == rules[k].nodeType
  {
    seq(|rules|, k requires 0 <= k < |rules| => rules[k].nodeType)
  }

  /** The ruleset of the shipped configuration. */
  const DefaultRules: Ruleset := Ruleset(
    RuleNames(PromptNodeTypeRules), PositiveIds, NegativeIds, PositiveIndicators, NegativeIndicators)

  /** Only id "7" is both a positive and a negative id. */
  lemma IdListsShareOnlySeven()
    ensures "7" in PositiveIds && "7" in NegativeIds
    ensures forall id :: id in PositiveIds && id in NegativeIds ==> id == "7"
  {
  }

  // ---------------------------------------------------------------- attributes as values

  function StrList(xs: seq<string>): (v: Value)
    ensures v.Arr? && |v.items| == |xs|
    ensures forall k :: 0 <= k < |xs| ==> v.items[k] == Str(xs[k])
  {
    Arr(seq(|xs|, k requires 0 <= k < |xs| => Str(xs[k])))
  }

  function NodeTypesValue(rules: seq<NodeTypeRule>): Value {
    Obj(seq(|rules|, k requires 0 <= k < |rules| =>
      (rules[k].nodeType, Obj([("priority", Int(rules[k].priority)), ("text_field", Str(rules[k].textField))]))))
  }

  /** The class attributes of PromptExtractionConfig as they are shipped. */
  function DefaultAttributes(): map<string, Value> {
    map[
      "PROMPT_NODE_TYPES" := NodeTypesValue(PromptNodeTypeRules),
      "BASIC_WORKFLOW_MAPPING" := Obj([
        ("positive_ids", StrList(PositiveIds)),
        ("negative_ids", StrList(NegativeIds)),
        ("model_ids", StrList(ModelIds)),
        ("sampler_ids", StrList(SamplerIds))]),
      "POSITIVE_INDICATORS" := StrList(PositiveIndicators),
      "NEGATIVE_INDICATORS" := StrList(NegativeIndicators),
      "NODE_COLORS" := Obj([("positive_colors", StrList(PositiveColors)), ("negative_colors", StrList(NegativeColors))]),
      "EXTRACTION_SETTINGS" := Obj(ExtractionSettings),
      "CUSTOM_RULES" := Arr([])
    ]
  }

  /** A list value whose elements are all strings, as a list of strings. */
  function AsStrings(v: Value): (r: Option<seq<string>>)
    ensures r.Some? ==> v == StrList(r.value)
  {
    if v.Arr? && forall k :: 0 <= k < |v.items| ==> v.items[k].Str? then
      var r := seq(|v.items|, k requires 0 <= k < |v.items| => v.items[k].s);
      assert v.items == StrList(r).items;
      Some(r)
    else None
  }

  /** Decoding a list of strings gives the strings back. */
  lemma AsStringsOfStrList(xs: seq<string>)
    ensures AsStrings(StrList(xs)) == Some(xs)
  {
    var v := StrList(xs);
    assert forall k :: 0 <= k < |v.items| ==> v.items[k].Str?;
    var r := seq(|v.items|, k requires 0 <= k < |v.items| => v.items[k].s);
    assert r == xs;
  }

  /** The ruleset the parser's getters derive from the attributes: the keys of
      PROMPT_NODE_TYPES, `mapping.get('positive_ids', mapping.get('positive', []))` and its
      negative twin, and the two indicator lists. None when an attribute is not of that shape. */
  function RulesFrom(attrs: map<string, Value>): (r: Option<Ruleset>)
    ensures r.Some? ==> "POSITIVE_INDICATORS" in attrs && "NEGATIVE_INDICATORS" in attrs
    ensures r.Some? ==> attrs["POSITIVE_INDICATORS"] == StrList(r.value.positiveKeywords)
                        && attrs["NEGATIVE_INDICATORS"] == StrList(r.value.negativeKeywords)
  {
    if "PROMPT_NODE_TYPES" !in attrs || "BASIC_WORKFLOW_MAPPING" !in attrs
       || "POSITIVE_INDICATORS" !in attrs || "NEGATIVE_INDICATORS" !in attrs then None
    else
      var types := attrs["PROMPT_NODE_TYPES"];
      var mapping := attrs["BASIC_WORKFLOW_MAPPING"];
      if !types.Obj? || !mapping.Obj? then None
      else
        var pos := AsStrings(GetOr(mapping.fields, "positive_ids", GetOr(mapping.fields, "positive", Arr([]))));
        var neg := AsStrings(GetOr(mapping.fields, "negative_ids", GetOr(mapping.fields, "negative", Arr([]))));
        var pk := AsStrings(attrs["POSITIVE_INDICATORS"]);
        var nk := AsStrings(attrs["NEGATIVE_INDICATORS"]);
        if pos.None? || neg.None? || pk.None? || nk.None? then None
        else Some(Ruleset(seq(|types.fields|, k requires 0 <= k < |types.fields| => types.fields[k].0),
                          pos.value, neg.value, pk.value, nk.value))
  }

  /** The shipped attributes yield the shipped ruleset. */
  lemma DefaultAttributesGiveDefaultRules()
    ensures RulesFrom(DefaultAttributes()) == Some(DefaultRules)
  {
    var attrs := DefaultAttributes();
    AsStringsOfStrList(PositiveIds);
    AsStringsOfStrList(NegativeIds);
    AsStringsOfStrList(PositiveIndicators);
    AsStringsOfStrList(NegativeIndicators);
    var types := attrs["PROMPT_NODE_TYPES"];
    var names := seq(|types.fields|, k requires 0 <= k < |types.fields| => types.fields[k].0);
    assert names == RuleNames(PromptNodeTypeRules);
    var mapping := attrs["BASIC_WORKFLOW_MAPPING"];
    assert GetOr(mapping.fields, "positive_ids", GetOr(mapping.fields, "positive", Arr([]))) == StrList(PositiveIds);
    assert Lookup(mapping.fields[1..], "negative_ids") == Some(StrList(NegativeIds));
    assert GetOr(mapping.fields, "negative_ids", GetOr(mapping.fields, "negative", Arr([]))) == StrList(NegativeIds);
  }

  // ---------------------------------------------------------------- update_config

  /** The attributes after `update_config(**kwargs)`: each keyword whose upper-cased name is an
      existing attribute overwrites it, in keyword order. */
  function Updated(attrs: map<string, Value>, kwargs: seq<(string, Value)>): map<string, Value>
  {
    if |kwargs| == 0 then attrs
    else
      var before := Updated(attrs, kwargs[..|kwargs| - 1]);
      var (key, value) := kwargs[|kwargs| - 1];
      if Upper(key) in before then before[Upper(key) := value] else before
  }

  /** The keywords `update_config` warns about, in order: those naming no attribute. */
  function UnknownKeys(attrs: map<string, Value>, kwargs: seq<(string, Value)>): seq<string>
  {
    if |kwargs| == 0 then []
    else
      var key := kwargs[|kwargs| - 1].0;
      UnknownKeys(attrs, kwargs[..|kwargs| - 1]) + (if Upper(key) in attrs then [] else [key])
  }

  /** The value given last, among the keywords that upper-case to `name`. */
  function LastAssigned(kwargs: seq<(string, Value)>, name: string): Option<Value>
  {
    if |kwargs| == 0 then None
    else if Upper(kwargs[|kwargs| - 1].0) == name then Some(kwargs[|kwargs| - 1].1)
    else LastAssigned(kwargs[..|kwargs| - 1], name)
  }

  /** update_config never adds or removes an attribute. */
  lemma {:induction false} UpdatedKeys(attrs: map<string, Value>, kwargs: seq<(string, Value)>)
    ensures Updated(attrs, kwargs).Keys == attrs.Keys
  {
    if |kwargs| > 0 {
      UpdatedKeys(attrs, kwargs[..|kwargs| - 1]);
    }
  }

  /** Each attribute ends up holding the last value given for it, or is unchanged when no
      keyword names it. */
  lemma {:induction false} UpdatedValue(attrs: map<string, Value>, kwargs: seq<(string, Value)>, name: string)
    requires name in attrs
    ensures name in Updated(attrs, kwargs)
    ensures Updated(attrs, kwargs)[name] == LastAssigned(kwargs, name).GetOr(attrs[name])
  {
    UpdatedKeys(attrs, kwargs);
    if |kwargs| > 0 {
      UpdatedValue(attrs, kwargs[..|kwargs| - 1], name);
      UpdatedKeys(attrs, kwargs[..|kwargs| - 1]);
    }
  }

  /** A keyword is warned about exactly when its upper-cased name is not an attribute. */
  lemma {:induction false} UnknownKeysExact(attrs: map<string, Value>, kwargs: seq<(string, Value)>, key: string)
    ensures key in UnknownKeys(attrs, kwargs) <==>
            Upper(key) !in attrs && exists i :: 0 <= i < |kwargs| && kwargs[i].0 == key
  {
    if |kwargs| > 0 {
      var init := kwargs[..|kwargs| - 1];
      UnknownKeysExact(attrs, init, key);
      assert forall i :: 0 <= i < |init| ==> init[i] == kwargs[i];
      if Upper(key) !in attrs && exists i :: 0 <= i < |kwargs| && kwargs[i].0 == key {
        var i :| 0 <= i < |kwargs| && kwargs[i].0 == key;
        if i < |init| {
          assert init[i].0 == key;
        }
      }
    }
  }

  /** The attribute names of the shipped class. */
  lemma DefaultAttributeNames()
    ensures DefaultAttributes().Keys == {"PROMPT_NODE_TYPES", "BASIC_WORKFLOW_MAPPING", "POSITIVE_INDICATORS",
                                         "NEGATIVE_INDICATORS", "NODE_COLORS", "EXTRACTION_SETTINGS", "CUSTOM_RULES"}
  {
  }

  /** Keywords none of whose upper-cased names is an attribute change nothing, and each is
      warned about. */
  lemma {:induction false} UnknownKeywordsChangeNothing(attrs: map<string, Value>, kwargs: seq<(string, Value)>)
    requires forall i :: 0 <= i < |kwargs| ==> Upper(kwargs[i].0) !in attrs
    ensures Updated(attrs, kwargs) == attrs
    ensures UnknownKeys(attrs, kwargs) == seq(|kwargs|, i requires 0 <= i < |kwargs| => kwargs[i].0)
  {
    if |kwargs| > 0 {
      var init := kwargs[..|kwargs| - 1];
      assert forall i :: 0 <= i < |init| ==> init[i] == kwargs[i];
      UnknownKeywordsChangeNothing(attrs, init);
    }
  }

  lemma ExampleKeywordsUpper()
    ensures Upper("min_prompt_length") == "MIN_PROMPT_LENGTH"
    ensures Upper("prefer_titled_nodes") == "PREFER_TITLED_NODES"
  {
  }

  /** The documented call `update_config(min_prompt_length=5, prefer_titled_nodes=False)` changes
      no attribute: those names live inside EXTRACTION_SETTINGS, not on the class. Both are
      warned about. */
  lemma DocumentedExampleChangesNothing()
    ensures Updated(DefaultAttributes(), [("min_prompt_length", Int(5)), ("prefer_titled_nodes", Bool(false))])
            == DefaultAttributes()
    ensures UnknownKeys(DefaultAttributes(), [("min_prompt_length", Int(5)), ("prefer_titled_nodes", Bool(false))])
            == ["min_prompt_length", "prefer_titled_nodes"]
  {
    var kw := [("min_prompt_length", Int(5)), ("prefer_titled_nodes", Bool(false))];
    var attrs := DefaultAttributes();
    DefaultAttributeNames();
    ExampleKeywordsUpper();
    assert Upper(kw[0].0) !in attrs && Upper(kw[1].0) !in attrs;
    UnknownKeywordsChangeNothing(attrs, kw);
    assert seq(|kw|, i requires 0 <= i < |kw| => kw[i].0) == ["min_prompt_length", "prefer_titled_nodes"];
  }

  /** The configuration class: its attributes live in one map that `update_config` rewrites. */
  class PromptExtractionConfig {
    var attributes: map<string, Value>

    constructor ()
      ensures attributes == DefaultAttributes()
    {
      attributes := DefaultAttributes();
    }

    /** The ruleset the parser would read now. */
    function Rules(): Option<Ruleset>
      reads this
    {
      RulesFrom(attributes)
    }

    /** `update_config(**kwargs)`; the warnings it prints are returned, one key per warning. */
    method UpdateConfig(kwargs: seq<(string, Value)>) returns (warnings: seq<string>)
      modifies this
      ensures attributes == Updated(old(attributes), kwargs)
      ensures attributes.Keys == old(attributes).Keys
      ensures warnings == UnknownKeys(old(attributes), kwargs)
    {
      warnings := [];
      var i := 0;
      while i < |kwargs|
        invariant 0 <= i <= |kwargs|
        invariant attributes == Updated(old(attributes), kwargs[..i])
        invariant attributes.Keys == old(attributes).Keys
        invariant warnings == UnknownKeys(old(attributes), kwargs[..i])
      {
        var (key, value) := kwargs[i];
        assert kwargs[..i + 1][..i] == kwargs[..i];
        UpdatedKeys(old(attributes), kwargs[..i + 1]);
        if Upper(key) in attributes {
          attributes := attributes[Upper(key) := value];
        } else {
          warnings := warnings + [key];
        }
        i := i + 1;
      }
      assert kwargs[..i] == kwargs;
    }
  }
}
