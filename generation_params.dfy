/** `extract_generation_parameters` of metadata_extractor.py: the sampler settings, checkpoint
    and LoRAs read from a flat-map provenance graph `{id: {"class_type": ..., "inputs": ...}}`. */
module GenerationParams {
  import opened Wrappers
  import opened Values

  /** The parameters dict, in insertion order. */
  type Params = seq<(string, Value)>

  /** Output key and input key of each setting a `KSampler` node contributes, in update order. */
  const KSamplerFields: seq<(string, string)> :=
    [("steps", "steps"), ("cfg_scale", "cfg"), ("sampler", "sampler_name"),
     ("scheduler", "scheduler"), ("seed", "seed")]

  /** Every key the parameters dict can hold. */
  const ParamNames: seq<string> := ["steps", "cfg_scale", "sampler", "scheduler", "seed", "model", "loras"]

  function ClassType(node: seq<(string, Value)>): Value {
    GetOr(node, "class_type", Str(""))
  }

  function InputsOf(node: seq<(string, Value)>): Value {
    GetOr(node, "inputs", EmptyObj)
  }

  /** The dict appended to `loras` for one `LoraLoader` node. */
  function LoraEntry(inputs: seq<(string, Value)>): Value {
    Obj([("name", GetOr(inputs, "lora_name", Null)),
         ("model_strength", GetOr(inputs, "strength_model", Null)),
         ("clip_strength", GetOr(inputs, "strength_clip", Null))])
  }

  /** The `loras` list collected so far. */
  function LorasIn(p: Params): seq<Value> {
    match Lookup(p, "loras")
    case Some(Arr(xs)) => xs
    case _ => []
  }

  /** `parameters.update({...})` for a `KSampler` node. */
  function KSamplerUpdate(p: Params, inputs: seq<(string, Value)>): Params {
    Assign(Assign(Assign(Assign(Assign(p,
      "steps", GetOr(inputs, "steps", Null)),
      "cfg_scale", GetOr(inputs, "cfg", Null)),
      "sampler", GetOr(inputs, "sampler_name", Null)),
      "scheduler", GetOr(inputs, "scheduler", Null)),
      "seed", GetOr(inputs, "seed", Null))
  }

  /** A sampler node's update leaves every other key alone. */
  lemma KSamplerKeeps(p: Params, inputs: seq<(string, Value)>, k: string)
    requires k !in ["steps", "cfg_scale", "sampler", "scheduler", "seed"]
    ensures Lookup(KSamplerUpdate(p, inputs), k) == Lookup(p, k)
  {
    var p1 := Assign(p, "steps", GetOr(inputs, "steps", Null));
    var p2 := Assign(p1, "cfg_scale", GetOr(inputs, "cfg", Null));
    var p3 := Assign(p2, "sampler", GetOr(inputs, "sampler_name", Null));
    var p4 := Assign(p3, "scheduler", GetOr(inputs, "scheduler", Null));
    assert Lookup(p4, k) == Lookup(p, k);
  }

  /** One iteration of the loop: non-dict nodes and other class types change nothing; `inputs`
      that is not a dict makes `inputs.get` raise for the three recognised class types. */
  function ParamStep(p: Params, node: Value): (r: Outcome<Params>)
    ensures !node.Obj? ==> r == Ok(p)
    ensures node.Obj? && ClassType(node.fields) !in [Str("KSampler"), Str("CheckpointLoaderSimple"), Str("LoraLoader")]
            ==> r == Ok(p)
    ensures node.Obj? && ClassType(node.fields) in [Str("KSampler"), Str("CheckpointLoaderSimple"), Str("LoraLoader")]
            ==> (r.Ok? <==> InputsOf(node.fields).Obj?)
  {
    if !node.Obj? then Ok(p)
    else
      var inputs := InputsOf(node.fields);
      var classType := ClassType(node.fields);
      if classType == Str("KSampler") then
        if inputs.Obj? then Ok(KSamplerUpdate(p, inputs.fields)) else Err(AttributeError)
      else if classType == Str("CheckpointLoaderSimple") then
        if inputs.Obj? then Ok(Assign(p, "model", GetOr(inputs.fields, "ckpt_name", Null))) else Err(AttributeError)
      else if classType == Str("LoraLoader") then
        if inputs.Obj? then Ok(Assign(p, "loras", Arr(LorasIn(p) + [LoraEntry(inputs.fields)]))) else Err(AttributeError)
      else Ok(p)
  }

  /** The loop over `prompt_data.items()` from the partial dict `p`, stopping at the first exception. */
  function FoldParams(p: Params, items: seq<(string, Value)>): Outcome<Params>
  {
    if |items| == 0 then Ok(p)
    else
      match FoldParams(p, items[..|items| - 1])
      case Err(e) => Err(e)
      case Ok(q) => ParamStep(q, items[|items| - 1].1)
  }

  /** `{k: v for k, v in parameters.items() if v is not None}`. */
  function DropNone(p: Params): (r: Params)
    ensures forall i :: 0 <= i < |r| ==> r[i].1 != Null && r[i] in p
  {
    if |p| == 0 then []
    else (if p[0].1 == Null then [] else [p[0]]) + DropNone(p[1..])
  }

  /** `extract_generation_parameters(prompt_data)` as a value. */
  function GenerationParameters(data: Value): (r: Outcome<Params>)
    ensures !data.Obj? ==> r == Ok([])
    ensures r.Ok? ==> forall i :: 0 <= i < |r.value| ==> r.value[i].1 != Null
  {
    if !data.Obj? then Ok([])
    else
      match FoldParams([], data.fields)
      case Err(e) => Err(e)
      case Ok(p) => Ok(DropNone(p))
  }

  /** `extract_generation_parameters(prompt_data)`. */
  method ExtractGenerationParameters(data: Value) returns (r: Outcome<Params>)
    ensures r == GenerationParameters(data)
  {
    if !data.Obj? {
      return Ok([]);
    }
    var items := data.fields;
    var parameters: Params := [];
    var i := 0;
    while i < |items|
      invariant 0 <= i <= |items|
      invariant FoldParams([], items[..i]) == Ok(parameters)
    {
      assert items[..i + 1][..i] == items[..i];
      var step := ParamStep(parameters, items[i].1);
      if step.Err? {
        FoldParamsErrPersists([], items, i + 1);
        return Err(step.error);
      }
      parameters := step.value;
      i := i + 1;
    }
    assert items[..i] == items;
    return Ok(DropNone(parameters));
  }

  lemma {:induction false} FoldParamsErrPersists(p: Params, items: seq<(string, Value)>, j: nat)
    requires j <= |items| && FoldParams(p, items[..j]).Err?
    ensures FoldParams(p, items) == FoldParams(p, items[..j])
  {
    if j < |items| {
      assert items[..|items| - 1][..j] == items[..j];
      FoldParamsErrPersists(p, items[..|items| - 1], j);
    } else {
      assert items[..j] == items;
    }
  }

  // ---------------------------------------------------------------- reference definitions

  /** The `inputs` of the last dict node of the given class type, if any. */
  function LastInputs(items: seq<(string, Value)>, classType: string): Option<Value>
  {
    if |items| == 0 then None
    else
      var node := items[|items| - 1].1;
      if node.Obj? && ClassType(node.fields) == Str(classType) then Some(InputsOf(node.fields))
      else LastInputs(items[..|items| - 1], classType)
  }

  /** The value the last node of a class type gives the input `src`, None when there is none. */
  function LastSetting(items: seq<(string, Value)>, classType: string, src: string): Option<Value>
  {
    match LastInputs(items, classType)
    case Some(Obj(inputs)) => Some(GetOr(inputs, src, Null))
    case _ => None
  }

  /** One LoRA entry per `LoraLoader` node, in graph order. */
  function LorasOf(items: seq<(string, Value)>): seq<Value>
  {
    if |items| == 0 then []
    else
      var node := items[|items| - 1].1;
      LorasOf(items[..|items| - 1]) +
      (if node.Obj? && ClassType(node.fields) == Str("LoraLoader") && InputsOf(node.fields).Obj?
       then [LoraEntry(InputsOf(node.fields).fields)] else [])
  }

  // ---------------------------------------------------------------- properties

  /** The keys a partial dict may hold. */
  ghost predicate KnownKeys(p: Params) {
    UniqueKeys(p) && forall k :: HasKey(p, k) ==> k in ParamNames
  }

  lemma AssignKnown(p: Params, key: string, v: Value)
    requires KnownKeys(p) && key in ParamNames
    ensures KnownKeys(Assign(p, key, v))
  {
    AssignShape(p, key, v);
    forall k | HasKey(Assign(p, key, v), k) ensures k in ParamNames {
      if k != key {
        assert Lookup(Assign(p, key, v), k) == Lookup(p, k);
      }
    }
  }

  lemma ParamStepKnown(p: Params, node: Value)
    requires KnownKeys(p) && ParamStep(p, node).Ok?
    ensures KnownKeys(ParamStep(p, node).value)
  {
    if node.Obj? && InputsOf(node.fields).Obj? {
      var inputs := InputsOf(node.fields).fields;
      var classType := ClassType(node.fields);
      if classType == Str("KSampler") {
        var p1 := Assign(p, "steps", GetOr(inputs, "steps", Null));
        AssignKnown(p, "steps", GetOr(inputs, "steps", Null));
        var p2 := Assign(p1, "cfg_scale", GetOr(inputs, "cfg", Null));
        AssignKnown(p1, "cfg_scale", GetOr(inputs, "cfg", Null));
        var p3 := Assign(p2, "sampler", GetOr(inputs, "sampler_name", Null));
        AssignKnown(p2, "sampler", GetOr(inputs, "sampler_name", Null));
        var p4 := Assign(p3, "scheduler", GetOr(inputs, "scheduler", Null));
        AssignKnown(p3, "scheduler", GetOr(inputs, "scheduler", Null));
        AssignKnown(p4, "seed", GetOr(inputs, "seed", Null));
      } else if classType == Str("CheckpointLoaderSimple") {
        AssignKnown(p, "model", GetOr(inputs, "ckpt_name", Null));
      } else if classType == Str("LoraLoader") {
        AssignKnown(p, "loras", Arr(LorasIn(p) + [LoraEntry(inputs)]));
      }
    }
  }

  /** The dict only ever holds the seven known keys, each once. */
  lemma {:induction false} FoldParamsKeys(items: seq<(string, Value)>)
    requires FoldParams([], items).Ok?
    ensures KnownKeys(FoldParams([], items).value)
  {
    if |items| > 0 {
      FoldParamsKeys(items[..|items| - 1]);
      ParamStepKnown(FoldParams([], items[..|items| - 1]).value, items[|items| - 1].1);
    }
  }

  /** Each sampler setting comes from the last `KSampler` node; later nodes of other types leave
      it alone. */
  lemma {:induction false} FoldParamsSampler(items: seq<(string, Value)>)
    requires FoldParams([], items).Ok?
    ensures forall k :: 0 <= k < |KSamplerFields| ==>
              Lookup(FoldParams([], items).value, KSamplerFields[k].0) == LastSetting(items, "KSampler", KSamplerFields[k].1)
  {
    if |items| > 0 {
      FoldParamsSampler(items[..|items| - 1]);
    }
  }

  /** One step touches "model" only for a checkpoint loader. */
  lemma ParamStepModel(q: Params, node: Value)
    requires ParamStep(q, node).Ok?
    ensures Lookup(ParamStep(q, node).value, "model") ==
            if node.Obj? && ClassType(node.fields) == Str("CheckpointLoaderSimple")
            then Some(GetOr(InputsOf(node.fields).fields, "ckpt_name", Null))
            else Lookup(q, "model")
  {
    if node.Obj? && ClassType(node.fields) == Str("KSampler") {
      var inputs := InputsOf(node.fields).fields;
      assert ParamStep(q, node).value == KSamplerUpdate(q, inputs);
      KSamplerKeeps(q, inputs, "model");
    }
  }

  /** One step touches "loras" only for a LoRA loader, appending its entry. */
  lemma ParamStepLoras(q: Params, node: Value)
    requires ParamStep(q, node).Ok?
    ensures Lookup(ParamStep(q, node).value, "loras") ==
            if node.Obj? && ClassType(node.fields) == Str("LoraLoader")
            then Some(Arr(LorasIn(q) + [LoraEntry(InputsOf(node.fields).fields)]))
            else Lookup(q, "loras")
  {
    if node.Obj? && ClassType(node.fields) == Str("KSampler") {
      var inputs := InputsOf(node.fields).fields;
      assert ParamStep(q, node).value == KSamplerUpdate(q, inputs);
      KSamplerKeeps(q, inputs, "loras");
    }
  }

  /** The model comes from the last `CheckpointLoaderSimple` node. */
  lemma {:induction false} FoldParamsModel(items: seq<(string, Value)>)
    requires FoldParams([], items).Ok?
    ensures Lookup(FoldParams([], items).value, "model") == LastSetting(items, "CheckpointLoaderSimple", "ckpt_name")
  {
    if |items| > 0 {
      var prefix := items[..|items| - 1];
      var node := items[|items| - 1].1;
      FoldParamsModel(prefix);
      var q := FoldParams([], prefix).value;
      assert FoldParams([], items) == ParamStep(q, node);
      ParamStepModel(q, node);
      if node.Obj? && ClassType(node.fields) == Str("CheckpointLoaderSimple") {
        assert LastInputs(items, "CheckpointLoaderSimple") == Some(InputsOf(node.fields));
      } else {
        assert LastInputs(items, "CheckpointLoaderSimple") == LastInputs(prefix, "CheckpointLoaderSimple");
      }
    }
  }

  /** `loras` lists every `LoraLoader` node in order, and exists only when there is one. */
  lemma {:induction false} FoldParamsLoras(items: seq<(string, Value)>)
    requires FoldParams([], items).Ok?
    ensures Lookup(FoldParams([], items).value, "loras") == (if LorasOf(items) == [] then None else Some(Arr(LorasOf(items))))
  {
    if |items| > 0 {
      var prefix := items[..|items| - 1];
      var node := items[|items| - 1].1;
      FoldParamsLoras(prefix);
      var q := FoldParams([], prefix).value;
      assert FoldParams([], items) == ParamStep(q, node);
      ParamStepLoras(q, node);
      assert LorasIn(q) == LorasOf(prefix);
      if node.Obj? && ClassType(node.fields) == Str("LoraLoader") && InputsOf(node.fields).Obj? {
        assert LorasOf(items) == LorasOf(prefix) + [LoraEntry(InputsOf(node.fields).fields)];
      } else {
        assert LorasOf(items) == LorasOf(prefix);
      }
    }
  }

  /** Dropping the None values hides exactly the keys that held None. */
  lemma {:induction false} DropNoneLookup(p: Params, k: string)
    requires UniqueKeys(p)
    ensures Lookup(DropNone(p), k) == if Lookup(p, k) == Some(Null) then None else Lookup(p, k)
  {
    if |p| > 0 {
      DropNoneLookup(p[1..], k);
      var rest := DropNone(p[1..]);
      if p[0].1 == Null {
        assert DropNone(p) == rest;
      } else {
        assert DropNone(p) == [p[0]] + rest;
        assert ([p[0]] + rest)[1..] == rest;
      }
    }
  }

  /** A `LastSetting` as it survives the final clean-up. */
  function Cleaned(o: Option<Value>): (r: Option<Value>)
    ensures r.Some? ==> r.value != Null
  {
    if o == Some(Null) then None else o
  }

  /** `extract_generation_parameters` in full: no None values and no other keys than the seven;
      each sampler setting from the last KSampler, the model from the last checkpoint loader,
      `loras` from every LoRA loader in order. */
  lemma GenerationParametersSpec(data: Value)
    requires data.Obj? && GenerationParameters(data).Ok?
    ensures forall i :: 0 <= i < |GenerationParameters(data).value| ==>
              GenerationParameters(data).value[i].0 in ParamNames
    ensures forall k :: 0 <= k < |KSamplerFields| ==>
              Lookup(GenerationParameters(data).value, KSamplerFields[k].0)
              == Cleaned(LastSetting(data.fields, "KSampler", KSamplerFields[k].1))
    ensures Lookup(GenerationParameters(data).value, "model")
            == Cleaned(LastSetting(data.fields, "CheckpointLoaderSimple", "ckpt_name"))
    ensures Lookup(GenerationParameters(data).value, "loras")
            == (if LorasOf(data.fields) == [] then None else Some(Arr(LorasOf(data.fields))))
  {
    var p := FoldParams([], data.fields).value;
    var r := GenerationParameters(data).value;
    FoldParamsKeys(data.fields);
    FoldParamsSampler(data.fields);
    FoldParamsModel(data.fields);
    FoldParamsLoras(data.fields);
    forall i | 0 <= i < |r| ensures r[i].0 in ParamNames {
      assert r[i] in p;
      LookupFinds(p, r[i].0);
    }
    forall k | 0 <= k < |KSamplerFields|
      ensures Lookup(r, KSamplerFields[k].0) == Cleaned(LastSetting(data.fields, "KSampler", KSamplerFields[k].1))
    {
      DropNoneLookup(p, KSamplerFields[k].0);
    }
    DropNoneLookup(p, "model");
    DropNoneLookup(p, "loras");
  }
}
