/** web/src/metadataParser.ts: the browser turns a file's metadata into the label/value pairs
    the gallery shows. `parseMetadata` builds an object literal, `parseComfyMetadata` fills a
    record step by step (structured prompts first, else the legacy graph reading). */
module MetadataParser {
  import opened Wrappers
  import opened Text
  import opened Values
  import opened JavaScript
  import GenerationParams

  // ---------------------------------------------------------------- formatLoRAs

  /** One element of the `loras` list: an object with a `name` becomes
      `name (Model: m, Clip: c)`, anything else `String(x)`. */
  function FormatLoRA(lora: Value): string {
    if lora.Obj? && HasKey(lora.fields, "name") then
      var modelStr := Coalesce(Prop(lora, "model_strength"), Coalesce(Prop(lora, "strength"), Str("N/A")));
      var clipStr := Coalesce(Prop(lora, "clip_strength"), Str("N/A"));
      JsString(Lookup(lora.fields, "name").value) + " (Model: " + JsString(modelStr) + ", Clip: " + JsString(clipStr) + ")"
    else JsString(lora)
  }

  /** `formatLoRAs(loras)`. */
  function FormatLoRAs(loras: Value): (r: string)
    ensures !loras.Arr? || |loras.items| == 0 ==> r == "N/A"
    ensures loras.Arr? && |loras.items| == 1 ==> r == FormatLoRA(loras.items[0])
  {
    if !loras.Arr? || |loras.items| == 0 then "N/A"
    else Join(seq(|loras.items|, k requires 0 <= k < |loras.items| => FormatLoRA(loras.items[k])), ", ")
  }

  /** The list of entries formats piecewise: two non-empty lists format to their parts joined
      by ", ". */
  lemma FormatLoRAsAppend(a: seq<Value>, b: seq<Value>)
    requires |a| > 0 && |b| > 0
    ensures FormatLoRAs(Arr(a + b)) == FormatLoRAs(Arr(a)) + ", " + FormatLoRAs(Arr(b))
  {
    var fa := seq(|a|, k requires 0 <= k < |a| => FormatLoRA(a[k]));
    var fb := seq(|b|, k requires 0 <= k < |b| => FormatLoRA(b[k]));
    assert seq(|a + b|, k requires 0 <= k < |a + b| => FormatLoRA((a + b)[k])) == fa + fb;
    JoinAppend(fa, fb, ", ");
  }

  /** A LoRA entry as the server builds it is shown by name with its strengths, "N/A" standing
      for a strength the loader node did not give. */
  lemma ServerLoRAEntryShown(inputs: seq<(string, Value)>)
    ensures FormatLoRA(GenerationParams.LoraEntry(inputs)) ==
            JsString(GetOr(inputs, "lora_name", Null))
            + " (Model: " + (if GetOr(inputs, "strength_model", Null).Null? then "N/A" else JsString(GetOr(inputs, "strength_model", Null)))
            + ", Clip: " + (if GetOr(inputs, "strength_clip", Null).Null? then "N/A" else JsString(GetOr(inputs, "strength_clip", Null)))
            + ")"
  {
    var name := GetOr(inputs, "lora_name", Null);
    var sm := GetOr(inputs, "strength_model", Null);
    var sc := GetOr(inputs, "strength_clip", Null);
    var fields := [("name", name), ("model_strength", sm), ("clip_strength", sc)];
    assert GenerationParams.LoraEntry(inputs) == Obj(fields);
    assert Lookup(fields, "name") == Some(name);
    assert Lookup(fields[1..], "model_strength") == Some(sm);
    assert Lookup(fields, "model_strength") == Some(sm);
    assert Lookup(fields[1..][1..], "clip_strength") == Some(sc);
    assert Lookup(fields[1..], "clip_strength") == Some(sc);
    assert Lookup(fields, "clip_strength") == Some(sc);
    assert Lookup(fields[1..][1..], "strength").None?;
    assert Lookup(fields, "strength").None?;
    var modelStr := Coalesce(Some(sm), Coalesce(None, Str("N/A")));
    var clipStr := Coalesce(Some(sc), Str("N/A"));
    assert JsString(modelStr) == if sm.Null? then "N/A" else JsString(sm);
    assert JsString(clipStr) == if sc.Null? then "N/A" else JsString(sc);
  }

  // ---------------------------------------------------------------- parseMetadata

  /** An object literal of the display: labels in source order, values possibly undefined. */
  type Display = seq<(string, Js)>

  function Labels(d: Display): seq<string> {
    seq(|d|, i requires 0 <= i < |d| => d[i].0)
  }

  const FileLabels: seq<string> := ["Filename", "Resolution", "File Size", "Date Created"]

  const StructuredTailLabels: seq<string> :=
    ["Positive Prompt", "Negative Prompt", "Model", "Sampler", "Scheduler", "Steps", "CFG Scale",
     "Seed", "LoRAs", "Extraction Method"]

  const LegacyTailLabels: seq<string> :=
    ["Model", "Positive Prompt", "Negative Prompt", "Sampler", "Scheduler", "Steps", "CFG Scale",
     "Seed", "LoRAs"]

  const StructuredLabels: seq<string> := FileLabels + StructuredTailLabels
  const LegacyLabels: seq<string> := FileLabels + LegacyTailLabels

  /** An object literal from its labels and, in the same order, its values. */
  function DisplayOf(labels: seq<string>, values: seq<Js>): (d: Display)
    requires |labels| == |values|
    ensures Labels(d) == labels
    ensures forall i :: 0 <= i < |d| ==> d[i].1 == values[i]
  {
    seq(|labels|, i requires 0 <= i < |labels| => (labels[i], values[i]))
  }

  /** The four file lines `parseMetadata` shows on both paths. */
  function FileLines(details: Value, fileinfo: Value): (d: Display)
    ensures Labels(d) == FileLabels
    ensures d[0].1 == Or(Prop(fileinfo, "filename"), Prop(details, "name"))
  {
    DisplayOf(FileLabels,
      [Or(Prop(fileinfo, "filename"), Prop(details, "name")),
       Prop(fileinfo, "resolution"),
       Prop(fileinfo, "size"),
       Or(Prop(fileinfo, "date"), Prop(details, "date"))])
  }

  /** The lines read from a truthy `structured_prompts`. */
  function StructuredLines(structured: Value): (d: Display)
    ensures Labels(d) == StructuredTailLabels
  {
    var params := Prop(structured, "parameters");
    var loras := OptProp(params, "loras");
    DisplayOf(StructuredTailLabels,
      [Prop(structured, "positive"),
       Prop(structured, "negative"),
       OptProp(params, "model"),
       OptProp(params, "sampler"),
       OptProp(params, "scheduler"),
       OptProp(params, "steps"),
       OptProp(params, "cfg_scale"),
       OptProp(params, "seed"),
       if TruthyJs(loras) then Some(Str(FormatLoRAs(loras.value))) else Some(Null),
       Prop(structured, "extraction_method")])
  }

  /** The lines read from the legacy `prompt` record. */
  function LegacyLines(prompt: Value): (d: Display)
    ensures Labels(d) == LegacyTailLabels
  {
    DisplayOf(LegacyTailLabels,
      [Prop(prompt, "model"),
       Prop(prompt, "positive"),
       Prop(prompt, "negative"),
       Prop(prompt, "sampler"),
       Prop(prompt, "scheduler"),
       Prop(prompt, "steps"),
       Prop(prompt, "cfg_scale"),
       Prop(prompt, "seed"),
       Prop(prompt, "loras")])
  }

  /** `parseMetadata(details)`. */
  function ParseMetadata(details: Js): (d: Display)
    ensures d == [] || Labels(d) == StructuredLabels || Labels(d) == LegacyLabels
  {
    if !TruthyJs(details) || !TruthyJs(Prop(details.value, "metadata")) then []
    else
      var metadata := Prop(details.value, "metadata").value;
      var fileinfo := OrElse(Prop(metadata, "fileinfo"), EmptyObj);
      var structured := Prop(metadata, "structured_prompts");
      var head := FileLines(details.value, fileinfo);
      var tail := if TruthyJs(structured) then StructuredLines(structured.value)
                  else LegacyLines(OrElse(Prop(metadata, "prompt"), EmptyObj));
      LabelsAppend(head, tail);
      head + tail
  }

  lemma LabelsAppend(a: Display, b: Display)
    ensures Labels(a + b) == Labels(a) + Labels(b)
  {
  }

  /** `parseMetadata` gives `{}` without details or without metadata. */
  lemma ParseMetadataEmpty(details: Js)
    ensures ParseMetadata(details) == [] <==> !TruthyJs(details) || !TruthyJs(Prop(details.value, "metadata"))
  {
  }

  /** With structured prompts present `parseMetadata` shows the structured labels, otherwise the
      legacy ones; the file name falls back to the file's own name. */
  lemma ParseMetadataLabels(details: Js)
    requires TruthyJs(details) && TruthyJs(Prop(details.value, "metadata"))
    ensures var metadata := Prop(details.value, "metadata").value;
            var fileinfo := OrElse(Prop(metadata, "fileinfo"), EmptyObj);
            var d := ParseMetadata(details);
            (Labels(d) == if TruthyJs(Prop(metadata, "structured_prompts")) then StructuredLabels else LegacyLabels)
            && d[0].1 == (if TruthyJs(Prop(fileinfo, "filename")) then Prop(fileinfo, "filename") else Prop(details.value, "name"))
  {
    var metadata := Prop(details.value, "metadata").value;
    var fileinfo := OrElse(Prop(metadata, "fileinfo"), EmptyObj);
    var structured := Prop(metadata, "structured_prompts");
    var head := FileLines(details.value, fileinfo);
    var tail := if TruthyJs(structured) then StructuredLines(structured.value)
                else LegacyLines(OrElse(Prop(metadata, "prompt"), EmptyObj));
    LabelsAppend(head, tail);
  }

  // ---------------------------------------------------------------- extractFromWorkflow

  /** The "Positive Prompt" and "Negative Prompt" strings `extractFromWorkflow` returns. */
  datatype WorkflowPrompts = WorkflowPrompts(positive: string, negative: string)

  const NoWorkflowPrompts := WorkflowPrompts("", "")

  /** `title.includes(polarity) && title.includes('prompt')`. */
  predicate Names(title: string, polarity: string) {
    Contains(title, polarity) && Contains(title, "prompt")
  }

  /** `(node.title || '').toLowerCase()`: a TypeError when a truthy title is not a string. */
  function NodeTitle(node: Value): Outcome<string> {
    var t := OrElse(Prop(node, "title"), Str(""));
    if t.Str? then Ok(Lower(t.s)) else Err(TypeError)
  }

  /** `(node.widgets_values || [])[0]`. */
  function FirstWidget(node: Value): Js {
    Prop(OrElse(Prop(node, "widgets_values"), Arr([])), "0")
  }

  /** A node that sets the positive prompt. */
  predicate PositiveHit(node: Value) {
    Truthy(node) && IsObject(node) && NodeTitle(node).Ok? && Names(NodeTitle(node).value, "positive")
    && TruthyJs(FirstWidget(node))
  }

  /** A node that sets the negative prompt: the positive test is made first. */
  predicate NegativeHit(node: Value) {
    Truthy(node) && IsObject(node) && NodeTitle(node).Ok? && !PositiveHit(node)
    && Names(NodeTitle(node).value, "negative") && TruthyJs(FirstWidget(node))
  }

  /** One iteration of the `for (const node of workflow.nodes)` loop. */
  function WorkflowStep(acc: WorkflowPrompts, node: Value): (r: Outcome<WorkflowPrompts>)
    ensures r.Err? <==> Truthy(node) && IsObject(node) && NodeTitle(node).Err?
    ensures r.Ok? && PositiveHit(node) ==> r.value == acc.(positive := JsString(FirstWidget(node).value))
    ensures r.Ok? && NegativeHit(node) ==> r.value == acc.(negative := JsString(FirstWidget(node).value))
    ensures r.Ok? && !PositiveHit(node) && !NegativeHit(node) ==> r.value == acc
  {
    if !Truthy(node) || !IsObject(node) then Ok(acc)
    else
      match NodeTitle(node)
      case Err(e) => Err(e)
      case Ok(title) =>
        var w0 := FirstWidget(node);
        if Names(title, "positive") && TruthyJs(w0) then Ok(acc.(positive := JsString(w0.value)))
        else if Names(title, "negative") && TruthyJs(w0) then Ok(acc.(negative := JsString(w0.value)))
        else Ok(acc)
  }

  function FoldWorkflow(acc: WorkflowPrompts, nodes: seq<Value>): Outcome<WorkflowPrompts> {
    if |nodes| == 0 then Ok(acc)
    else
      match FoldWorkflow(acc, nodes[..|nodes| - 1])
      case Err(e) => Err(e)
      case Ok(a) => WorkflowStep(a, nodes[|nodes| - 1])
  }

  /** `extractFromWorkflow(workflow)` as a value. */
  function WorkflowSpec(workflow: Value): Outcome<WorkflowPrompts> {
    if !Truthy(workflow) || !IsObject(workflow) then Ok(NoWorkflowPrompts)
    else
      var nodes := Prop(workflow, "nodes");
      if TruthyJs(nodes) && nodes.value.Arr? then FoldWorkflow(NoWorkflowPrompts, nodes.value.items)
      else Ok(NoWorkflowPrompts)
  }

  lemma {:induction false} FoldWorkflowErrPersists(acc: WorkflowPrompts, nodes: seq<Value>, j: nat)
    requires j <= |nodes| && FoldWorkflow(acc, nodes[..j]).Err?
    ensures FoldWorkflow(acc, nodes) == FoldWorkflow(acc, nodes[..j])
  {
    if j < |nodes| {
      assert nodes[..|nodes| - 1][..j] == nodes[..j];
      FoldWorkflowErrPersists(acc, nodes[..|nodes| - 1], j);
    } else {
      assert nodes[..j] == nodes;
    }
  }

  /** `extractFromWorkflow(workflow)`. */
  method ExtractFromWorkflow(workflow: Value) returns (r: Outcome<WorkflowPrompts>)
    ensures r == WorkflowSpec(workflow)
  {
    var result := NoWorkflowPrompts;
    if !Truthy(workflow) || !IsObject(workflow) {
      return Ok(result);
    }
    var nodes := Prop(workflow, "nodes");
    if TruthyJs(nodes) && nodes.value.Arr? {
      var items := nodes.value.items;
      var i := 0;
      while i < |items|
        invariant 0 <= i <= |items|
        invariant FoldWorkflow(NoWorkflowPrompts, items[..i]) == Ok(result)
      {
        assert items[..i + 1][..i] == items[..i];
        var node := items[i];
        if Truthy(node) && IsObject(node) {
          var title := NodeTitle(node);
          if title.Err? {
            FoldWorkflowErrPersists(NoWorkflowPrompts, items, i + 1);
            return Err(title.error);
          }
          var w0 := FirstWidget(node);
          if Names(title.value, "positive") && TruthyJs(w0) {
            result := result.(positive := JsString(w0.value));
          } else if Names(title.value, "negative") && TruthyJs(w0) {
            result := result.(negative := JsString(w0.value));
          }
        }
        i := i + 1;
      }
      assert items[..i] == items;
    }
    return Ok(result);
  }

  /** Unlike the server's parser, the last matching node wins: the positive prompt is the one of
      the last node that sets it. */
  lemma {:induction false} LastPositiveWins(acc: WorkflowPrompts, nodes: seq<Value>, k: nat)
    requires k < |nodes| && PositiveHit(nodes[k])
    requires forall j :: k < j < |nodes| ==> !PositiveHit(nodes[j])
    requires FoldWorkflow(acc, nodes).Ok?
    ensures FoldWorkflow(acc, nodes).value.positive == JsString(FirstWidget(nodes[k]).value)
  {
    var prefix := nodes[..|nodes| - 1];
    if k < |nodes| - 1 {
      assert forall j :: k < j < |prefix| ==> prefix[j] == nodes[j];
      LastPositiveWins(acc, prefix, k);
    }
  }

  /** The same for the negative prompt. */
  lemma {:induction false} LastNegativeWins(acc: WorkflowPrompts, nodes: seq<Value>, k: nat)
    requires k < |nodes| && NegativeHit(nodes[k])
    requires forall j :: k < j < |nodes| ==> !NegativeHit(nodes[j])
    requires FoldWorkflow(acc, nodes).Ok?
    ensures FoldWorkflow(acc, nodes).value.negative == JsString(FirstWidget(nodes[k]).value)
  {
    var prefix := nodes[..|nodes| - 1];
    if k < |nodes| - 1 {
      assert forall j :: k < j < |prefix| ==> prefix[j] == nodes[j];
      LastNegativeWins(acc, prefix, k);
    }
  }

  // ---------------------------------------------------------------- parseComfyMetadata

  /** The `Record<string, string>` being filled: its rows, and the labels in the order they
      were first assigned, which is the order a JavaScript object lists non-index keys in.
      Values are whatever the JavaScript expressions produce, strings or not. */
  datatype Record = Record(rows: map<string, Value>, order: seq<string>)

  const EmptyRecord := Record(map[], [])

  /** `result[key] = v`. */
  function Put(r: Record, key: string, v: Value): Record {
    Record(r.rows[key := v], if key in r.rows then r.order else r.order + [key])
  }

  /** `result[key]`, undefined for a label never assigned. */
  function Row(r: Record, key: string): Js {
    if key in r.rows then Some(r.rows[key]) else None
  }

  /** The label order lists every row exactly once. */
  ghost predicate Ordered(r: Record) {
    (forall k :: k in r.rows <==> k in r.order)
    && forall i, j :: 0 <= i < j < |r.order| ==> r.order[i] != r.order[j]
  }

  lemma PutOrdered(r: Record, key: string, v: Value)
    requires Ordered(r)
    ensures Ordered(Put(r, key, v))
    ensures key !in r.rows ==> Put(r, key, v).order == r.order + [key]
    ensures key in r.rows ==> Put(r, key, v).order == r.order
  {
  }

  /** `if (typeof x === 'string') x = JSON.parse(x)`, a parse error leaving `x` as it was;
      `parse` stands for `JSON.parse`, None for a thrown SyntaxError. */
  function Decode(x: Js, parse: string -> Option<Value>): (r: Js)
    ensures !(x.Some? && x.value.Str?) ==> r == x
    ensures x.Some? && x.value.Str? && parse(x.value.s).None? ==> r == x
    ensures x.Some? && x.value.Str? && parse(x.value.s).Some? ==> r == parse(x.value.s)
  {
    if x.Some? && x.value.Str? then
      match parse(x.value.s)
      case Some(v) => Some(v)
      case None => x
    else x
  }

  /** `prompt?.[id]?.inputs?.[field]`. */
  function NodeInput(prompt: Js, id: string, field: string): Js {
    OptProp(OptProp(OptProp(prompt, id), "inputs"), field)
  }

  /** `prompt[key]?.class_type === 'LoraLoader'`. */
  predicate IsLoraLoader(prompt: Value, key: string) {
    OptProp(Prop(prompt, key), "class_type") == Some(Str("LoraLoader"))
  }

  /** One iteration of the `for (const key in prompt)` loop: `prompt[key].inputs.lora_name`
      throws a TypeError when `inputs` is missing or null (a node with a `class_type` is an
      object, so `prompt[key].inputs` itself cannot throw). */
  function LoraStep(prompt: Value, acc: seq<Js>, key: string): (r: Outcome<seq<Js>>)
    ensures !IsLoraLoader(prompt, key) ==> r == Ok(acc)
    ensures r.Ok? <==> LoaderHasInputs(prompt, key)
    ensures IsLoraLoader(prompt, key) && r.Ok? ==>
              r.value == acc + [OptProp(Prop(Prop(prompt, key).value, "inputs"), "lora_name")]
  {
    if IsLoraLoader(prompt, key) then
      var node := Prop(prompt, key).value;
      match GetProp(Prop(node, "inputs"), "lora_name")
      case Err(e) => Err(e)
      case Ok(name) => Ok(acc + [name])
    else Ok(acc)
  }

  function FoldLoras(prompt: Value, acc: seq<Js>, keys: seq<string>): Outcome<seq<Js>> {
    if |keys| == 0 then Ok(acc)
    else
      match FoldLoras(prompt, acc, keys[..|keys| - 1])
      case Err(e) => Err(e)
      case Ok(a) => LoraStep(prompt, a, keys[|keys| - 1])
  }

  lemma {:induction false} FoldLorasErrPersists(prompt: Value, acc: seq<Js>, keys: seq<string>, j: nat)
    requires j <= |keys| && FoldLoras(prompt, acc, keys[..j]).Err?
    ensures FoldLoras(prompt, acc, keys) == FoldLoras(prompt, acc, keys[..j])
  {
    if j < |keys| {
      assert keys[..|keys| - 1][..j] == keys[..j];
      FoldLorasErrPersists(prompt, acc, keys[..|keys| - 1], j);
    } else {
      assert keys[..j] == keys;
    }
  }

  /** One more key of the loop: the fold of a longer prefix takes one more step. */
  lemma FoldLorasNext(prompt: Value, keys: seq<string>, i: nat, acc: seq<Js>)
    requires i < |keys| && FoldLoras(prompt, [], keys[..i]) == Ok(acc)
    ensures FoldLoras(prompt, [], keys[..i + 1]) == LoraStep(prompt, acc, keys[i])
  {
    assert keys[..i + 1][..i] == keys[..i];
  }

  /** The `lora_name` of every LoRA loader among `keys`, in order. */
  function LoraNames(prompt: Value, keys: seq<string>): seq<Js> {
    if |keys| == 0 then []
    else
      LoraNames(prompt, keys[..|keys| - 1])
      + if IsLoraLoader(prompt, keys[|keys| - 1])
        then [OptProp(Prop(Prop(prompt, keys[|keys| - 1]).value, "inputs"), "lora_name")] else []
  }

  /** Every LoRA loader among `keys` has inputs. */
  predicate LoadersHaveInputs(prompt: Value, keys: seq<string>) {
    forall k :: 0 <= k < |keys| ==> LoaderHasInputs(prompt, keys[k])
  }

  /** The node under `key` is no LoRA loader, or one with inputs. */
  predicate LoaderHasInputs(prompt: Value, key: string) {
    IsLoraLoader(prompt, key) ==> !Nullish(Prop(Prop(prompt, key).value, "inputs"))
  }

  /** The LoRA loop succeeds exactly when every loader has inputs, and then collects the loader
      names in visiting order. */
  lemma {:induction false} FoldLorasSpec(prompt: Value, keys: seq<string>)
    ensures FoldLoras(prompt, [], keys).Ok? <==> LoadersHaveInputs(prompt, keys)
    ensures FoldLoras(prompt, [], keys).Ok? ==> FoldLoras(prompt, [], keys).value == LoraNames(prompt, keys)
  {
    if |keys| > 0 {
      var prefix := keys[..|keys| - 1];
      var last := keys[|keys| - 1];
      FoldLorasSpec(prompt, prefix);
      var f := FoldLoras(prompt, [], prefix);
      assert FoldLoras(prompt, [], keys) == if f.Err? then Err(f.error) else LoraStep(prompt, f.value, last);
      LoadersHaveInputsSnoc(prompt, keys);
    }
  }

  lemma LoadersHaveInputsSnoc(prompt: Value, keys: seq<string>)
    requires |keys| > 0
    ensures LoadersHaveInputs(prompt, keys) <==>
            LoadersHaveInputs(prompt, keys[..|keys| - 1]) && LoaderHasInputs(prompt, keys[|keys| - 1])
  {
    assert forall k :: 0 <= k < |keys| - 1 ==> keys[..|keys| - 1][k] == keys[k];
  }

  /** The prompt-graph fields of the legacy path, for a `prompt` that is an object. */
  function PromptFields(result: Record, prompt: Value): (r: Outcome<Record>)
    ensures r.Ok? <==> LoadersHaveInputs(prompt, ForInKeys(prompt))
    ensures r.Ok? ==> Row(r.value, "LoRAs") == Some(Str(LoraText(LoraNames(prompt, ForInKeys(prompt)))))
  {
    FoldLorasSpec(prompt, ForInKeys(prompt));
    match FoldLoras(prompt, [], ForInKeys(prompt))
    case Err(e) => Err(e)
    case Ok(loras) => Ok(Put(GraphRows(result, prompt), "LoRAs", Str(LoraText(loras))))
  }

  /** The eight rows read from fixed node ids: "1" the checkpoint, "2" or else "7" the positive
      text, "3" or else "8" the negative text, "10" the sampler settings. */
  function GraphRows(result: Record, prompt: Value): Record {
    var p := Some(prompt);
    var r1 := Put(result, "Model", OrElse(NodeInput(p, "1", "ckpt_name"), Str("")));
    var r2 := Put(r1, "Positive Prompt", OrElse(Or(NodeInput(p, "2", "text"), NodeInput(p, "7", "text")), Str("")));
    var r3 := Put(r2, "Negative Prompt", OrElse(Or(NodeInput(p, "3", "text"), NodeInput(p, "8", "text")), Str("")));
    var r4 := Put(r3, "Sampler", OrElse(NodeInput(p, "10", "sampler_name"), Str("")));
    var r5 := Put(r4, "Scheduler", OrElse(NodeInput(p, "10", "scheduler"), Str("")));
    var r6 := Put(r5, "Steps", OrElse(NodeInput(p, "10", "steps"), Str("")));
    var r7 := Put(r6, "CFG Scale", OrElse(NodeInput(p, "10", "cfg"), Str("")));
    Put(r7, "Seed", OrElse(NodeInput(p, "10", "seed"), Str("")))
  }

  /** `loras.length > 0 ? loras.join(', ') : 'N/A'`. */
  function LoraText(loras: seq<Js>): string {
    if |loras| > 0 then JoinJs(loras, ", ") else "N/A"
  }

  /** `a` and `b` agree on every row whose label is not in `keys`. */
  ghost predicate SameOutside(a: Record, b: Record, keys: seq<string>) {
    forall k :: k !in keys ==> Row(a, k) == Row(b, k)
  }

  lemma PutOutside(fields: Record, key: string, v: Value, keys: seq<string>)
    requires key in keys
    ensures SameOutside(Put(fields, key, v), fields, keys)
  {
  }

  /** The rows the legacy path may write. */
  const LegacyKeys := ["Model", "Positive Prompt", "Negative Prompt", "Sampler", "Scheduler", "Steps",
                       "CFG Scale", "Seed", "LoRAs", "Extraction Method"]

  /** The workflow fallback: it runs only when a prompt slot is still empty, and then overwrites
      either slot with any non-empty workflow value. */
  function Fallback(result: Record, workflow: Js): (r: Outcome<Record>)
    ensures ((TruthyJs(Row(result, "Positive Prompt")) && TruthyJs(Row(result, "Negative Prompt")))
             || !TruthyJs(workflow)) ==> r == Ok(result)
    ensures r.Ok? ==> SameOutside(r.value, result, ["Positive Prompt", "Negative Prompt"])
  {
    if (!TruthyJs(Row(result, "Positive Prompt")) || !TruthyJs(Row(result, "Negative Prompt")))
       && TruthyJs(workflow) then
      match WorkflowSpec(workflow.value)
      case Err(e) => Err(e)
      case Ok(w) =>
        var r1 := if w.positive != "" then Put(result, "Positive Prompt", Str(w.positive)) else result;
        Ok(if w.negative != "" then Put(r1, "Negative Prompt", Str(w.negative)) else r1)
    else Ok(result)
  }

  /** `parseLegacyComfyMetadata(metadata, result)` as a value. */
  function LegacySpec(metadata: Value, result: Record, parse: string -> Option<Value>): (r: Outcome<Record>)
    ensures r.Ok? ==> Row(r.value, "Extraction Method") == Some(Str("legacy"))
  {
    var prompt := Decode(Prop(metadata, "prompt"), parse);
    var workflow := Decode(Prop(metadata, "workflow"), parse);
    match (if TruthyJs(prompt) && IsObject(prompt.value) then PromptFields(result, prompt.value) else Ok(result))
    case Err(e) => Err(e)
    case Ok(r1) =>
      match Fallback(r1, workflow)
      case Err(e) => Err(e)
      case Ok(r2) => Ok(Put(r2, "Extraction Method", Str("legacy")))
  }

  /** The fields read from a truthy `structured_prompts`. */
  function StructuredFields(result: Record, structured: Value): Record {
    var r1 := Put(result, "Positive Prompt", OrElse(Prop(structured, "positive"), Str("")));
    var r2 := Put(r1, "Negative Prompt", OrElse(Prop(structured, "negative"), Str("")));
    var r3 := Put(r2, "Extraction Method", OrElse(Prop(structured, "extraction_method"), Str("unknown")));
    var params := Prop(structured, "parameters");
    if !TruthyJs(params) then r3
    else ParamFields(r3, params.value)
  }

  /** A number shown only when truthy: `x ? String(x) : ''`. */
  function ShownIfTruthy(x: Js): (r: Value)
    ensures !TruthyJs(x) ==> r == Str("")
  {
    if TruthyJs(x) then Str(JsString(x.value)) else Str("")
  }

  /** The fields read from a truthy `structured.parameters`. */
  function ParamFields(result: Record, params: Value): Record {
    var loras := Prop(params, "loras");
    var r1 := Put(result, "Model", OrElse(Prop(params, "model"), Str("")));
    var r2 := Put(r1, "Sampler", OrElse(Prop(params, "sampler"), Str("")));
    var r3 := Put(r2, "Scheduler", OrElse(Prop(params, "scheduler"), Str("")));
    var r4 := Put(r3, "Steps", ShownIfTruthy(Prop(params, "steps")));
    var r5 := Put(r4, "CFG Scale", ShownIfTruthy(Prop(params, "cfg_scale")));
    var r6 := Put(r5, "Seed", ShownIfTruthy(Prop(params, "seed")));
    Put(r6, "LoRAs", Str(if TruthyJs(loras) then FormatLoRAs(loras.value) else "N/A"))
  }

  /** The four file fields, each defaulting to ''. */
  function FileFields(metadata: Value): Record {
    var fileinfo := OrElse(Prop(metadata, "fileinfo"), EmptyObj);
    var r1 := Put(EmptyRecord, "Filename", OrElse(Prop(fileinfo, "filename"), Str("")));
    var r2 := Put(r1, "Resolution", OrElse(Prop(fileinfo, "resolution"), Str("")));
    var r3 := Put(r2, "File Size", OrElse(Prop(fileinfo, "size"), Str("")));
    Put(r3, "Date Created", OrElse(Prop(fileinfo, "date"), Str("")))
  }

  /** `parseComfyMetadata(metadata)` as a value; `parse` stands for `JSON.parse`. */
  function ComfySpec(metadata: Js, parse: string -> Option<Value>): Outcome<Record> {
    if !TruthyJs(metadata) then Ok(EmptyRecord)
    else
      var structured := Prop(metadata.value, "structured_prompts");
      if TruthyJs(structured) then Ok(StructuredFields(FileFields(metadata.value), structured.value))
      else LegacySpec(metadata.value, FileFields(metadata.value), parse)
  }

  /** The prompt-graph reading writes only its own rows. */
  lemma PromptFieldsKeepsOthers(result: Record, prompt: Value)
    requires PromptFields(result, prompt).Ok?
    ensures SameOutside(PromptFields(result, prompt).value, result, LegacyKeys)
  {
    var p := Some(prompt);
    var K := LegacyKeys;
    var r1 := Put(result, "Model", OrElse(NodeInput(p, "1", "ckpt_name"), Str("")));
    PutOutside(result, "Model", OrElse(NodeInput(p, "1", "ckpt_name"), Str("")), K);
    var r2 := Put(r1, "Positive Prompt", OrElse(Or(NodeInput(p, "2", "text"), NodeInput(p, "7", "text")), Str("")));
    PutOutside(r1, "Positive Prompt", OrElse(Or(NodeInput(p, "2", "text"), NodeInput(p, "7", "text")), Str("")), K);
    var r3 := Put(r2, "Negative Prompt", OrElse(Or(NodeInput(p, "3", "text"), NodeInput(p, "8", "text")), Str("")));
    PutOutside(r2, "Negative Prompt", OrElse(Or(NodeInput(p, "3", "text"), NodeInput(p, "8", "text")), Str("")), K);
    var r4 := Put(r3, "Sampler", OrElse(NodeInput(p, "10", "sampler_name"), Str("")));
    PutOutside(r3, "Sampler", OrElse(NodeInput(p, "10", "sampler_name"), Str("")), K);
    var r5 := Put(r4, "Scheduler", OrElse(NodeInput(p, "10", "scheduler"), Str("")));
    PutOutside(r4, "Scheduler", OrElse(NodeInput(p, "10", "scheduler"), Str("")), K);
    var r6 := Put(r5, "Steps", OrElse(NodeInput(p, "10", "steps"), Str("")));
    PutOutside(r5, "Steps", OrElse(NodeInput(p, "10", "steps"), Str("")), K);
    var r7 := Put(r6, "CFG Scale", OrElse(NodeInput(p, "10", "cfg"), Str("")));
    PutOutside(r6, "CFG Scale", OrElse(NodeInput(p, "10", "cfg"), Str("")), K);
    var r8 := Put(r7, "Seed", OrElse(NodeInput(p, "10", "seed"), Str("")));
    PutOutside(r7, "Seed", OrElse(NodeInput(p, "10", "seed"), Str("")), K);
    var loras := FoldLoras(prompt, [], ForInKeys(prompt)).value;
    assert r8 == GraphRows(result, prompt);
    assert PromptFields(result, prompt).value == Put(r8, "LoRAs", Str(LoraText(loras)));
    PutOutside(r8, "LoRAs", Str(LoraText(loras)), K);
  }

  /** The legacy path writes only its own rows: the file rows survive it. */
  lemma LegacyKeepsOthers(metadata: Value, result: Record, parse: string -> Option<Value>)
    requires LegacySpec(metadata, result, parse).Ok?
    ensures SameOutside(LegacySpec(metadata, result, parse).value, result, LegacyKeys)
  {
    var prompt := Decode(Prop(metadata, "prompt"), parse);
    var workflow := Decode(Prop(metadata, "workflow"), parse);
    var r1 := if TruthyJs(prompt) && IsObject(prompt.value) then PromptFields(result, prompt.value) else Ok(result);
    if TruthyJs(prompt) && IsObject(prompt.value) {
      PromptFieldsKeepsOthers(result, prompt.value);
    }
    var r2 := Fallback(r1.value, workflow);
    PutOutside(r2.value, "Extraction Method", Str("legacy"), LegacyKeys);
  }

  /** The `for (const key in prompt)` loop collecting `lora_name` of every LoRA loader node. */
  method CollectLoras(graph: Value) returns (r: Outcome<seq<Js>>)
    ensures r == FoldLoras(graph, [], ForInKeys(graph))
  {
    var loras: seq<Js> := [];
    var keys := ForInKeys(graph);
    var i := 0;
    while i < |keys|
      invariant 0 <= i <= |keys|
      invariant FoldLoras(graph, [], keys[..i]) == Ok(loras)
    {
      FoldLorasNext(graph, keys, i, loras);
      var key := keys[i];
      if IsLoraLoader(graph, key) {
        var node := Prop(graph, key).value;
        var name := GetProp(Prop(node, "inputs"), "lora_name");
        if name.Err? {
          assert FoldLoras(graph, [], keys[..i + 1]) == Err(name.error);
          FoldLorasErrPersists(graph, [], keys, i + 1);
          return Err(name.error);
        }
        loras := loras + [name.value];
      }
      i := i + 1;
    }
    assert keys[..i] == keys;
    return Ok(loras);
  }

  /** The "quick extraction from common node IDs" block of `parseLegacyComfyMetadata`, run on a
      `prompt` that is an object. */
  method ReadPromptGraph(result: Record, graph: Value) returns (r: Outcome<Record>)
    ensures r == PromptFields(result, graph)
  {
    var prompt := Some(graph);
    var res := result;
    res := Put(res, "Model", OrElse(NodeInput(prompt, "1", "ckpt_name"), Str("")));
    res := Put(res, "Positive Prompt", OrElse(Or(NodeInput(prompt, "2", "text"), NodeInput(prompt, "7", "text")), Str("")));
    res := Put(res, "Negative Prompt", OrElse(Or(NodeInput(prompt, "3", "text"), NodeInput(prompt, "8", "text")), Str("")));
    res := Put(res, "Sampler", OrElse(NodeInput(prompt, "10", "sampler_name"), Str("")));
    res := Put(res, "Scheduler", OrElse(NodeInput(prompt, "10", "scheduler"), Str("")));
    res := Put(res, "Steps", OrElse(NodeInput(prompt, "10", "steps"), Str("")));
    res := Put(res, "CFG Scale", OrElse(NodeInput(prompt, "10", "cfg"), Str("")));
    res := Put(res, "Seed", OrElse(NodeInput(prompt, "10", "seed"), Str("")));
    assert res == GraphRows(result, graph);

    var loras := CollectLoras(graph);
    if loras.Err? {
      return Err(loras.error);
    }
    res := Put(res, "LoRAs", Str(LoraText(loras.value)));
    return Ok(res);
  }

  /** The workflow fallback block of `parseLegacyComfyMetadata`. */
  method ApplyWorkflowFallback(result: Record, workflow: Js) returns (r: Outcome<Record>)
    ensures r == Fallback(result, workflow)
  {
    var res := result;
    if (!TruthyJs(Row(res, "Positive Prompt")) || !TruthyJs(Row(res, "Negative Prompt"))) && TruthyJs(workflow) {
      var extracted := ExtractFromWorkflow(workflow.value);
      if extracted.Err? {
        return Err(extracted.error);
      }
      if extracted.value.positive != "" {
        res := Put(res, "Positive Prompt", Str(extracted.value.positive));
      }
      if extracted.value.negative != "" {
        res := Put(res, "Negative Prompt", Str(extracted.value.negative));
      }
    }
    return Ok(res);
  }

  /** `parseLegacyComfyMetadata(metadata, result)`: the record is filled in place and returned. */
  method ParseLegacyComfyMetadata(metadata: Value, result: Record, parse: string -> Option<Value>)
    returns (r: Outcome<Record>)
    ensures r == LegacySpec(metadata, result, parse)
  {
    var prompt := Prop(metadata, "prompt");
    var workflow := Prop(metadata, "workflow");
    if prompt.Some? && prompt.value.Str? {
      var parsed := parse(prompt.value.s);
      if parsed.Some? {
        prompt := parsed;
      }
    }
    if workflow.Some? && workflow.value.Str? {
      var parsed := parse(workflow.value.s);
      if parsed.Some? {
        workflow := parsed;
      }
    }
    assert prompt == Decode(Prop(metadata, "prompt"), parse);
    assert workflow == Decode(Prop(metadata, "workflow"), parse);

    var res := result;
    if TruthyJs(prompt) && IsObject(prompt.value) {
      var filled := ReadPromptGraph(res, prompt.value);
      if filled.Err? {
        return Err(filled.error);
      }
      res := filled.value;
    }
    var afterFallback := ApplyWorkflowFallback(res, workflow);
    if afterFallback.Err? {
      return Err(afterFallback.error);
    }
    res := afterFallback.value;
    res := Put(res, "Extraction Method", Str("legacy"));
    return Ok(res);
  }

  /** `parseComfyMetadata(metadata)`. */
  method ParseComfyMetadata(metadata: Js, parse: string -> Option<Value>) returns (r: Outcome<Record>)
    ensures r == ComfySpec(metadata, parse)
  {
    if !TruthyJs(metadata) {
      return Ok(EmptyRecord);
    }
    var m := metadata.value;
    var result := EmptyRecord;
    var fileinfo := OrElse(Prop(m, "fileinfo"), EmptyObj);
    result := Put(result, "Filename", OrElse(Prop(fileinfo, "filename"), Str("")));
    result := Put(result, "Resolution", OrElse(Prop(fileinfo, "resolution"), Str("")));
    result := Put(result, "File Size", OrElse(Prop(fileinfo, "size"), Str("")));
    result := Put(result, "Date Created", OrElse(Prop(fileinfo, "date"), Str("")));

    var structuredProp := Prop(m, "structured_prompts");
    if TruthyJs(structuredProp) {
      var structured := structuredProp.value;
      result := Put(result, "Positive Prompt", OrElse(Prop(structured, "positive"), Str("")));
      result := Put(result, "Negative Prompt", OrElse(Prop(structured, "negative"), Str("")));
      result := Put(result, "Extraction Method", OrElse(Prop(structured, "extraction_method"), Str("unknown")));
      var paramsProp := Prop(structured, "parameters");
      if TruthyJs(paramsProp) {
        var params := paramsProp.value;
        var loras := Prop(params, "loras");
        result := Put(result, "Model", OrElse(Prop(params, "model"), Str("")));
        result := Put(result, "Sampler", OrElse(Prop(params, "sampler"), Str("")));
        result := Put(result, "Scheduler", OrElse(Prop(params, "scheduler"), Str("")));
        result := Put(result, "Steps", ShownIfTruthy(Prop(params, "steps")));
        result := Put(result, "CFG Scale", ShownIfTruthy(Prop(params, "cfg_scale")));
        result := Put(result, "Seed", ShownIfTruthy(Prop(params, "seed")));
        result := Put(result, "LoRAs", Str(if TruthyJs(loras) then FormatLoRAs(loras.value) else "N/A"));
      }
      return Ok(result);
    }
    r := ParseLegacyComfyMetadata(m, result, parse);
  }

  // ---------------------------------------------------------------- what the record shows

  /** The row of `fields` under `key`, as the record holds it. */
  function FileRow(metadata: Value, field: string): Value {
    OrElse(Prop(OrElse(Prop(metadata, "fileinfo"), EmptyObj), field), Str(""))
  }

  lemma FileFieldsRows(metadata: Value)
    ensures Row(FileFields(metadata), "Filename") == Some(FileRow(metadata, "filename"))
    ensures Row(FileFields(metadata), "Resolution") == Some(FileRow(metadata, "resolution"))
    ensures Row(FileFields(metadata), "File Size") == Some(FileRow(metadata, "size"))
    ensures Row(FileFields(metadata), "Date Created") == Some(FileRow(metadata, "date"))
  {
    var r1 := Put(EmptyRecord, "Filename", FileRow(metadata, "filename"));
    var r2 := Put(r1, "Resolution", FileRow(metadata, "resolution"));
    var r3 := Put(r2, "File Size", FileRow(metadata, "size"));
    assert FileFields(metadata) == Put(r3, "Date Created", FileRow(metadata, "date"));
    assert Row(r2, "Filename") == Row(r1, "Filename");
    assert Row(r3, "Filename") == Row(r2, "Filename");
    assert Row(r3, "Resolution") == Row(r2, "Resolution");
  }

  /** Whatever path is taken, a successful parse shows the four file rows, each '' when the
      file info lacks the field. */
  lemma ComfyFileRows(metadata: Js, parse: string -> Option<Value>)
    requires TruthyJs(metadata) && ComfySpec(metadata, parse).Ok?
    ensures Row(ComfySpec(metadata, parse).value, "Filename") == Some(FileRow(metadata.value, "filename"))
    ensures Row(ComfySpec(metadata, parse).value, "Resolution") == Some(FileRow(metadata.value, "resolution"))
    ensures Row(ComfySpec(metadata, parse).value, "File Size") == Some(FileRow(metadata.value, "size"))
    ensures Row(ComfySpec(metadata, parse).value, "Date Created") == Some(FileRow(metadata.value, "date"))
  {
    var m := metadata.value;
    var base := FileFields(m);
    FileFieldsRows(m);
    var structured := Prop(m, "structured_prompts");
    var K := if TruthyJs(structured) then StructuredKeys else LegacyKeys;
    if TruthyJs(structured) {
      StructuredKeepsOthers(base, structured.value);
    } else {
      LegacyKeepsOthers(m, base, parse);
    }
    FileKeysOutside(K);
  }

  /** No file row label is written by either path. */
  const FileKeys := ["Filename", "Resolution", "File Size", "Date Created"]

  lemma FileKeysOutside(keys: seq<string>)
    requires keys == StructuredKeys || keys == LegacyKeys
    ensures "Filename" !in keys && "Resolution" !in keys && "File Size" !in keys && "Date Created" !in keys
  {
  }

  /** The rows the structured path may write. */
  const StructuredKeys := PromptKeys + ParamKeys
  const PromptKeys := ["Positive Prompt", "Negative Prompt", "Extraction Method"]
  const ParamKeys := ["Model", "Sampler", "Scheduler", "Steps", "CFG Scale", "Seed", "LoRAs"]

  lemma StructuredKeepsOthers(result: Record, structured: Value)
    ensures SameOutside(StructuredFields(result, structured), result, StructuredKeys)
  {
    var K := StructuredKeys;
    var r1 := Put(result, "Positive Prompt", OrElse(Prop(structured, "positive"), Str("")));
    PutOutside(result, "Positive Prompt", OrElse(Prop(structured, "positive"), Str("")), K);
    var r2 := Put(r1, "Negative Prompt", OrElse(Prop(structured, "negative"), Str("")));
    PutOutside(r1, "Negative Prompt", OrElse(Prop(structured, "negative"), Str("")), K);
    var r3 := Put(r2, "Extraction Method", OrElse(Prop(structured, "extraction_method"), Str("unknown")));
    PutOutside(r2, "Extraction Method", OrElse(Prop(structured, "extraction_method"), Str("unknown")), K);
    var params := Prop(structured, "parameters");
    if TruthyJs(params) {
      ParamFieldsKeepsOthers(r3, params.value);
    }
  }

  lemma ParamFieldsKeepsOthers(result: Record, params: Value)
    ensures SameOutside(ParamFields(result, params), result, ParamKeys)
  {
    var K := ParamKeys;
    var loras := Prop(params, "loras");
    var r1 := Put(result, "Model", OrElse(Prop(params, "model"), Str("")));
    PutOutside(result, "Model", OrElse(Prop(params, "model"), Str("")), K);
    var r2 := Put(r1, "Sampler", OrElse(Prop(params, "sampler"), Str("")));
    PutOutside(r1, "Sampler", OrElse(Prop(params, "sampler"), Str("")), K);
    var r3 := Put(r2, "Scheduler", OrElse(Prop(params, "scheduler"), Str("")));
    PutOutside(r2, "Scheduler", OrElse(Prop(params, "scheduler"), Str("")), K);
    var r4 := Put(r3, "Steps", ShownIfTruthy(Prop(params, "steps")));
    PutOutside(r3, "Steps", ShownIfTruthy(Prop(params, "steps")), K);
    var r5 := Put(r4, "CFG Scale", ShownIfTruthy(Prop(params, "cfg_scale")));
    PutOutside(r4, "CFG Scale", ShownIfTruthy(Prop(params, "cfg_scale")), K);
    var r6 := Put(r5, "Seed", ShownIfTruthy(Prop(params, "seed")));
    PutOutside(r5, "Seed", ShownIfTruthy(Prop(params, "seed")), K);
    PutOutside(r6, "LoRAs", Str(if TruthyJs(loras) then FormatLoRAs(loras.value) else "N/A"), K);
  }

  /** With structured prompts the prompts default to '' and the method label is the server's,
      "unknown" when it gave none; without parameters no other row is written. */
  lemma StructuredRows(result: Record, structured: Value)
    ensures var r := StructuredFields(result, structured);
            Row(r, "Extraction Method") == Some(OrElse(Prop(structured, "extraction_method"), Str("unknown")))
            && Row(r, "Positive Prompt") == Some(OrElse(Prop(structured, "positive"), Str("")))
            && Row(r, "Negative Prompt") == Some(OrElse(Prop(structured, "negative"), Str("")))
    ensures !TruthyJs(Prop(structured, "parameters")) ==>
              SameOutside(StructuredFields(result, structured), result, PromptKeys)
  {
    var r1 := Put(result, "Positive Prompt", OrElse(Prop(structured, "positive"), Str("")));
    var r2 := Put(r1, "Negative Prompt", OrElse(Prop(structured, "negative"), Str("")));
    var r3 := Put(r2, "Extraction Method", OrElse(Prop(structured, "extraction_method"), Str("unknown")));
    var params := Prop(structured, "parameters");
    if TruthyJs(params) {
      ParamFieldsKeepsOthers(r3, params.value);
      assert "Extraction Method" !in ParamKeys && "Positive Prompt" !in ParamKeys && "Negative Prompt" !in ParamKeys;
    }
  }

  /** A step count, CFG scale or seed of 0 is falsy, so the row is shown empty, not "0". */
  lemma ZeroSettingShownEmpty(result: Record, params: Value)
    requires Prop(params, "steps") == Some(Int(0))
    ensures Row(ParamFields(result, params), "Steps") == Some(Str(""))
  {
    var loras := Prop(params, "loras");
    var r1 := Put(result, "Model", OrElse(Prop(params, "model"), Str("")));
    var r2 := Put(r1, "Sampler", OrElse(Prop(params, "sampler"), Str("")));
    var r3 := Put(r2, "Scheduler", OrElse(Prop(params, "scheduler"), Str("")));
    var r4 := Put(r3, "Steps", ShownIfTruthy(Prop(params, "steps")));
    assert Row(r4, "Steps") == Some(Str(""));
  }

  /** The positive text of node "2" wins over node "7", and '' stands for neither. */
  lemma GraphPositivePrecedence(result: Record, prompt: Value)
    ensures var n2 := NodeInput(Some(prompt), "2", "text");
            var n7 := NodeInput(Some(prompt), "7", "text");
            Row(GraphRows(result, prompt), "Positive Prompt") ==
              if TruthyJs(n2) then n2 else if TruthyJs(n7) then n7 else Some(Str(""))
  {
  }

  /** Likewise the negative text of node "3" wins over node "8". */
  lemma GraphNegativePrecedence(result: Record, prompt: Value)
    ensures var n3 := NodeInput(Some(prompt), "3", "text");
            var n8 := NodeInput(Some(prompt), "8", "text");
            Row(GraphRows(result, prompt), "Negative Prompt") ==
              if TruthyJs(n3) then n3 else if TruthyJs(n8) then n8 else Some(Str(""))
  {
  }

  /** When the fallback runs and the workflow parse succeeds, each slot takes the workflow's
      value if that is non-empty and otherwise keeps its own, even a slot that was already
      filled from the prompt graph. */
  lemma FallbackRows(result: Record, workflow: Js)
    requires !TruthyJs(Row(result, "Positive Prompt")) || !TruthyJs(Row(result, "Negative Prompt"))
    requires TruthyJs(workflow) && WorkflowSpec(workflow.value).Ok?
    ensures Fallback(result, workflow).Ok?
    ensures var w := WorkflowSpec(workflow.value).value;
            var r := Fallback(result, workflow).value;
            Row(r, "Positive Prompt") == (if w.positive != "" then Some(Str(w.positive)) else Row(result, "Positive Prompt"))
            && Row(r, "Negative Prompt") == (if w.negative != "" then Some(Str(w.negative)) else Row(result, "Negative Prompt"))
  {
  }

  /** A workflow error while the fallback runs fails the whole parse. */
  lemma FallbackError(result: Record, workflow: Js)
    requires !TruthyJs(Row(result, "Positive Prompt")) || !TruthyJs(Row(result, "Negative Prompt"))
    requires TruthyJs(workflow) && WorkflowSpec(workflow.value).Err?
    ensures Fallback(result, workflow) == Err(WorkflowSpec(workflow.value).error)
  {
  }
}
