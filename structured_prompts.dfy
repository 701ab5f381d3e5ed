/** `extract_structured_prompts` of metadata_extractor.py: prompts from the workflow graph first,
    gaps filled from the prompt graph, generation parameters from the prompt graph, and a label
    saying where the prompts came from. */
module StructuredPrompts {
  import opened Wrappers
  import opened Text
  import opened Values
  import opened PromptConfig
  import opened PromptParser
  import opened GenerationParams

  /** The `extraction_method` label. */
  datatype Method = Unknown | Workflow | Prompt | Mixed

  function MethodName(m: Method): string {
    match m
    case Unknown => "unknown"
    case Workflow => "workflow"
    case Prompt => "prompt"
    case Mixed => "mixed"
  }

  datatype Structured = Structured(positive: Option<string>, negative: Option<string>,
                                   parameters: Params, extractionMethod: Method)

  /** A prompt slot that counts as found: present and non-empty (Python truthiness of `str | None`). */
  function Found(o: Option<string>): (r: Option<string>)
    ensures r.Some? <==> o.Some? && o.value != ""
    ensures r.Some? ==> r == o
  {
    if o.Some? && o.value != "" then o else None
  }

  /** The result of `extract_structured_prompts(prompt_data, workflow_data)` in closed form. The
      workflow graph is parsed first, then the prompt graph, then the parameters, and the first
      exception ends it. A workflow prompt wins over a prompt-graph one; the label is "unknown"
      when nothing was found, "workflow" when only the workflow graph contributed, "prompt" when
      the prompt graph contributed exactly one slot and the workflow graph none, and "mixed"
      otherwise. */
  function StructuredSpec(rules: Ruleset, promptData: Value, workflowData: Value): Outcome<Structured>
  {
    match PromptsFromGraph(rules, workflowData)
    case Err(e) => Err(e)
    case Ok(w) =>
      match PromptsFromGraph(rules, promptData)
      case Err(e) => Err(e)
      case Ok(q) =>
        match (if PyTruthy(promptData) then GenerationParameters(promptData) else Ok([]))
        case Err(e) => Err(e)
        case Ok(params) => Ok(Merge(w, q, params))
  }

  /** How the prompts of the two graphs and the parameters combine into the result. */
  function Merge(w: Prompts, q: Prompts, params: Params): Structured {
    var wp := Found(w.positive);
    var wn := Found(w.negative);
    var fills := (if wp.None? && Found(q.positive).Some? then 1 else 0)
               + (if wn.None? && Found(q.negative).Some? then 1 else 0);
    var fromWorkflow := wp.Some? || wn.Some?;
    Structured(
      if wp.Some? then wp else Found(q.positive),
      if wn.Some? then wn else Found(q.negative),
      params,
      if fills == 0 then (if fromWorkflow then Workflow else Unknown)
      else if fills == 1 && !fromWorkflow then Prompt
      else Mixed)
  }

  /** `extract_structured_prompts(prompt_data, workflow_data)`. */
  method ExtractStructuredPrompts(rules: Ruleset, promptData: Value, workflowData: Value)
    returns (r: Outcome<Structured>)
    ensures r == StructuredSpec(rules, promptData, workflowData)
  {
    var positive: Option<string> := None;
    var negative: Option<string> := None;
    var parameters: Params := [];
    var extractionMethod := Unknown;
    var w := NoPrompts;
    if PyTruthy(workflowData) {
      var extracted := ExtractPromptsFromWorkflow(rules, workflowData);
      if extracted.Err? {
        return Err(extracted.error);
      }
      w := extracted.value;
      if PyTruthyText(w.positive) {
        positive := w.positive;
      }
      if PyTruthyText(w.negative) {
        negative := w.negative;
      }
      if PyTruthyText(w.positive) || PyTruthyText(w.negative) {
        extractionMethod := Workflow;
      }
    }
    assert PromptsFromGraph(rules, workflowData) == Ok(w);
    var q := NoPrompts;
    if PyTruthy(promptData) {
      var extracted := ExtractPromptsFromWorkflow(rules, promptData);
      if extracted.Err? {
        return Err(extracted.error);
      }
      q := extracted.value;
      if !PyTruthyText(positive) && PyTruthyText(q.positive) {
        positive := q.positive;
        extractionMethod := if extractionMethod == Unknown then Prompt else Mixed;
      }
      if !PyTruthyText(negative) && PyTruthyText(q.negative) {
        negative := q.negative;
        extractionMethod := if extractionMethod == Unknown then Prompt else Mixed;
      }
      var params := ExtractGenerationParameters(promptData);
      if params.Err? {
        return Err(params.error);
      }
      parameters := params.value;
    }
    assert PromptsFromGraph(rules, promptData) == Ok(q);
    r := Ok(Structured(positive, negative, parameters, extractionMethod));
    assert r == Ok(Merge(w, q, parameters));
  }

  /** The label is "unknown" exactly when no prompt was found. */
  lemma UnknownIffNothingFound(rules: Ruleset, promptData: Value, workflowData: Value)
    requires StructuredSpec(rules, promptData, workflowData).Ok?
    ensures var s := StructuredSpec(rules, promptData, workflowData).value;
            s.extractionMethod == Unknown <==> s.positive.None? && s.negative.None?
  {
  }

  /** Found prompts are never empty, and a prompt found in the workflow graph is kept. */
  lemma WorkflowPromptsWin(rules: Ruleset, promptData: Value, workflowData: Value)
    requires StructuredSpec(rules, promptData, workflowData).Ok?
    requires PromptsFromGraph(rules, workflowData).Ok?
    ensures var s := StructuredSpec(rules, promptData, workflowData).value;
            var w := PromptsFromGraph(rules, workflowData).value;
            (s.positive.Some? ==> s.positive.value != "") && (s.negative.Some? ==> s.negative.value != "")
            && (Found(w.positive).Some? ==> s.positive == w.positive)
            && (Found(w.negative).Some? ==> s.negative == w.negative)
  {
  }

  /** "prompt" means the workflow graph gave nothing and the prompt graph gave one slot. */
  lemma PromptLabel(rules: Ruleset, promptData: Value, workflowData: Value)
    requires StructuredSpec(rules, promptData, workflowData).Ok?
    requires StructuredSpec(rules, promptData, workflowData).value.extractionMethod == Prompt
    ensures PromptsFromGraph(rules, workflowData).Ok?
    ensures Found(PromptsFromGraph(rules, workflowData).value.positive).None?
    ensures Found(PromptsFromGraph(rules, workflowData).value.negative).None?
    ensures StructuredSpec(rules, promptData, workflowData).value.positive.None?
            != StructuredSpec(rules, promptData, workflowData).value.negative.None?
  {
  }

  /** The converse: with nothing found in the workflow graph and exactly one slot found in the
      prompt graph, the label is "prompt". */
  lemma OnePromptSlotIsPrompt(rules: Ruleset, promptData: Value, workflowData: Value)
    requires StructuredSpec(rules, promptData, workflowData).Ok?
    requires PromptsFromGraph(rules, workflowData).Ok? && PromptsFromGraph(rules, promptData).Ok?
    requires Found(PromptsFromGraph(rules, workflowData).value.positive).None?
    requires Found(PromptsFromGraph(rules, workflowData).value.negative).None?
    requires Found(PromptsFromGraph(rules, promptData).value.positive).None?
             != Found(PromptsFromGraph(rules, promptData).value.negative).None?
    ensures StructuredSpec(rules, promptData, workflowData).value.extractionMethod == Prompt
  {
  }

  /** A slot filled from the workflow graph makes the label "workflow", or "mixed" when the
      prompt graph filled the other slot. */
  lemma WorkflowLabel(rules: Ruleset, promptData: Value, workflowData: Value)
    requires StructuredSpec(rules, promptData, workflowData).Ok? && PromptsFromGraph(rules, workflowData).Ok?
    requires Found(PromptsFromGraph(rules, workflowData).value.positive).Some?
             || Found(PromptsFromGraph(rules, workflowData).value.negative).Some?
    ensures StructuredSpec(rules, promptData, workflowData).value.extractionMethod in {Workflow, Mixed}
  {
  }

  /** Both prompts taken from the prompt graph are labelled "mixed", not "prompt": the second
      fill sees the label the first one set. */
  lemma BothFromPromptIsMixed(rules: Ruleset, promptData: Value, workflowData: Value)
    requires StructuredSpec(rules, promptData, workflowData).Ok?
    requires PromptsFromGraph(rules, workflowData).Ok? && PromptsFromGraph(rules, promptData).Ok?
    requires Found(PromptsFromGraph(rules, workflowData).value.positive).None?
    requires Found(PromptsFromGraph(rules, workflowData).value.negative).None?
    requires Found(PromptsFromGraph(rules, promptData).value.positive).Some?
    requires Found(PromptsFromGraph(rules, promptData).value.negative).Some?
    ensures StructuredSpec(rules, promptData, workflowData).value.extractionMethod == Mixed
  {
  }

  /** Parameters are read only from the prompt graph. */
  lemma ParametersFromPromptOnly(rules: Ruleset, promptData: Value, workflowData: Value)
    requires StructuredSpec(rules, promptData, workflowData).Ok?
    ensures !PyTruthy(promptData) ==> StructuredSpec(rules, promptData, workflowData).value.parameters == []
    ensures PyTruthy(promptData) ==>
            GenerationParameters(promptData) == Ok(StructuredSpec(rules, promptData, workflowData).value.parameters)
  {
  }

  /** Title nodes as an editor saves them: a node titled `title` whose only widget value is `text`. */
  function TitledNode(title: string, text: string): Value {
    Obj([("title", Str(title)), ("widgets_values", Arr([Str(text)]))])
  }

  lemma PromptWordLowered()
    ensures Lower(" Prompt") == " prompt"
  {
  }

  lemma PositivePromptLowered()
    ensures Lower("Positive Prompt") == "positive prompt"
  {
    assert "Positive Prompt" == "Positive" + " Prompt";
    assert Lower("Positive") == "positive";
    PromptWordLowered();
    LowerAppend("Positive", " Prompt");
  }

  lemma NegativePromptLowered()
    ensures Lower("Negative Prompt") == "negative prompt"
  {
    assert "Negative Prompt" == "Negative" + " Prompt";
    assert Lower("Negative") == "negative";
    PromptWordLowered();
    LowerAppend("Negative", " Prompt");
  }

  lemma PositiveTitleNames()
    ensures TitleNames("positive prompt", "positive")
  {
    assert StartsWith("positive prompt", "positive");
    assert OccursAt("positive prompt", "prompt", 9);
    ContainsAt("positive prompt", "prompt");
  }

  lemma NegativeTitleNames()
    ensures TitleNames("negative prompt", "negative")
  {
    assert StartsWith("negative prompt", "negative");
    assert OccursAt("negative prompt", "prompt", 9);
    ContainsAt("negative prompt", "prompt");
  }

  /** "negative prompt" has no 's', which "positive" needs. */
  lemma NegativeTitleLacksPositive()
    ensures !Contains("negative prompt", "positive")
  {
    assert CharFree("negative prompt", 's');
    AbsentCharNotContained("negative prompt", "positive", 2);
  }

  /** Such a node's lower-cased title and its widget list. */
  lemma TitledNodeFields(title: string, text: string)
    ensures TitleOf(TitledNode(title, text).fields) == Some(Lower(title))
    ensures WidgetsOf(TitledNode(title, text).fields) == Arr([Str(text)])
  {
    var f := TitledNode(title, text).fields;
    assert f[0].0 == "title" && f[0].0 != "widgets_values";
    assert f[1..] == [("widgets_values", Arr([Str(text)]))];
    assert Lookup(f[1..], "widgets_values") == Some(Arr([Str(text)]));
  }

  lemma PositiveNodeTitled(text: string)
    ensures PositiveTitled(TitledNode("Positive Prompt", text).fields)
  {
    TitledNodeFields("Positive Prompt", text);
    PositivePromptLowered();
    PositiveTitleNames();
  }

  lemma NegativeNodeTitled(text: string)
    ensures NegativeTitled(TitledNode("Negative Prompt", text).fields)
  {
    TitledNodeFields("Negative Prompt", text);
    NegativePromptLowered();
    NegativeTitleNames();
    NegativeTitleLacksPositive();
  }

  lemma PositiveNodeStep(positive: string)
    requires positive != ""
    ensures NodeStep(DefaultRules, NoPrompts, TitledNode("Positive Prompt", positive))
            == Ok(Prompts(Some(positive), None))
  {
    var node := TitledNode("Positive Prompt", positive);
    PositiveNodeTitled(positive);
    TitledNodeFields("Positive Prompt", positive);
    assert PyIndex0(WidgetsOf(node.fields)) == Ok(Str(positive));
  }

  lemma NegativeNodeStep(positive: string, negative: string)
    requires negative != ""
    ensures NodeStep(DefaultRules, Prompts(Some(positive), None), TitledNode("Negative Prompt", negative))
            == Ok(Prompts(Some(positive), Some(negative)))
  {
    var node := TitledNode("Negative Prompt", negative);
    NegativeNodeTitled(negative);
    TitledNodeFields("Negative Prompt", negative);
    assert PyIndex0(WidgetsOf(node.fields)) == Ok(Str(negative));
  }

  lemma TitledNodesFold(positive: string, negative: string)
    requires positive != "" && negative != ""
    ensures FoldNodes(DefaultRules, NoPrompts, [TitledNode("Positive Prompt", positive),
                                                TitledNode("Negative Prompt", negative)])
            == Ok(Prompts(Some(positive), Some(negative)))
  {
    var pos, neg := TitledNode("Positive Prompt", positive), TitledNode("Negative Prompt", negative);
    var nodes := [pos, neg];
    PositiveNodeStep(positive);
    NegativeNodeStep(positive, negative);
    assert nodes[..1] == [pos] && [pos][..0] == [];
    assert FoldNodes(DefaultRules, NoPrompts, [pos]) == Ok(Prompts(Some(positive), None));
  }

  /** A worked example of the provenance label: a workflow node array with one node titled "Positive
      Prompt" and one titled "Negative Prompt" gives both prompts, labelled "workflow", whatever
      non-empty texts they hold, when there is no prompt graph. */
  lemma TitledNodesGiveWorkflowPrompts(promptData: Value, positive: string, negative: string)
    requires !PyTruthy(promptData) && positive != "" && negative != ""
    ensures StructuredSpec(DefaultRules, promptData,
                           Obj([("nodes", Arr([TitledNode("Positive Prompt", positive),
                                               TitledNode("Negative Prompt", negative)]))]))
            == Ok(Structured(Some(positive), Some(negative), [], Workflow))
  {
    var nodes := [TitledNode("Positive Prompt", positive), TitledNode("Negative Prompt", negative)];
    var workflow := Obj([("nodes", Arr(nodes))]);
    assert Lookup(workflow.fields, "nodes") == Some(Arr(nodes));
    TitledNodesFold(positive, negative);
    assert PromptsFromGraph(DefaultRules, workflow) == Ok(Prompts(Some(positive), Some(negative)));
  }

  /** A prompt graph whose only node is the CLIP text node "2" holding `text`. */
  function SingleTextGraph(text: string): Value {
    Obj([("2", Obj([("inputs", Obj([("text", Str(text))]))]))])
  }

  lemma SingleTextGraphPrompts(text: string)
    ensures PromptsFromGraph(DefaultRules, SingleTextGraph(text)) == Ok(Prompts(Some(text), None))
  {
    var data := SingleTextGraph(text);
    var node := data.fields[0].1;
    var inputs := NodeInputs(node.fields);
    assert Lookup(data.fields, "nodes") == None;
    assert inputs == Obj([("text", Str(text))]);
    assert Lookup(inputs.fields, "text") == Some(Str(text));
    assert "2" in DefaultRules.positiveIds;
    assert data.fields[..0] == [];
    assert BasicStep(DefaultRules, NoPrompts, "2", node) == Ok(Prompts(Some(text), None));
    assert FoldBasic(DefaultRules, NoPrompts, data.fields) == Ok(Prompts(Some(text), None));
    assert PyTruthy(data) && !HasKey(data.fields, "nodes");
  }

  lemma SingleTextGraphParameters(text: string)
    ensures GenerationParameters(SingleTextGraph(text)) == Ok([])
  {
    var data := SingleTextGraph(text);
    var node := data.fields[0].1;
    assert Lookup(node.fields, "class_type") == None;
    assert data.fields[..0] == [];
    assert FoldParams([], data.fields) == Ok([]);
  }

  /** A worked example of the "prompt" label: a prompt graph holding only node "2" with a
      non-empty text, and no workflow graph, gives that text as the positive prompt, no negative
      prompt, no parameters and the label "prompt". */
  lemma SingleTextNodeIsPrompt(text: string, workflowData: Value)
    requires text != "" && !PyTruthy(workflowData)
    ensures StructuredSpec(DefaultRules, SingleTextGraph(text), workflowData)
            == Ok(Structured(Some(text), None, [], Prompt))
  {
    SingleTextGraphPrompts(text);
    SingleTextGraphParameters(text);
  }
}
