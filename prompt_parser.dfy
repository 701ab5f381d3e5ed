/** `ComfyUIPromptParser` of metadata_extractor.py: recovering the positive and negative
    prompt from a provenance graph, which comes in two shapes. The node-array shape
    `{"nodes": [...]}` is read by node title, then by node type and the keyword heuristics;
    the flat-map shape `{id: {"inputs": ..., "class_type": ...}}` is read by configured ids. */
module PromptParser {
  import opened Wrappers
  import opened Text
  import opened Values
  import opened PromptConfig
  import opened PromptClassifier

  /** The `{"positive": ..., "negative": ...}` dict the parser fills; None is "not found yet". */
  datatype Prompts = Prompts(positive: Option<string>, negative: Option<string>)

  const NoPrompts := Prompts(None, None)

  /** A lower-cased title names a prompt of the given polarity. */
  predicate TitleNames(title: string, polarity: string) {
    Contains(title, polarity) && Contains(title, "prompt")
  }

  // ---------------------------------------------------------------- node-array shape

  /** The lower-cased title of a node dict, or None when `title` is not a string
      (`node.get("title", "").lower()` then raises AttributeError). */
  function TitleOf(fields: seq<(string, Value)>): Option<string> {
    var t := GetOr(fields, "title", Str(""));
    if t.Str? then Some(Lower(t.s)) else None
  }

  /** `node.get("widgets_values", [])`. */
  function WidgetsOf(fields: seq<(string, Value)>): Value {
    GetOr(fields, "widgets_values", Arr([]))
  }

  /** The node's `type` is one of the configured prompt node types. */
  predicate IsPromptNodeType(rules: Ruleset, fields: seq<(string, Value)>) {
    var t := GetOr(fields, "type", Str(""));
    t.Str? && t.s in rules.promptNodeTypes
  }

  /** The title names a positive prompt; this rule is tried first. */
  predicate PositiveTitled(fields: seq<(string, Value)>) {
    TitleOf(fields).Some? && TitleNames(TitleOf(fields).value, "positive")
  }

  /** The title names a negative prompt and not a positive one. */
  predicate NegativeTitled(fields: seq<(string, Value)>) {
    TitleOf(fields).Some? && !TitleNames(TitleOf(fields).value, "positive")
    && TitleNames(TitleOf(fields).value, "negative")
  }

  /** The title is a string naming neither a positive nor a negative prompt. */
  predicate Untitled(fields: seq<(string, Value)>) {
    TitleOf(fields).Some? && !TitleNames(TitleOf(fields).value, "positive")
    && !TitleNames(TitleOf(fields).value, "negative")
  }

  /** What a title rule stores: `str(widgets_values[0]) if widgets_values[0] else None`. */
  function TitledValue(w0: Value): Option<string> {
    if PyTruthy(w0) then Some(PyStr(w0)) else None
  }

  /** What the heuristics classify: `str(widgets_values[0]) if widgets_values[0] else ""`. */
  function HeuristicText(w0: Value): string {
    if PyTruthy(w0) then PyStr(w0) else ""
  }

  /** One iteration of `_extract_from_nodes_array`'s loop. */
  function NodeStep(rules: Ruleset, acc: Prompts, node: Value): (r: Outcome<Prompts>)
    ensures !node.Obj? ==> r == Ok(acc)
    ensures node.Obj? && TitleOf(node.fields).None? ==> r == Err(AttributeError)
    ensures r.Ok? && acc.positive.Some? ==> r.value.positive == acc.positive
    ensures r.Ok? && acc.negative.Some? ==> r.value.negative == acc.negative
    ensures r.Ok? ==> r.value.positive == acc.positive || r.value.negative == acc.negative
    // the positive title rule: it fills an empty positive slot from a non-empty widget list,
    // with None when the first value is falsy, and otherwise changes nothing
    ensures node.Obj? && PositiveTitled(node.fields) && !(PyTruthy(WidgetsOf(node.fields)) && acc.positive.None?)
            ==> r == Ok(acc)
    ensures node.Obj? && PositiveTitled(node.fields) && PyTruthy(WidgetsOf(node.fields)) && acc.positive.None?
            && PyIndex0(WidgetsOf(node.fields)).Ok?
            ==> r == Ok(acc.(positive := TitledValue(PyIndex0(WidgetsOf(node.fields)).value)))
    // the negative title rule, its twin
    ensures node.Obj? && NegativeTitled(node.fields) && !(PyTruthy(WidgetsOf(node.fields)) && acc.negative.None?)
            ==> r == Ok(acc)
    ensures node.Obj? && NegativeTitled(node.fields) && PyTruthy(WidgetsOf(node.fields)) && acc.negative.None?
            && PyIndex0(WidgetsOf(node.fields)).Ok?
            ==> r == Ok(acc.(negative := TitledValue(PyIndex0(WidgetsOf(node.fields)).value)))
    // an untitled node is read by the heuristics only when its type is a prompt node type
    ensures node.Obj? && Untitled(node.fields) && !(IsPromptNodeType(rules, node.fields) && PyTruthy(WidgetsOf(node.fields)))
            ==> r == Ok(acc)
    // the heuristics: positive is tried first, negative only when that fails
    ensures node.Obj? && Untitled(node.fields) && IsPromptNodeType(rules, node.fields) && PyTruthy(WidgetsOf(node.fields))
            && PyIndex0(WidgetsOf(node.fields)).Ok?
            && acc.positive.None? && IsPositivePrompt(rules, HeuristicText(PyIndex0(WidgetsOf(node.fields)).value))
            ==> r == Ok(acc.(positive := Some(HeuristicText(PyIndex0(WidgetsOf(node.fields)).value))))
    ensures node.Obj? && Untitled(node.fields) && IsPromptNodeType(rules, node.fields) && PyTruthy(WidgetsOf(node.fields))
            && PyIndex0(WidgetsOf(node.fields)).Ok?
            && !(acc.positive.None? && IsPositivePrompt(rules, HeuristicText(PyIndex0(WidgetsOf(node.fields)).value)))
            && acc.negative.None? && IsNegativePrompt(rules, HeuristicText(PyIndex0(WidgetsOf(node.fields)).value))
            ==> r == Ok(acc.(negative := Some(HeuristicText(PyIndex0(WidgetsOf(node.fields)).value))))
    ensures node.Obj? && Untitled(node.fields) && IsPromptNodeType(rules, node.fields) && PyTruthy(WidgetsOf(node.fields))
            && PyIndex0(WidgetsOf(node.fields)).Ok?
            && !(acc.positive.None? && IsPositivePrompt(rules, HeuristicText(PyIndex0(WidgetsOf(node.fields)).value)))
            && !(acc.negative.None? && IsNegativePrompt(rules, HeuristicText(PyIndex0(WidgetsOf(node.fields)).value)))
            ==> r == Ok(acc)
    // the first widget value that cannot be read raises
    ensures node.Obj? && PyTruthy(WidgetsOf(node.fields)) && PyIndex0(WidgetsOf(node.fields)).Err?
            && ((PositiveTitled(node.fields) && acc.positive.None?) || (NegativeTitled(node.fields) && acc.negative.None?)
                || (Untitled(node.fields) && IsPromptNodeType(rules, node.fields)))
            ==> r == Err(PyIndex0(WidgetsOf(node.fields)).error)
  {
    if !node.Obj? then Ok(acc)
    else
      var title := TitleOf(node.fields);
      var widgets := WidgetsOf(node.fields);
      if title.None? then Err(AttributeError)
      else if TitleNames(title.value, "positive") then
        if PyTruthy(widgets) && acc.positive.None? then
          match PyIndex0(widgets)
          case Err(e) => Err(e)
          case Ok(w0) => Ok(acc.(positive := TitledValue(w0)))
        else Ok(acc)
      else if TitleNames(title.value, "negative") then
        if PyTruthy(widgets) && acc.negative.None? then
          match PyIndex0(widgets)
          case Err(e) => Err(e)
          case Ok(w0) => Ok(acc.(negative := TitledValue(w0)))
        else Ok(acc)
      else if IsPromptNodeType(rules, node.fields) then
        if PyTruthy(widgets) then
          match PyIndex0(widgets)
          case Err(e) => Err(e)
          case Ok(w0) =>
            var text := HeuristicText(w0);
            if acc.positive.None? && IsPositivePrompt(rules, text) then Ok(acc.(positive := Some(text)))
            else if acc.negative.None? && IsNegativePrompt(rules, text) then Ok(acc.(negative := Some(text)))
            else Ok(acc)
        else Ok(acc)
      else Ok(acc)
  }

  /** `_extract_from_nodes_array` from the partial result `acc`: the steps in order, stopping at
      the first exception. */
  function FoldNodes(rules: Ruleset, acc: Prompts, nodes: seq<Value>): Outcome<Prompts>
  {
    if |nodes| == 0 then Ok(acc)
    else
      match FoldNodes(rules, acc, nodes[..|nodes| - 1])
      case Err(e) => Err(e)
      case Ok(a) => NodeStep(rules, a, nodes[|nodes| - 1])
  }

  /** `_extract_from_nodes_array(nodes)`. */
  method ExtractFromNodesArray(rules: Ruleset, nodes: seq<Value>) returns (r: Outcome<Prompts>)
    ensures r == FoldNodes(rules, NoPrompts, nodes)
  {
    var result := NoPrompts;
    var i := 0;
    while i < |nodes|
      invariant 0 <= i <= |nodes|
      invariant FoldNodes(rules, NoPrompts, nodes[..i]) == Ok(result)
    {
      assert nodes[..i + 1][..i] == nodes[..i];
      var step := NodeStep(rules, result, nodes[i]);
      if step.Err? {
        FoldNodesErrPersists(rules, NoPrompts, nodes, i + 1);
        return step;
      }
      result := step.value;
      i := i + 1;
    }
    assert nodes[..i] == nodes;
    return Ok(result);
  }

  /** An exception raised by a node ends the loop: later nodes are never looked at. */
  lemma {:induction false} FoldNodesErrPersists(rules: Ruleset, acc: Prompts, nodes: seq<Value>, j: nat)
    requires j <= |nodes| && FoldNodes(rules, acc, nodes[..j]).Err?
    ensures FoldNodes(rules, acc, nodes) == FoldNodes(rules, acc, nodes[..j])
  {
    if j < |nodes| {
      assert nodes[..|nodes| - 1][..j] == nodes[..j];
      FoldNodesErrPersists(rules, acc, nodes[..|nodes| - 1], j);
    } else {
      assert nodes[..j] == nodes;
    }
  }

  /** Folding over a concatenation folds over the second part from the first part's result. */
  lemma {:induction false} FoldNodesAppend(rules: Ruleset, acc: Prompts, a: seq<Value>, b: seq<Value>)
    ensures FoldNodes(rules, acc, a + b) ==
            match FoldNodes(rules, acc, a)
            case Err(e) => Err(e)
            case Ok(mid) => FoldNodes(rules, mid, b)
    decreases |b|
  {
    if |b| == 0 {
      assert a + b == a;
    } else {
      assert (a + b)[..|a + b| - 1] == a + b[..|b| - 1];
      FoldNodesAppend(rules, acc, a, b[..|b| - 1]);
    }
  }

  /** First match wins: once a slot is filled, no later node replaces it. */
  lemma {:induction false} FoldNodesKeepsFilled(rules: Ruleset, acc: Prompts, nodes: seq<Value>)
    ensures FoldNodes(rules, acc, nodes).Ok? && acc.positive.Some? ==>
            FoldNodes(rules, acc, nodes).value.positive == acc.positive
    ensures FoldNodes(rules, acc, nodes).Ok? && acc.negative.Some? ==>
            FoldNodes(rules, acc, nodes).value.negative == acc.negative
  {
    if |nodes| > 0 {
      FoldNodesKeepsFilled(rules, acc, nodes[..|nodes| - 1]);
    }
  }

  /** The walk up to node `i` and past it: node `i` is stepped from the result of the nodes
      before it, and the rest of the walk continues from there. */
  lemma FoldNodesAt(rules: Ruleset, nodes: seq<Value>, i: nat)
    requires i < |nodes| && FoldNodes(rules, NoPrompts, nodes[..i]).Ok?
    ensures FoldNodes(rules, NoPrompts, nodes[..i + 1])
            == NodeStep(rules, FoldNodes(rules, NoPrompts, nodes[..i]).value, nodes[i])
    ensures FoldNodes(rules, NoPrompts, nodes[..i + 1]).Ok? ==>
            FoldNodes(rules, NoPrompts, nodes) == FoldNodes(rules, FoldNodes(rules, NoPrompts, nodes[..i + 1]).value, nodes[i + 1..])
  {
    assert nodes[..i + 1][..i] == nodes[..i];
    assert nodes == nodes[..i + 1] + nodes[i + 1..];
    FoldNodesAppend(rules, NoPrompts, nodes[..i + 1], nodes[i + 1..]);
  }

  /** The first node titled as a positive prompt, met while the positive slot is still empty and
      holding a non-empty first widget value, decides the positive prompt. */
  lemma FirstTitledPositiveWins(rules: Ruleset, nodes: seq<Value>, i: nat)
    requires i < |nodes| && nodes[i].Obj? && PositiveTitled(nodes[i].fields)
    requires WidgetsOf(nodes[i].fields).Arr? && |WidgetsOf(nodes[i].fields).items| > 0
    requires PyTruthy(WidgetsOf(nodes[i].fields).items[0])
    requires FoldNodes(rules, NoPrompts, nodes[..i]).Ok?
    requires FoldNodes(rules, NoPrompts, nodes[..i]).value.positive.None?
    ensures FoldNodes(rules, NoPrompts, nodes).Ok? ==>
            FoldNodes(rules, NoPrompts, nodes).value.positive == Some(PyStr(WidgetsOf(nodes[i].fields).items[0]))
  {
    FoldNodesAt(rules, nodes, i);
    var step := FoldNodes(rules, NoPrompts, nodes[..i + 1]);
    if step.Ok? {
      FoldNodesKeepsFilled(rules, step.value, nodes[i + 1..]);
    }
  }

  /** Its twin: the first node titled as a negative prompt (and not a positive one), met while
      the negative slot is still empty and holding a non-empty first widget value, decides the
      negative prompt. */
  lemma FirstTitledNegativeWins(rules: Ruleset, nodes: seq<Value>, i: nat)
    requires i < |nodes| && nodes[i].Obj? && NegativeTitled(nodes[i].fields)
    requires WidgetsOf(nodes[i].fields).Arr? && |WidgetsOf(nodes[i].fields).items| > 0
    requires PyTruthy(WidgetsOf(nodes[i].fields).items[0])
    requires FoldNodes(rules, NoPrompts, nodes[..i]).Ok?
    requires FoldNodes(rules, NoPrompts, nodes[..i]).value.negative.None?
    ensures FoldNodes(rules, NoPrompts, nodes).Ok? ==>
            FoldNodes(rules, NoPrompts, nodes).value.negative == Some(PyStr(WidgetsOf(nodes[i].fields).items[0]))
  {
    FoldNodesAt(rules, nodes, i);
    var step := FoldNodes(rules, NoPrompts, nodes[..i + 1]);
    if step.Ok? {
      FoldNodesKeepsFilled(rules, step.value, nodes[i + 1..]);
    }
  }

  /** An untitled prompt node whose text the positive classifier accepts, met while the positive
      slot is still empty, decides the positive prompt. */
  lemma FirstClassifiedPositiveWins(rules: Ruleset, nodes: seq<Value>, i: nat)
    requires i < |nodes| && nodes[i].Obj? && Untitled(nodes[i].fields) && IsPromptNodeType(rules, nodes[i].fields)
    requires WidgetsOf(nodes[i].fields).Arr? && |WidgetsOf(nodes[i].fields).items| > 0
    requires FoldNodes(rules, NoPrompts, nodes[..i]).Ok?
    requires FoldNodes(rules, NoPrompts, nodes[..i]).value.positive.None?
    requires IsPositivePrompt(rules, HeuristicText(WidgetsOf(nodes[i].fields).items[0]))
    ensures FoldNodes(rules, NoPrompts, nodes).Ok? ==>
            FoldNodes(rules, NoPrompts, nodes).value.positive == Some(HeuristicText(WidgetsOf(nodes[i].fields).items[0]))
  {
    FoldNodesAt(rules, nodes, i);
    var step := FoldNodes(rules, NoPrompts, nodes[..i + 1]);
    FoldNodesKeepsFilled(rules, step.value, nodes[i + 1..]);
  }

  /** An untitled prompt node whose text the positive test does not take (or meets a filled
      positive slot) and the negative classifier accepts, met while the negative slot is still
      empty, decides the negative prompt. */
  lemma FirstClassifiedNegativeWins(rules: Ruleset, nodes: seq<Value>, i: nat)
    requires i < |nodes| && nodes[i].Obj? && Untitled(nodes[i].fields) && IsPromptNodeType(rules, nodes[i].fields)
    requires WidgetsOf(nodes[i].fields).Arr? && |WidgetsOf(nodes[i].fields).items| > 0
    requires FoldNodes(rules, NoPrompts, nodes[..i]).Ok?
    requires FoldNodes(rules, NoPrompts, nodes[..i]).value.negative.None?
    requires !(FoldNodes(rules, NoPrompts, nodes[..i]).value.positive.None?
               && IsPositivePrompt(rules, HeuristicText(WidgetsOf(nodes[i].fields).items[0])))
    requires IsNegativePrompt(rules, HeuristicText(WidgetsOf(nodes[i].fields).items[0]))
    ensures FoldNodes(rules, NoPrompts, nodes[..i + 1])
            == Ok(FoldNodes(rules, NoPrompts, nodes[..i]).value.(negative := Some(HeuristicText(WidgetsOf(nodes[i].fields).items[0]))))
    ensures FoldNodes(rules, NoPrompts, nodes).Ok? ==>
            FoldNodes(rules, NoPrompts, nodes).value.negative == Some(HeuristicText(WidgetsOf(nodes[i].fields).items[0]))
  {
    FoldNodesAt(rules, nodes, i);
    var step := FoldNodes(rules, NoPrompts, nodes[..i + 1]);
    FoldNodesKeepsFilled(rules, step.value, nodes[i + 1..]);
  }

  /** The classifier at work in the walk: an untitled prompt node whose text holds a strong
      negative phrase, met while the negative slot is empty, fills the negative slot, leaves the
      positive one as it was, and decides the negative prompt. */
  lemma StrongNegativeNodeFillsNegative(rules: Ruleset, nodes: seq<Value>, i: nat, text: string)
    requires i < |nodes| && nodes[i].Obj? && Untitled(nodes[i].fields) && IsPromptNodeType(rules, nodes[i].fields)
    requires WidgetsOf(nodes[i].fields).Arr? && |WidgetsOf(nodes[i].fields).items| > 0
    requires WidgetsOf(nodes[i].fields).items[0] == Str(text)
    requires text != "" && ContainsAny(Lower(text), StrongNegativeIndicators)
    requires FoldNodes(rules, NoPrompts, nodes[..i]).Ok?
    requires FoldNodes(rules, NoPrompts, nodes[..i]).value.negative.None?
    ensures FoldNodes(rules, NoPrompts, nodes[..i + 1])
            == Ok(FoldNodes(rules, NoPrompts, nodes[..i]).value.(negative := Some(text)))
    ensures FoldNodes(rules, NoPrompts, nodes).Ok? ==> FoldNodes(rules, NoPrompts, nodes).value.negative == Some(text)
  {
    assert HeuristicText(WidgetsOf(nodes[i].fields).items[0]) == text;
    StrongNegativeDecides(rules, text);
    FirstClassifiedNegativeWins(rules, nodes, i);
  }

  // ---------------------------------------------------------------- flat-map shape

  /** The inner `if "text" in inputs ...: elif "prompt" in inputs ...:` of
      `_extract_from_basic_workflow` for one slot: `inputs["text"]` is preferred, a filled slot
      is kept, and `in`/subscript on an unsuitable `inputs` raise. */
  function FillSlot(slot: Option<string>, inputs: Value): (r: Outcome<Option<string>>)
    ensures r.Ok? && slot.Some? ==> r.value == slot
    ensures inputs.Obj? && slot.None? && HasKey(inputs.fields, "text") ==>
            r == Ok(Some(PyStr(Lookup(inputs.fields, "text").value)))
    ensures inputs.Obj? && slot.None? && !HasKey(inputs.fields, "text") && HasKey(inputs.fields, "prompt") ==>
            r == Ok(Some(PyStr(Lookup(inputs.fields, "prompt").value)))
    ensures inputs.Obj? && !(slot.None? && (HasKey(inputs.fields, "text") || HasKey(inputs.fields, "prompt"))) ==>
            r == Ok(slot)
    ensures !(inputs.Obj? || inputs.Arr? || inputs.Str?) ==> r == Err(TypeError)
  {
    match PyIn("text", inputs)
    case Err(e) => Err(e)
    case Ok(hasText) =>
      if hasText && slot.None? then
        match PySubscript(inputs, "text")
        case Err(e) => Err(e)
        case Ok(v) => Ok(Some(PyStr(v)))
      else
        match PyIn("prompt", inputs)
        case Err(e) => Err(e)
        case Ok(hasPrompt) =>
          if hasPrompt && slot.None? then
            match PySubscript(inputs, "prompt")
            case Err(e) => Err(e)
            case Ok(v) => Ok(Some(PyStr(v)))
          else Ok(slot)
  }

  /** `node_data.get("inputs", {})`. */
  function NodeInputs(fields: seq<(string, Value)>): Value {
    GetOr(fields, "inputs", EmptyObj)
  }

  /** One iteration of `_extract_from_basic_workflow`'s loop: non-dict nodes are skipped, an id
      in the positive list fills the positive slot through FillSlot, and only an id in the
      negative list and not in the positive one fills the negative slot. */
  function BasicStep(rules: Ruleset, acc: Prompts, id: string, node: Value): (r: Outcome<Prompts>)
    ensures !node.Obj? ==> r == Ok(acc)
    ensures id !in rules.positiveIds && id !in rules.negativeIds ==> r == Ok(acc)
    ensures r.Ok? && id in rules.positiveIds ==> r.value.negative == acc.negative
    ensures r.Ok? && id !in rules.positiveIds ==> r.value.positive == acc.positive
    ensures r.Ok? && acc.positive.Some? ==> r.value.positive == acc.positive
    ensures r.Ok? && acc.negative.Some? ==> r.value.negative == acc.negative
    ensures node.Obj? && id in rules.positiveIds ==>
            (r.Ok? <==> FillSlot(acc.positive, NodeInputs(node.fields)).Ok?)
            && (r.Ok? ==> r.value.positive == FillSlot(acc.positive, NodeInputs(node.fields)).value)
    ensures node.Obj? && id !in rules.positiveIds && id in rules.negativeIds ==>
            (r.Ok? <==> FillSlot(acc.negative, NodeInputs(node.fields)).Ok?)
            && (r.Ok? ==> r.value.negative == FillSlot(acc.negative, NodeInputs(node.fields)).value)
  {
    if !node.Obj? then Ok(acc)
    else
      var inputs := NodeInputs(node.fields);
      if id in rules.positiveIds then
        match FillSlot(acc.positive, inputs)
        case Err(e) => Err(e)
        case Ok(p) => Ok(acc.(positive := p))
      else if id in rules.negativeIds then
        match FillSlot(acc.negative, inputs)
        case Err(e) => Err(e)
        case Ok(n) => Ok(acc.(negative := n))
      else Ok(acc)
  }

  /** `_extract_from_basic_workflow` over the items seen so far, from the partial result `acc`. */
  function FoldBasic(rules: Ruleset, acc: Prompts, items: seq<(string, Value)>): Outcome<Prompts>
  {
    if |items| == 0 then Ok(acc)
    else
      match FoldBasic(rules, acc, items[..|items| - 1])
      case Err(e) => Err(e)
      case Ok(a) => BasicStep(rules, a, items[|items| - 1].0, items[|items| - 1].1)
  }

  /** `_extract_from_basic_workflow(workflow)`. */
  method ExtractFromBasicWorkflow(rules: Ruleset, items: seq<(string, Value)>) returns (r: Outcome<Prompts>)
    ensures r == FoldBasic(rules, NoPrompts, items)
  {
    var result := NoPrompts;
    var i := 0;
    while i < |items|
      invariant 0 <= i <= |items|
      invariant FoldBasic(rules, NoPrompts, items[..i]) == Ok(result)
    {
      assert items[..i + 1][..i] == items[..i];
      var (nodeId, nodeData) := items[i];
      var step := BasicStep(rules, result, nodeId, nodeData);
      if step.Err? {
        FoldBasicErrPersists(rules, NoPrompts, items, i + 1);
        return step;
      }
      result := step.value;
      i := i + 1;
    }
    assert items[..i] == items;
    return Ok(result);
  }

  /** An exception raised by an item ends the loop. */
  lemma {:induction false} FoldBasicErrPersists(rules: Ruleset, acc: Prompts, items: seq<(string, Value)>, j: nat)
    requires j <= |items| && FoldBasic(rules, acc, items[..j]).Err?
    ensures FoldBasic(rules, acc, items) == FoldBasic(rules, acc, items[..j])
  {
    if j < |items| {
      assert items[..|items| - 1][..j] == items[..j];
      FoldBasicErrPersists(rules, acc, items[..|items| - 1], j);
    } else {
      assert items[..j] == items;
    }
  }

  /** Folding over a concatenation folds over the second part from the first part's result. */
  lemma {:induction false} FoldBasicAppend(rules: Ruleset, acc: Prompts, a: seq<(string, Value)>, b: seq<(string, Value)>)
    ensures FoldBasic(rules, acc, a + b) ==
            match FoldBasic(rules, acc, a)
            case Err(e) => Err(e)
            case Ok(mid) => FoldBasic(rules, mid, b)
    decreases |b|
  {
    if |b| == 0 {
      assert a + b == a;
    } else {
      assert (a + b)[..|a + b| - 1] == a + b[..|b| - 1];
      FoldBasicAppend(rules, acc, a, b[..|b| - 1]);
    }
  }

  /** The walk up to item `i` and past it. */
  lemma FoldBasicAt(rules: Ruleset, items: seq<(string, Value)>, i: nat)
    requires i < |items| && FoldBasic(rules, NoPrompts, items[..i]).Ok?
    ensures FoldBasic(rules, NoPrompts, items[..i + 1])
            == BasicStep(rules, FoldBasic(rules, NoPrompts, items[..i]).value, items[i].0, items[i].1)
    ensures FoldBasic(rules, NoPrompts, items[..i + 1]).Ok? ==>
            FoldBasic(rules, NoPrompts, items) == FoldBasic(rules, FoldBasic(rules, NoPrompts, items[..i + 1]).value, items[i + 1..])
  {
    assert items[..i + 1][..i] == items[..i];
    assert items == items[..i + 1] + items[i + 1..];
    FoldBasicAppend(rules, NoPrompts, items[..i + 1], items[i + 1..]);
  }

  /** The text a prompt node offers: `inputs["text"]`, else `inputs["prompt"]`. */
  function OfferedText(inputs: seq<(string, Value)>): string
    requires HasKey(inputs, "text") || HasKey(inputs, "prompt")
  {
    if HasKey(inputs, "text") then PyStr(Lookup(inputs, "text").value) else PyStr(Lookup(inputs, "prompt").value)
  }

  /** The first item with a positive id whose inputs offer a text, met while the positive slot
      is empty, decides the positive prompt. */
  lemma FirstPositiveIdWins(rules: Ruleset, items: seq<(string, Value)>, i: nat)
    requires i < |items| && items[i].0 in rules.positiveIds && items[i].1.Obj?
    requires NodeInputs(items[i].1.fields).Obj?
    requires HasKey(NodeInputs(items[i].1.fields).fields, "text") || HasKey(NodeInputs(items[i].1.fields).fields, "prompt")
    requires FoldBasic(rules, NoPrompts, items[..i]).Ok?
    requires FoldBasic(rules, NoPrompts, items[..i]).value.positive.None?
    ensures FoldBasic(rules, NoPrompts, items).Ok? ==>
            FoldBasic(rules, NoPrompts, items).value.positive == Some(OfferedText(NodeInputs(items[i].1.fields).fields))
  {
    FoldBasicAt(rules, items, i);
    var step := FoldBasic(rules, NoPrompts, items[..i + 1]);
    FoldBasicKeepsFilled(rules, step.value, items[i + 1..]);
  }

  /** Its twin: the first item with an id in the negative list and not in the positive one whose
      inputs offer a text, met while the negative slot is empty, decides the negative prompt. */
  lemma FirstNegativeIdWins(rules: Ruleset, items: seq<(string, Value)>, i: nat)
    requires i < |items| && items[i].0 !in rules.positiveIds && items[i].0 in rules.negativeIds && items[i].1.Obj?
    requires NodeInputs(items[i].1.fields).Obj?
    requires HasKey(NodeInputs(items[i].1.fields).fields, "text") || HasKey(NodeInputs(items[i].1.fields).fields, "prompt")
    requires FoldBasic(rules, NoPrompts, items[..i]).Ok?
    requires FoldBasic(rules, NoPrompts, items[..i]).value.negative.None?
    ensures FoldBasic(rules, NoPrompts, items).Ok? ==>
            FoldBasic(rules, NoPrompts, items).value.negative == Some(OfferedText(NodeInputs(items[i].1.fields).fields))
  {
    FoldBasicAt(rules, items, i);
    var step := FoldBasic(rules, NoPrompts, items[..i + 1]);
    FoldBasicKeepsFilled(rules, step.value, items[i + 1..]);
  }

  /** First match wins in the flat-map shape too. */
  lemma {:induction false} FoldBasicKeepsFilled(rules: Ruleset, acc: Prompts, items: seq<(string, Value)>)
    ensures FoldBasic(rules, acc, items).Ok? && acc.positive.Some? ==>
            FoldBasic(rules, acc, items).value.positive == acc.positive
    ensures FoldBasic(rules, acc, items).Ok? && acc.negative.Some? ==>
            FoldBasic(rules, acc, items).value.negative == acc.negative
  {
    if |items| > 0 {
      FoldBasicKeepsFilled(rules, acc, items[..|items| - 1]);
    }
  }

  /** The negative slot is filled only by ids that are negative ids and not positive ones: a map
      without such an id leaves it as it was. */
  lemma {:induction false} FoldBasicNegativeNeedsNegativeOnlyId(rules: Ruleset, acc: Prompts, items: seq<(string, Value)>)
    requires forall k :: 0 <= k < |items| ==> items[k].0 in rules.positiveIds || items[k].0 !in rules.negativeIds
    ensures FoldBasic(rules, acc, items).Ok? ==> FoldBasic(rules, acc, items).value.negative == acc.negative
  {
    if |items| > 0 {
      FoldBasicNegativeNeedsNegativeOnlyId(rules, acc, items[..|items| - 1]);
    }
  }

  /** With the shipped ids, node "7" (listed as both) can only ever fill the positive prompt. */
  lemma SevenFillsOnlyPositive(acc: Prompts, items: seq<(string, Value)>)
    requires forall k :: 0 <= k < |items| ==> items[k].0 == "7"
    ensures FoldBasic(DefaultRules, acc, items).Ok? ==>
            FoldBasic(DefaultRules, acc, items).value.negative == acc.negative
  {
    assert "7" in DefaultRules.positiveIds;
    FoldBasicNegativeNeedsNegativeOnlyId(DefaultRules, acc, items);
  }

  // ---------------------------------------------------------------- dispatch

  /** `extract_prompts_from_workflow(data)` as a value: falsy data gives no prompts; a dict whose
      "nodes" is a list is read as a node array; any other dict as a flat map; a truthy non-dict
      without "nodes" gives no prompts; `"nodes" in data` raises on numbers and booleans. */
  function PromptsFromGraph(rules: Ruleset, data: Value): (r: Outcome<Prompts>)
    ensures !PyTruthy(data) ==> r == Ok(NoPrompts)
    ensures PyTruthy(data) && data.Obj? && HasKey(data.fields, "nodes") && Lookup(data.fields, "nodes").value.Arr?
            ==> r == FoldNodes(rules, NoPrompts, Lookup(data.fields, "nodes").value.items)
    ensures PyTruthy(data) && data.Obj? && !(HasKey(data.fields, "nodes") && Lookup(data.fields, "nodes").value.Arr?)
            ==> r == FoldBasic(rules, NoPrompts, data.fields)
    ensures PyTruthy(data) && !(data.Obj? || data.Arr? || data.Str?) ==> r == Err(TypeError)
  {
    if !PyTruthy(data) then Ok(NoPrompts)
    else
      match PyIn("nodes", data)
      case Err(e) => Err(e)
      case Ok(hasNodes) =>
        if hasNodes then
          match PySubscript(data, "nodes")
          case Err(e) => Err(e)
          case Ok(nodes) =>
            if nodes.Arr? then FoldNodes(rules, NoPrompts, nodes.items)
            else if data.Obj? then FoldBasic(rules, NoPrompts, data.fields)
            else Ok(NoPrompts)
        else if data.Obj? then FoldBasic(rules, NoPrompts, data.fields)
        else Ok(NoPrompts)
  }

  /** `ComfyUIPromptParser.extract_prompts_from_workflow(data)`. */
  method ExtractPromptsFromWorkflow(rules: Ruleset, data: Value) returns (r: Outcome<Prompts>)
    ensures r == PromptsFromGraph(rules, data)
  {
    if !PyTruthy(data) {
      return Ok(NoPrompts);
    }
    var hasNodes := PyIn("nodes", data);
    if hasNodes.Err? {
      return Err(hasNodes.error);
    }
    if hasNodes.value {
      var nodes := PySubscript(data, "nodes");
      if nodes.Err? {
        return Err(nodes.error);
      }
      if nodes.value.Arr? {
        r := ExtractFromNodesArray(rules, nodes.value.items);
        return;
      }
    }
    if data.Obj? {
      r := ExtractFromBasicWorkflow(rules, data.fields);
    } else {
      r := Ok(NoPrompts);
    }
  }
}
