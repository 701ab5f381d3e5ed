# ComfyUI-Gallery decision rules in Dafny

ComfyUI-Gallery indexes the output folders of ComfyUI and shows each image with the prompts and
generation settings that produced it. This project models the deterministic core of that
pipeline and proves properties of it.

- **Folder scanner** (`folder_scanner.dfy`): `_scan_for_images` and its recursive
  `scan_directory`. It walks a directory tree and keeps the files whose lower-cased names end in an
  allowed extension. It builds each file's URL and type and files the records in a two-level map
  `folder key -> file name -> record`. The directory is an input tree: a directory whose listing
  fails is unreadable, a file whose modification time cannot be read has no stamp, and each file
  carries the outcome of its metadata extraction.
- **Prompt extraction**:
  - `prompt_parser.dfy` and `classifier.dfy` model `ComfyUIPromptParser`. It reads the positive
    and negative prompt from a provenance graph, in either shape: a node array (title rule, then
    node type with a keyword classifier) or a flat id map (configured ids).
  - `structured_prompts.dfy` models `extract_structured_prompts`, which merges the workflow graph
    and the prompt graph and labels where the prompts came from.
  - `generation_params.dfy` models `extract_generation_parameters`: sampler settings, checkpoint
    and LoRA list.
  - `file_info.dfy` models `get_size` and `buildPreviewText`.
- **Configuration** (`prompt_config.dfy`): the shipped tables of `PromptExtractionConfig`, the
  ruleset the parser derives from them, and `update_config`.
- **JSON sanitiser** (`sanitize.dfy`): `sanitize_json_data` of the server.
- **Browser formatter** (`metadata_parser.dfy`): `parseMetadata`, `formatLoRAs`,
  `parseComfyMetadata`, `parseLegacyComfyMetadata` and `extractFromWorkflow`. These turn the
  same JSON into the label/value pairs the gallery shows.
- **Shared modules**:
  - `values.dfy`: JSON values with Python's truthiness, `str`/`repr`, `in`, subscripting and
    `dict.get`.
  - `javascript.dfy`: the JavaScript side, covering truthiness, `||`, `??`, optional chaining,
    `String(x)` and `for…in` key order.
  - `text.dfy` and `wrappers.dfy`: string helpers and Option/Result.

Exceptions the source can raise (TypeError, KeyError, AttributeError, IndexError) are the `Err`
case of an `Outcome`. Each function or method stops at the first error, as the source does.
Loops become methods with invariants. Each is proved equal to a fold over the prefix it has seen,
and the folds' properties are proved as lemmas.

## Model

| member | source | states |
|---|---|---|
| FileInfo.GetSize | metadata_extractor.py:37-44 | the three units partition all sizes: " bytes" exactly below 1024, " KB" exactly in [1024, 1024²), " MB" exactly from 1024² on |
| FileInfo.Hundredths | metadata_extractor.py:42-44 | the figure is `n / unit` rounded to the nearest hundredth, ties to even, as `.2f` rounds the quotient |
| FileInfo.GetSizeKilobyteExample | metadata_extractor.py:41-42 | 1536 bytes are shown as "1.50 KB" |
| FileInfo.GetSizeLargestKilobytes | metadata_extractor.py:41-42 | one byte short of a megabyte is shown as "1024.00 KB" |
| FileInfo.KilobyteRange | metadata_extractor.py:41-42 | a kilobyte figure lies between 1.00 and 1024.00 |
| FileInfo.MegabyteAtLeastOne | metadata_extractor.py:43-44 | a megabyte figure is at least 1.00 |
| FileInfo.HundredthsMonotone | metadata_extractor.py:42-44 | the shown figure never decreases as the size grows |
| FileInfo.BuildPreviewText | metadata_extractor.py:435-449 | the text built line by line equals the preview specification: four file lines, then one line per truthy prompt, failing with the first exception |
| FileInfo.PromptLineExcerpt | metadata_extractor.py:444-447 | a non-empty prompt is shown as its first 100 characters (a prefix of at most 100) followed by "..."; a missing or falsy one adds no line |
| FileInfo.PreviewErrors | metadata_extractor.py:436-439 | a non-dict raises TypeError, a dict without "fileinfo" raises KeyError, and a preview exists only for a dict with file information |
| FileInfo.PreviewWithoutPrompts | metadata_extractor.py:436-442 | without "structured_prompts" the preview is exactly the four file lines |
| PromptParser.NodeStep | metadata_extractor.py:102-130 | one node: a non-dict is skipped; a non-string title raises AttributeError; a filled slot is never overwritten; at most one slot changes; a positive title fills an unset positive slot from a truthy widget list with `str(widgets[0])`, or None when that value is falsy, and otherwise changes nothing (positive wins when both titles match); a negative title does the same for the negative slot; an untitled node of a prompt node type with truthy widgets goes to the classifier, which tries positive first and negative only when that fails, and any other untitled node changes nothing; an unreadable first widget raises |
| PromptParser.ExtractFromNodesArray | metadata_extractor.py:98-132 | the loop's result equals the fold of NodeStep over the nodes |
| PromptParser.FoldNodesErrPersists | metadata_extractor.py:102-130 | an exception at a node ends the walk: later nodes do not change the outcome |
| PromptParser.FoldNodesAppend | metadata_extractor.py:102-130 | walking a concatenation walks the second part from the first part's result |
| PromptParser.FoldNodesKeepsFilled | metadata_extractor.py:112-130 | first match wins: a slot once filled keeps its value to the end |
| PromptParser.FirstTitledPositiveWins | metadata_extractor.py:111-113 | the first node titled as a positive prompt that is met while positive is unset, and whose first widget value is truthy, decides the positive prompt |
| PromptParser.FoldNodesAt | metadata_extractor.py:102-130 | the walk up to node i+1 is one NodeStep after the walk up to node i |
| PromptParser.FirstTitledNegativeWins | metadata_extractor.py:115-117 | the first node titled as a negative prompt (and not as a positive one) met while negative is unset, with a truthy first widget value, decides the negative prompt |
| PromptParser.FirstClassifiedPositiveWins | metadata_extractor.py:119-127 | the first untitled prompt-type node met while positive is unset whose text the classifier calls positive decides the positive prompt |
| PromptParser.FirstClassifiedNegativeWins | metadata_extractor.py:119-130 | an untitled prompt-type node met while negative is unset, whose text is not taken as positive and is called negative, decides the negative prompt |
| PromptParser.StrongNegativeNodeFillsNegative | metadata_extractor.py:119-130 | an untitled prompt-type node whose text holds a strong negative phrase, met while negative is unset, fills negative with that text and leaves positive as it was |
| PromptParser.FillSlot | metadata_extractor.py:149-159 | `inputs["text"]` is preferred to `inputs["prompt"]`, a filled slot is kept, and `in` on an unsuitable `inputs` raises TypeError |
| PromptParser.BasicStep | metadata_extractor.py:139-159 | a non-dict node and an unlisted id change nothing; a positive id fills the positive slot as FillSlot does on its inputs and never touches the negative slot; an id that is negative and not positive fills the negative slot as FillSlot does and never touches the positive slot; filled slots are kept |
| PromptParser.ExtractFromBasicWorkflow | metadata_extractor.py:135-161 | the loop's result equals the fold of BasicStep over the items |
| PromptParser.FoldBasicErrPersists | metadata_extractor.py:139-159 | an exception at an item ends the walk |
| PromptParser.FoldBasicAppend | metadata_extractor.py:139-159 | walking a concatenation of items walks the second part from the first part's result |
| PromptParser.FoldBasicAt | metadata_extractor.py:139-159 | the walk up to item i+1 is one BasicStep after the walk up to item i |
| PromptParser.FirstPositiveIdWins | metadata_extractor.py:148-152 | the first positive-id item met while positive is unset whose inputs hold "text" or "prompt" decides the positive prompt, "text" preferred |
| PromptParser.FirstNegativeIdWins | metadata_extractor.py:154-159 | the first negative-only-id item met while negative is unset whose inputs hold "text" or "prompt" decides the negative prompt, "text" preferred |
| PromptParser.FoldBasicKeepsFilled | metadata_extractor.py:148-159 | first match wins in the flat-map shape |
| PromptParser.FoldBasicNegativeNeedsNegativeOnlyId | metadata_extractor.py:148-159 | the negative slot changes only through an id that is a negative id and not a positive one |
| PromptParser.SevenFillsOnlyPositive | metadata_extractor.py:148-159 | with the shipped ids, node "7" (listed as both) never fills the negative prompt |
| PromptParser.PromptsFromGraph | metadata_extractor.py:80-95 | falsy data gives no prompts; a dict whose "nodes" is a list is read as a node array; any other dict is read as a flat map; a truthy number or boolean raises TypeError |
| PromptParser.ExtractPromptsFromWorkflow | metadata_extractor.py:80-95 | the dispatch method returns what PromptsFromGraph specifies |
| PromptClassifier.Score | metadata_extractor.py:173-179 | a keyword score never exceeds the number of keywords |
| PromptClassifier.IsPositivePrompt | metadata_extractor.py:164-207 | a positive text is non-empty and holds no strong negative phrase |
| PromptClassifier.IsNegativePrompt | metadata_extractor.py:210-246 | a negative text is non-empty, and every non-empty text holding a strong negative phrase is negative |
| PromptClassifier.ScorePositive | metadata_extractor.py:173-179 | a score is positive exactly when some keyword occurs in the text |
| PromptClassifier.StrongNegativeDecides | metadata_extractor.py:182-236 | a strong negative phrase makes a text not positive and negative, whatever the scores |
| PromptClassifier.StrongPositiveDecides | metadata_extractor.py:193-201 | without a strong negative phrase, a strong positive phrase makes a text positive |
| PromptClassifier.PositiveNeedsEvidence | metadata_extractor.py:164-207 | `_is_positive_prompt` in full, both directions: non-empty, no strong negative, and either a strong positive or some positive keyword with positive score plus length bonus above the negative score |
| PromptClassifier.NegativeNeedsEvidence | metadata_extractor.py:210-246 | `_is_negative_prompt` in full, both directions: non-empty, and either a strong negative phrase or some negative keyword with the text under 100 characters or the negative score above the positive score |
| PromptClassifier.WorstQualityIsNegative | metadata_extractor.py:182-190 | "worst quality, blurry, deformed" is negative and not positive under the shipped keywords |
| PromptClassifier.NoStrongNegativeWithoutMarkers | metadata_extractor.py:182-190 | lower-case text without the letters and letter pairs the strong negative phrases need holds none of them |
| PromptClassifier.NoNegativeKeywordWithoutMarkers | metadata_extractor.py:173-179 | such text holds no negative keyword either, so its negative score is zero |
| PromptClassifier.MasterpieceOpeningIsPositive | metadata_extractor.py:164-246 | such text opening with "masterpiece" is positive and not negative |
| PromptClassifier.MasterpieceIsPositive | metadata_extractor.py:164-246 | "masterpiece, best quality, photorealistic portrait" is positive and not negative under the shipped keywords |
| StructuredPrompts.ExtractStructuredPrompts | metadata_extractor.py:249-286 | the step-by-step merge equals the closed form: workflow prompts first, gaps filled from the prompt graph, parameters from the prompt graph, and the label by fill count |
| StructuredPrompts.Found | metadata_extractor.py:261-264 | a slot counts as found exactly when it holds a non-empty string |
| StructuredPrompts.UnknownIffNothingFound | metadata_extractor.py:255-280 | the label is "unknown" exactly when neither prompt was found |
| StructuredPrompts.WorkflowPromptsWin | metadata_extractor.py:259-280 | found prompts are non-empty, and a prompt found in the workflow graph is never replaced |
| StructuredPrompts.WorkflowLabel | metadata_extractor.py:265-280 | a slot filled from the workflow graph makes the label "workflow" or "mixed" |
| StructuredPrompts.PromptLabel | metadata_extractor.py:273-280 | "prompt" means the workflow graph gave nothing and the prompt graph filled exactly one slot |
| StructuredPrompts.OnePromptSlotIsPrompt | metadata_extractor.py:255-280 | the converse: nothing found in the workflow graph and exactly one slot found in the prompt graph give the label "prompt" |
| StructuredPrompts.BothFromPromptIsMixed | metadata_extractor.py:273-280 | both prompts filled from the prompt graph alone are labelled "mixed" |
| StructuredPrompts.ParametersFromPromptOnly | metadata_extractor.py:283-284 | parameters are those of the prompt graph, and empty when it is falsy |
| StructuredPrompts.TitledNodesFold | metadata_extractor.py:102-117 | a node titled "Positive Prompt" then one titled "Negative Prompt", each holding a non-empty text, give both texts |
| StructuredPrompts.TitledNodesGiveWorkflowPrompts | metadata_extractor.py:249-286 | such a node array as the workflow, with no prompt graph, gives both prompts, no parameters and the label "workflow" |
| StructuredPrompts.SingleTextGraphPrompts | metadata_extractor.py:135-159 | a prompt graph `{"2": {"inputs": {"text": t}}}` gives t as the positive prompt and no negative one |
| StructuredPrompts.SingleTextGraphParameters | metadata_extractor.py:289-325 | that graph holds no generation parameters |
| StructuredPrompts.SingleTextNodeIsPrompt | metadata_extractor.py:249-286 | that graph with a non-empty t and no workflow graph gives positive t, no negative prompt, no parameters and the label "prompt" |
| GenerationParams.ParamStep | metadata_extractor.py:297-322 | non-dict nodes and other class types change nothing; for the three known class types the step succeeds exactly when `inputs` is a dict |
| GenerationParams.ExtractGenerationParameters | metadata_extractor.py:289-325 | the loop's result equals the fold of ParamStep, cleaned of None values |
| GenerationParams.GenerationParameters | metadata_extractor.py:293-325 | a non-dict gives `{}`; no value in the result is None |
| GenerationParams.FoldParamsErrPersists | metadata_extractor.py:297-322 | an exception at a node ends the loop |
| GenerationParams.KSamplerKeeps | metadata_extractor.py:305-312 | a KSampler update touches only its five keys |
| GenerationParams.ParamStepKnown | metadata_extractor.py:297-322 | one step keeps the dict to the seven known keys, each once |
| GenerationParams.FoldParamsKeys | metadata_extractor.py:297-322 | the dict only ever holds the seven known keys, each once |
| GenerationParams.FoldParamsSampler | metadata_extractor.py:305-312 | each sampler setting is that of the last KSampler node |
| GenerationParams.ParamStepModel | metadata_extractor.py:313-314 | one step changes "model" only for a checkpoint loader |
| GenerationParams.ParamStepLoras | metadata_extractor.py:315-322 | one step changes "loras" only for a LoRA loader, appending its entry |
| GenerationParams.FoldParamsModel | metadata_extractor.py:313-314 | "model" is the checkpoint name of the last CheckpointLoaderSimple node |
| GenerationParams.FoldParamsLoras | metadata_extractor.py:315-322 | "loras" lists one entry per LoraLoader node in iteration order, and exists only when there is one |
| GenerationParams.DropNone | metadata_extractor.py:325 | the clean-up keeps only pairs of the input whose value is not None |
| GenerationParams.DropNoneLookup | metadata_extractor.py:325 | the clean-up hides exactly the keys that held None |
| GenerationParams.GenerationParametersSpec | metadata_extractor.py:289-325 | the result in full: only the seven keys; sampler settings from the last KSampler, model from the last checkpoint loader, LoRAs from every loader in order, None values dropped |
| PromptConfig.IdListsShareOnlySeven | prompt_config.py:22-23 | "7" is the only id that is both a positive and a negative id |
| PromptConfig.RulesFrom | metadata_extractor.py:50-77 | the getters read the indicator lists as they stand in the attributes |
| PromptConfig.DefaultAttributesGiveDefaultRules | prompt_config.py:8-39 | the shipped tables give the shipped ruleset: the seven node types, the id lists and the keyword lists |
| PromptConfig.PromptExtractionConfig.constructor | prompt_config.py:4-67 | the class starts with the shipped attributes |
| PromptConfig.PromptExtractionConfig.UpdateConfig | prompt_config.py:70-76 | the loop leaves the attributes as Updated specifies, keeps the attribute names, and warns about exactly the unknown keys in order |
| PromptConfig.UpdatedKeys | prompt_config.py:72-74 | update_config never adds or removes an attribute |
| PromptConfig.UpdatedValue | prompt_config.py:72-74 | each attribute ends with the last value given for its name, and an attribute no keyword names is unchanged |
| PromptConfig.UnknownKeysExact | prompt_config.py:73-76 | a key is warned about exactly when its upper-cased name is not an attribute and it was passed |
| PromptConfig.UnknownKeywordsChangeNothing | prompt_config.py:72-76 | keywords that name no attribute change nothing, and each is warned about |
| PromptConfig.DocumentedExampleChangesNothing | prompt_config.py:79 | the documented `update_config(min_prompt_length=5, prefer_titled_nodes=False)` changes no attribute, because both keys sit inside EXTRACTION_SETTINGS, and warns twice |
| FolderScanner.NormaliseExtension | folder_scanner.py:19-22 | a normalised extension starts with "." and is lower case |
| FolderScanner.NormaliseExtensions | folder_scanner.py:15-22 | None stands for the default extensions, and each extension is normalised in place |
| FolderScanner.NormaliseExtensionsIdempotent | folder_scanner.py:19-22 | normalising twice is normalising once |
| FolderScanner.MatchesIgnoresCase | folder_scanner.py:47-48 | matching ignores ASCII case |
| FolderScanner.LastDot | folder_scanner.py:64 | the index found is the last "." of the name |
| FolderScanner.SplitExt | folder_scanner.py:64 | the extension runs from the last "." to the end and holds no other dot; there is one exactly when some dot follows a character that is not a dot |
| FolderScanner.TypeOf | folder_scanner.py:66-76 | image, media and audio exactly for their four extensions each |
| FolderScanner.Url | folder_scanner.py:52-59 | the URL starts with "/static_gallery/" and holds no backslash; without backslashes it is the prefix, the subfolder and a slash when the subfolder is not empty, then the file name |
| FolderScanner.RecordOf | folder_scanner.py:46-87 | a file is kept exactly when it matches and has a modification time; its record has its name, URL and type; only an image carries metadata, `{}` when extraction failed |
| FolderScanner.FilesOf | folder_scanner.py:36-44 | the second loop sees exactly the files of the listing |
| FolderScanner.FilesOfAppend | folder_scanner.py:36-44 | the files are kept in listing order: filtering a concatenation is concatenating the filtered parts |
| FolderScanner.FilesOfOne | folder_scanner.py:42-44 | a single entry contributes itself when it is a file and nothing otherwise |
| FolderScanner.FilesOfAt | folder_scanner.py:36-44 | the files up to entry i+1 are the files up to entry i, then entry i when it is a file |
| FolderScanner.FolderScan.constructor | folder_scanner.py:24-26 | the scan starts with an empty folders map |
| FolderScanner.FolderScan.ScanDirectory | folder_scanner.py:28-94 | the recursive method leaves the folders map as ScanDir specifies: subfolders first, then the folder's own records when it has any |
| FolderScanner.FolderScan.CollectContent | folder_scanner.py:46-87 | the second loop builds the folder content FolderContent specifies from the files met |
| FolderScanner.FolderContentAt | folder_scanner.py:42-85 | the content after file j+1 is the content after file j, with file j's record under its name when it has one |
| FolderScanner.ScanForImages | folder_scanner.py:13-97 | the result is the scan of the root with normalised extensions, and the second result is always false |
| FolderScanner.FolderContentOk | folder_scanner.py:78-85 | every record filed is well formed for its name |
| FolderScanner.FolderContentHas | folder_scanner.py:46-87 | a name is filed exactly when some file of that name matches and has a modification time; other files of the folder do not affect it |
| FolderScanner.ScanDirWellFormed | folder_scanner.py:89-91 | scanning keeps the map well formed: no empty folder, only well-formed records |
| FolderScanner.ScanEntriesWellFormed | folder_scanner.py:36-41 | the first loop keeps the map well formed |
| FolderScanner.ScanResultWellFormed | folder_scanner.py:96-97 | what the scan returns is well formed |
| FolderScanner.RootFolder | folder_scanner.py:89-91 | a root with records is filed under the base path, with its own records |
| FolderScanner.ScanDirKeepsKeys | folder_scanner.py:28-91 | scanning a folder only adds keys to `folders_data`: what was filed before stays filed |
| FolderScanner.ScanEntriesKeepsKeys | folder_scanner.py:36-41 | the first loop, with its recursive calls, only adds keys |
| FolderScanner.SubfolderFiled | folder_scanner.py:36-41 | every subfolder the first loop descends into that is readable and holds a record is filed under base_path joined with its relative path, whatever the entries around it |
| FolderScanner.SubfolderOfDirFiled | folder_scanner.py:28-91 | scanning a readable folder files every such subfolder, so with the root lemma a folder at any depth with a record is filed |
| FolderScanner.NoSubfoldersNoRecursion | folder_scanner.py:39-41 | without include_subfolders the first loop never recurses |
| FolderScanner.RootOnlyWithoutSubfolders | folder_scanner.py:39-41 | without include_subfolders only the base path can be a key |
| FolderScanner.HiddenDirectoryIgnored | folder_scanner.py:39 | a directory whose name starts with "." is never entered: whatever it holds, the same folders are filed |
| FolderScanner.HiddenDirectoryKeepsFiles | folder_scanner.py:38-43 | the contents of a subdirectory do not change the files of the folder holding it |
| FolderScanner.DotfileTypedUnknown | folder_scanner.py:48-64 | ".png" passes the filter but has no extension, so it is typed unknown |
| FolderScanner.GifIsMedia | folder_scanner.py:64-74 | typing reads the lower-cased name: "clip.GIF" is media |
| Sanitize.SanitizeJson | server.py:28-41 | the output is JSON-safe; dicts and lists keep their size; NaN and infinities become None; finite floats, ints, strings, booleans and None are kept; other kinds become their `str()` |
| Sanitize.SanitizeKeepsSafe | server.py:28-41 | a JSON-safe value is returned unchanged |
| Sanitize.SanitizeIdempotent | server.py:28-41 | sanitising twice is sanitising once |
| Sanitize.SanitizeChildren | server.py:30-33 | each child of a dict or list is sanitised in its place, and a dict keeps each key in its position |
| MetadataParser.FormatLoRAs | web/src/metadataParser.ts:50-61 | a non-array or empty array gives "N/A", and one entry gives its own formatting |
| MetadataParser.FormatLoRAsAppend | web/src/metadataParser.ts:53-60 | the formatting of concatenated lists is the two parts joined by ", " |
| MetadataParser.ServerLoRAEntryShown | web/src/metadataParser.ts:54-57 | a LoRA entry as the server builds it is shown by name with its strengths, "N/A" for a strength that is null |
| MetadataParser.FileLines | web/src/metadataParser.ts:14-17 | the four file labels; the file name falls back to the details' name |
| MetadataParser.StructuredLines | web/src/metadataParser.ts:18-27 | the structured labels, in source order |
| MetadataParser.LegacyLines | web/src/metadataParser.ts:38-46 | the legacy labels, in source order |
| MetadataParser.ParseMetadata | web/src/metadataParser.ts:5-48 | the display is empty, or carries the structured labels, or the legacy labels, in source order |
| MetadataParser.ParseMetadataEmpty | web/src/metadataParser.ts:6 | the display is `{}` exactly when details or their metadata are missing |
| MetadataParser.ParseMetadataLabels | web/src/metadataParser.ts:5-48 | with truthy structured prompts the structured labels are shown, otherwise the legacy ones; the first value is the file name or else the details' name |
| MetadataParser.WorkflowStep | web/src/metadataParser.ts:152-162 | one node: a non-string truthy title raises TypeError; the positive test comes first; a matching node overwrites its slot; any other node changes nothing |
| MetadataParser.ExtractFromWorkflow | web/src/metadataParser.ts:145-167 | the loop's result equals the fold of WorkflowStep over the nodes, or empty strings when there is no node array |
| MetadataParser.LastPositiveWins | web/src/metadataParser.ts:158-159 | the positive prompt is that of the last node that sets it |
| MetadataParser.LastNegativeWins | web/src/metadataParser.ts:160-161 | the negative prompt is that of the last node that sets it |
| MetadataParser.PutOrdered | web/src/metadataParser.ts:67-74 | assigning a row keeps each label listed once; a new label goes last, an existing one keeps its place |
| MetadataParser.Decode | web/src/metadataParser.ts:109-110 | only a string is parsed; a parse error leaves the value as it was, a successful parse replaces it |
| MetadataParser.LoraStep | web/src/metadataParser.ts:126-127 | a non-loader key changes nothing; a loader throws exactly when its inputs are nullish, and otherwise appends its `lora_name` |
| MetadataParser.FoldLorasErrPersists | web/src/metadataParser.ts:125-129 | an exception at a key ends the loop |
| MetadataParser.FoldLorasSpec | web/src/metadataParser.ts:125-129 | the loop succeeds exactly when every loader has inputs, and then collects every loader's name in visiting order |
| MetadataParser.CollectLoras | web/src/metadataParser.ts:124-129 | the `for…in` loop's result equals the fold over the keys in JavaScript visiting order |
| MetadataParser.PromptFields | web/src/metadataParser.ts:113-131 | the prompt-graph reading succeeds exactly when every LoRA loader has inputs; LoRAs is the names joined by ", ", or "N/A" when there are none |
| MetadataParser.ReadPromptGraph | web/src/metadataParser.ts:113-131 | the assignments leave the record as PromptFields specifies |
| MetadataParser.PromptFieldsKeepsOthers | web/src/metadataParser.ts:113-131 | the prompt-graph reading writes only the legacy rows |
| MetadataParser.GraphPositivePrecedence | web/src/metadataParser.ts:115 | positive is node "2"'s text, else node "7"'s, else "" |
| MetadataParser.GraphNegativePrecedence | web/src/metadataParser.ts:116 | negative is node "3"'s text, else node "8"'s, else "" |
| MetadataParser.Fallback | web/src/metadataParser.ts:134-138 | the fallback leaves the record alone when both prompts are truthy or there is no workflow, and never touches rows other than the two prompts |
| MetadataParser.ApplyWorkflowFallback | web/src/metadataParser.ts:134-138 | the fallback block leaves the record as Fallback specifies |
| MetadataParser.FallbackRows | web/src/metadataParser.ts:134-138 | when it runs, each slot takes any non-empty workflow value, even a slot already filled, and otherwise keeps its own |
| MetadataParser.FallbackError | web/src/metadataParser.ts:134-135 | an exception in the workflow walk fails the whole parse |
| MetadataParser.LegacySpec | web/src/metadataParser.ts:104-142 | a successful legacy parse is labelled "legacy" |
| MetadataParser.ParseLegacyComfyMetadata | web/src/metadataParser.ts:104-142 | decoding, the prompt-graph block, the fallback and the label leave the record as LegacySpec specifies |
| MetadataParser.LegacyKeepsOthers | web/src/metadataParser.ts:104-142 | the legacy path writes only the legacy rows |
| MetadataParser.ParseComfyMetadata | web/src/metadataParser.ts:64-101 | the record is `{}` for falsy metadata, and otherwise the file rows followed by the structured path when structured prompts are truthy, else the legacy path |
| MetadataParser.ShownIfTruthy | web/src/metadataParser.ts:90-92 | a falsy setting is shown as "" |
| MetadataParser.ZeroSettingShownEmpty | web/src/metadataParser.ts:90 | a step count of 0 is shown as "", not "0" |
| MetadataParser.FileFieldsRows | web/src/metadataParser.ts:70-74 | each file row is the file info's field, or "" when it is missing or falsy |
| MetadataParser.ComfyFileRows | web/src/metadataParser.ts:70-100 | on either path a successful parse shows the four file rows with their "" defaults |
| MetadataParser.StructuredKeepsOthers | web/src/metadataParser.ts:77-97 | the structured path writes only its ten rows |
| MetadataParser.ParamFieldsKeepsOthers | web/src/metadataParser.ts:85-94 | the parameter block writes only its seven rows |
| MetadataParser.StructuredRows | web/src/metadataParser.ts:80-85 | prompts default to "", the method label defaults to "unknown", and without parameters no other row is written |

## Left out

- `buildMetadata` (PIL image reading, EXIF, PNG text chunks, `json.loads`) is not part of this model. Each file in the input tree carries its outcome: a metadata value, or None for a failed extraction.
- `os.listdir`, `isdir`, `isfile`, `getmtime`, `getsize` and `datetime.strftime` are I/O and clock calls. The tree stands for the listings, and a file's stamp (time and rendered date) is an input, absent when reading it fails.
- Paths are POSIX only: `os.path.join` inserts "/" unless the left side ends in one, and `relpath` equals the relative path built during the walk. Symbolic-link cycles are not modelled, since the input tree is finite.
- The order in which `folders_data` and `folder_content` list their keys is not modelled: both are Dafny maps.
- `current_files` is written but never read by the scanner, so it is left out.
- FileInfo.GetSize: the byte count that `os.path.getsize` reads is an input, so the error it raises for a file that has vanished is not modelled. Sizes of 2^53 bytes and more, where Python's float division itself rounds, are rendered from the exact quotient.
- Case mapping (`lower`, `upper`, `toLowerCase`) covers ASCII letters only.
- Python and JavaScript rendering of floats is without exponent notation. Python `repr` of strings is not escaped.
- Python and JavaScript integers are unbounded here; the scanner's timestamps are reals.
- A JSON object with a duplicate key is read at the key's first occurrence. Python's `json.loads` and the browser's `JSON.parse` both keep the last, and a Python dict never holds a key twice, so the difference only shows on inputs no parser produces.
- `JSON.parse` in the legacy browser path is a parameter function, None standing for a thrown SyntaxError.
- The fallback `PromptExtractionConfig` class used when prompt_config.py cannot be imported (metadata_extractor.py:27-33) is not modelled. The getters always read the real class.
- The warnings that `update_config` prints are returned as a list of keys; other `print` calls are left out.
- The scanner's monitor, the HTTP handlers of server.py, and the React components are not part of this model.
- MetadataParser.ParseComfyMetadata: the record's label order is tracked (Put appends new labels and PutOrdered keeps it consistent), but no lemma states the full order of labels after a whole parse.
- PromptConfig.RulesFrom: attributes of other shapes that update_config can install give no ruleset, whereas the Python getters accept some of them: a string or a dict as a keyword list (iterated character by character or key by key), a string as an id list (where `in` tests for a substring), and lists holding non-strings.
- MetadataParser.CollectLoras, ReadPromptGraph and ApplyWorkflowFallback are the blocks of `parseLegacyComfyMetadata` as separate methods, each proved against its own specification function.
